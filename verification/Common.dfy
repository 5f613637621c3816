/** What several modules share. */
module Common {
  datatype Option<+T> = None | Some(value: T)

  datatype Result<+T, +E> = Ok(value: T) | Err(error: E)

  predicate Distinct<T(==)>(s: seq<T>) {
    forall i, j :: 0 <= i < j < |s| ==> s[i] != s[j]
  }

  function Flatten<T>(groups: seq<seq<T>>): seq<T> {
    if groups == [] then [] else Flatten(groups[..|groups| - 1]) + groups[|groups| - 1]
  }

  /** `Number.MAX_SAFE_INTEGER` */
  const MAX_SAFE := 9007199254740991

  /** `isSha256Hex` */
  predicate IsSha256Hex(s: string) {
    |s| == 64 && forall i :: 0 <= i < |s| ==> 'a' <= s[i] <= 'f' || '0' <= s[i] <= '9'
  }
}
