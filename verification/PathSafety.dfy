/** Where an accepted path leads (`getSyncPathIssue` in portable-path.ts): to a file below its folder, by exactly its
    names, whether backslashes separate names or not. */
module PathSafety {
  import opened Common
  import opened Text
  import opened Paths

  /** The names that lead from a top folder to where some segments lead from `at`, as file systems follow them;
      none if they leave the top folder. */
  function Follow(at: seq<string>, segments: seq<string>): Option<seq<string>>
    decreases |segments|
  {
    if segments == [] then Some(at)
    else if segments[0] == ".." then if at == [] then None else Follow(at[..|at| - 1], segments[1..])
    else if segments[0] == "." || segments[0] == "" then Follow(at, segments[1..])
    else Follow(at + [segments[0]], segments[1..])
  }

  /** The path as a system reads it that takes backslashes for slashes. */
  function Slashed(path: string): string {
    seq(|path|, i requires 0 <= i < |path| => if path[i] == '\\' then '/' else path[i])
  }

  predicate IsOrdinary(name: string) { name != "" && name != "." && name != ".." }

  lemma {:induction false} FollowsAll(at: seq<string>, segments: seq<string>)
    requires forall s :: s in segments ==> IsOrdinary(s)
    ensures Follow(at, segments) == Some(at + segments)
    decreases |segments|
  {
    if segments == [] {
      assert at + segments == at;
    } else {
      assert segments[0] in segments;
      FollowsAll(at + [segments[0]], segments[1..]);
      assert at + [segments[0]] + segments[1..] == at + segments;
    }
  }

  /** Each segment adds one name at most, and all of them one each only if all are ordinary. */
  lemma {:induction false} FollowLength(at: seq<string>, segments: seq<string>)
    requires Follow(at, segments).Some?
    ensures |Follow(at, segments).value| <= |at| + |segments|
    ensures |Follow(at, segments).value| == |at| + |segments| ==> forall s :: s in segments ==> IsOrdinary(s)
    decreases |segments|
  {
    if segments != [] {
      var next := if segments[0] == ".." then at[..|at| - 1] else if IsOrdinary(segments[0]) then at + [segments[0]]
        else at;
      FollowLength(next, segments[1..]);
      forall s | s in segments ensures s == segments[0] || s in segments[1..] {}
    }
  }

  lemma {:induction false} FollowNames(at: seq<string>, segments: seq<string>, name: string)
    requires Follow(at, segments).Some? && name in Follow(at, segments).value
    ensures name in at || name in segments
    decreases |segments|
  {
    if segments != [] {
      var next := if segments[0] == ".." then at[..|at| - 1] else if IsOrdinary(segments[0]) then at + [segments[0]]
        else at;
      FollowNames(next, segments[1..], name);
    }
  }

  /** Every character but the slashes is in a segment, and segments hold no others. */
  lemma {:induction false} SegmentChars(path: string, c: char)
    requires c != '/'
    ensures c in path <==> exists s :: s in Segments(path) && c in s
    decreases |path|
  {
    var first := TakeWhile(NotSlash, path);
    NoneTaken(path);
    if |first| == |path| {
      assert path in Segments(path);
    } else {
      var rest := path[|first| + 1..];
      SegmentChars(rest, c);
      assert path == first + ['/'] + rest;
      assert Segments(path) == [first] + Segments(rest);
      if c in rest {
        var s :| s in Segments(rest) && c in s;
        assert s in Segments(path);
      }
      if c in first { assert first in Segments(path); }
    }
  }

  lemma NoBackslash(path: string)
    requires Follow([], Segments(Slashed(path))) == Some(Segments(path))
    ensures '\\' !in path
  {
    if '\\' in path {
      SegmentChars(path, '\\');
      var s :| s in Segments(path) && '\\' in s;
      FollowNames([], Segments(Slashed(path)), s);
      SegmentChars(Slashed(path), '\\');
    }
  }

  lemma SlashedSame(path: string)
    requires '\\' !in path
    ensures Slashed(path) == path
  {
    forall i | 0 <= i < |path| ensures Slashed(path)[i] == path[i] { assert path[i] in path; }
  }

  predicate IsPrintable(path: string) { forall i :: 0 <= i < |path| ==> ' ' <= path[i] && path[i] as int != 0x7F }

  /** A path is accepted exactly if it is printable and not too long, and leads by exactly its names to something
      below the folder that it starts from, on every system. */
  lemma AcceptedExactly(path: string)
    ensures !HasIssue(path) <==>
      Units(path) <= 1024 && IsPrintable(path) && Follow([], Segments(Slashed(path))) == Some(Segments(path))
  {
    hide Follow, Segments, Slashed, Units;
    var segments := Segments(path);
    if !HasIssue(path) {
      forall i | 0 <= i < |path| ensures path[i] != '\\' && ' ' <= path[i] && path[i] as int != 0x7F {
        assert !IsControl(path[i]);
      }
      SlashedSame(path);
      FollowsAll([], segments);
      assert [] + segments == segments;
    }
    if Units(path) <= 1024 && IsPrintable(path) && Follow([], Segments(Slashed(path))) == Some(segments) {
      NoBackslash(path);
      SlashedSame(path);
      FollowLength([], segments);
      forall i | 0 <= i < |path| ensures !IsControl(path[i]) { assert path[i] in path; }
      forall i | 0 <= i < |segments| ensures IsOrdinary(segments[i]) { assert segments[i] in segments; }
      NotNothing(path);
    }
  }

  lemma NotNothing(path: string)
    ensures path == "" ==> "" in Segments(path)
  {
  }
}
