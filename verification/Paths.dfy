/** Slash-separated paths, their portable form, and the paths that sync accepts (portable-path.ts). */
module Paths {
  import opened Text

  function NotSlash(c: char): bool { c != '/' }

  /** `path.split('/')` */
  function Segments(path: string): (segments: seq<string>)
    ensures segments != [] && forall i :: 0 <= i < |segments| ==> '/' !in segments[i]
    decreases |path|
  {
    var first := TakeWhile(NotSlash, path);
    NoneTaken(path);
    if |first| == |path| then [path] else [first] + Segments(path[|first| + 1..])
  }

  /** A path is its first segment, or goes on behind it. */
  lemma FirstSegment(path: string)
    ensures var name := Segments(path)[0];
      name == path || (|name| < |path| && path == name + "/" + path[|name| + 1..])
  {
    NoneTaken(path);
  }

  lemma {:induction false} NoneTaken(path: string)
    ensures '/' !in TakeWhile(NotSlash, path)
    ensures |TakeWhile(NotSlash, path)| < |path| ==> path[|TakeWhile(NotSlash, path)|] == '/'
  {
    if path != "" && path[0] != '/' { NoneTaken(path[1..]); }
  }

  function JoinSlashes(segments: seq<string>): string {
    if segments == [] then ""
    else if |segments| == 1 then segments[0]
    else segments[0] + "/" + JoinSlashes(segments[1..])
  }

  /**
   * The portable form: Unicode normalization and lower case, of which only this is used. It works segment by
   * segment, keeps segments free of slashes, and makes no name vanish.
   */
  ghost predicate IsPortableForm(key: string -> string) {
    && key("") == ""
    && (forall a, b :: key(a + "/" + b) == key(a) + "/" + key(b))
    && (forall s :: '/' !in s ==> '/' !in key(s))
    && (forall s :: key(s) == "" ==> s == "")
  }

  // ---------- paths that sync accepts ----------

  predicate IsControl(c: char) { c as int <= 0x1F || c as int == 0x7F || c == '\\' }

  /** `getSyncPathIssue` */
  predicate HasIssue(path: string) {
    || path == "" || Units(path) > 1024
    || (exists i :: 0 <= i < |path| && IsControl(path[i]))
    || (exists i :: 0 <= i < |Segments(path)| &&
          var s := Segments(path)[i]; s == "" || s == "." || s == "..")
  }

  // ---------- joined names ----------

  lemma AllNotSlash(name: string)
    requires '/' !in name
    ensures forall i :: 0 <= i < |name| ==> NotSlash(name[i])
  {
    forall i | 0 <= i < |name| ensures NotSlash(name[i]) { assert name[i] in name; }
  }

  lemma SegmentsOne(name: string)
    requires '/' !in name
    ensures Segments(name) == [name]
  {
    AllNotSlash(name);
    TakeWhileStops(NotSlash, name, "");
    assert name + "" == name;
  }

  lemma SegmentsMore(name: string, rest: string)
    requires '/' !in name
    ensures Segments(name + "/" + rest) == [name] + Segments(rest)
  {
    AllNotSlash(name);
    var path := name + "/" + rest;
    assert path == name + ("/" + rest);
    TakeWhileStops(NotSlash, name, "/" + rest);
    assert path[|name| + 1..] == rest;
  }

  lemma {:induction false} SegmentsOfJoin(names: seq<string>)
    requires names != [] && forall i :: 0 <= i < |names| ==> '/' !in names[i]
    ensures Segments(JoinSlashes(names)) == names
  {
    if |names| == 1 {
      SegmentsOne(names[0]);
    } else {
      SegmentsOfJoin(names[1..]);
      SegmentsMore(names[0], JoinSlashes(names[1..]));
    }
  }

  lemma {:induction false} JoinLast(names: seq<string>, name: string)
    requires names != []
    ensures JoinSlashes(names + [name]) == JoinSlashes(names) + "/" + name
  {
    var all := names + [name];
    if |names| == 1 {
      assert all[1..] == [name];
      assert JoinSlashes([name]) == name;
    } else {
      assert all[1..] == names[1..] + [name];
      JoinLast(names[1..], name);
      assert names[0] + "/" + (JoinSlashes(names[1..]) + "/" + name) ==
        names[0] + "/" + JoinSlashes(names[1..]) + "/" + name;
    }
  }

  /** A name of printable ASCII that is neither empty nor a dot name. */
  predicate IsPlainName(s: string) {
    |s| >= 3 && forall i :: 0 <= i < |s| ==> s[i] != '/' && !IsControl(s[i]) && s[i] as int < 0x80
  }

  lemma {:induction false} AsciiUnits(s: string)
    requires forall i :: 0 <= i < |s| ==> s[i] as int < 0x80
    ensures Units(s) == |s|
  {
    if s != "" { AsciiUnits(s[1..]); }
  }

  lemma {:induction false} PlainNamesJoin(names: seq<string>)
    requires names != [] && forall i :: 0 <= i < |names| ==> IsPlainName(names[i])
    ensures var path := JoinSlashes(names);
      path != "" && forall i :: 0 <= i < |path| ==> !IsControl(path[i]) && path[i] as int < 0x80
  {
    if |names| > 1 { PlainNamesJoin(names[1..]); }
  }

  /** A path of plain names is acceptable unless it is too long. */
  lemma PlainNamesIssue(names: seq<string>)
    requires names != [] && forall i :: 0 <= i < |names| ==> IsPlainName(names[i])
    ensures HasIssue(JoinSlashes(names)) <==> |JoinSlashes(names)| > 1024
  {
    PlainNamesJoin(names);
    SegmentsOfJoin(names);
    AsciiUnits(JoinSlashes(names));
    hide JoinSlashes, Segments, Units;
  }

  /** A key's ancestor folders, as the loops over its slashes visit them: none for a key that begins with one. */
  predicate Above(a: string, key: string) {
    |a| < |key| && key[0] != '/' && key[|a|] == '/' && key[..|a|] == a
  }

  /** `key.indexOf('/', from)` */
  method SlashFrom(key: string, from: nat) returns (slash: int)
    requires from <= |key|
    ensures slash == -1 || from <= slash < |key|
    ensures slash == -1 ==> forall i :: from <= i < |key| ==> key[i] != '/'
    ensures slash >= 0 ==> key[slash] == '/' && forall i :: from <= i < slash ==> key[i] != '/'
  {
    slash := from;
    while slash < |key| && key[slash] != '/'
      invariant from <= slash <= |key| && forall i :: from <= i < slash ==> key[i] != '/'
    {
      slash := slash + 1;
    }
    if slash == |key| { slash := -1; }
  }
}
