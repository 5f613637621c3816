/**
 Encrypted path names (path-tags.ts): the wire form of a path without a cache, the bounded folder cache
 that `wire` keeps, and when a call's result is the uncached form.
 */
module PathTags {
  import opened Common
  import opened Paths

  const MAX_CACHED_FOLDERS := 4096
  const TAG_LENGTH := 26

  /** The portable form of a path, and the keyed hash of a message in base32. */
  datatype Engine = Engine(key: string -> string, mac: string -> string)

  predicate IsTagChar(c: char) { 'a' <= c <= 'z' || '2' <= c <= '7' }

  ghost predicate IsEngine(e: Engine) {
    && IsPortableForm(e.key)
    && forall m :: |e.mac(m)| == TAG_LENGTH && forall i :: 0 <= i < TAG_LENGTH ==> IsTagChar(e.mac(m)[i])
  }

  predicate IsNote(name: string) { |name| >= 3 && name[|name| - 3..] == ".md" }

  /** What is signed for a name: its folder and itself, both in portable form. */
  function Message(e: Engine, parent: string, name: string): string {
    "crate-path-v1\0" + e.key(parent) + "\0" + e.key(name)
  }

  function Tag(e: Engine, parent: string, name: string): string {
    e.mac(Message(e, parent, name)) + (if IsNote(e.key(name)) then ".md" else "")
  }

  function Extend(parent: string, name: string): string {
    if parent != "" then parent + "/" + name else name
  }

  /** The path of the first segments, as the loop builds it. */
  function Plain(segments: seq<string>): string {
    if segments == [] then "" else Extend(Plain(segments[..|segments| - 1]), segments[|segments| - 1])
  }

  /** The wire form without a cache: every segment's tag covers its parent path. */
  function Uncached(e: Engine, segments: seq<string>): string {
    if segments == [] then ""
    else
      var n := |segments| - 1;
      Extend(Uncached(e, segments[..n]), Tag(e, Plain(segments[..n]), segments[n]))
  }

  // ---------- what the wire form depends on ----------

  predicate SlashFree(segments: seq<string>) {
    forall i :: 0 <= i < |segments| ==> '/' !in segments[i]
  }

  /** Segments that the cache can tell apart: none behind an empty first one. */
  predicate Anchored(segments: seq<string>) {
    |segments| <= 1 || segments[0] != ""
  }

  lemma {:induction false} PlainEmpty(segments: seq<string>)
    requires Anchored(segments) && Plain(segments) == ""
    ensures segments == [] || segments == [""]
  {
    if |segments| > 1 { PlainEmpty(segments[..|segments| - 1]); }
  }

  /** The same portable names give the same folder key and the same wire form. */
  lemma {:induction false} SameNamesSameWire(e: Engine, a: seq<string>, b: seq<string>)
    requires IsEngine(e) && |a| == |b| && forall i :: 0 <= i < |a| ==> e.key(a[i]) == e.key(b[i])
    ensures e.key(Plain(a)) == e.key(Plain(b)) && Uncached(e, a) == Uncached(e, b)
  {
    if a != [] {
      var n := |a| - 1;
      SameNamesSameWire(e, a[..n], b[..n]);
      var p, q := Plain(a[..n]), Plain(b[..n]);
      assert p == "" <==> q == "";
    }
  }

  lemma LastSlash(a: string, x: string, b: string, y: string)
    requires '/' !in x && '/' !in y && a + "/" + x == b + "/" + y
    ensures a == b && x == y
  {
    var s := a + "/" + x;
    forall i | |a| < i < |s| ensures s[i] != '/' { assert s[i] == x[i - |a| - 1] && x[i - |a| - 1] in x; }
    forall i | |b| < i < |s| ensures s[i] != '/' { assert s[i] == y[i - |b| - 1] && y[i - |b| - 1] in y; }
    assert s[|a|] == '/' && s[|b|] == '/';
    assert a == s[..|a|] && b == s[..|b|];
    assert x == s[|a| + 1..] && y == s[|b| + 1..];
  }

  lemma KeyHasSlash(e: Engine, a: seq<string>)
    requires IsEngine(e) && Anchored(a) && |a| > 1
    ensures var n := |a| - 1;
      Plain(a[..n]) != "" && e.key(Plain(a)) == e.key(Plain(a[..n])) + "/" + e.key(a[n])
  {
    var n := |a| - 1;
    if Plain(a[..n]) == "" { PlainEmpty(a[..n]); }
  }

  lemma KeyOfOne(e: Engine, a: seq<string>)
    requires IsEngine(e) && |a| == 1 && SlashFree(a)
    ensures e.key(Plain(a)) == e.key(a[0]) && '/' !in e.key(Plain(a))
  {
    assert a[..0] == [];
  }

  lemma {:induction false} PlainIsEmpty(segments: seq<string>)
    requires Plain(segments) == ""
    ensures forall i :: 0 <= i < |segments| ==> segments[i] == ""
  {
    if segments != [] { PlainIsEmpty(segments[..|segments| - 1]); }
  }

  lemma OneSideHasSlash(e: Engine, a: seq<string>, b: seq<string>)
    requires IsEngine(e) && SlashFree(a) && a != [] && b != []
    requires Plain(a[..|a| - 1]) == "" && Plain(b[..|b| - 1]) != ""
    ensures e.key(Plain(a)) != e.key(Plain(b))
  {
    var p, x := Plain(b[..|b| - 1]), b[|b| - 1];
    assert Plain(a) == a[|a| - 1] && '/' !in e.key(a[|a| - 1]);
    assert Plain(b) == p + "/" + x;
    assert (e.key(p) + "/" + e.key(x))[|e.key(p)|] == '/';
  }

  /** Of two folders of one depth with the same cache key, the parents have the same one too, and so have the last
      names. */
  lemma LastKeysSame(e: Engine, a: seq<string>, b: seq<string>)
    requires IsEngine(e) && SlashFree(a) && SlashFree(b) && |a| == |b| > 0 && e.key(Plain(a)) == e.key(Plain(b))
    ensures var n := |a| - 1; e.key(Plain(a[..n])) == e.key(Plain(b[..n])) && e.key(a[n]) == e.key(b[n])
  {
    var n := |a| - 1;
    var p, q := Plain(a[..n]), Plain(b[..n]);
    assert Plain(a) == Extend(p, a[n]) && Plain(b) == Extend(q, b[n]);
    hide Plain;
    if p != "" && q != "" {
      assert '/' !in e.key(a[n]) && '/' !in e.key(b[n]);
      LastSlash(e.key(p), e.key(a[n]), e.key(q), e.key(b[n]));
    } else if p == "" && q != "" {
      OneSideHasSlash(e, a, b);
    } else if q == "" && p != "" {
      OneSideHasSlash(e, b, a);
    }
  }

  /** Folders of one depth with the same cache key have the same wire form. */
  lemma {:induction false} DepthDecides(e: Engine, a: seq<string>, b: seq<string>)
    requires IsEngine(e) && SlashFree(a) && SlashFree(b) && |a| == |b| && e.key(Plain(a)) == e.key(Plain(b))
    ensures Uncached(e, a) == Uncached(e, b)
    decreases |a|
  {
    hide IsEngine, Plain;
    if a != [] {
      var n := |a| - 1;
      LastKeysSame(e, a, b);
      DepthDecides(e, a[..n], b[..n]);
    }
  }

  /** The same cache key means the same number of names, beginning with names of the same portable form. */
  lemma {:induction false} FirstNames(e: Engine, a: seq<string>, b: seq<string>)
    requires IsEngine(e) && SlashFree(a) && SlashFree(b) && a != [] && b != [] && a[0] != "" && b[0] != ""
    requires e.key(Plain(a)) == e.key(Plain(b))
    ensures |a| == |b| && e.key(a[0]) == e.key(b[0])
    decreases |a|
  {
    var n, m := |a| - 1, |b| - 1;
    if |a| == 1 { KeyOfOne(e, a); } else { KeyHasSlash(e, a); }
    if |b| == 1 { KeyOfOne(e, b); } else { KeyHasSlash(e, b); }
    if n > 0 && m > 0 {
      LastSlash(e.key(Plain(a[..n])), e.key(a[n]), e.key(Plain(b[..m])), e.key(b[m]));
      FirstNames(e, a[..n], b[..m]);
    }
  }

  /** For anchored folders the cache key determines the wire form. */
  lemma {:induction false} SameKeySameWire(e: Engine, a: seq<string>, b: seq<string>)
    requires IsEngine(e) && Anchored(a) && Anchored(b) && SlashFree(a) && SlashFree(b) && a != [] && b != []
    requires e.key(Plain(a)) == e.key(Plain(b))
    ensures Uncached(e, a) == Uncached(e, b)
    decreases |a|
  {
    if a[0] == "" || b[0] == "" {
      EmptyKey(e, a);
      EmptyKey(e, b);
    } else {
      FirstNames(e, a, b);
    }
    DepthDecides(e, a, b);
  }

  lemma EmptyKey(e: Engine, a: seq<string>)
    requires IsEngine(e) && Anchored(a) && a != []
    ensures e.key(Plain(a)) == "" <==> a == [""]
  {
    if Plain(a) == "" { PlainEmpty(a); }
    assert a == [""] ==> a[..0] == [];
  }

  // ---------- paths that the cache keeps apart ----------

  /** A path with an empty first segment and a folder behind it. */
  predicate Hidden(segments: seq<string>) {
    |segments| >= 3 && segments[0] == ""
  }

  /** Behind the empty first segment of one path stands a name that the cache takes for a folder of the other. */
  predicate Clash(e: Engine, segments: seq<string>, other: seq<string>) {
    Hidden(segments) && |other| >= 2 && e.key(segments[1]) == e.key(other[0])
  }

  /** No path of these clashes with another one or with itself. */
  ghost predicate Separate(e: Engine, paths: iset<string>) {
    forall p, q :: p in paths && q in paths ==> !Clash(e, Segments(p), Segments(q))
  }

  /** A folder without the empty segment that it may begin with. */
  function Core(segments: seq<string>, k: nat): seq<string>
    requires 0 < k <= |segments|
  {
    if segments[0] == "" then segments[1..k] else segments[..k]
  }

  lemma {:induction false} PlainDropsEmpty(segments: seq<string>)
    requires segments != [] && segments[0] == ""
    ensures Plain(segments) == Plain(segments[1..])
  {
    if |segments| == 1 {
      assert segments[..0] == [] && segments[1..] == [];
    } else {
      var n := |segments| - 1;
      PlainDropsEmpty(segments[..n]);
      assert segments[1..][..n - 1] == segments[..n][1..];
    }
  }

  lemma CoreIsPlain(e: Engine, segments: seq<string>, k: nat)
    requires !Clash(e, segments, segments) && 0 < k < |segments|
    ensures Plain(segments[..k]) == Plain(Core(segments, k))
    ensures Core(segments, k) == [] || Core(segments, k)[0] != ""
  {
    if segments[0] == "" {
      PlainDropsEmpty(segments[..k]);
      assert segments[..k][1..] == segments[1..k];
      if k >= 2 { assert segments[1..k][0] == segments[1]; }
    }
  }

  /** Without a clash the cache key of a folder tells its depth. */
  lemma SameDepth(e: Engine, a: seq<string>, b: seq<string>, k: nat, j: nat)
    requires IsEngine(e) && SlashFree(a) && SlashFree(b) && 0 < k < |a| && 0 < j < |b|
    requires !Clash(e, a, a) && !Clash(e, b, b) && !Clash(e, a, b) && !Clash(e, b, a)
    requires e.key(Plain(a[..k])) == e.key(Plain(b[..j]))
    ensures k == j
  {
    var c, d := Core(a, k), Core(b, j);
    CoreIsPlain(e, a, k);
    CoreIsPlain(e, b, j);
    if c == [] || d == [] {
      assert Plain([]) == "";
      PlainIsEmpty(c);
      PlainIsEmpty(d);
    } else {
      FirstNames(e, c, d);
    }
  }

  lemma AnchoredIsNotHidden(segments: seq<string>)
    requires segments != []
    ensures Hidden(segments) <==> !Anchored(segments[..|segments| - 1])
  {
  }

  /** The wire form of a path extends the wire form of its folder. */
  lemma ExtendsParent(e: Engine, segments: seq<string>)
    requires IsEngine(e) && |segments| > 1
    ensures var n := |segments| - 1;
      Uncached(e, segments) == Uncached(e, segments[..n]) + "/" + Tag(e, Plain(segments[..n]), segments[n])
  {
    WireNotEmpty(e, segments[..|segments| - 1]);
  }

  lemma WireNotEmpty(e: Engine, segments: seq<string>)
    requires IsEngine(e) && segments != []
    ensures Uncached(e, segments) != ""
  {
    var n := |segments| - 1;
    assert |Tag(e, Plain(segments[..n]), segments[n])| >= TAG_LENGTH;
  }

  // ---------- the cache ----------

  datatype Cached = Cached(folder: string, wire: string)

  function Find(folders: seq<Cached>, folder: string): Option<string> {
    if folders == [] then None
    else if folders[0].folder == folder then Some(folders[0].wire)
    else Find(folders[1..], folder)
  }

  function Put(folders: seq<Cached>, folder: string, wire: string): seq<Cached> {
    if folders == [] then [Cached(folder, wire)]
    else if folders[0].folder == folder then [Cached(folder, wire)] + folders[1..]
    else [folders[0]] + Put(folders[1..], folder, wire)
  }

  /** `remember`: a full cache first drops its oldest folder. */
  function Remember(folders: seq<Cached>, folder: string, wire: string): seq<Cached> {
    Put(if |folders| >= MAX_CACHED_FOLDERS then folders[1..] else folders, folder, wire)
  }

  /** An entry for a folder of one of the paths. */
  ghost predicate EntryOk(e: Engine, paths: iset<string>, c: Cached) {
    exists p, k: nat :: p in paths && IsEntry(e, c, Segments(p), k)
  }

  predicate IsEntry(e: Engine, c: Cached, segments: seq<string>, k: nat) {
    0 < k < |segments| && c.folder == e.key(Plain(segments[..k])) && c.wire == Uncached(e, segments[..k])
  }

  ghost predicate CacheOk(e: Engine, paths: iset<string>, folders: seq<Cached>) {
    |folders| <= MAX_CACHED_FOLDERS && forall i :: 0 <= i < |folders| ==> EntryOk(e, paths, folders[i])
  }

  lemma {:induction false} FindFinds(folders: seq<Cached>, folder: string)
    ensures Find(folders, folder).Some? ==>
      exists i :: 0 <= i < |folders| && folders[i] == Cached(folder, Find(folders, folder).value)
  {
    if folders != [] && folders[0].folder != folder {
      FindFinds(folders[1..], folder);
      if Find(folders, folder).Some? {
        var i :| 0 <= i < |folders[1..]| && folders[1..][i] == Cached(folder, Find(folders, folder).value);
        assert folders[i + 1] == folders[1..][i];
      }
    }
  }

  lemma {:induction false} PutHolds(folders: seq<Cached>, folder: string, wire: string)
    ensures |Put(folders, folder, wire)| <= |folders| + 1
    ensures forall i :: 0 <= i < |Put(folders, folder, wire)| ==>
      Put(folders, folder, wire)[i] == Cached(folder, wire) || Put(folders, folder, wire)[i] in folders
  {
    if folders != [] && folders[0].folder != folder { PutHolds(folders[1..], folder, wire); }
  }

  lemma RememberBounds(folders: seq<Cached>, folder: string, wire: string)
    requires |folders| <= MAX_CACHED_FOLDERS
    ensures |Remember(folders, folder, wire)| <= MAX_CACHED_FOLDERS
    ensures forall c :: c in Remember(folders, folder, wire) ==> c == Cached(folder, wire) || c in folders
  {
    var kept := if |folders| >= MAX_CACHED_FOLDERS then folders[1..] else folders;
    PutHolds(kept, folder, wire);
  }

  lemma RememberKeeps(e: Engine, paths: iset<string>, folders: seq<Cached>, path: string, k: nat)
    requires CacheOk(e, paths, folders) && path in paths && 0 < k < |Segments(path)|
    ensures var folder := Segments(path)[..k];
      CacheOk(e, paths, Remember(folders, e.key(Plain(folder)), Uncached(e, folder)))
  {
    hide Uncached, Plain, Remember, Segments;
    var folder := Segments(path)[..k];
    var entry := Cached(e.key(Plain(folder)), Uncached(e, folder));
    var more := Remember(folders, entry.folder, entry.wire);
    RememberBounds(folders, entry.folder, entry.wire);
    assert IsEntry(e, entry, Segments(path), k);
    forall i | 0 <= i < |more| ensures EntryOk(e, paths, more[i]) {
      assert more[i] in more;
    }
  }

  lemma FindIsUncached(e: Engine, paths: iset<string>, folders: seq<Cached>, path: string, k: nat)
    requires IsEngine(e) && Separate(e, paths) && CacheOk(e, paths, folders) && path in paths
      && 0 < k < |Segments(path)|
    ensures var folder := Segments(path)[..k]; var found := Find(folders, e.key(Plain(folder)));
      found.Some? ==> found.value == Uncached(e, folder)
  {
    hide Uncached, Plain, IsEngine, Segments, Clash;
    var folder := Segments(path)[..k];
    var found := Find(folders, e.key(Plain(folder)));
    FindFinds(folders, e.key(Plain(folder)));
    if found.Some? {
      var i :| 0 <= i < |folders| && folders[i] == Cached(e.key(Plain(folder)), found.value);
      assert EntryOk(e, paths, folders[i]);
      var q, j: nat :| q in paths && IsEntry(e, folders[i], Segments(q), j);
      SameDepth(e, Segments(path), Segments(q), k, j);
      DepthDecides(e, folder, Segments(q)[..j]);
    }
  }

  // ---------- one call ----------

  /** One turn of the loop, with nothing else running. */
  function Turn(e: Engine, folders: seq<Cached>, parent: string, parentWire: string, name: string,
    isFolder: bool): (string, seq<Cached>) {
    var folder := e.key(Extend(parent, name));
    var hit := if isFolder then Find(folders, folder) else None;
    if hit.Some? && hit.value != "" then (hit.value, folders)
    else
      var wire := Extend(parentWire, Tag(e, parent, name));
      (wire, if isFolder then Remember(folders, folder, wire) else folders)
  }

  function Turns(e: Engine, folders: seq<Cached>, segments: seq<string>, n: nat): (string, seq<Cached>)
    requires n <= |segments|
  {
    if n == 0 then ("", folders)
    else
      var before := Turns(e, folders, segments, n - 1);
      Turn(e, before.1, Plain(segments[..n - 1]), before.0, segments[n - 1], n < |segments|)
  }

  /** What `wire` returns for a wire form: nothing if it is too long. */
  function Checked(wire: string): Option<string> {
    if HasIssue(wire) then None else Some(wire)
  }

  /** What other calls leave in the cache while one waits, by its turn; nothing where none comes in between. */
  type Others = nat -> Option<seq<Cached>>

  ghost predicate Bounded(folders: seq<Cached>, others: Others) {
    && |folders| <= MAX_CACHED_FOLDERS
    && forall n :: others(n).Some? ==> |others(n).value| <= MAX_CACHED_FOLDERS
  }

  /** The paths do not clash, and the cache is and stays one for their folders. */
  ghost predicate Sound(e: Engine, paths: iset<string>, folders: seq<Cached>, others: Others) {
    && Separate(e, paths) && CacheOk(e, paths, folders)
    && forall n :: others(n).Some? ==> CacheOk(e, paths, others(n).value)
  }

  class Tags {
    const e: Engine
    var folders: seq<Cached>

    constructor (e: Engine)
      ensures this.e == e && folders == []
    {
      this.e, folders := e, [];
    }

    /**
     * `wire`. While it waits for a tag, other calls may change the cache (`others`). Undisturbed, it is `Turns`
     * on whatever the cache holds. For paths that do not clash it gives the uncached form, and the cache
     * holds nothing but true entries for folders of those paths, if that is what it held and what others leave.
     */
    method Wire(path: string, others: Others, ghost paths: iset<string>)
      returns (wire: Option<string>, ghost full: string)
      requires IsEngine(e)
      modifies this
      ensures wire == Checked(full)
      ensures (forall n :: others(n).None?) ==>
        (full, folders) == Turns(e, old(folders), Segments(path), |Segments(path)|)
      ensures Bounded(old(folders), others) ==> |folders| <= MAX_CACHED_FOLDERS
      ensures path in paths && Sound(e, paths, old(folders), others) ==>
        && CacheOk(e, paths, folders) && full == Uncached(e, Segments(path))
        && wire == if |full| > 1024 then None else Some(full)
    {
      hide IsEngine, Uncached, Plain, Find, Remember, HasIssue, Tag, Separate, CacheOk;
      ghost var sound := path in paths && Sound(e, paths, folders, others);
      ghost var bounded := Bounded(folders, others);
      var segments := Segments(path);
      var parent, parentWire := "", "";
      NothingYet(e);
      for n := 0 to |segments|
        invariant parent == Plain(segments[..n])
        invariant sound ==> CacheOk(e, paths, folders) && parentWire == Uncached(e, segments[..n])
        invariant bounded ==> |folders| <= MAX_CACHED_FOLDERS
        invariant (forall k :: others(k).None?) ==> (parentWire, folders) == Turns(e, old(folders), segments, n)
      {
        var name, isFolder := segments[n], n < |segments| - 1;
        var plain := Extend(parent, name);
        PrefixSteps(e, segments, n);
        var hit := if isFolder then Find(folders, e.key(plain)) else None;
        if sound && isFolder { FindIsUncached(e, paths, folders, path, n + 1); }
        if hit.Some? && hit.value != "" {
          parentWire := hit.value;
        } else {
          if others(n).Some? { folders := others(n).value; }
          parentWire := Extend(parentWire, Tag(e, parent, name));
          if isFolder {
            if sound { RememberKeeps(e, paths, folders, path, n + 1); }
            if bounded { RememberBounds(folders, e.key(plain), parentWire); }
            folders := Remember(folders, e.key(plain), parentWire);
          }
        }
        parent := plain;
      }
      assert segments[..|segments|] == segments;
      full := parentWire;
      WireIssues(e, segments);
      wire := if HasIssue(parentWire) then None else Some(parentWire);
    }
  }

  lemma NothingYet(e: Engine)
    ensures Plain([]) == "" && Uncached(e, []) == ""
  {
  }

  lemma PrefixSteps(e: Engine, segments: seq<string>, n: nat)
    requires n < |segments|
    ensures Plain(segments[..n + 1]) == Extend(Plain(segments[..n]), segments[n])
    ensures Uncached(e, segments[..n + 1]) ==
      Extend(Uncached(e, segments[..n]), Tag(e, Plain(segments[..n]), segments[n]))
  {
    assert segments[..n + 1][..n] == segments[..n];
  }

  // ---------- where the cache shows ----------

  function Slashes(s: string): nat {
    if s == "" then 0 else (if s[|s| - 1] == '/' then 1 else 0) + Slashes(s[..|s| - 1])
  }

  lemma {:induction false} SlashesConcat(a: string, b: string)
    ensures Slashes(a + b) == Slashes(a) + Slashes(b)
    decreases |b|
  {
    if b == "" {
      assert a + b == a;
    } else {
      assert (a + b)[..|a + b| - 1] == a + b[..|b| - 1];
      SlashesConcat(a, b[..|b| - 1]);
    }
  }

  lemma {:induction false} NoSlashes(s: string)
    requires '/' !in s
    ensures Slashes(s) == 0
  {
    if s != "" { NoSlashes(s[..|s| - 1]); }
  }

  /** One more tag, one more slash unless it is the first. */
  lemma ExtendSlashes(e: Engine, wire: string, parent: string, name: string)
    requires IsEngine(e)
    ensures Slashes(Extend(wire, Tag(e, parent, name))) == Slashes(wire) + if wire != "" then 1 else 0
    ensures Extend(wire, Tag(e, parent, name)) != ""
  {
    var tag := Tag(e, parent, name);
    TagIsPlain(e, parent, name);
    assert forall i :: 0 <= i < |tag| ==> tag[i] != '/';
    NoSlashes(tag);
    SlashesConcat(wire + "/", tag);
    SlashesConcat(wire, "/");
    assert Slashes("/") == 1 by { assert "/"[..0] == ""; }
  }

  lemma {:induction false} UncachedSlashes(e: Engine, segments: seq<string>)
    requires IsEngine(e) && segments != []
    ensures Slashes(Uncached(e, segments)) == |segments| - 1
  {
    var n := |segments| - 1;
    ExtendSlashes(e, Uncached(e, segments[..n]), Plain(segments[..n]), segments[n]);
    if n > 0 {
      UncachedSlashes(e, segments[..n]);
      WireNotEmpty(e, segments[..n]);
    }
  }

  predicate Shallow(folders: seq<Cached>, n: nat) {
    forall i :: 0 <= i < |folders| ==> folders[i].wire != "" && Slashes(folders[i].wire) <= n
  }

  lemma RememberShallow(folders: seq<Cached>, folder: string, wire: string, n: nat)
    requires Shallow(folders, n) && wire != "" && Slashes(wire) <= n
    ensures Shallow(Remember(folders, folder, wire), n)
  {
    hide Slashes;
    var kept := if |folders| >= MAX_CACHED_FOLDERS then folders[1..] else folders;
    PutHolds(kept, folder, wire);
    var more := Remember(folders, folder, wire);
    forall i | 0 <= i < |more| ensures more[i].wire != "" && Slashes(more[i].wire) <= n {
      if more[i] != Cached(folder, wire) { assert more[i] in kept; assert more[i] in folders; }
    }
  }

  lemma TurnShallow(e: Engine, folders: seq<Cached>, parent: string, wire: string, name: string, isFolder: bool, n: nat)
    requires IsEngine(e) && Shallow(folders, n) && Slashes(wire) <= n
    ensures var t := Turn(e, folders, parent, wire, name, isFolder);
      t.0 != "" && Slashes(t.0) <= n + 1 && Shallow(t.1, n + 1)
  {
    hide Slashes, Remember, Tag;
    var folder := e.key(Extend(parent, name));
    FindFinds(folders, folder);
    ExtendSlashes(e, wire, parent, name);
    RememberShallow(folders, folder, Extend(wire, Tag(e, parent, name)), n + 1);
  }

  /** The cache after the folder that hides behind the empty segment was used by itself. */
  function Used(e: Engine, name: string): seq<Cached> {
    [Cached(e.key(name), Tag(e, "", name))]
  }

  lemma UsedByOneCall(e: Engine, name: string, last: string)
    requires IsEngine(e)
    ensures Turns(e, [], [name, last], 2).1 == Used(e, name)
  {
    var segments := [name, last];
    assert segments[..0] == [] && segments[..1] == [name];
    assert Extend("", name) == name && Extend("", Tag(e, "", name)) == Tag(e, "", name);
    assert Turns(e, [], segments, 1) == (Tag(e, "", name), Used(e, name));
  }

  lemma UsedShallow(e: Engine, name: string)
    requires IsEngine(e)
    ensures Shallow(Used(e, name), 0)
  {
    ExtendSlashes(e, "", "", name);
    assert Slashes("") == 0;
  }

  /** Behind the empty segment the folder is found in the cache, one name short. */
  lemma SecondTurn(e: Engine, segments: seq<string>)
    requires IsEngine(e) && Hidden(segments)
    ensures var t := Turns(e, Used(e, segments[1]), segments, 2); t.0 != "" && Slashes(t.0) == 0 && Shallow(t.1, 0)
  {
    var name := segments[1];
    var cache := Used(e, name);
    var tag := Tag(e, "", "");
    UsedShallow(e, name);
    assert segments[..0] == [] && segments[..1] == [""] && Plain([""]) == "";
    assert Extend("", "") == "" && Extend("", name) == name && Extend("", tag) == tag;
    ExtendSlashes(e, "", "", "");
    RememberShallow(cache, e.key(""), tag, 0);
    var first := Turns(e, cache, segments, 1);
    assert Turns(e, cache, segments, 0) == ("", cache);
    assert first == Turn(e, cache, "", "", "", true);
    TagIsPlain(e, "", name);
    if e.key(name) == e.key("") {
      assert Find(cache, e.key("")) == Some(Tag(e, "", name));
      assert first == (Tag(e, "", name), cache);
    } else {
      assert Find(cache, e.key("")) == None;
      assert cache[1..] == [] && first.1 == Put(cache, e.key(""), tag);
      assert Put(cache[1..], e.key(""), tag) == [Cached(e.key(""), tag)];
      assert Put(cache, e.key(""), tag) == [cache[0]] + Put(cache[1..], e.key(""), tag);
      assert first == (tag, [cache[0]] + [Cached(e.key(""), tag)]);
      assert Find(first.1, e.key(name)) == Some(Tag(e, "", name));
    }
  }

  lemma {:induction false} LaterTurns(e: Engine, segments: seq<string>, n: nat)
    requires IsEngine(e) && Hidden(segments) && 2 <= n <= |segments|
    ensures var t := Turns(e, Used(e, segments[1]), segments, n); Slashes(t.0) <= n - 2 && Shallow(t.1, n - 2)
  {
    hide IsEngine, Slashes, Turn, Shallow;
    if n == 2 {
      SecondTurn(e, segments);
    } else {
      LaterTurns(e, segments, n - 1);
      var before := Turns(e, Used(e, segments[1]), segments, n - 1);
      TurnShallow(e, before.1, Plain(segments[..n - 1]), before.0, segments[n - 1], n < |segments|, n - 3);
    }
  }

  /** For every path that begins with a slash and holds another one, one earlier call for its next folder is
      enough to make the cached result differ from the uncached one. */
  lemma CacheShowsForHiddenFolders(e: Engine, path: string, last: string)
    requires IsEngine(e) && !Anchored(Segments(path)[..|Segments(path)| - 1])
    ensures Hidden(Segments(path))
    ensures var used := Turns(e, [], [Segments(path)[1], last], 2).1;
      Turns(e, used, Segments(path), |Segments(path)|).0 != Uncached(e, Segments(path))
  {
    var segments := Segments(path);
    UsedByOneCall(e, segments[1], last);
    LaterTurns(e, segments, |segments|);
    UncachedSlashes(e, segments);
  }

  /** Paths that sync accepts meet the condition of `Wire`. */
  lemma AcceptedPathsAreAnchored(path: string)
    requires !HasIssue(path)
    ensures Anchored(Segments(path)[..|Segments(path)| - 1])
  {
    assert Segments(path)[0] != "";
  }

  // ---------- lengths ----------

  function TagList(e: Engine, segments: seq<string>): (tags: seq<string>)
    ensures |tags| == |segments|
  {
    if segments == [] then []
    else
      var n := |segments| - 1;
      TagList(e, segments[..n]) + [Tag(e, Plain(segments[..n]), segments[n])]
  }

  lemma TagIsPlain(e: Engine, parent: string, name: string)
    requires IsEngine(e)
    ensures IsPlainName(Tag(e, parent, name)) && |Tag(e, parent, name)| == TAG_LENGTH + if IsNote(e.key(name)) then 3
      else 0
  {
    var mac := e.mac(Message(e, parent, name));
    forall i | 0 <= i < |mac| ensures IsTagChar(mac[i]) && mac[i] != '/' && !IsControl(mac[i]) && mac[i] as int < 0x80 {
      assert IsTagChar(mac[i]);
    }
  }

  lemma {:induction false} TagsArePlain(e: Engine, segments: seq<string>)
    requires IsEngine(e)
    ensures forall i :: 0 <= i < |segments| ==> IsPlainName(TagList(e, segments)[i])
  {
    hide IsEngine, Tag, IsPlainName;
    if segments != [] {
      var n := |segments| - 1;
      TagsArePlain(e, segments[..n]);
      TagIsPlain(e, Plain(segments[..n]), segments[n]);
    }
  }

  lemma {:induction false} UncachedIsJoin(e: Engine, segments: seq<string>)
    requires IsEngine(e)
    ensures Uncached(e, segments) == JoinSlashes(TagList(e, segments))
  {
    hide IsEngine, Tag, Plain, JoinSlashes;
    if |segments| == 1 {
      OneTag(e, segments[0]);
      assert segments == [segments[0]];
    } else if |segments| > 1 {
      var n := |segments| - 1;
      UncachedIsJoin(e, segments[..n]);
      WireNotEmpty(e, segments[..n]);
      JoinLast(TagList(e, segments[..n]), Tag(e, Plain(segments[..n]), segments[n]));
    } else {
      assert JoinSlashes([]) == "" by { NoNames(); }
    }
  }

  lemma NoNames()
    ensures JoinSlashes([]) == ""
  {
  }

  lemma OneTag(e: Engine, name: string)
    ensures TagList(e, [name]) == [Tag(e, Plain([]), name)] && Uncached(e, [name]) == Tag(e, Plain([]), name)
    ensures JoinSlashes([Tag(e, Plain([]), name)]) == Tag(e, Plain([]), name)
  {
    hide Tag;
    assert [name][..0] == [];
  }

  /** A wire form is acceptable unless it is too long. */
  lemma WireIssues(e: Engine, segments: seq<string>)
    requires IsEngine(e) && segments != []
    ensures HasIssue(Uncached(e, segments)) <==> |Uncached(e, segments)| > 1024
  {
    hide IsEngine, HasIssue;
    TagsArePlain(e, segments);
    UncachedIsJoin(e, segments);
    PlainNamesIssue(TagList(e, segments));
  }

  /** How many segments are notes, folders included. */
  function Notes(e: Engine, segments: seq<string>): nat {
    if segments == [] then 0
    else Notes(e, segments[..|segments| - 1]) + if IsNote(e.key(segments[|segments| - 1])) then 1 else 0
  }

  /** The exact length: 26 characters and a slash for each name, and `.md` for each name that ends so. */
  lemma {:induction false} WireLength(e: Engine, segments: seq<string>)
    requires IsEngine(e) && segments != []
    ensures |Uncached(e, segments)| == 27 * |segments| - 1 + 3 * Notes(e, segments)
  {
    var n := |segments| - 1;
    TagIsPlain(e, Plain(segments[..n]), segments[n]);
    if n > 0 {
      WireLength(e, segments[..n]);
      WireNotEmpty(e, segments[..n]);
    }
  }

  function Repeat(name: string, n: nat): (names: seq<string>)
    ensures |names| == n && forall i :: 0 <= i < n ==> names[i] == name
  {
    if n == 0 then [] else Repeat(name, n - 1) + [name]
  }

  const PLACEHOLDER := "aaaaaaaaaaaaaaaaaaaaaaaaaa"

  /** `fitsEncryptedPathLimit`, which counts `.md` for the last name only. */
  predicate FitsEncryptedPathLimit(e: Engine, path: string) {
    var segments := Segments(path);
    var note := IsNote(e.key(segments[|segments| - 1]));
    !HasIssue(JoinSlashes(Repeat(PLACEHOLDER, |segments|)) + if note then ".md" else "")
  }

  lemma {:induction false} RepeatLength(name: string, n: nat)
    requires n > 0
    ensures |JoinSlashes(Repeat(name, n))| == (|name| + 1) * n - 1
  {
    if n == 1 {
      assert Repeat(name, 1) == [name];
    } else {
      RepeatLength(name, n - 1);
      JoinLast(Repeat(name, n - 1), name);
    }
  }

  lemma {:induction false} JoinWithSuffix(names: seq<string>, suffix: string)
    requires names != []
    ensures JoinSlashes(names) + suffix == JoinSlashes(names[..|names| - 1] + [names[|names| - 1] + suffix])
  {
    var n := |names| - 1;
    if n > 0 {
      JoinLast(names[..n], names[n] + suffix);
      JoinLast(names[..n], names[n]);
      assert names[..n] + [names[n]] == names;
      assert JoinSlashes(names[..n]) + "/" + names[n] + suffix == JoinSlashes(names[..n]) + "/" + (names[n] + suffix);
    }
  }

  lemma PlaceholderIsPlain()
    ensures |PLACEHOLDER| == TAG_LENGTH && IsPlainName(PLACEHOLDER) && IsPlainName(PLACEHOLDER + ".md")
  {
  }

  lemma FitsByLength(e: Engine, path: string)
    ensures var n := |Segments(path)|; var note := IsNote(e.key(Segments(path)[n - 1]));
      FitsEncryptedPathLimit(e, path) <==> 27 * n - 1 + (if note then 3 else 0) <= 1024
  {
    var n := |Segments(path)|;
    var suffix := if IsNote(e.key(Segments(path)[n - 1])) then ".md" else "";
    var names := Repeat(PLACEHOLDER, n);
    var last := names[..n - 1] + [names[n - 1] + suffix];
    PlaceholderIsPlain();
    RepeatLength(PLACEHOLDER, n);
    JoinWithSuffix(names, suffix);
    assert PLACEHOLDER + "" == PLACEHOLDER;
    hide HasIssue, JoinSlashes, IsPlainName, Segments, Repeat;
    assert forall i :: 0 <= i < n ==> IsPlainName(last[i]);
    PlainNamesIssue(last);
  }

  /** The check before encryption and the refusal by `wire` agree exactly unless notes among the folders push
      a wire form over the limit that would fit without them. */
  lemma LimitsAgree(e: Engine, path: string)
    requires IsEngine(e)
    ensures var segments := Segments(path); var n := |segments|;
      var last := if IsNote(e.key(segments[n - 1])) then 1 else 0;
      (FitsEncryptedPathLimit(e, path) <==> |Uncached(e, segments)| <= 1024) <==>
      !(27 * n - 1 + 3 * last <= 1024 < 27 * n - 1 + 3 * Notes(e, segments))
  {
    hide FitsEncryptedPathLimit;
    FitsByLength(e, path);
    WireLength(e, Segments(path));
    LastNote(e, Segments(path));
  }

  lemma LastNote(e: Engine, segments: seq<string>)
    requires segments != []
    ensures Notes(e, segments) >= if IsNote(e.key(segments[|segments| - 1])) then 1 else 0
  {
  }

  /** Nine folders that end in `.md`, 27 others and a file: accepted before encryption, refused by `wire`. */
  lemma FolderNotesOverflow(e: Engine) returns (path: string)
    requires IsEngine(e) && e.key("a.md") == "a.md" && e.key("a") == "a"
    ensures FitsEncryptedPathLimit(e, path) && |Uncached(e, Segments(path))| > 1024
  {
    var folders := Repeat("a.md", 9);
    var names := folders + Repeat("a", 28);
    path := JoinSlashes(names);
    SegmentsOfJoin(names);
    NotesOfRepeat(e, [], "a.md", 9);
    assert [] + folders == folders;
    NotesOfRepeat(e, folders, "a", 28);
    hide FitsEncryptedPathLimit;
    FitsByLength(e, path);
    WireLength(e, names);
  }

  lemma {:induction false} NotesOfRepeat(e: Engine, before: seq<string>, name: string, n: nat)
    ensures Notes(e, before + Repeat(name, n)) == Notes(e, before) + if IsNote(e.key(name)) then n else 0
  {
    if n == 0 {
      assert before + Repeat(name, 0) == before;
    } else {
      NotesOfRepeat(e, before, name, n - 1);
      var all := before + Repeat(name, n);
      assert all[..|all| - 1] == before + Repeat(name, n - 1);
    }
  }
}
