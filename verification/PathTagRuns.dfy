/**
 Calls of `wire` over one cache (path-tags.ts), one after another or interleaved at every wait: which sets of
 paths always get their uncached forms.
 */
module PathTagRuns {
  import opened Common
  import opened Paths
  import opened PathTags

  // ---------- interleaved calls ----------

  /** A call: its segments, its turn, the wire form so far, and whether it waits for the tag of its turn. */
  datatype Call = Call(segments: seq<string>, n: nat, wire: string, waits: bool)

  datatype World = World(folders: seq<Cached>, calls: map<nat, Call>)

  datatype Event =
    | Begin(id: nat, path: string)
    | Look(id: nat)
    | Tagged(id: nat)

  const INITIAL := World([], map[])

  predicate Done(c: Call) { c.n == |c.segments| && !c.waits }

  predicate Enabled(w: World, e: Event) {
    match e
    case Begin(id, _) => id !in w.calls
    case Look(id) => id in w.calls && !w.calls[id].waits && w.calls[id].n < |w.calls[id].segments|
    case Tagged(id) => id in w.calls && w.calls[id].waits && w.calls[id].n < |w.calls[id].segments|
  }

  predicate IsFolder(c: Call) { c.n + 1 < |c.segments| }

  /** The cache key of a call's turn. */
  function FolderKey(e: Engine, c: Call): string
    requires c.n < |c.segments|
  {
    e.key(Plain(c.segments[..c.n + 1]))
  }

  /** A turn looks into the cache, and waits for a tag if its folder is not there or is none. */
  function LookStep(e: Engine, folders: seq<Cached>, c: Call): Call
    requires c.n < |c.segments|
  {
    var hit := if IsFolder(c) then Find(folders, FolderKey(e, c)) else None;
    if hit.Some? && hit.value != "" then c.(n := c.n + 1, wire := hit.value) else c.(waits := true)
  }

  /** With the tag the wire form grows by a name, and a folder is remembered. */
  function TaggedStep(e: Engine, folders: seq<Cached>, c: Call): (Call, seq<Cached>)
    requires c.n < |c.segments|
  {
    var wire := Extend(c.wire, Tag(e, Plain(c.segments[..c.n]), c.segments[c.n]));
    (c.(n := c.n + 1, wire := wire, waits := false),
     if IsFolder(c) then Remember(folders, FolderKey(e, c), wire) else folders)
  }

  function Apply(e: Engine, w: World, event: Event): World
    requires Enabled(w, event)
  {
    match event
    case Begin(id, path) => w.(calls := w.calls[id := Call(Segments(path), 0, "", false)])
    case Look(id) => w.(calls := w.calls[id := LookStep(e, w.folders, w.calls[id])])
    case Tagged(id) =>
      var (c, folders) := TaggedStep(e, w.folders, w.calls[id]);
      World(folders, w.calls[id := c])
  }

  /** A run from the empty cache in which only the given paths are called. */
  ghost predicate IsRun(e: Engine, paths: iset<string>, ws: seq<World>, es: seq<Event>) {
    && |ws| == |es| + 1 && ws[0] == INITIAL
    && forall i :: 0 <= i < |es| ==>
         && Enabled(ws[i], es[i]) && ws[i + 1] == Apply(e, ws[i], es[i])
         && (es[i].Begin? ==> es[i].path in paths)
  }

  /** Every finished call has the uncached form. */
  ghost predicate AllRight(e: Engine, w: World) {
    forall id :: id in w.calls && Done(w.calls[id]) ==> w.calls[id].wire == Uncached(e, w.calls[id].segments)
  }

  // ---------- without a clash all is right ----------

  ghost predicate CallOk(e: Engine, paths: iset<string>, c: Call) {
    && c.n <= |c.segments| && (c.waits ==> c.n < |c.segments|) && c.wire == Uncached(e, c.segments[..c.n])
    && exists p :: p in paths && c.segments == Segments(p)
  }

  ghost predicate Inv(e: Engine, paths: iset<string>, w: World) {
    CacheOk(e, paths, w.folders) && forall id :: id in w.calls ==> CallOk(e, paths, w.calls[id])
  }

  lemma LookKeeps(e: Engine, paths: iset<string>, folders: seq<Cached>, c: Call)
    requires IsEngine(e) && Separate(e, paths) && CacheOk(e, paths, folders) && CallOk(e, paths, c)
    requires c.n < |c.segments| && !c.waits
    ensures CallOk(e, paths, LookStep(e, folders, c))
  {
    hide IsEngine, Separate, CacheOk, Uncached, Find;
    var p :| p in paths && c.segments == Segments(p);
    if IsFolder(c) { FindIsUncached(e, paths, folders, p, c.n + 1); }
  }

  lemma TaggedKeeps(e: Engine, paths: iset<string>, folders: seq<Cached>, c: Call)
    requires CacheOk(e, paths, folders) && CallOk(e, paths, c) && c.waits
    ensures var (c', folders') := TaggedStep(e, folders, c); CallOk(e, paths, c') && CacheOk(e, paths, folders')
  {
    hide CacheOk, Uncached, Remember, Tag;
    var p :| p in paths && c.segments == Segments(p);
    PrefixSteps(e, c.segments, c.n);
    if IsFolder(c) { RememberKeeps(e, paths, folders, p, c.n + 1); }
  }

  lemma BeginKeeps(e: Engine, paths: iset<string>, path: string)
    requires path in paths
    ensures CallOk(e, paths, Call(Segments(path), 0, "", false))
  {
    NothingYet(e);
    assert Segments(path)[..0] == [];
  }

  lemma StepKeeps(e: Engine, paths: iset<string>, w: World, event: Event)
    requires IsEngine(e) && Separate(e, paths) && Inv(e, paths, w) && Enabled(w, event)
    requires event.Begin? ==> event.path in paths
    ensures Inv(e, paths, Apply(e, w, event))
  {
    hide IsEngine, Separate, CacheOk, CallOk, LookStep, TaggedStep;
    match event
    case Begin(_, path) => BeginKeeps(e, paths, path);
    case Look(id) => LookKeeps(e, paths, w.folders, w.calls[id]);
    case Tagged(id) => TaggedKeeps(e, paths, w.folders, w.calls[id]);
  }

  lemma {:induction false} RunKeeps(e: Engine, paths: iset<string>, ws: seq<World>, es: seq<Event>, i: nat)
    requires IsEngine(e) && Separate(e, paths) && IsRun(e, paths, ws, es) && i < |ws|
    ensures Inv(e, paths, ws[i])
  {
    hide IsEngine, Separate, CallOk, Apply, Enabled;
    if i > 0 {
      RunKeeps(e, paths, ws, es, i - 1);
      StepKeeps(e, paths, ws[i - 1], es[i - 1]);
    }
  }

  /** However calls for paths without a clash are interleaved, and whatever the bounded cache evicts: each gets
      its uncached form. */
  lemma SeparateCallsAreRight(e: Engine, paths: iset<string>, ws: seq<World>, es: seq<Event>, i: nat)
    requires IsEngine(e) && Separate(e, paths) && IsRun(e, paths, ws, es) && i < |ws|
    ensures |ws[i].folders| <= MAX_CACHED_FOLDERS && AllRight(e, ws[i])
  {
    RunKeeps(e, paths, ws, es, i);
    forall id | id in ws[i].calls && Done(ws[i].calls[id])
      ensures ws[i].calls[id].wire == Uncached(e, ws[i].calls[id].segments)
    {
      var c := ws[i].calls[id];
      assert CallOk(e, paths, c) && c.segments[..c.n] == c.segments;
    }
  }

  // ---------- every clash shows ----------

  lemma MoreRun(e: Engine, paths: iset<string>, ws: seq<World>, es: seq<Event>, event: Event)
    requires IsRun(e, paths, ws, es) && Enabled(ws[|es|], event) && (event.Begin? ==> event.path in paths)
    ensures IsRun(e, paths, ws + [Apply(e, ws[|es|], event)], es + [event])
  {
    hide Enabled, Apply;
  }

  /** A call that runs undisturbed takes the turns of `Turns`. */
  lemma {:induction false} CallTurns(e: Engine, paths: iset<string>, ws0: seq<World>, es0: seq<Event>, id: nat,
                                     path: string, n: nat)
    returns (ws: seq<World>, es: seq<Event>)
    requires IsRun(e, paths, ws0, es0) && id !in ws0[|es0|].calls && path in paths && n <= |Segments(path)|
    ensures IsRun(e, paths, ws, es)
    ensures var (wire, folders) := Turns(e, ws0[|es0|].folders, Segments(path), n);
      ws[|es|] == World(folders, ws0[|es0|].calls[id := Call(Segments(path), n, wire, false)])
  {
    hide Enabled, Apply, Turn, Segments;
    if n == 0 {
      ws, es := BeginRun(e, paths, ws0, es0, id, path);
    } else {
      ws, es := CallTurns(e, paths, ws0, es0, id, path, n - 1);
      ws, es := OneTurn(e, paths, ws, es, id);
      var (wire, folders) := Turns(e, ws0[|es0|].folders, Segments(path), n);
      assert ws[|es|].calls == ws0[|es0|].calls[id := Call(Segments(path), n, wire, false)];
    }
  }

  lemma BeginRun(e: Engine, paths: iset<string>, ws0: seq<World>, es0: seq<Event>, id: nat, path: string)
    returns (ws: seq<World>, es: seq<Event>)
    requires IsRun(e, paths, ws0, es0) && id !in ws0[|es0|].calls && path in paths
    ensures IsRun(e, paths, ws, es)
    ensures var w := ws0[|es0|]; ws[|es|] == w.(calls := w.calls[id := Call(Segments(path), 0, "", false)])
  {
    MoreRun(e, paths, ws0, es0, Begin(id, path));
    ws, es := ws0 + [Apply(e, ws0[|es0|], Begin(id, path))], es0 + [Begin(id, path)];
  }

  lemma OneTurn(e: Engine, paths: iset<string>, ws0: seq<World>, es0: seq<Event>, id: nat)
    returns (ws: seq<World>, es: seq<Event>)
    requires IsRun(e, paths, ws0, es0) && id in ws0[|es0|].calls
    requires !ws0[|es0|].calls[id].waits && ws0[|es0|].calls[id].n < |ws0[|es0|].calls[id].segments|
    ensures IsRun(e, paths, ws, es)
    ensures var c := ws0[|es0|].calls[id];
      var (wire, folders) :=
        Turn(e, ws0[|es0|].folders, Plain(c.segments[..c.n]), c.wire, c.segments[c.n], c.n + 1 < |c.segments|);
      ws[|es|] == World(folders, ws0[|es0|].calls[id := c.(n := c.n + 1, wire := wire)])
  {
    var w0 := ws0[|es0|];
    var c := w0.calls[id];
    PrefixSteps(e, c.segments, c.n);
    var w1 := Apply(e, w0, Look(id));
    MoreRun(e, paths, ws0, es0, Look(id));
    ws, es := ws0 + [w1], es0 + [Look(id)];
    hide IsRun, Remember, Find, Tag, Plain;
    if w1.calls[id].waits {
      var w2 := Apply(e, w1, Tagged(id));
      MoreRun(e, paths, ws, es, Tagged(id));
      ws, es := ws + [w2], es + [Tagged(id)];
      assert w2.calls == w0.calls[id := w2.calls[id]];
    }
  }

  /** The first turn of a call leaves its first folder in the cache. */
  lemma FirstTurn(e: Engine, segments: seq<string>, name: string)
    requires IsEngine(e) && |segments| >= 2 && e.key(segments[0]) == e.key(name)
    ensures Turns(e, [], segments, 1).1 == Used(e, name)
  {
    assert segments[..0] == [] && Plain([]) == "" && Extend("", segments[0]) == segments[0];
    assert Turns(e, [], segments, 0) == ("", []);
    assert Extend("", Tag(e, "", name)) == Tag(e, "", name);
  }

  /** Two paths that clash: after the first turn of the one, the other loses a name. */
  lemma ClashShows(e: Engine, paths: iset<string>, p: string, q: string) returns (ws: seq<World>, es: seq<Event>)
    requires IsEngine(e) && p in paths && q in paths && Clash(e, Segments(p), Segments(q))
    ensures IsRun(e, paths, ws, es) && !AllRight(e, ws[|es|])
  {
    var segments := Segments(p);
    hide Segments, Uncached, Slashes;
    ws, es := CallTurns(e, paths, [INITIAL], [], 0, q, 1);
    FirstTurn(e, Segments(q), segments[1]);
    assert ws[|es|].folders == Used(e, segments[1]);
    ws, es := CallTurns(e, paths, ws, es, 1, p, |segments|);
    hide IsRun, Turns, Used;
    LaterTurns(e, segments, |segments|);
    UncachedSlashes(e, segments);
    assert Done(ws[|es|].calls[1]) && ws[|es|].calls[1].segments == segments;
  }

  /**
   * Calls for some paths always get their uncached forms, in every run and before their lengths are checked,
   * if and only if no two of the paths clash and none clashes with itself.
   */
  lemma CacheIsInvisibleExactly(e: Engine, paths: iset<string>)
    requires IsEngine(e)
    ensures Separate(e, paths) <==> forall ws, es :: IsRun(e, paths, ws, es) ==> AllRight(e, ws[|es|])
  {
    hide IsEngine, AllRight, Enabled, Apply;
    if Separate(e, paths) {
      forall ws, es | IsRun(e, paths, ws, es) ensures AllRight(e, ws[|es|]) {
        SeparateCallsAreRight(e, paths, ws, es, |es|);
      }
    } else {
      var p, q :| p in paths && q in paths && Clash(e, Segments(p), Segments(q));
      var ws, es := ClashShows(e, paths, p, q);
    }
  }

  // ---------- which paths are harmless ----------

  /** A path clashes with no other exactly if it does not begin with a slash and hold another one. */
  lemma HarmlessExactly(e: Engine, path: string)
    ensures !Hidden(Segments(path)) <==> forall q :: !Clash(e, Segments(path), Segments(q))
  {
    if Hidden(Segments(path)) {
      var name := Segments(path)[1];
      SegmentsMore(name, "x");
      SegmentsOne("x");
      assert Clash(e, Segments(path), Segments(name + "/" + "x"));
    }
  }

  /** Paths that sync accepts never clash. */
  lemma AcceptedPathsAreSeparate(e: Engine, paths: iset<string>)
    requires forall p :: p in paths ==> !HasIssue(p)
    ensures Separate(e, paths)
  {
    forall p, q | p in paths && q in paths ensures !Clash(e, Segments(p), Segments(q)) {
      assert Segments(p)[0] != "";
    }
  }

  // ---------- one call after another ----------

  /** The cache after some calls, one after another, from an empty one. */
  function After(e: Engine, calls: seq<string>): seq<Cached> {
    if calls == [] then []
    else
      var n := |calls| - 1;
      Turns(e, After(e, calls[..n]), Segments(calls[n]), |Segments(calls[n])|).1
  }

  /** The wire form that a call finds behind those before it. */
  function Answer(e: Engine, calls: seq<string>, i: nat): string
    requires i < |calls|
  {
    Turns(e, After(e, calls[..i]), Segments(calls[i]), |Segments(calls[i])|).0
  }

  /** One call for one of some paths without a clash, on a cache of theirs. */
  lemma {:induction false} TurnsAreRight(e: Engine, paths: iset<string>, folders: seq<Cached>, path: string, n: nat)
    requires IsEngine(e) && Separate(e, paths) && CacheOk(e, paths, folders) && path in paths && n <= |Segments(path)|
    ensures var t := Turns(e, folders, Segments(path), n);
      t.0 == Uncached(e, Segments(path)[..n]) && CacheOk(e, paths, t.1)
  {
    hide IsEngine, Separate, CacheOk, Uncached, Find, Remember, Tag, Plain;
    var segments := Segments(path);
    if n == 0 {
      NothingYet(e);
    } else {
      TurnsAreRight(e, paths, folders, path, n - 1);
      PrefixSteps(e, segments, n - 1);
      if n < |segments| {
        var before := Turns(e, folders, segments, n - 1).1;
        FindIsUncached(e, paths, before, path, n);
        RememberKeeps(e, paths, before, path, n);
      }
    }
  }

  /** Calls one after another for paths without a clash get their uncached forms. */
  lemma {:induction false} SequenceIsRight(e: Engine, calls: seq<string>, paths: iset<string>)
    requires IsEngine(e) && Separate(e, paths) && forall p :: p in calls ==> p in paths
    ensures CacheOk(e, paths, After(e, calls))
    ensures forall i :: 0 <= i < |calls| ==> Answer(e, calls, i) == Uncached(e, Segments(calls[i]))
  {
    hide IsEngine, Separate, Uncached, Turns;
    if calls != [] {
      var n := |calls| - 1;
      var before := calls[..n];
      SequenceIsRight(e, before, paths);
      TurnsAreRight(e, paths, After(e, before), calls[n], |Segments(calls[n])|);
      assert Segments(calls[n])[..|Segments(calls[n])|] == Segments(calls[n]);
      forall i | 0 <= i < |calls| ensures Answer(e, calls, i) == Uncached(e, Segments(calls[i])) {
        if i < n {
          assert before[..i] == calls[..i] && before[i] == calls[i] && Answer(e, calls, i) == Answer(e, before, i);
        }
      }
    }
  }

  ghost function PathsOf(calls: seq<string>): iset<string> { iset p | p in calls }

  lemma AfterNone(e: Engine, calls: seq<string>)
    ensures After(e, calls[..0]) == []
  {
  }

  lemma AfterMore(e: Engine, calls: seq<string>, n: nat)
    requires n < |calls|
    ensures (Answer(e, calls, n), After(e, calls[..n + 1])) ==
            Turns(e, After(e, calls[..n]), Segments(calls[n]), |Segments(calls[n])|)
  {
    hide Turns;
    assert calls[..n + 1][..n] == calls[..n];
  }

  /** A call that nothing comes in between of. */
  method WireAlone(tags: Tags, path: string) returns (wire: Option<string>, ghost full: string)
    requires IsEngine(tags.e) && |tags.folders| <= MAX_CACHED_FOLDERS
    modifies tags
    ensures wire == Checked(full) && |tags.folders| <= MAX_CACHED_FOLDERS
    ensures (full, tags.folders) == Turns(tags.e, old(tags.folders), Segments(path), |Segments(path)|)
  {
    hide IsEngine, Turns, Checked, Sound, Segments;
    var none: Others := i => None;
    assert forall n: nat :: none(n).None?;
    wire, full := tags.Wire(path, none, iset{});
  }

  /** Calls one after another: each finds what those before it left, and the cache stays bounded. */
  method WireEach(tags: Tags, calls: seq<string>) returns (wires: seq<Option<string>>)
    requires IsEngine(tags.e) && tags.folders == []
    modifies tags
    ensures |tags.folders| <= MAX_CACHED_FOLDERS && |wires| == |calls|
    ensures forall i :: 0 <= i < |calls| ==> wires[i] == Checked(Answer(tags.e, calls, i))
  {
    hide IsEngine, IsPortableForm, Turns, Checked, After, Answer, Segments, HasIssue;
    wires := [];
    AfterNone(tags.e, calls);
    for n := 0 to |calls|
      invariant |wires| == n && |tags.folders| <= MAX_CACHED_FOLDERS && tags.folders == After(tags.e, calls[..n])
      invariant forall i :: 0 <= i < n ==> wires[i] == Checked(Answer(tags.e, calls, i))
    {
      var wire;
      ghost var full;
      wire, full := WireAlone(tags, calls[n]);
      AfterMore(tags.e, calls, n);
      wires := wires + [wire];
    }
  }

  /** Calls one after another: the cache stays bounded, and without a clash each returns its uncached form. */
  method WireAll(tags: Tags, calls: seq<string>) returns (wires: seq<Option<string>>)
    requires IsEngine(tags.e) && tags.folders == []
    modifies tags
    ensures |tags.folders| <= MAX_CACHED_FOLDERS && |wires| == |calls|
    ensures forall i :: 0 <= i < |calls| ==> wires[i] == Checked(Answer(tags.e, calls, i))
    ensures Separate(tags.e, PathsOf(calls)) ==>
      forall i :: 0 <= i < |calls| ==> wires[i] == Checked(Uncached(tags.e, Segments(calls[i])))
  {
    wires := WireEach(tags, calls);
    if Separate(tags.e, PathsOf(calls)) { SequenceIsRight(tags.e, calls, PathsOf(calls)); }
  }

  // ---------- a hidden path spoils others ----------

  lemma {:induction false} PutFinds(folders: seq<Cached>, folder: string, wire: string, other: string)
    ensures Find(Put(folders, folder, wire), other) == if other == folder then Some(wire) else Find(folders, other)
    ensures |Put(folders, folder, wire)| <= |folders| + 1
  {
    if folders != [] && folders[0].folder != folder { PutFinds(folders[1..], folder, wire, other); }
  }

  /** Behind the empty segment a path's next folder is remembered under its name alone, with two tags. */
  lemma HiddenRemembers(e: Engine, segments: seq<string>)
    requires IsEngine(e) && Hidden(segments) && segments[1] != ""
    ensures var (wire, folders) := Turns(e, [], segments, 2);
      && |folders| == 2 && Find(folders, e.key(segments[1])) == Some(wire) && wire != "" && Slashes(wire) == 1
  {
    var name := segments[1];
    assert segments[..0] == [] && segments[..1] == [""] && Plain([""]) == "" && Extend("", name) == name;
    var tag := Tag(e, "", "");
    assert Turns(e, [], segments, 0) == ("", []);
    assert Turns(e, [], segments, 1) == (tag, [Cached("", tag)]) by { assert Extend("", tag) == tag; }
    ExtendSlashes(e, "", "", "");
    ExtendSlashes(e, tag, "", name);
    assert Extend("", tag) == tag && Slashes("") == 0;
    var wire := Extend(tag, Tag(e, "", name));
    assert Find([Cached("", tag)], e.key(name)) == None;
    assert [Cached("", tag)][1..] == [] && Put([], e.key(name), wire) == [Cached(e.key(name), wire)];
  }

  /** Deeper folders have other cache keys. */
  lemma DeeperKey(e: Engine, segments: seq<string>, n: nat)
    requires IsEngine(e) && SlashFree(segments) && Hidden(segments) && segments[1] != "" && 2 < n <= |segments|
    ensures e.key(Plain(segments[..n])) != e.key(segments[1])
  {
    PlainDropsEmpty(segments[..n]);
    var names := segments[..n][1..];
    assert names[0] == segments[1];
    assert Plain([segments[1]]) == segments[1] by { assert [segments[1]][..0] == []; }
    if e.key(Plain(names)) == e.key(segments[1]) { FirstNames(e, names, [segments[1]]); }
  }

  /** It stays in the cache unless that many more folders follow. */
  lemma {:induction false} HiddenStays(e: Engine, segments: seq<string>, n: nat)
    requires IsEngine(e) && SlashFree(segments) && Hidden(segments) && segments[1] != "" && 2 <= n <= |segments|
    requires |segments| <= MAX_CACHED_FOLDERS + 1
    ensures var folders := Turns(e, [], segments, n).1; var found := Find(folders, e.key(segments[1]));
      |folders| <= n && (n == |segments| ==> |folders| < n) && found.Some? && found.value != ""
        && Slashes(found.value) == 1
  {
    hide IsEngine, Slashes, Find, Put;
    if n == 2 {
      HiddenRemembers(e, segments);
    } else {
      HiddenStays(e, segments, n - 1);
      DeeperKey(e, segments, n);
      PrefixSteps(e, segments, n - 1);
      var before := Turns(e, [], segments, n - 1);
      var folder := e.key(Plain(segments[..n]));
      var wire := Extend(before.0, Tag(e, Plain(segments[..n - 1]), segments[n - 1]));
      PutFinds(before.1, folder, wire, e.key(segments[1]));
      hide Plain, Tag;
    }
  }

  /** A path that begins with a slash and holds a folder spoils the next call for a path in that folder. */
  lemma HiddenSpoilsAnchored(e: Engine, path: string, last: string)
    requires IsEngine(e) && Hidden(Segments(path)) && Segments(path)[1] != "" && '/' !in last
    requires |Segments(path)| <= MAX_CACHED_FOLDERS + 1
    ensures var other := Segments(path)[1] + "/" + last; var calls := [path, other];
      Anchored(Segments(other)) && Answer(e, calls, 0) == Uncached(e, Segments(path))
      && Answer(e, calls, 1) != Uncached(e, Segments(other))
  {
    var segments := Segments(path);
    var name := segments[1];
    var other := name + "/" + last;
    SegmentsMore(name, last);
    SegmentsOne(last);
    AloneIsRight(e, path);
    var cache := Turns(e, [], segments, |segments|).1;
    HiddenStays(e, segments, |segments|);
    SpoiledCall(e, cache, name, last);
    assert Segments(other) == [name, last];
    AfterOne(e, path, other);
  }

  /** Its own calls are right. */
  lemma AloneIsRight(e: Engine, path: string)
    requires IsEngine(e) && Hidden(Segments(path)) && Segments(path)[1] != ""
    ensures Turns(e, [], Segments(path), |Segments(path)|).0 == Uncached(e, Segments(path))
  {
    TurnsAreRight(e, iset{path}, [], path, |Segments(path)|);
    assert Segments(path)[..|Segments(path)|] == Segments(path);
  }

  lemma SpoiledCall(e: Engine, cache: seq<Cached>, name: string, last: string)
    requires IsEngine(e)
    requires var found := Find(cache, e.key(name)); found.Some? && found.value != "" && Slashes(found.value) == 1
    ensures Turns(e, cache, [name, last], 2).0 != Uncached(e, [name, last])
  {
    var segments := [name, last];
    var wire := Find(cache, e.key(name)).value;
    assert segments[..0] == [] && segments[..1] == [name] && Plain([]) == "" && Extend("", name) == name;
    assert Turns(e, cache, segments, 0) == ("", cache);
    assert Turns(e, cache, segments, 1) == (wire, cache);
    ExtendSlashes(e, wire, Plain([name]), last);
    UncachedSlashes(e, segments);
  }

  lemma AfterOne(e: Engine, path: string, other: string)
    ensures After(e, [path]) == Turns(e, [], Segments(path), |Segments(path)|).1
    ensures Answer(e, [path, other], 0) == Turns(e, [], Segments(path), |Segments(path)|).0
    ensures Answer(e, [path, other], 1) == Turns(e, After(e, [path]), Segments(other), |Segments(other)|).0
  {
    hide Turns;
    assert [path][..0] == [] && [path, other][..0] == [] && [path, other][..1] == [path];
  }
}
