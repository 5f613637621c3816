/**
 The journaled plugin install (install.ts of crate-update) over a small file system. A process may stop
 between any two adapter calls or inside a write, which then leaves any content; renaming is atomic.
 A restarted process finishes a journaled install before anything else (sync.ts).
 */
module PluginInstall {
  import opened Common

  datatype Name = Styles | Main | Manifest

  /** Install order. */
  const FILES := [Styles, Main, Manifest]

  /** What a file holds. `Record` is the JSON text of a journal. */
  datatype Content = Text(text: string) | Record(version: string, hashes: map<Name, string>)

  /** The files of the staging folder. */
  datatype Entry = Staged(name: Name) | Journal | JournalTmp | Unrelated(path: string)

  type Files = map<Name, Content>

  datatype Bundle = Bundle(version: string, contents: Files, hashes: map<Name, string>)

  /** What stays fixed: the checksum, and which versions a journal may carry. */
  datatype Rules = Rules(sha256: Content -> string, isVersion: string -> bool)

  ghost predicate All<T>(m: map<Name, T>) {
    Styles in m && Main in m && Manifest in m
  }

  predicate ReadableJournal(rules: Rules, c: Content) {
    c.Record? && rules.isVersion(c.version) && Styles in c.hashes && Main in c.hashes && Manifest in c.hashes
  }

  /** Do the staged files match these checksums? */
  predicate Verified(rules: Rules, staging: map<Entry, Content>, hashes: map<Name, string>) {
    forall name :: name in FILES ==>
      Staged(name) in staging && name in hashes && rules.sha256(staging[Staged(name)]) == hashes[name]
  }

  /** A staging folder whose journal commits an install. */
  predicate Commits(rules: Rules, staging: Option<map<Entry, Content>>) {
    staging.Some? && Journal in staging.value && ReadableJournal(rules, staging.value[Journal])
  }

  /** The files that are still staged are the bundle's. */
  ghost predicate OnlyHolds(staging: map<Entry, Content>, b: Bundle)
    requires All(b.contents)
  {
    forall name :: name in FILES && Staged(name) in staging ==> staging[Staged(name)] == b.contents[name]
  }

  /**
   * Between two releases. Without a committed journal the plugin is one of them as a whole. With one, the
   * journal names the new release, and either its verified files are all staged or the plugin is already it.
   */
  ghost predicate Sound(rules: Rules, plugin: Files, staging: Option<map<Entry, Content>>, before: Files, b: Bundle) {
    && All(plugin) && All(b.contents) && All(b.hashes)
    && if Commits(rules, staging) then
         && staging.value[Journal] == Record(b.version, b.hashes) && OnlyHolds(staging.value, b)
         && (Verified(rules, staging.value, b.hashes) || plugin == b.contents)
       else plugin == before || plugin == b.contents
  }

  lemma SameFiles(a: Files, b: Files)
    requires All(a) && All(b) && a[Styles] == b[Styles] && a[Main] == b[Main] && a[Manifest] == b[Manifest]
    ensures a == b
  {
    forall name: Name ensures name in a && name in b && a[name] == b[name] {
      match name case Styles => case Main => case Manifest =>
    }
  }

  /** The bundle's checksums are those of its files. */
  ghost predicate HasItsHashes(rules: Rules, b: Bundle)
    requires All(b.contents) && All(b.hashes)
  {
    forall name :: name in FILES ==> rules.sha256(b.contents[name]) == b.hashes[name]
  }

  datatype Outcome = Stopped | Failed | Nothing | Installed

  class Host {
    const rules: Rules
    var plugin: Files
    var staging: Option<map<Entry, Content>>
    /** Adapter calls until this process stops, and what a write that it stops in leaves behind, if anything. */
    var calls: nat
    var torn: Option<Content>

    constructor (rules: Rules, plugin: Files)
      ensures this.rules == rules && this.plugin == plugin && staging == None
    {
      this.rules, this.plugin := rules, plugin;
      staging, calls, torn := None, 0, None;
    }

    /** One adapter call, unless the process stops before it. */
    method Tick() returns (alive: bool)
      modifies `calls
      ensures alive == (old(calls) > 0) && (!alive ==> calls == 0)
    {
      alive := calls > 0;
      if alive { calls := calls - 1; }
    }

    method WritePlugin(name: Name, content: Content) returns (outcome: Outcome)
      modifies `plugin, `calls
      ensures outcome == Stopped || outcome == Nothing
      ensures outcome == Nothing ==> plugin == old(plugin)[name := content]
      ensures outcome == Stopped ==> calls == 0
      ensures outcome == Stopped ==> plugin == if torn.Some? then old(plugin)[name := torn.value] else old(plugin)
    {
      var alive := Tick();
      if alive {
        plugin, outcome := plugin[name := content], Nothing;
      } else {
        if torn.Some? { plugin := plugin[name := torn.value]; }
        outcome := Stopped;
      }
    }

    method WriteStaged(entry: Entry, content: Content) returns (outcome: Outcome)
      requires staging.Some?
      modifies `staging, `calls
      ensures staging.Some? && (outcome == Stopped || outcome == Nothing)
      ensures outcome == Nothing ==> staging.value == old(staging.value)[entry := content]
      ensures outcome == Stopped ==> calls == 0
      ensures outcome == Stopped ==> staging.value == if torn.Some? then old(staging.value)[entry := torn.value]
        else old(staging.value)
    {
      var alive := Tick();
      if alive {
        staging, outcome := Some(staging.value[entry := content]), Nothing;
      } else {
        if torn.Some? { staging := Some(staging.value[entry := torn.value]); }
        outcome := Stopped;
      }
    }

    /** `clearStaging`, with the files removed in any order. */
    method ClearStaging(ghost before: Files, ghost b: Bundle) returns (outcome: Outcome)
      requires Sound(rules, plugin, staging, before, b)
      requires Commits(rules, staging) ==> plugin == b.contents
      modifies `staging, `calls
      ensures Sound(rules, plugin, staging, before, b) && (Commits(rules, staging) ==> plugin == b.contents)
      ensures outcome == Stopped || outcome == Nothing
      ensures outcome == Nothing ==> staging == None
      ensures outcome == Stopped ==> calls == 0
    {
      var alive := Tick();
      if !alive { return Stopped; }
      if staging.None? { return Nothing; }
      alive := Tick();
      if !alive { return Stopped; }
      var files := staging.value.Keys;
      while files != {}
        invariant staging.Some? && files == staging.value.Keys
        invariant Sound(rules, plugin, staging, before, b) && (Commits(rules, staging) ==> plugin == b.contents)
        decreases |files|
      {
        var file :| file in files;
        alive := Tick();
        if !alive { return Stopped; }
        ghost var was := staging.value;
        staging := Some(staging.value - {file});
        files := files - {file};
        assert Journal in staging.value ==> staging.value[Journal] == was[Journal];
      }
      alive := Tick();
      if !alive { return Stopped; }
      staging := None;
      outcome := Nothing;
    }

    /** `readVerifiedStaging` */
    method ReadVerifiedStaging(hashes: map<Name, string>) returns (outcome: Outcome, staged: map<Name, Content>)
      requires staging.Some? && All(hashes)
      modifies `calls
      ensures outcome == Stopped || outcome == Failed || outcome == Nothing
      ensures outcome == Nothing ==>
        && Verified(rules, staging.value, hashes)
        && forall name :: name in FILES ==> name in staged && staged[name] == staging.value[Staged(name)]
      ensures outcome == Failed ==> !Verified(rules, staging.value, hashes)
      ensures outcome == Stopped ==> calls == 0
    {
      staged := map[];
      for i := 0 to |FILES|
        invariant forall j :: 0 <= j < i ==>
          && Staged(FILES[j]) in staging.value && rules.sha256(staging.value[Staged(FILES[j])]) == hashes[FILES[j]]
          && FILES[j] in staged && staged[FILES[j]] == staging.value[Staged(FILES[j])]
      {
        var name := FILES[i];
        var alive := Tick();
        if !alive { return Stopped, staged; }
        if Staged(name) !in staging.value || rules.sha256(staging.value[Staged(name)]) != hashes[name] {
          assert name in FILES;
          return Failed, staged;
        }
        staged := staged[name := staging.value[Staged(name)]];
      }
      outcome := Nothing;
    }

    /**
     * `resumeCrateUpdate`. However far it gets, the plugin stays recoverable; when it ends by itself the
     * plugin is one release as a whole, the journaled one if there was a committed journal.
     */
    method Resume(ghost before: Files, ghost b: Bundle) returns (outcome: Outcome)
      requires Sound(rules, plugin, staging, before, b)
      modifies `plugin, `staging, `calls
      ensures Sound(rules, plugin, staging, before, b)
      ensures outcome != Stopped ==> staging == None && (plugin == before || plugin == b.contents)
      ensures outcome != Stopped && old(Commits(rules, staging)) ==> plugin == b.contents
      ensures outcome == Installed ==> plugin == b.contents
      ensures outcome != Stopped && old(!Commits(rules, staging)) ==> plugin == old(plugin) && outcome == Nothing
      ensures outcome != Stopped && old(Commits(rules, staging) && Verified(rules, staging.value, b.hashes)) ==>
        outcome == Installed
      ensures outcome == Stopped ==> calls == 0
    {
      var alive := Tick();
      if !alive { return Stopped; }
      if staging.None? { return Nothing; }
      alive := Tick();
      if !alive { return Stopped; }
      if Journal !in staging.value {
        outcome := ClearStaging(before, b);
        return;
      }
      alive := Tick();
      if !alive { return Stopped; }
      if !ReadableJournal(rules, staging.value[Journal]) {
        outcome := ClearStaging(before, b);
        return;
      }
      var staged;
      outcome, staged := ReadVerifiedStaging(staging.value[Journal].hashes);
      if outcome == Stopped { return; }
      if outcome == Failed {
        outcome := ClearStaging(before, b);
        if outcome != Stopped { outcome := Failed; }
        return;
      }
      outcome := Rewrite(staged, before, b);
      if outcome == Stopped { return; }
      outcome := ClearStaging(before, b);
      if outcome != Stopped { outcome := Installed; }
    }

    /** Rewrites every target from its staged copy. */
    method Rewrite(staged: map<Name, Content>, ghost before: Files, ghost b: Bundle) returns (outcome: Outcome)
      requires Sound(rules, plugin, staging, before, b) && Commits(rules, staging)
      requires Verified(rules, staging.value, b.hashes)
      requires forall name :: name in FILES ==> name in staged && staged[name] == staging.value[Staged(name)]
      modifies `plugin, `calls
      ensures Sound(rules, plugin, staging, before, b)
      ensures outcome == Stopped || outcome == Nothing
      ensures outcome == Nothing ==> plugin == b.contents
      ensures outcome == Stopped ==> calls == 0
    {
      for i := 0 to |FILES|
        invariant Sound(rules, plugin, staging, before, b)
        invariant forall j :: 0 <= j < i ==> plugin[FILES[j]] == b.contents[FILES[j]]
      {
        assert FILES[i] in FILES;
        outcome := WritePlugin(FILES[i], staged[FILES[i]]);
        if outcome == Stopped { return; }
      }
      assert plugin[FILES[0]] == b.contents[Styles] && plugin[FILES[1]] == b.contents[Main]
        && plugin[FILES[2]] == b.contents[Manifest];
      SameFiles(plugin, b.contents);
      outcome := Nothing;
    }

    /** Stages the bundle's files and checks what was written. */
    method Stage(b: Bundle, ghost before: Files) returns (outcome: Outcome)
      requires All(plugin) && All(b.contents) && All(b.hashes) && plugin == before
      requires staging.Some? && Journal !in staging.value
      modifies `staging, `calls
      ensures staging.Some? && Journal !in staging.value
      ensures outcome == Stopped || outcome == Failed || outcome == Nothing
      ensures outcome == Nothing ==> Verified(rules, staging.value, b.hashes) && OnlyHolds(staging.value, b)
      ensures outcome == Failed ==> !HasItsHashes(rules, b)
      ensures outcome == Stopped ==> calls == 0
    {
      for i := 0 to |FILES|
        invariant staging.Some? && Journal !in staging.value
        invariant forall j :: 0 <= j < i ==>
          Staged(FILES[j]) in staging.value && staging.value[Staged(FILES[j])] == b.contents[FILES[j]]
      {
        outcome := WriteStaged(Staged(FILES[i]), b.contents[FILES[i]]);
        if outcome == Stopped { return; }
      }
      assert staging.value[Staged(FILES[0])] == b.contents[Styles]
        && staging.value[Staged(FILES[1])] == b.contents[Main]
        && staging.value[Staged(FILES[2])] == b.contents[Manifest];
      var staged;
      outcome, staged := ReadVerifiedStaging(b.hashes);
    }

    /** Writes the journal beside its name and renames it into place. */
    method Commit(b: Bundle, ghost before: Files) returns (outcome: Outcome)
      requires Sound(rules, plugin, staging, before, b) && plugin == before
      requires staging.Some? && Journal !in staging.value
      requires Verified(rules, staging.value, b.hashes) && OnlyHolds(staging.value, b)
      modifies `staging, `calls
      ensures Sound(rules, plugin, staging, before, b) && staging.Some?
      ensures outcome == Stopped || outcome == Nothing
      ensures outcome == Nothing ==> Journal in staging.value && staging.value[Journal] == Record(b.version, b.hashes)
      ensures outcome == Stopped ==> calls == 0
    {
      outcome := WriteStaged(JournalTmp, Record(b.version, b.hashes));
      if outcome == Stopped { return; }
      var alive := Tick();
      if !alive { return Stopped; }
      staging := Some((staging.value - {JournalTmp})[Journal := staging.value[JournalTmp]]);
    }

    /**
     * `installCrateUpdate`. It begins without a committed journal, since the process has resumed before.
     * Wherever it stops, the plugin stays recoverable; ended by itself it has installed the bundle, or
     * changed nothing because a staged file or the version was not acceptable.
     */
    method Install(b: Bundle, ghost before: Files) returns (outcome: Outcome)
      requires All(plugin) && All(b.contents) && All(b.hashes) && plugin == before && !Commits(rules, staging)
      modifies `plugin, `staging, `calls
      ensures Sound(rules, plugin, staging, before, b)
      ensures outcome != Stopped ==> !Commits(rules, staging) && (plugin == before || plugin == b.contents)
      ensures outcome == Nothing ==> staging == None && (rules.isVersion(b.version) ==> plugin == b.contents)
      ensures outcome == Failed ==> plugin == before && !HasItsHashes(rules, b)
      ensures outcome != Installed
      ensures outcome == Stopped ==> calls == 0
    {
      outcome := ClearStaging(before, b);
      if outcome == Stopped { return; }
      var alive := Tick();
      if !alive { return Stopped; }
      staging := Some(map[]);
      outcome := Stage(b, before);
      if outcome != Nothing { return; }
      outcome := Commit(b, before);
      if outcome == Stopped { return; }
      outcome := Resume(before, b);
      if outcome != Stopped { outcome := Nothing; }
    }
  }

  /** One life of the process: how many calls it gets, what a torn write leaves, and what it is asked to install. */
  datatype Session = Session(calls: nat, torn: Option<Content>, bundles: seq<Bundle>)

  ghost predicate Complete(b: Bundle) { All(b.contents) && All(b.hashes) }

  /** Was the plugin one of these releases as a whole? */
  ghost predicate IsRelease(files: Files, first: Files, sessions: seq<Session>) {
    files == first ||
      exists i, j :: 0 <= i < |sessions| && 0 <= j < |sessions[i].bundles| && files == sessions[i].bundles[j].contents
  }

  /**
   * Any number of processes, each resuming before it installs and each stopping anywhere. Whenever the last
   * one has finished its resume, the plugin is one release as a whole: the first or an installed one.
   */
  method Lives(host: Host, sessions: seq<Session>, last: Session) returns (outcome: Outcome)
    requires All(host.plugin) && host.staging == None
    requires forall i, j :: 0 <= i < |sessions| && 0 <= j < |sessions[i].bundles| ==> Complete(sessions[i].bundles[j])
    modifies host
    ensures outcome != Stopped ==> host.staging == None && IsRelease(host.plugin, old(host.plugin), sessions)
  {
    ghost var first := host.plugin;
    ghost var before, next := first, Bundle("", first, map[Styles := "", Main := "", Manifest := ""]);
    for i := 0 to |sessions|
      invariant Sound(host.rules, host.plugin, host.staging, before, next)
      invariant IsRelease(before, first, sessions) && IsRelease(next.contents, first, sessions)
    {
      var finished;
      finished, before, next := Live(host, sessions, i, sessions[i], first, before, next);
    }
    host.calls, host.torn := last.calls, last.torn;
    outcome := host.Resume(before, next);
  }

  /** One process: it resumes, and then installs one bundle after another unless it stops. One that gets through
      leaves the last bundle installed, if its checksums are right and it has a version. */
  method Live(host: Host, ghost sessions: seq<Session>, ghost i: nat, session: Session, ghost first: Files,
    ghost before0: Files, ghost next0: Bundle)
    returns (finished: bool, ghost before: Files, ghost next: Bundle)
    requires i < |sessions| && session == sessions[i] && forall j :: 0 <= j < |session.bundles| ==>
      Complete(session.bundles[j])
    requires Sound(host.rules, host.plugin, host.staging, before0, next0)
    requires IsRelease(before0, first, sessions) && IsRelease(next0.contents, first, sessions)
    modifies host
    ensures Sound(host.rules, host.plugin, host.staging, before, next)
    ensures IsRelease(before, first, sessions) && IsRelease(next.contents, first, sessions)
    ensures !finished ==> host.calls == 0
    ensures finished && session.bundles != [] ==> LeftInstalled(host, session.bundles[|session.bundles| - 1])
  {
    finished, before, next := false, before0, next0;
    host.calls, host.torn := session.calls, session.torn;
    var outcome := host.Resume(before, next);
    if outcome == Stopped { return; }
    for j := 0 to |session.bundles|
      invariant Sound(host.rules, host.plugin, host.staging, before, next) && !Commits(host.rules, host.staging)
      invariant IsRelease(before, first, sessions) && IsRelease(next.contents, first, sessions)
      invariant j > 0 ==> LeftInstalled(host, session.bundles[j - 1])
    {
      before, next := host.plugin, session.bundles[j];
      outcome := host.Install(session.bundles[j], before);
      if outcome == Stopped { return; }
    }
    finished := true;
  }

  ghost predicate LeftInstalled(host: Host, b: Bundle)
    reads host
  {
    Complete(b) && HasItsHashes(host.rules, b) && host.rules.isVersion(b.version) ==> host.plugin == b.contents
  }
}
