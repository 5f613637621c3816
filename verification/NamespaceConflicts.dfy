/** The index that finds a path's conflicts (namespace-conflicts.ts), and the check of a whole path set
    (`assertPortablePaths` in portable-path.ts), both against the pairwise definition. */
module NamespaceConflicts {
  import opened Common
  import opened Paths

  // ---------- the pairwise definition ----------

  /** Two different paths that cannot both be files: one portable form, or one inside the other. */
  predicate Conflict(key: string -> string, path: string, other: string) {
    || (key(path) == key(other) && path != other)
    || Above(key(other), key(path))
    || Above(key(path), key(other))
  }

  /** For paths that sync accepts, one lies inside the other exactly if its key begins with the other's as a
      folder. */
  lemma AboveIsFolder(key: string -> string, p: string, q: string)
    requires IsPortableForm(key) && !HasIssue(p) && !HasIssue(q)
    ensures Above(key(q), key(p)) <==> key(q) + "/" <= key(p)
  {
    var first := Segments(p)[0];
    assert first != "";
    KeyBegins(key, p);
    if key(q) + "/" <= key(p) { assert key(p)[|key(q)|] == '/' && key(p)[..|key(q)|] == key(q); }
  }

  /** The key of a path that sync accepts does not begin with a slash. */
  lemma KeyBegins(key: string -> string, p: string)
    requires IsPortableForm(key) && !HasIssue(p)
    ensures key(p) != "" && key(p)[0] != '/'
  {
    var name := Segments(p)[0];
    FirstSegment(p);
    assert name != "" && key(name) != "" && '/' !in key(name);
    assert key(name)[0] in key(name);
    if name != p { assert key(p) == key(name) + "/" + key(p[|name| + 1..]); }
  }

  predicate Portable(key: string -> string, paths: seq<string>) {
    && (forall i :: 0 <= i < |paths| ==> !HasIssue(paths[i]))
    && (forall i, j :: 0 <= i < |paths| && 0 <= j < |paths| ==> !Conflict(key, paths[i], paths[j]))
  }

  // ---------- the index ----------

  datatype Index = Index(byKey: map<string, seq<string>>, byFolder: map<string, string>)

  /** Every path under its key, and for every ancestor folder of a key a path inside it. */
  ghost predicate Indexes(key: string -> string, paths: seq<string>, byKey: map<string, seq<string>>,
    byFolder: map<string, string>) {
    && (forall k, p :: k in byKey && p in byKey[k] ==> key(p) == k && p in paths)
    && (forall k :: k in byKey ==> byKey[k] != [])
    && (forall p :: p in paths ==> key(p) in byKey && p in byKey[key(p)])
    && (forall f :: f in byFolder ==> byFolder[f] in paths && Above(f, key(byFolder[f])))
  }

  /** Is every ancestor folder of these paths indexed? */
  ghost predicate Folders(key: string -> string, paths: seq<string>, byFolder: map<string, string>) {
    forall p, f :: p in paths && Above(f, key(p)) ==> f in byFolder
  }

  /** Adds the ancestor folders of one path. */
  method AddFolders(k: string, path: string, byFolder0: map<string, string>) returns (byFolder: map<string, string>)
    ensures forall f :: f in byFolder <==> f in byFolder0 || Above(f, k)
    ensures forall f :: f in byFolder ==> byFolder[f] == if f in byFolder0 then byFolder0[f] else path
  {
    byFolder := byFolder0;
    var slash := SlashFrom(k, 0);
    if slash == 0 { return; }
    assert slash < 0 ==> forall f :: !Above(f, k);
    while slash > 0
      invariant -1 <= slash < |k| && (slash >= 0 ==> k[slash] == '/' && k[0] != '/')
      invariant forall f :: f in byFolder <==> f in byFolder0 || (Above(f, k) && (slash < 0 || |f| < slash))
      invariant forall f :: f in byFolder ==> byFolder[f] == if f in byFolder0 then byFolder0[f] else path
      decreases if slash < 0 then 0 else |k| - slash
    {
      var folder := k[..slash];
      if folder !in byFolder { byFolder := byFolder[folder := path]; }
      slash := SlashFrom(k, slash + 1);
    }
  }

  /** Builds the index of `namespaceConflictLookup`. */
  method BuildIndex(key: string -> string, paths: seq<string>) returns (index: Index)
    ensures Indexes(key, paths, index.byKey, index.byFolder) && Folders(key, paths, index.byFolder)
  {
    var byKey: map<string, seq<string>> := map[];
    var byFolder: map<string, string> := map[];
    for n := 0 to |paths|
      invariant Indexes(key, paths[..n], byKey, byFolder) && Folders(key, paths[..n], byFolder)
    {
      var path, k := paths[n], key(paths[n]);
      ghost var before := byFolder;
      assert paths[..n + 1] == paths[..n] + [path];
      byKey := byKey[k := if k in byKey then byKey[k] + [path] else [path]];
      byFolder := AddFolders(k, path, byFolder);
    }
    assert paths[..|paths|] == paths;
    index := Index(byKey, byFolder);
  }

  /** The first of some paths that is not the given one. */
  method FindOther(paths: seq<string>, path: string) returns (other: Option<string>)
    ensures other.Some? ==> other.value in paths && other.value != path
    ensures other.None? ==> forall p :: p in paths ==> p == path
  {
    for n := 0 to |paths|
      invariant forall i :: 0 <= i < n ==> paths[i] == path
    {
      if paths[n] != path { return Some(paths[n]); }
    }
    other := None;
  }

  /** Looks for a file at one of the path's folders. */
  method FileAbove(key: string -> string, ghost paths: seq<string>, index: Index, k: string)
    returns (found: Option<string>)
    requires Indexes(key, paths, index.byKey, index.byFolder)
    ensures found.None? ==> forall p :: p in paths ==> !Above(key(p), k)
    ensures found.Some? ==> found.value in paths && Above(key(found.value), k)
  {
    var slash := SlashFrom(k, 0);
    while slash > 0
      invariant -1 <= slash < |k| && (slash > 0 ==> k[slash] == '/' && k[0] != '/')
      invariant forall p :: p in paths && Above(key(p), k) ==> slash > 0 && |key(p)| >= slash
      decreases if slash < 0 then 0 else |k| - slash
    {
      if k[..slash] in index.byKey {
        var file := index.byKey[k[..slash]][0];
        assert file in index.byKey[k[..slash]];
        return Some(file);
      }
      slash := SlashFrom(k, slash + 1);
    }
    found := None;
  }

  /** The lookup: nothing exactly when no indexed path conflicts, else one that does. */
  method Lookup(key: string -> string, ghost paths: seq<string>, index: Index, path: string)
    returns (found: Option<string>)
    requires Indexes(key, paths, index.byKey, index.byFolder) && Folders(key, paths, index.byFolder)
    ensures found.None? <==> forall p :: p in paths ==> !Conflict(key, path, p)
    ensures found.Some? ==> found.value in paths && Conflict(key, path, found.value)
  {
    var k := key(path);
    if k in index.byKey {
      found := FindOther(index.byKey[k], path);
      if found.Some? {
        assert found.value in index.byKey[k];
        assert Conflict(key, path, found.value);
        return;
      }
    }
    assert forall p :: p in paths && key(p) == k ==> p in index.byKey[k];
    if k in index.byFolder {
      found := Some(index.byFolder[k]);
      assert Conflict(key, path, found.value);
      return;
    }
    found := FileAbove(key, paths, index, k);
    if found.Some? { assert Conflict(key, path, found.value); }
  }

  // ---------- the check of a path set ----------

  /** Are all these files portable among themselves, by key? */
  ghost predicate Gathered(key: string -> string, paths: seq<string>, files: map<string, string>) {
    && (forall p :: p in paths ==> key(p) in files && files[key(p)] == p && !HasIssue(p))
    && (forall k :: k in files ==> files[k] in paths && key(files[k]) == k)
  }

  /** One file against all the others: is it inside one of them? */
  method InsideAnother(files: map<string, string>, k: string) returns (inside: bool)
    ensures inside <==> exists a :: a in files && Above(a, k)
  {
    var slash := SlashFrom(k, 0);
    while slash > 0
      invariant -1 <= slash < |k| && (slash > 0 ==> k[slash] == '/' && k[0] != '/')
      invariant forall a :: a in files && Above(a, k) ==> slash > 0 && |a| >= slash
      decreases if slash < 0 then 0 else |k| - slash
    {
      if k[..slash] in files {
        assert Above(k[..slash], k);
        return true;
      }
      slash := SlashFrom(k, slash + 1);
    }
    inside := false;
  }

  /** `assertPortablePaths` accepts exactly the valid sets without a pairwise conflict. */
  method AssertPortablePaths(key: string -> string, paths: seq<string>) returns (accepted: bool)
    ensures accepted <==> Portable(key, paths)
  {
    var files: map<string, string> := map[];
    for n := 0 to |paths|
      invariant Gathered(key, paths[..n], files)
    {
      var path, k := paths[n], key(paths[n]);
      assert paths[..n + 1] == paths[..n] + [path];
      if HasIssue(path) { return false; }
      if k in files && files[k] != path {
        assert Conflict(key, path, files[k]);
        return false;
      }
      files := files[k := path];
    }
    assert paths[..|paths|] == paths;
    var left := files.Keys;
    while left != {}
      invariant left <= files.Keys
      invariant forall k, a :: k in files && k !in left && a in files ==> !Above(a, k)
      decreases |left|
    {
      var k :| k in left;
      var inside := InsideAnother(files, k);
      if inside {
        ghost var a :| a in files && Above(a, k);
        assert Conflict(key, files[k], files[a]);
        return false;
      }
      left := left - {k};
    }
    accepted := true;
  }

  /** Adding a valid path to an accepted set keeps it accepted exactly when the lookup finds nothing. */
  lemma AddingIsSafeExactlyWithoutConflict(key: string -> string, paths: seq<string>, path: string)
    requires Portable(key, paths) && !HasIssue(path)
    ensures Portable(key, paths + [path]) <==> forall p :: p in paths ==> !Conflict(key, path, p)
  {
    var more := paths + [path];
    if forall p :: p in paths ==> !Conflict(key, path, p) {
      forall i, j | 0 <= i < |more| && 0 <= j < |more| ensures !Conflict(key, more[i], more[j]) {
        if i < |paths| && j < |paths| {
          assert !Conflict(key, paths[i], paths[j]);
        } else if i < |paths| {
          assert paths[i] in paths && !Conflict(key, path, paths[i]);
        } else if j < |paths| {
          assert paths[j] in paths;
        }
      }
    } else {
      var p :| p in paths && Conflict(key, path, p);
      var i :| 0 <= i < |paths| && paths[i] == p;
      assert more[i] == p && more[|paths|] == path;
    }
  }
}
