/**
 The bucket that holds the upgrade backups and the copies they share (upgrade-checkpoint.ts,
 upgrade-backups.ts). A process may stop after any single object operation.
 */
module BackupStore {
  import opened Common
  import opened Sorting

  /** A database part: checksum and size. */
  datatype PartItem = PartItem(sha256: string, size: nat)
  /** A file that a backup lists, and a reference that the database holds: storage key, checksum and size. */
  datatype FileItem = FileItem(key: string, sha256: string, size: nat)
  datatype Manifest = Manifest(createdAt: int, parts: seq<PartItem>, objects: seq<FileItem>)

  /** Prefixes stand for the random UUID of a backup. `Other` is any key that backups do not use. */
  datatype Key =
    | Archive(prefix: nat)
    | Part(prefix: nat, sha256: string)
    | Shared(sha256: string)
    | Live(name: string)
    | Other(prefix: nat, name: string)

  /** Stored bytes; a manifest that cannot be read is `Unreadable`. */
  datatype Content = Data(bytes: string) | Readable(manifest: Manifest) | Unreadable

  type Objects = map<Key, Content>

  const SETTINGS := "__crate__/settings.json"

  ghost predicate Injective(sha256: string -> string) {
    forall a, b :: sha256(a) == sha256(b) ==> a == b
  }

  // ---------- the invariant ----------

  predicate HoldsCopy(o: Objects, sha256: string -> string, key: Key, hash: string) {
    key in o && o[key].Data? && sha256(o[key].bytes) == hash
  }

  /** The manifest's parts and shared copies are present with their checksum, the parts with their size. */
  ghost predicate ManifestPresent(o: Objects, sha256: string -> string, prefix: nat, m: Manifest) {
    && (forall p :: p in m.parts ==> HoldsCopy(o, sha256, Part(prefix, p.sha256), p.sha256))
    && (forall f :: f in m.objects ==> HoldsCopy(o, sha256, Shared(f.sha256), f.sha256))
  }

  ghost predicate SizesMatch(o: Objects, prefix: nat, m: Manifest) {
    && (forall p :: p in m.parts ==> HasSize(o, Part(prefix, p.sha256), p.size))
    && (forall f :: f in m.objects ==> HasSize(o, Shared(f.sha256), f.size))
  }

  predicate HasSize(o: Objects, key: Key, size: nat) {
    key in o && o[key].Data? ==> |o[key].bytes| == size
  }

  /** Stored objects are named by their checksum. */
  ghost predicate Addressed(o: Objects, sha256: string -> string) {
    && (forall h :: Shared(h) in o ==> HoldsCopy(o, sha256, Shared(h), h))
    && (forall p, h :: Part(p, h) in o ==> HoldsCopy(o, sha256, Part(p, h), h))
  }

  /** Every readable manifest still present has all its parts and shared copies. */
  ghost predicate StoreOk(o: Objects, sha256: string -> string) {
    && Addressed(o, sha256)
    && (forall p :: Archive(p) in o && o[Archive(p)].Readable? ==>
       ManifestPresent(o, sha256, p, o[Archive(p)].manifest))
  }

  ghost predicate SizesOk(o: Objects) {
    forall p :: Archive(p) in o && o[Archive(p)].Readable? ==> SizesMatch(o, p, o[Archive(p)].manifest)
  }

  /** Storing bytes under their own checksum. */
  lemma PutKeeps(o: Objects, sha256: string -> string, key: Key, bytes: string)
    requires Injective(sha256) && StoreOk(o, sha256)
    requires key == Shared(sha256(bytes)) || (key.Part? && key.sha256 == sha256(bytes))
    ensures StoreOk(o[key := Data(bytes)], sha256)
    ensures SizesOk(o) ==> SizesOk(o[key := Data(bytes)])
    ensures key in o ==> o[key] == Data(bytes)
  {
    var o' := o[key := Data(bytes)];
    forall p | Archive(p) in o' && o'[Archive(p)].Readable?
      ensures ManifestPresent(o', sha256, p, o'[Archive(p)].manifest)
      ensures SizesOk(o) ==> SizesMatch(o', p, o'[Archive(p)].manifest)
    {
      assert ManifestPresent(o, sha256, p, o[Archive(p)].manifest);
    }
  }

  /** Whether a manifest's sizes match depends on its checksums alone: two stores in which it is complete agree. */
  lemma SizesStay(o: Objects, o': Objects, sha256: string -> string, prefix: nat, m: Manifest)
    requires Injective(sha256) && ManifestPresent(o, sha256, prefix, m) && ManifestPresent(o', sha256, prefix, m)
    ensures SizesMatch(o, prefix, m) <==> SizesMatch(o', prefix, m)
  {
    forall p | p in m.parts
      ensures HasSize(o, Part(prefix, p.sha256), p.size) <==> HasSize(o', Part(prefix, p.sha256), p.size) {
      assert HoldsCopy(o, sha256, Part(prefix, p.sha256), p.sha256)
        && HoldsCopy(o', sha256, Part(prefix, p.sha256), p.sha256);
    }
    forall f | f in m.objects ensures HasSize(o, Shared(f.sha256), f.size) <==> HasSize(o', Shared(f.sha256), f.size) {
      assert HoldsCopy(o, sha256, Shared(f.sha256), f.sha256) && HoldsCopy(o', sha256, Shared(f.sha256), f.sha256);
    }
  }

  /** Writing a manifest whose parts and copies are all present. */
  lemma ManifestKeeps(o: Objects, sha256: string -> string, prefix: nat, m: Manifest)
    requires StoreOk(o, sha256) && ManifestPresent(o, sha256, prefix, m)
    ensures StoreOk(o[Archive(prefix) := Readable(m)], sha256)
    ensures SizesMatch(o[Archive(prefix) := Readable(m)], prefix, m) <==> SizesMatch(o, prefix, m)
    ensures SizesOk(o) ==> (SizesOk(o[Archive(prefix) := Readable(m)]) <==> SizesMatch(o, prefix, m))
  {
    var o' := o[Archive(prefix) := Readable(m)];
    forall p | Archive(p) in o' && o'[Archive(p)].Readable?
      ensures ManifestPresent(o', sha256, p, o'[Archive(p)].manifest)
    {
      if p != prefix { assert ManifestPresent(o, sha256, p, o[Archive(p)].manifest); }
    }
  }

  // ---------- writing a backup ----------

  /** A listing maps stored checksums to reported sizes; the provider may leave a size out. */
  type Listing = map<string, Option<nat>>

  predicate IsStored(stored: Listing, sha256: string, size: nat) {
    sha256 in stored && (stored[sha256] == None || stored[sha256] == Some(size))
  }

  /** What a listing taken of `before`, and the puts since, say about the shared copies. */
  ghost predicate ListingOk(before: Objects, o: Objects, omits: Key -> bool, stored: Listing) {
    && (forall h :: h in stored ==> Shared(h) in o && o[Shared(h)].Data?)
    && (forall h :: h in stored && stored[h].Some? ==> stored[h] == Some(|o[Shared(h)].bytes|))
    && (forall h :: h in stored && stored[h].None? ==> Shared(h) in before && omits(Shared(h)))
    && (forall h :: Shared(h) in before ==> h in stored && (stored[h].None? <==> omits(Shared(h))))
    && Preserves(before, o)
  }

  /** Objects that were there stay as they are. */
  ghost predicate Preserves(before: Objects, after: Objects) {
    forall k :: k in before ==> k in after && after[k] == before[k]
  }

  /** A stored object whose size is not the given one, although no listing shows that. */
  predicate Misstated(o: Objects, omits: Key -> bool, key: Key, size: nat) {
    key in o && omits(key) && !HasSize(o, key, size)
  }

  /** No part and no reference gives a wrong size to an object whose listing leaves the size out. */
  ghost predicate NoneMisstated(o: Objects, omits: Key -> bool, prefix: nat, parts: seq<PartItem>,
    refs: seq<FileItem>) {
    && (forall p :: p in parts ==> !Misstated(o, omits, Part(prefix, p.sha256), p.size))
    && (forall r :: r in refs ==> !Misstated(o, omits, Shared(r.sha256), r.size))
  }

  /** The shared copy is present, and has the listed size unless it stood already with an unlisted other one. */
  ghost predicate StoredSince(before: Objects, o: Objects, sha256: string -> string, omits: Key -> bool, f: FileItem) {
    && HoldsCopy(o, sha256, Shared(f.sha256), f.sha256)
    && (HasSize(o, Shared(f.sha256), f.size) <==> !Misstated(before, omits, Shared(f.sha256), f.size))
  }

  lemma StaysStored(before: Objects, o: Objects, o': Objects, sha256: string -> string, omits: Key -> bool, f: FileItem)
    requires StoredSince(before, o, sha256, omits, f) && Preserves(o, o')
    ensures StoredSince(before, o', sha256, omits, f)
  {
  }

  /** The stored copy, or the live file, passes for the one that a reference names. */
  predicate Available(o: Objects, sha256: string -> string, omits: Key -> bool, r: FileItem) {
    || (Shared(r.sha256) in o && o[Shared(r.sha256)].Data?
       && (omits(Shared(r.sha256)) || |o[Shared(r.sha256)].bytes| == r.size))
    || LiveMatches(o, sha256, r)
  }

  predicate LiveMatches(o: Objects, sha256: string -> string, r: FileItem) {
    HoldsCopy(o, sha256, Live(r.key), r.sha256) && |o[Live(r.key)].bytes| == r.size
  }

  lemma NotAvailable(before: Objects, o: Objects, sha256: string -> string, omits: Key -> bool, stored: Listing,
    r: FileItem)
    requires ListingOk(before, o, omits, stored) && forall k :: k in o && k !in before ==> k.Shared?
    requires !IsStored(stored, r.sha256, r.size) && !LiveMatches(o, sha256, r)
    ensures !Available(before, sha256, omits, r)
  {
  }

  /** Nothing changes but that shared copies are added. */
  ghost predicate AddsShared(before: Objects, after: Objects) {
    Preserves(before, after) && forall k :: k in after && k !in before ==> k.Shared?
  }

  /** The file is stored, or it is gone by now. */
  ghost predicate CopiedOrGone(before: Objects, o: Objects, sha256: string -> string, omits: Key -> bool, f: FileItem) {
    StoredSince(before, o, sha256, omits, f) || Live(f.key) !in o
  }

  lemma StaysCopied(before: Objects, o: Objects, o': Objects, sha256: string -> string, omits: Key -> bool,
    f: FileItem)
    requires CopiedOrGone(before, o, sha256, omits, f) && AddsShared(o, o')
    ensures CopiedOrGone(before, o', sha256, omits, f)
  {
    hide StoredSince;
    if StoredSince(before, o, sha256, omits, f) { StaysStored(before, o, o', sha256, omits, f); }
  }

  lemma AddsBoth(a: Objects, b: Objects, c: Objects)
    requires AddsShared(a, b) && AddsShared(b, c)
    ensures AddsShared(a, c)
  {
  }

  lemma AddsNothing(a: Objects)
    ensures AddsShared(a, a)
  {
  }

  lemma AddsOne(a: Objects, b: Objects, hash: string)
    requires Preserves(a, b) && forall k :: k in b && k !in a ==> k == Shared(hash)
    ensures AddsShared(a, b)
  {
  }

  lemma ListingPreserves(before: Objects, o: Objects, omits: Key -> bool, stored: Listing)
    requires ListingOk(before, o, omits, stored)
    ensures Preserves(before, o)
  {
  }

  lemma SameLive(before: Objects, o: Objects, sha256: string -> string, r: FileItem)
    requires AddsShared(before, o) && !LiveMatches(o, sha256, r)
    ensures !LiveMatches(before, sha256, r)
  {
  }

  predicate PartListed(o: Objects, omits: Key -> bool, prefix: nat, p: PartItem) {
    && Part(prefix, p.sha256) in o && o[Part(prefix, p.sha256)].Data?
    && (omits(Part(prefix, p.sha256)) || |o[Part(prefix, p.sha256)].bytes| == p.size)
  }

  /** The database gives the true size of whatever has the given checksum. */
  ghost predicate Truthful(sha256: string -> string, hash: string, size: nat) {
    forall bytes :: sha256(bytes) == hash ==> |bytes| == size
  }

  ghost predicate AllTruthful(sha256: string -> string, parts: seq<PartItem>, refs: seq<FileItem>) {
    && (forall p :: p in parts ==> Truthful(sha256, p.sha256, p.size))
    && (forall r :: r in refs ==> Truthful(sha256, r.sha256, r.size))
  }

  predicate ConflictsWith(files: seq<FileItem>, file: FileItem) {
    exists i :: 0 <= i < |files| && files[i].key == file.key && files[i] != file
  }

  /** Two references to one key that do not agree. */
  predicate Disagree(refs: seq<FileItem>) {
    exists i, j :: 0 <= i < |refs| && 0 <= j < |refs| && refs[i].key == refs[j].key && refs[i] != refs[j]
  }

  datatype Outcome = Stopped | Failed | Done

  // ---------- pruning ----------

  datatype Entry = Entry(prefix: nat, manifest: Manifest)

  predicate BelongsTo(k: Key, prefix: nat) {
    (k.Archive? || k.Part? || k.Other?) && k.prefix == prefix
  }

  predicate IsComplete(o: Objects, e: Entry) {
    Archive(e.prefix) in o && o[Archive(e.prefix)] == Readable(e.manifest)
  }

  predicate NewerFirst(a: Entry, b: Entry) {
    a.manifest.createdAt >= b.manifest.createdAt
  }

  /** The keys of a backup that pruning recognizes and may delete. */
  predicate Deletable(k: Key, prefix: nat) {
    (k.Archive? || k.Part?) && k.prefix == prefix
  }

  ghost predicate ListedIn(o: Objects, hash: string) {
    exists p, f :: Archive(p) in o && o[Archive(p)].Readable? && f in o[Archive(p)].manifest.objects && f.sha256 == hash
  }

  /** The checksums that the remaining complete backups list. */
  function ListedHashes(complete: seq<Entry>, removed: set<nat>): (listed: set<string>) {
    set e, f | e in complete && e.prefix !in removed && f in e.manifest.objects :: f.sha256
  }

  /** Only deletions, and none of live files or unrecognized keys. */
  ghost predicate OnlyDeletes(before: Objects, after: Objects) {
    && (forall k :: k in after ==> k in before && after[k] == before[k])
    && (forall k :: k in before && (k.Live? || k.Other?) ==> k in after)
  }

  /** Deleting objects keeps the store in order as long as no remaining manifest lists them. */
  lemma DeleteKeeps(o: Objects, sha256: string -> string, gone: set<Key>)
    requires StoreOk(o, sha256)
    requires forall k :: k in gone && k.Part? ==> Archive(k.prefix) in gone || Archive(k.prefix) !in o
    requires forall p :: Archive(p) in o && Archive(p) !in gone && o[Archive(p)].Readable? ==>
               forall f :: f in o[Archive(p)].manifest.objects ==> Shared(f.sha256) !in gone
    ensures StoreOk(o - gone, sha256)
    ensures SizesOk(o) ==> SizesOk(o - gone)
  {
    var o' := o - gone;
    forall p | Archive(p) in o' && o'[Archive(p)].Readable?
      ensures ManifestPresent(o', sha256, p, o'[Archive(p)].manifest)
    {
      var m := o[Archive(p)].manifest;
      assert ManifestPresent(o, sha256, p, m);
      forall part | part in m.parts ensures HoldsCopy(o', sha256, Part(p, part.sha256), part.sha256) {
        assert HoldsCopy(o, sha256, Part(p, part.sha256), part.sha256);
      }
      forall f | f in m.objects ensures HoldsCopy(o', sha256, Shared(f.sha256), f.sha256) {
        assert HoldsCopy(o, sha256, Shared(f.sha256), f.sha256);
      }
    }
  }

  class Bucket {
    const sha256: string -> string
    /** Keys whose size the provider leaves out of a listing. */
    const omitsSize: Key -> bool
    var objects: Objects
    /** Object operations left before the process stops. */
    var calls: nat

    ghost predicate Valid()
      reads this
    {
      Injective(sha256) && StoreOk(objects, sha256)
    }

    /** Every listing gives every size. */
    ghost predicate ReportsSizes() {
      forall k :: !omitsSize(k)
    }

    constructor (sha256: string -> string, omitsSize: Key -> bool, objects: Objects, calls: nat)
      requires Injective(sha256) && StoreOk(objects, sha256)
      ensures Valid() && this.objects == objects && this.sha256 == sha256 && this.omitsSize == omitsSize
        && this.calls == calls
    {
      this.sha256, this.omitsSize, this.objects, this.calls := sha256, omitsSize, objects, calls;
    }

    method Tick() returns (alive: bool)
      modifies `calls
      ensures alive == (old(calls) > 0) && calls == if alive then old(calls) - 1 else 0
    {
      alive := calls > 0;
      if alive { calls := calls - 1; }
    }

    function ListShared(): (stored: Listing)
      reads this
      requires forall h :: Shared(h) in objects ==> objects[Shared(h)].Data?
      ensures ListingOk(objects, objects, omitsSize, stored)
    {
      var hashes := set k | k in objects && k.Shared? :: k.sha256;
      map h | h in hashes :: if omitsSize(Shared(h)) then None else Some(|objects[Shared(h)].bytes|)
    }

    lemma SharedIsData()
      requires Valid()
      ensures forall h :: Shared(h) in objects ==> objects[Shared(h)].Data?
    {
    }

    /** Copies one referenced file into the store unless the listing has it, which then lists it. The copy then
        has the referenced size, except where one stood already whose size the listing leaves out. */
    method CopyToStore(ghost before: Objects, file: FileItem, stored0: Listing, required: bool)
      returns (outcome: Outcome, stored: Listing)
      requires Valid() && ListingOk(before, objects, omitsSize, stored0)
      modifies `objects, `calls
      ensures Valid() && ListingOk(before, objects, omitsSize, stored)
      ensures old(SizesOk(objects)) ==> SizesOk(objects)
      ensures Preserves(old(objects), objects)
      ensures forall k :: k in objects && k !in old(objects) ==> k == Shared(file.sha256)
      ensures outcome == Done && required ==>
        && HoldsCopy(objects, sha256, Shared(file.sha256), file.sha256)
        && (ReportsSizes() || Truthful(sha256, file.sha256, file.size) ==>
           |objects[Shared(file.sha256)].bytes| == file.size)
        && FileStored(before, file)
        && (|objects[Shared(file.sha256)].bytes| == file.size <==>
              !(file.sha256 in stored0 && stored0[file.sha256].None?
                && |old(objects)[Shared(file.sha256)].bytes| != file.size))
      ensures outcome == Failed ==>
        objects == old(objects) && !IsStored(stored0, file.sha256, file.size) && !LiveMatches(objects, sha256, file)
      ensures outcome == Done && !required ==> CopiedOrGone(before, objects, sha256, omitsSize, file)
      ensures stored in {stored0, stored0[file.sha256 := Some(file.size)]}
      ensures outcome == Done && (required || Live(file.key) in old(objects)) ==>
        IsStored(stored, file.sha256, file.size)
      ensures calls >= old(calls) - 2 && (outcome == Stopped ==> old(calls) < 2)
    {
      stored := stored0;
      if IsStored(stored, file.sha256, file.size) { return Done, stored; }
      var alive := Tick();
      if !alive { return Stopped, stored; }
      if Live(file.key) !in objects { return if required then Failed else Done, stored; }
      var content := objects[Live(file.key)];
      if !content.Data? || |content.bytes| != file.size || sha256(content.bytes) != file.sha256 {
        return Failed, stored;
      }
      alive := Tick();
      if !alive { return Stopped, stored; }
      PutKeeps(objects, sha256, Shared(file.sha256), content.bytes);
      objects := objects[Shared(file.sha256) := content];
      stored := stored[file.sha256 := Some(file.size)];
      outcome := Done;
    }

    /** Copies what is there before writes pause; a file that is gone by now is no longer needed. */
    method CopyFilesBeforePause(refs: seq<FileItem>) returns (outcome: Outcome)
      requires Valid()
      modifies `objects, `calls
      ensures Valid()
      ensures old(SizesOk(objects)) ==> SizesOk(objects)
      ensures AddsShared(old(objects), objects)
      ensures outcome == Done ==>
        forall r :: r in refs ==> CopiedOrGone(old(objects), objects, sha256, omitsSize, r)
      ensures outcome == Failed ==> exists r :: r in refs && !LiveMatches(old(objects), sha256, r)
      ensures outcome == Stopped ==> old(calls) < 2 * |refs|
    {
      hide StoreOk, SizesOk, Injective, HoldsCopy, LiveMatches, IsStored, StoredSince, ListingOk, CopiedOrGone,
        Preserves, AddsShared, Truthful, HasSize;
      SharedIsData();
      var stored := ListShared();
      AddsNothing(objects);
      for i := 0 to |refs|
        invariant Valid() && AddsShared(old(objects), objects) && ListingOk(old(objects), objects, omitsSize, stored)
        invariant old(SizesOk(objects)) ==> SizesOk(objects)
        invariant forall j :: 0 <= j < i ==> CopiedOrGone(old(objects), objects, sha256, omitsSize, refs[j])
        invariant calls >= old(calls) - 2 * i
      {
        ghost var o := objects;
        outcome, stored := CopyToStore(old(objects), refs[i], stored, false);
        AddsOne(o, objects, refs[i].sha256);
        AddsBoth(old(objects), o, objects);
        if outcome == Failed { SameLive(old(objects), objects, sha256, refs[i]); }
        if outcome != Done { return; }
        forall j | 0 <= j < i ensures CopiedOrGone(old(objects), objects, sha256, omitsSize, refs[j]) {
          StaysCopied(old(objects), o, objects, sha256, omitsSize, refs[j]);
        }
      }
      outcome := Done;
    }

    /** Stores one part of a database export under its checksum. */
    method SavePart(prefix: nat, bytes: string) returns (outcome: Outcome, item: PartItem)
      requires Valid()
      modifies `objects, `calls
      ensures Valid()
      ensures old(SizesOk(objects)) ==> SizesOk(objects)
      ensures item == PartItem(sha256(bytes), |bytes|)
      ensures outcome == Done ==> objects == old(objects)[Part(prefix, item.sha256) := Data(bytes)]
      ensures outcome != Done ==> objects == old(objects)
      ensures outcome != Failed && (outcome == Stopped ==> old(calls) == 0)
    {
      item := PartItem(sha256(bytes), |bytes|);
      var alive := Tick();
      if !alive { return Stopped, item; }
      PutKeeps(objects, sha256, Part(prefix, item.sha256), bytes);
      objects := objects[Part(prefix, item.sha256) := Data(bytes)];
      outcome := Done;
    }

    /** Distinct files in reference order; two references to one key must agree. */
    method CollectFiles(refs: seq<FileItem>) returns (outcome: Outcome, files: seq<FileItem>)
      ensures outcome != Stopped
      ensures outcome == Done ==>
        && (forall r :: r in refs <==> r in files)
        && (forall i, j :: 0 <= i < j < |files| ==> files[i].key != files[j].key)
        && |files| <= |refs|
      ensures outcome == Failed <==> Disagree(refs)
    {
      files := [];
      for i := 0 to |refs|
        invariant forall r :: r in refs[..i] <==> r in files
        invariant forall a, b :: 0 <= a < b < |files| ==> files[a].key != files[b].key
        invariant |files| <= i
      {
        assert refs[..i + 1] == refs[..i] + [refs[i]];
        if ConflictsWith(files, refs[i]) {
          ghost var a :| 0 <= a < |files| && files[a].key == refs[i].key && files[a] != refs[i];
          assert files[a] in refs[..i];
          return Failed, files;
        }
        if refs[i] !in files { files := files + [refs[i]]; }
      }
      assert refs[..|refs|] == refs;
      forall i, j | 0 <= i < |refs| && 0 <= j < |refs| && refs[i].key == refs[j].key ensures refs[i] == refs[j] {
        assert refs[i] in files && refs[j] in files;
      }
      outcome := Done;
    }

    /** Copies every file of the frozen database into the store. */
    method CopyFrozenFiles(files: seq<FileItem>, stored0: Listing) returns (outcome: Outcome, stored: Listing)
      requires Valid() && ListingOk(objects, objects, omitsSize, stored0)
      modifies `objects, `calls
      ensures Valid() && Preserves(old(objects), objects) && ListingOk(old(objects), objects, omitsSize, stored)
      ensures old(SizesOk(objects)) ==> SizesOk(objects)
      ensures forall k :: k in objects && k !in old(objects) ==> k.Shared?
      ensures outcome == Done ==> forall f :: f in files ==> FileStored(old(objects), f)
      ensures outcome == Failed ==> exists f :: f in files && !Available(old(objects), sha256, omitsSize, f)
      ensures calls >= old(calls) - 2 * |files| && (outcome == Stopped ==> old(calls) < 2 * |files|)
    {
      stored := stored0;
      hide StoreOk, SizesOk, Injective, HoldsCopy, LiveMatches, IsStored, StoredSince, Available, ListingOk;
      for i := 0 to |files|
        invariant Valid() && Preserves(old(objects), objects) && ListingOk(old(objects), objects, omitsSize, stored)
        invariant old(SizesOk(objects)) ==> SizesOk(objects)
        invariant forall k :: k in objects && k !in old(objects) ==> k.Shared?
        invariant forall j :: 0 <= j < i ==> FileStored(old(objects), files[j])
        invariant calls >= old(calls) - 2 * i
      {
        ghost var o, listed := objects, stored;
        outcome, stored := CopyToStore(old(objects), files[i], stored, true);
        if outcome == Failed { NotAvailable(old(objects), objects, sha256, omitsSize, listed, files[i]); }
        if outcome != Done { return; }
        forall j | 0 <= j < i ensures FileStored(old(objects), files[j]) {
          StaysStored(old(objects), o, objects, sha256, omitsSize, files[j]);
        }
      }
      outcome := Done;
    }

    /** As `StoredSince`, of the bucket as it is. */
    ghost predicate FileStored(before: Objects, f: FileItem)
      reads this
    {
      StoredSince(before, objects, sha256, omitsSize, f)
    }

    /** The settings file as it was read, whose size is its own. */
    ghost predicate IsSettings(f: FileItem) {
      f.key == SETTINGS && Truthful(sha256, f.sha256, f.size)
    }

    predicate HasSettings(o: Objects) { Live(SETTINGS) in o && o[Live(SETTINGS)].Data? }

    /** Adds the shared settings object, when there is one, to the files of a manifest. */
    method AddSettings(ghost before: Objects, files: seq<FileItem>, stored: Listing)
      returns (outcome: Outcome, all: seq<FileItem>)
      requires Injective(sha256) && StoreOk(before, sha256)
      requires Valid() && ListingOk(before, objects, omitsSize, stored) && forall f :: f in files ==>
        FileStored(before, f)
      modifies `objects, `calls
      ensures Valid() && outcome != Failed
      ensures old(SizesOk(objects)) ==> SizesOk(objects)
      ensures Preserves(old(objects), objects) && forall k :: k in objects && k !in old(objects) ==> k.Shared?
      ensures outcome == Done ==>
        && (forall f :: f in all ==> FileStored(before, f))
        && files <= all
        && (forall f :: f in all ==> f in files || IsSettings(f))
        && (HasSettings(objects) ==> exists f :: f in all && IsSettings(f) && LiveMatches(objects, sha256, f))
      ensures calls >= old(calls) - 2 && (outcome == Stopped ==> old(calls) < 2)
    {
      hide StoreOk, SizesOk, Truthful, ListingOk, StoredSince, Injective;
      all := files;
      var alive := Tick();
      if !alive { return Stopped, all; }
      if Live(SETTINGS) !in objects || !objects[Live(SETTINGS)].Data? { return Done, all; }
      var bytes := objects[Live(SETTINGS)].bytes;
      var item := FileItem(SETTINGS, sha256(bytes), |bytes|);
      ghost var o := objects;
      ListingPreserves(before, o, omitsSize, stored);
      outcome := StoreSettings(before, bytes, stored);
      if outcome == Stopped { return; }
      forall f | f in files ensures FileStored(before, f) { StaysStored(before, o, objects, sha256, omitsSize, f); }
      SettingsAdded(before, bytes);
      all := files + [item];
      assert item in all;
    }

    /** Stores the settings as they were read, unless the listing has them. */
    method StoreSettings(ghost before: Objects, bytes: string, stored: Listing) returns (outcome: Outcome)
      requires Valid() && ListingOk(before, objects, omitsSize, stored)
      modifies `objects, `calls
      ensures Valid() && outcome != Failed
      ensures old(SizesOk(objects)) ==> SizesOk(objects)
      ensures AddsShared(old(objects), objects)
      ensures outcome == Done ==> Shared(sha256(bytes)) in objects && objects[Shared(sha256(bytes))].Data?
      ensures calls >= old(calls) - 1 && (outcome == Stopped ==> old(calls) < 1)
    {
      if !IsStored(stored, sha256(bytes), |bytes|) {
        var alive := Tick();
        if !alive { return Stopped; }
        PutKeeps(objects, sha256, Shared(sha256(bytes)), bytes);
        objects := objects[Shared(sha256(bytes)) := Data(bytes)];
      }
      outcome := Done;
    }

    /** The settings, once stored, as an item of the manifest. */
    lemma SettingsAdded(before: Objects, bytes: string)
      requires Valid() && StoreOk(before, sha256) && Preserves(before, objects)
      requires Live(SETTINGS) in objects && objects[Live(SETTINGS)] == Data(bytes)
      requires Shared(sha256(bytes)) in objects && objects[Shared(sha256(bytes))].Data?
      ensures var item := FileItem(SETTINGS, sha256(bytes), |bytes|);
        IsSettings(item) && FileStored(before, item) && LiveMatches(objects, sha256, item)
    {
      assert HoldsCopy(objects, sha256, Shared(sha256(bytes)), sha256(bytes));
    }

    /** Stores every referenced file and the settings, and collects them for the manifest. */
    method StoreFiles(refs: seq<FileItem>) returns (outcome: Outcome, all: seq<FileItem>)
      requires Valid()
      modifies `objects, `calls
      ensures Valid()
      ensures old(SizesOk(objects)) ==> SizesOk(objects)
      ensures Preserves(old(objects), objects) && forall k :: k in objects && k !in old(objects) ==> k.Shared?
      ensures outcome == Done ==>
        && (forall r :: r in refs ==> r in all)
        && (forall f :: f in all ==> FileStored(old(objects), f) && (f in refs || IsSettings(f)))
        && (HasSettings(objects) ==> exists f :: f in all && IsSettings(f) && LiveMatches(objects, sha256, f))
      ensures outcome == Failed ==>
        Disagree(refs) || exists r :: r in refs && !Available(old(objects), sha256, omitsSize, r)
      ensures calls >= old(calls) - 2 * |refs| - 2 && (outcome == Stopped ==> old(calls) < 2 * |refs| + 2)
    {
      var stored := ListShared();
      hide StoreOk, SizesOk, Available, Disagree, StoredSince, Injective, IsSettings, ListingOk;
      all := [];
      var files: seq<FileItem>;
      outcome, files := CollectFiles(refs);
      if outcome != Done { return; }
      outcome, stored := CopyFrozenFiles(files, stored);
      if outcome != Done { return; }
      outcome, all := AddSettings(old(objects), files, stored);
    }

    function ListParts(prefix: nat): (stored: Listing)
      reads this
      requires forall h :: Part(prefix, h) in objects ==> objects[Part(prefix, h)].Data?
      ensures forall h :: h in stored <==> Part(prefix, h) in objects
      ensures forall h :: h in stored && stored[h].Some? ==> stored[h] == Some(|objects[Part(prefix, h)].bytes|)
      ensures forall h :: h in stored ==> (stored[h].None? <==> omitsSize(Part(prefix, h)))
    {
      var hashes := set k | k in objects && k.Part? && k.prefix == prefix :: k.sha256;
      map h | h in hashes :: if omitsSize(Part(prefix, h)) then None else Some(|objects[Part(prefix, h)].bytes|)
    }

    /** The check passes exactly for a part that is present and whose listed size, if any, is the expected one. */
    lemma CheckedPart(prefix: nat, p: PartItem)
      requires Valid()
      ensures IsStored(ListParts(prefix), p.sha256, p.size) <==> PartListed(objects, omitsSize, prefix, p)
      ensures PartListed(objects, omitsSize, prefix, p) ==>
        && HoldsCopy(objects, sha256, Part(prefix, p.sha256), p.sha256)
        && (HasSize(objects, Part(prefix, p.sha256), p.size) <==>
           !Misstated(objects, omitsSize, Part(prefix, p.sha256), p.size))
    {
    }

    /** A manifest over checked parts and stored files is complete; its sizes match exactly if none was misstated. */
    lemma WholeManifest(before: Objects, prefix: nat, m: Manifest, refs: seq<FileItem>)
      requires Valid() && forall p :: p in m.parts ==> PartListed(objects, omitsSize, prefix, p)
      requires forall f :: f in m.objects ==> FileStored(before, f) && (f in refs || IsSettings(f))
      requires forall r :: r in refs ==> r in m.objects
      requires forall h :: Part(prefix, h) in before <==> Part(prefix, h) in objects
      requires Preserves(before, objects)
      ensures ManifestPresent(objects, sha256, prefix, m)
      ensures SizesMatch(objects, prefix, m) <==> NoneMisstated(before, omitsSize, prefix, m.parts, refs)
    {
      forall p | p in m.parts
        ensures HoldsCopy(objects, sha256, Part(prefix, p.sha256), p.sha256)
        ensures HasSize(objects, Part(prefix, p.sha256), p.size) <==>
          !Misstated(before, omitsSize, Part(prefix, p.sha256), p.size)
      {
        CheckedPart(prefix, p);
      }
      forall f | f in m.objects && IsSettings(f) ensures HasSize(objects, Shared(f.sha256), f.size) {
        assert FileStored(before, f);
      }
    }

    /** Sizes cannot be misstated if listings report them, or if the database's sizes are the true ones. */
    lemma ReportedOrTruthful(prefix: nat, parts: seq<PartItem>, refs: seq<FileItem>)
      requires Valid() && (ReportsSizes() || AllTruthful(sha256, parts, refs))
      ensures NoneMisstated(objects, omitsSize, prefix, parts, refs)
    {
      forall p | p in parts ensures !Misstated(objects, omitsSize, Part(prefix, p.sha256), p.size) {
        assert Part(prefix, p.sha256) in objects ==> HoldsCopy(objects, sha256, Part(prefix, p.sha256), p.sha256);
      }
      forall r | r in refs ensures !Misstated(objects, omitsSize, Shared(r.sha256), r.size) {
        assert Shared(r.sha256) in objects ==> HoldsCopy(objects, sha256, Shared(r.sha256), r.sha256);
      }
    }

    /** Checks the exported parts against a listing and writes the manifest. */
    method WriteManifest(ghost before: Objects, prefix: nat, m: Manifest, refs: seq<FileItem>)
      returns (outcome: Outcome)
      requires Valid() && forall f :: f in m.objects ==> FileStored(before, f) && (f in refs || IsSettings(f))
      requires forall r :: r in refs ==> r in m.objects
      requires Preserves(before, objects) && forall k :: k in objects && k !in before ==> k.Shared?
      modifies `objects, `calls
      ensures Valid()
      ensures objects == if outcome == Done then old(objects)[Archive(prefix) := Readable(m)] else old(objects)
      ensures outcome == Done ==>
        (SizesMatch(objects, prefix, m) <==> NoneMisstated(before, omitsSize, prefix, m.parts, refs))
      ensures old(SizesOk(objects)) ==> (SizesOk(objects) <==> (outcome == Done ==> SizesMatch(objects, prefix, m)))
      ensures outcome == Failed ==> exists p :: p in m.parts && !PartListed(before, omitsSize, prefix, p)
      ensures outcome == Stopped ==> old(calls) < 1
    {
      var listed := ListParts(prefix);
      forall p | p in m.parts ensures IsStored(listed, p.sha256, p.size) <==> PartListed(before, omitsSize, prefix, p) {
        CheckedPart(prefix, p);
      }
      if exists i :: 0 <= i < |m.parts| && !IsStored(listed, m.parts[i].sha256, m.parts[i].size) { return Failed; }
      var alive := Tick();
      if !alive { return Stopped; }
      WholeManifest(before, prefix, m, refs);
      ManifestKeeps(objects, sha256, prefix, m);
      objects := objects[Archive(prefix) := Readable(m)];
      outcome := Done;
    }

    /**
     * Finishes a backup: copies what is missing, checks the exported parts, and only then writes the
     * manifest. Wherever it stops, every manifest in the bucket stays complete. The sizes in a manifest that was
     * written match exactly if no part or reference misstates the size of an object that stood already and
     * whose listing leaves it out.
     */
    method FinishArchive(prefix: nat, createdAt: int, parts: seq<PartItem>, refs: seq<FileItem>)
      returns (outcome: Outcome)
      requires Valid()
      modifies `objects, `calls
      ensures Valid()
      ensures old(SizesOk(objects)) && (ReportsSizes() || AllTruthful(sha256, parts, refs)) ==> SizesOk(objects)
      ensures forall k :: k in old(objects) && k != Archive(prefix) ==> k in objects && objects[k] == old(objects)[k]
      ensures forall k :: k in objects && k !in old(objects) ==> k.Shared? || k == Archive(prefix)
      ensures outcome != Done ==>
        Preserves(old(objects), objects) && (Archive(prefix) in objects ==> Archive(prefix) in old(objects))
      ensures outcome == Done ==>
        && Archive(prefix) in objects && objects[Archive(prefix)].Readable?
        && var m := objects[Archive(prefix)].manifest;
           && m.createdAt == createdAt && m.parts == parts
           && (forall r :: r in refs ==> r in m.objects)
           && (forall f :: f in m.objects ==> f in refs || f.key == SETTINGS)
           && (HasSettings(old(objects)) ==>
               exists f :: f in m.objects && IsSettings(f) && LiveMatches(old(objects), sha256, f))
           && (SizesMatch(objects, prefix, m) <==> NoneMisstated(old(objects), omitsSize, prefix, parts, refs))
      ensures outcome == Failed ==>
        || Disagree(refs)
        || (exists r :: r in refs && !Available(old(objects), sha256, omitsSize, r))
        || (exists p :: p in parts && !PartListed(old(objects), omitsSize, prefix, p))
      ensures outcome == Stopped ==> old(calls) < 2 * |refs| + 3
    {
      ghost var before := objects;
      if ReportsSizes() || AllTruthful(sha256, parts, refs) { ReportedOrTruthful(prefix, parts, refs); }
      hide StoreOk, SizesOk, SizesMatch, NoneMisstated, Available, PartListed, Disagree, AllTruthful, FileStored,
        Injective,
        Truthful;
      var files: seq<FileItem>;
      outcome, files := StoreFiles(refs);
      if outcome != Done { return; }
      outcome := WriteManifest(before, prefix, Manifest(createdAt, parts, files), refs);
    }

    /** Deletes one object. */
    method Delete(k: Key) returns (outcome: Outcome)
      requires Valid()
      requires k.Archive? || (k.Part? && Archive(k.prefix) !in objects) || (k.Shared? && !ListedIn(objects, k.sha256))
      modifies `objects, `calls
      ensures Valid() && outcome != Failed
      ensures old(SizesOk(objects)) ==> SizesOk(objects)
      ensures objects == if outcome == Done then old(objects) - {k} else old(objects)
      ensures outcome == Stopped ==> calls == 0
    {
      var alive := Tick();
      if !alive { return Stopped; }
      DeleteKeeps(objects, sha256, {k});
      objects := objects - {k};
      outcome := Done;
    }

    /** Deletes the parts of a backup that has no manifest any more. */
    method DeleteParts(prefix: nat) returns (outcome: Outcome)
      requires Valid() && Archive(prefix) !in objects
      modifies `objects, `calls
      ensures Valid() && outcome != Failed
      ensures old(SizesOk(objects)) ==> SizesOk(objects)
      ensures OnlyDeletes(old(objects), objects)
      ensures forall k :: k in old(objects) && k !in objects ==> k.Part? && k.prefix == prefix
      ensures outcome == Done ==> forall k :: k in objects && k.Part? ==> k.prefix != prefix
      ensures outcome == Stopped ==> calls == 0
    {
      var parts := set k | k in objects && k.Part? && k.prefix == prefix;
      while parts != {}
        invariant Valid() && Archive(prefix) !in objects
        invariant old(SizesOk(objects)) ==> SizesOk(objects)
        invariant OnlyDeletes(old(objects), objects)
        invariant forall k :: k in old(objects) && k !in objects ==> k.Part? && k.prefix == prefix
        invariant forall k :: k in parts <==> k in objects && k.Part? && k.prefix == prefix
        decreases |parts|
      {
        var k :| k in parts;
        outcome := Delete(k);
        if outcome != Done { return; }
        parts := parts - {k};
      }
      outcome := Done;
    }

    /** Deletes a backup, its manifest first, so a partly removed backup is never offered for restore. */
    method DeleteBackup(prefix: nat) returns (outcome: Outcome)
      requires Valid()
      modifies `objects, `calls
      ensures Valid() && outcome != Failed
      ensures old(SizesOk(objects)) ==> SizesOk(objects)
      ensures OnlyDeletes(old(objects), objects)
      ensures forall k :: k in old(objects) && k !in objects ==> Deletable(k, prefix)
      ensures Archive(prefix) in objects ==> objects == old(objects)
      ensures outcome == Done ==> forall k :: k in objects ==> !Deletable(k, prefix)
      ensures outcome == Stopped ==> calls == 0
    {
      if Archive(prefix) in objects {
        outcome := Delete(Archive(prefix));
        if outcome != Done { return; }
      }
      outcome := DeleteParts(prefix);
    }

    /** The prefixes below which the listing shows keys, each once. */
    method ListPrefixes() returns (prefixes: seq<nat>)
      ensures forall p :: p in prefixes <==> exists k :: k in objects && BelongsTo(k, p)
      ensures forall i, j :: 0 <= i < j < |prefixes| ==> prefixes[i] != prefixes[j]
    {
      var left := set k | k in objects && (k.Archive? || k.Part? || k.Other?) :: k.prefix;
      prefixes := [];
      while left != {}
        invariant forall p :: p in prefixes || p in left <==> exists k :: k in objects && BelongsTo(k, p)
        invariant forall p :: p in prefixes ==> p !in left
        invariant forall i, j :: 0 <= i < j < |prefixes| ==> prefixes[i] != prefixes[j]
        decreases |left|
      {
        var p :| p in left;
        prefixes := prefixes + [p];
        left := left - {p};
      }
    }

    /** Sorts the listed prefixes into complete backups, backups without a manifest, and unreadable ones. */
    method Classify(prefixes: seq<nat>) returns (complete: seq<Entry>, partial: seq<nat>, unreadable: bool)
      requires forall i, j :: 0 <= i < j < |prefixes| ==> prefixes[i] != prefixes[j]
      requires forall p :: Archive(p) in objects ==> p in prefixes
      ensures forall e :: e in complete ==> IsComplete(objects, e) && e.prefix in prefixes
      ensures forall p :: Archive(p) in objects && objects[Archive(p)].Readable? ==>
        Entry(p, objects[Archive(p)].manifest) in complete
      ensures forall i, j :: 0 <= i < j < |complete| ==> complete[i].prefix != complete[j].prefix
      ensures forall p :: p in partial <==> p in prefixes && Archive(p) !in objects
      ensures Distinct(partial)
      ensures unreadable <==> exists p :: Archive(p) in objects && !objects[Archive(p)].Readable?
    {
      complete, partial, unreadable := [], [], false;
      for i := 0 to |prefixes|
        invariant forall e :: e in complete ==> IsComplete(objects, e) && e.prefix in prefixes[..i]
        invariant forall p :: p in prefixes[..i] && Archive(p) in objects && objects[Archive(p)].Readable? ==>
                    Entry(p, objects[Archive(p)].manifest) in complete
        invariant forall a, b :: 0 <= a < b < |complete| ==> complete[a].prefix != complete[b].prefix
        invariant forall p :: p in partial <==> p in prefixes[..i] && Archive(p) !in objects
        invariant Distinct(partial)
        invariant unreadable <==>
          exists p :: p in prefixes[..i] && Archive(p) in objects && !objects[Archive(p)].Readable?
      {
        var p := prefixes[i];
        assert prefixes[..i + 1] == prefixes[..i] + [p];
        assert p !in prefixes[..i];
        if Archive(p) !in objects {
          partial := partial + [p];
        } else if objects[Archive(p)].Readable? {
          complete := complete + [Entry(p, objects[Archive(p)].manifest)];
        } else {
          unreadable := true;
        }
      }
      assert prefixes[..|prefixes|] == prefixes;
    }

    /** Deletes the removable backups in turn; `protectedAt(i)` is what the database protects when the i-th
        is about to be deleted. */
    method DeleteBackups(removable: seq<nat>, protectedAt: nat -> set<nat>)
      returns (outcome: Outcome, removed: set<nat>)
      requires Valid() && Distinct(removable)
      modifies `objects, `calls
      ensures Valid() && outcome != Failed
      ensures old(SizesOk(objects)) ==> SizesOk(objects)
      ensures OnlyDeletes(old(objects), objects)
      ensures forall k :: k in old(objects) && k !in objects ==>
                exists i :: 0 <= i < |removable| && removable[i] !in protectedAt(i) && Deletable(k, removable[i])
      ensures outcome == Done ==>
        && (forall p :: p in removed <==> exists i :: 0 <= i < |removable| && removable[i] == p && p !in protectedAt(i))
        && (forall k :: k in objects && (k.Archive? || k.Part?) ==> k.prefix !in removed)
      ensures outcome == Stopped ==> calls == 0
    {
      hide StoreOk, SizesOk;
      removed := {};
      for i := 0 to |removable|
        invariant Valid()
        invariant old(SizesOk(objects)) ==> SizesOk(objects)
        invariant OnlyDeletes(old(objects), objects)
        invariant forall k :: k in old(objects) && k !in objects ==>
                    exists j :: 0 <= j < i && removable[j] !in protectedAt(j) && Deletable(k, removable[j])
        invariant forall p :: p in removed <==> exists j :: 0 <= j < i && removable[j] == p && p !in protectedAt(j)
        invariant forall k :: k in objects && (k.Archive? || k.Part?) ==> k.prefix !in removed
      {
        var p := removable[i];
        if p !in protectedAt(i) {
          label before:
          outcome := DeleteBackup(p);
          assert forall k :: k in old@before(objects) && k !in objects ==> Deletable(k, removable[i]);
          if outcome != Done { return; }
          assert forall k :: k in objects && (k.Archive? || k.Part?) ==> !Deletable(k, p);
          removed := removed + {p};
        }
      }
      outcome := Done;
    }

    /** Deletes the shared copies that no remaining backup lists. */
    method DeleteUnlisted(listed: set<string>) returns (outcome: Outcome)
      requires Valid() && forall h :: ListedIn(objects, h) ==> h in listed
      modifies `objects, `calls
      ensures Valid() && outcome != Failed
      ensures old(SizesOk(objects)) ==> SizesOk(objects)
      ensures OnlyDeletes(old(objects), objects)
      ensures forall k :: k in old(objects) && k !in objects ==> k.Shared? && k.sha256 !in listed
      ensures outcome == Done ==> forall k :: k in objects && k.Shared? ==> k.sha256 in listed
      ensures outcome == Stopped ==> calls == 0
    {
      var left := set k | k in objects && k.Shared? && k.sha256 !in listed;
      while left != {}
        invariant Valid() && forall h :: ListedIn(objects, h) ==> h in listed
        invariant old(SizesOk(objects)) ==> SizesOk(objects)
        invariant OnlyDeletes(old(objects), objects)
        invariant forall k :: k in old(objects) && k !in objects ==> k.Shared? && k.sha256 !in listed
        invariant left == set k | k in objects && k.Shared? && k.sha256 !in listed
        decreases |left|
      {
        var k :| k in left;
        outcome := Delete(k);
        if outcome != Done { return; }
        left := left - {k};
      }
      assert forall k :: k in objects && k.Shared? && k.sha256 !in listed ==> k in left;
      outcome := Done;
    }

    method AppendPrefixes(partial: seq<nat>, older: seq<Entry>) returns (removable: seq<nat>)
      requires Distinct(partial)
      requires forall i, j :: 0 <= i < j < |older| ==> older[i].prefix != older[j].prefix
      requires forall e :: e in older ==> e.prefix !in partial
      ensures Distinct(removable)
      ensures forall p :: p in removable <==> p in partial || exists e :: e in older && e.prefix == p
    {
      removable := partial;
      for i := 0 to |older|
        invariant Distinct(removable)
        invariant forall p :: p in removable <==> p in partial || exists j :: 0 <= j < i && older[j].prefix == p
      {
        removable := removable + [older[i].prefix];
      }
    }

    /** The backups to delete, in the order in which they are checked. */
    method ChooseRemovable()
      returns (newest: Option<Entry>, complete: seq<Entry>, removable: seq<nat>, unreadable: bool)
      ensures IsNewest(objects, newest) && Distinct(removable)
      ensures forall p :: p in removable <==> Removable(objects, newest, p)
      ensures forall e :: e in complete <==> IsComplete(objects, e)
      ensures unreadable <==> !AllReadable(objects)
    {
      var prefixes := ListPrefixes();
      assert forall p :: Archive(p) in objects ==> BelongsTo(Archive(p), p);
      var partial: seq<nat>;
      complete, partial, unreadable := Classify(prefixes);
      var sorted := NewestFirst(complete);
      newest := if sorted == [] then None else Some(sorted[0]);
      if sorted == [] {
        removable := partial;
      } else {
        forall i, j | 0 <= i < j < |sorted[1..]| ensures sorted[1..][i].prefix != sorted[1..][j].prefix {
          assert sorted[1..][i] in complete && sorted[1..][j] in complete && sorted[i + 1] != sorted[j + 1];
        }
        removable := AppendPrefixes(partial, sorted[1..]);
      }
      RemovableExactly(objects, prefixes, partial, sorted, newest, removable);
    }

    /**
     * Removes older backups before a new one starts. Stopped after any object operation, it keeps every
     * manifest that is still present complete, the newest complete backup, and every backup that is protected
     * when it is checked. When it finishes, exactly the removable and unprotected backups are gone, and, if
     * every manifest could be read, exactly the shared copies that no remaining one lists.
     */
    method PruneUpgradeBackups(protectedAt: nat -> set<nat>)
      returns (outcome: Outcome, newest: Option<Entry>, removable: seq<nat>)
      requires Valid()
      modifies `objects, `calls
      ensures Valid()
      ensures old(SizesOk(objects)) ==> SizesOk(objects)
      ensures OnlyDeletes(old(objects), objects)
      ensures IsNewest(old(objects), newest) && (newest.Some? ==> IsComplete(objects, newest.value))
      ensures Distinct(removable) && forall p :: p in removable <==> Removable(old(objects), newest, p)
      ensures TakesOnly(old(objects), objects, removable, protectedAt)
      ensures outcome == Done ==> TakesAll(objects, removable, protectedAt)
      ensures outcome == Done && AllReadable(old(objects)) ==>
        forall h :: Shared(h) in old(objects) ==> (Shared(h) in objects <==> ListedIn(objects, h))
      ensures outcome == Done && !AllReadable(old(objects)) ==>
        forall h :: Shared(h) in old(objects) ==> Shared(h) in objects
      ensures outcome != Failed && (outcome == Stopped ==> calls == 0)
    {
      var complete: seq<Entry>;
      var unreadable: bool;
      newest, complete, removable, unreadable := ChooseRemovable();
      var removed: set<nat>;
      outcome, removed := DeleteBackups(removable, protectedAt);
      NewestStays(old(objects), objects, newest, removable, protectedAt);
      if outcome != Done || unreadable { return; }
      RemainingLists(old(objects), objects, complete, removed);
      label deleted:
      outcome := DeleteUnlisted(ListedHashes(complete, removed));
      SameLists(old@deleted(objects), objects);
    }
  }

  /** What pruning may take: backups without a manifest, and complete ones other than the newest. */
  ghost predicate Removable(o: Objects, newest: Option<Entry>, p: nat) {
    || (Archive(p) !in o && exists k :: k in o && BelongsTo(k, p))
    || (Archive(p) in o && o[Archive(p)].Readable? && newest.Some? && newest.value.prefix != p)
  }

  /** The newest complete backup, if there is any. */
  ghost predicate IsNewest(o: Objects, newest: Option<Entry>) {
    && (newest.Some? ==> IsComplete(o, newest.value))
    && (forall p :: Archive(p) in o && o[Archive(p)].Readable? ==>
          newest.Some? && newest.value.manifest.createdAt >= o[Archive(p)].manifest.createdAt)
  }

  ghost predicate AllReadable(o: Objects) {
    forall p :: Archive(p) in o ==> o[Archive(p)].Readable?
  }

  /** A backup loses an object only if it is removable and was not protected when it was checked. */
  ghost predicate TakesOnly(before: Objects, after: Objects, removable: seq<nat>, protectedAt: nat -> set<nat>) {
    forall k :: k in before && k !in after && (k.Archive? || k.Part?) ==>
      exists i :: 0 <= i < |removable| && removable[i] == k.prefix && k.prefix !in protectedAt(i)
  }

  /** Nothing recognized remains of a removable backup that was not protected when it was checked. */
  ghost predicate TakesAll(o: Objects, removable: seq<nat>, protectedAt: nat -> set<nat>) {
    forall i, k :: 0 <= i < |removable| && removable[i] !in protectedAt(i) && Deletable(k, removable[i]) ==> k !in o
  }

  lemma NewestStays(before: Objects, after: Objects, newest: Option<Entry>, removable: seq<nat>,
    protectedAt: nat -> set<nat>)
    requires IsNewest(before, newest) && OnlyDeletes(before, after) && TakesOnly(before, after, removable, protectedAt)
    requires newest.Some? ==> newest.value.prefix !in removable
    ensures newest.Some? ==> IsComplete(after, newest.value)
  {
  }

  /** What the remaining manifests list is what the complete backups that were not removed list. */
  lemma RemainingLists(before: Objects, after: Objects, complete: seq<Entry>, removed: set<nat>)
    requires OnlyDeletes(before, after) && AllReadable(before)
    requires forall e :: e in complete <==> IsComplete(before, e)
    requires forall p :: Archive(p) in before ==> (Archive(p) in after <==> p !in removed)
    ensures forall h :: ListedIn(after, h) <==> h in ListedHashes(complete, removed)
  {
    forall h ensures ListedIn(after, h) <==> h in ListedHashes(complete, removed) {
      if ListedIn(after, h) {
        var p, f :| Archive(p) in after && after[Archive(p)].Readable? && f in after[Archive(p)].manifest.objects
          && f.sha256 == h;
        assert Entry(p, after[Archive(p)].manifest) in complete;
      }
      if h in ListedHashes(complete, removed) {
        var e, f :| e in complete && e.prefix !in removed && f in e.manifest.objects && f.sha256 == h;
        assert IsComplete(before, e) && Archive(e.prefix) in after;
      }
    }
  }

  lemma SameLists(before: Objects, after: Objects)
    requires OnlyDeletes(before, after) && forall k :: k in before && k.Archive? ==> k in after
    ensures forall h :: ListedIn(before, h) <==> ListedIn(after, h)
  {
    forall h ensures ListedIn(before, h) <==> ListedIn(after, h) {
      if ListedIn(before, h) {
        var p, f :| Archive(p) in before && before[Archive(p)].Readable? && f in before[Archive(p)].manifest.objects
          && f.sha256 == h;
        assert Archive(p) in after;
      }
    }
  }

  lemma SameMembers<T>(a: seq<T>, b: seq<T>)
    requires multiset(a) == multiset(b)
    ensures forall x :: x in a <==> x in b
  {
    forall x ensures x in a <==> x in b {
      assert x in a <==> x in multiset(a);
      assert x in b <==> x in multiset(b);
    }
  }

  lemma RemovableExactly(o: Objects, prefixes: seq<nat>, partial: seq<nat>, sorted: seq<Entry>, newest: Option<Entry>,
    removable: seq<nat>)
    requires forall p :: p in prefixes <==> exists k :: k in o && BelongsTo(k, p)
    requires forall p :: p in partial <==> p in prefixes && Archive(p) !in o
    requires forall e :: e in sorted <==> IsComplete(o, e)
    requires Distinct(sorted) && newest == (if sorted == [] then None else Some(sorted[0]))
    requires forall p :: p in removable <==>
      p in partial || exists e :: e in (if sorted == [] then [] else sorted[1..]) && e.prefix == p
    ensures forall p :: p in removable <==> Removable(o, newest, p)
  {
    var tail := if sorted == [] then [] else sorted[1..];
    forall e ensures e in tail <==> IsComplete(o, e) && newest != Some(e) {
      if e in tail {
        var i :| 0 <= i < |tail| && tail[i] == e;
        assert sorted[i + 1] == e && sorted[0] != sorted[i + 1];
      }
      if IsComplete(o, e) && newest != Some(e) {
        var i :| 0 <= i < |sorted| && sorted[i] == e;
        assert tail[i - 1] == e;
      }
    }
    assert newest.Some? ==> newest.value in sorted && IsComplete(o, newest.value);
    forall p ensures p in removable <==> Removable(o, newest, p) {
      assert forall e :: e in tail && e.prefix == p ==> IsComplete(o, e);
      if Archive(p) in o && o[Archive(p)].Readable? {
        var e := Entry(p, o[Archive(p)].manifest);
        assert e in sorted && newest.Some?;
        assert e in tail <==> newest.value.prefix != p;
      }
    }
  }

  /** Complete backups in descending order of creation. */
  method NewestFirst(complete: seq<Entry>) returns (sorted: seq<Entry>)
    requires forall i, j :: 0 <= i < j < |complete| ==> complete[i].prefix != complete[j].prefix
    ensures forall e :: e in sorted <==> e in complete
    ensures Distinct(sorted)
    ensures forall e :: e in sorted ==> sorted[0].manifest.createdAt >= e.manifest.createdAt
  {
    assert TotalPreorder(NewerFirst);
    SortByIsSorted(NewerFirst, complete);
    sorted := SortBy(NewerFirst, complete);
    PermutationIsDistinct(complete, sorted);
    SameMembers(complete, sorted);
  }

  // ---------- any sequence of operations ----------

  /** What may happen to the bucket: a backup's steps, pruning, and ordinary writers. */
  datatype Operation =
    | BeforePause(refs: seq<FileItem>)
    | Export(prefix: nat, bytes: string)
    | Finish(prefix: nat, createdAt: int, parts: seq<PartItem>, refs: seq<FileItem>)
    | Prune(protectedAt: nat -> set<nat>)
    | Write(name: string, content: Option<string>)

  /** A finished backup wrote the manifest at the prefix. */
  predicate Wrote(op: Operation, outcome: Outcome, prefix: nat) {
    op.Finish? && outcome == Done && op.prefix == prefix
  }

  predicate HasManifest(o: Objects, prefix: nat) {
    Archive(prefix) in o && o[Archive(prefix)].Readable?
  }

  /** An operation leaves the manifests that remain as they are, but for one that it writes itself; the sizes
      in that one match exactly if nothing was misstated when the operation began. */
  ghost predicate StepOk(omits: Key -> bool, before: Objects, op: Operation, outcome: Outcome, after: Objects) {
    forall p :: HasManifest(after, p) ==>
      if Wrote(op, outcome, p)
      then SizesMatch(after, p, after[Archive(p)].manifest) <==> NoneMisstated(before, omits, p, op.parts, op.refs)
      else HasManifest(before, p) && before[Archive(p)] == after[Archive(p)]
  }

  method Perform(bucket: Bucket, op: Operation) returns (outcome: Outcome)
    requires bucket.Valid()
    modifies bucket`objects, bucket`calls
    ensures bucket.Valid()
    ensures StepOk(bucket.omitsSize, old(bucket.objects), op, outcome, bucket.objects)
    ensures
      && old(SizesOk(bucket.objects))
      && (bucket.ReportsSizes() || !op.Finish? || AllTruthful(bucket.sha256, op.parts, op.refs))
      ==> SizesOk(bucket.objects)
  {
    hide NoneMisstated, SizesMatch, AllTruthful, StoreOk, ManifestPresent;
    match op
    case BeforePause(refs) =>
      outcome := bucket.CopyFilesBeforePause(refs);
    case Export(prefix, bytes) =>
      var item;
      outcome, item := bucket.SavePart(prefix, bytes);
    case Finish(prefix, createdAt, parts, refs) =>
      outcome := bucket.FinishArchive(prefix, createdAt, parts, refs);
    case Prune(protectedAt) =>
      var newest, removable;
      outcome, newest, removable := bucket.PruneUpgradeBackups(protectedAt);
    case Write(name, content) =>
      LiveWriteKeeps(bucket.objects, bucket.sha256, name, content);
      bucket.objects := LiveWrite(bucket.objects, name, content);
      outcome := Done;
  }

  /** An ordinary writer stores or removes a live file. */
  function LiveWrite(o: Objects, name: string, content: Option<string>): Objects {
    if content.Some? then o[Live(name) := Data(content.value)] else o - {Live(name)}
  }

  lemma LiveWriteKeeps(o: Objects, sha256: string -> string, name: string, content: Option<string>)
    requires StoreOk(o, sha256)
    ensures StoreOk(LiveWrite(o, name, content), sha256)
    ensures SizesOk(o) ==> SizesOk(LiveWrite(o, name, content))
  {
    var o' := LiveWrite(o, name, content);
    forall p | HasManifest(o', p) ensures ManifestPresent(o', sha256, p, o'[Archive(p)].manifest) {
      assert ManifestPresent(o, sha256, p, o[Archive(p)].manifest);
    }
  }

  // ---------- which manifests have wrong sizes ----------

  /** Whether the manifest at a prefix was written over nothing misstated: the last backup finished there decides,
      and without one the manifest that was there at first. */
  ghost predicate WellStated(omits: Key -> bool, states: seq<Objects>, ops: seq<Operation>, outcomes: seq<Outcome>,
    n: nat, p: nat)
    requires n < |states| && n <= |ops| && n <= |outcomes|
    decreases n
  {
    if n == 0 then HasManifest(states[0], p) ==> SizesMatch(states[0], p, states[0][Archive(p)].manifest)
    else if Wrote(ops[n - 1], outcomes[n - 1], p)
      then NoneMisstated(states[n - 1], omits, p, ops[n - 1].parts, ops[n - 1].refs)
    else WellStated(omits, states, ops, outcomes, n - 1, p)
  }

  /** In a store, the sizes in every manifest match exactly if it is well stated. */
  ghost predicate SizesAreStated(omits: Key -> bool, states: seq<Objects>, ops: seq<Operation>, outcomes: seq<Outcome>,
    n: nat)
    requires n < |states| && n <= |ops| && n <= |outcomes|
  {
    forall p :: HasManifest(states[n], p) ==>
      (SizesMatch(states[n], p, states[n][Archive(p)].manifest) <==> WellStated(omits, states, ops, outcomes, n, p))
  }

  lemma {:induction false} LongerTrace(omits: Key -> bool, states: seq<Objects>, o: Objects, ops: seq<Operation>,
                                       outcomes: seq<Outcome>, last: Outcome, n: nat, p: nat)
    requires n < |states| && n <= |ops| && n <= |outcomes|
    ensures WellStated(omits, states + [o], ops, outcomes + [last], n, p) <==>
      WellStated(omits, states, ops, outcomes, n, p)
  {
    hide SizesMatch, NoneMisstated;
    if n > 0 { LongerTrace(omits, states, o, ops, outcomes, last, n - 1, p); }
  }

  lemma NextState(omits: Key -> bool, sha256: string -> string, states: seq<Objects>, o: Objects, ops: seq<Operation>,
                  outcomes: seq<Outcome>, last: Outcome)
    requires |states| == |outcomes| + 1 && |outcomes| < |ops| && Injective(sha256)
    requires StoreOk(states[|outcomes|], sha256) && StoreOk(o, sha256)
    requires StepOk(omits, states[|outcomes|], ops[|outcomes|], last, o)
    requires SizesAreStated(omits, states, ops, outcomes, |outcomes|)
    ensures SizesAreStated(omits, states + [o], ops, outcomes + [last], |outcomes| + 1)
  {
    hide SizesMatch, NoneMisstated, ManifestPresent, Injective;
    var n := |outcomes|;
    forall p | HasManifest(o, p)
      ensures SizesMatch(o, p, o[Archive(p)].manifest) <==>
        WellStated(omits, states + [o], ops, outcomes + [last], n + 1, p)
    {
      LongerTrace(omits, states, o, ops, outcomes, last, n, p);
      if !Wrote(ops[n], last, p) { SizesStay(states[n], o, sha256, p, o[Archive(p)].manifest); }
    }
  }

  /**
   * Over any sequence of backups, prunes and writes, each stopped after its own number of object operations,
   * every manifest that is still present has all its parts and all its shared copies with matching checksum.
   * Its sizes match exactly if it was written over nothing misstated; so all do if listings report them, or the
   * database's sizes are the true ones.
   */
  method PerformAll(bucket: Bucket, ops: seq<Operation>, stops: seq<nat>)
    returns (outcomes: seq<Outcome>, ghost states: seq<Objects>)
    requires bucket.Valid() && |ops| == |stops|
    modifies bucket`objects, bucket`calls
    ensures StoreOk(bucket.objects, bucket.sha256)
    ensures |outcomes| == |ops| && |states| == |ops| + 1 && states[0] == old(bucket.objects)
      && states[|ops|] == bucket.objects
    ensures forall i :: 0 <= i < |ops| ==> StepOk(bucket.omitsSize, states[i], ops[i], outcomes[i], states[i + 1])
    ensures SizesAreStated(bucket.omitsSize, states, ops, outcomes, |ops|)
    ensures old(SizesOk(bucket.objects))
            && (bucket.ReportsSizes() || forall i :: 0 <= i < |ops| && ops[i].Finish? ==>
               AllTruthful(bucket.sha256, ops[i].parts, ops[i].refs)) ==>
            SizesOk(bucket.objects)
  {
    outcomes, states := [], [bucket.objects];
    hide StoreOk, SizesOk, StepOk, AllTruthful, NoneMisstated, SizesMatch, Injective;
    for i := 0 to |ops|
      invariant bucket.Valid()
      invariant |outcomes| == i && |states| == i + 1 && states[0] == old(bucket.objects) && states[i] == bucket.objects
      invariant forall j :: 0 <= j < i ==> StepOk(bucket.omitsSize, states[j], ops[j], outcomes[j], states[j + 1])
      invariant SizesAreStated(bucket.omitsSize, states, ops, outcomes, i)
      invariant old(SizesOk(bucket.objects))
                && (bucket.ReportsSizes() || forall j :: 0 <= j < |ops| && ops[j].Finish? ==>
                   AllTruthful(bucket.sha256, ops[j].parts, ops[j].refs)) ==>
                SizesOk(bucket.objects)
    {
      bucket.calls := stops[i];
      var outcome := Perform(bucket, ops[i]);
      NextState(bucket.omitsSize, bucket.sha256, states, bucket.objects, ops, outcomes, outcome);
      outcomes, states := outcomes + [outcome], states + [bucket.objects];
    }
  }

  /** A backup that finishes with a wrong size: the copy stands already, its listing leaves the size out, and so
      nothing compares it with the size in the database. */
  method UnreportedSizeIsNotCompared(sha256: string -> string) returns (bucket: Bucket, outcome: Outcome)
    requires Injective(sha256)
    ensures bucket.Valid() && outcome == Done && HasManifest(bucket.objects, 0)
    ensures !SizesMatch(bucket.objects, 0, bucket.objects[Archive(0)].manifest)
  {
    var hash := sha256("ab");
    var ref := FileItem("file", hash, 5);
    bucket := new Bucket(sha256, k => true, map[Shared(hash) := Data("ab")], 5);
    assert Available(bucket.objects, sha256, bucket.omitsSize, ref);
    assert ref in [ref] && Misstated(bucket.objects, bucket.omitsSize, Shared(hash), 5);
    outcome := bucket.FinishArchive(0, 0, [], [ref]);
  }
}
