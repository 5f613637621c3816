/** Emptying a bucket in batches (reset-objects.ts), and the check that the cleanup Worker makes of each batch
    (`readKeys` in server-delete-worker.js). */
module BucketClear {
  import opened Common
  import opened JsonBytes

  type Key = seq<Point>

  const MAX_KEYS := 1000
  const MAX_BYTES := 1100000
  const MAX_KEY_BYTES := 1024

  // ---------- what the Worker accepts ----------

  /** Names that object storage can hold. */
  predicate IsObjectKey(key: Key) { key != [] && Utf8Bytes(key) <= MAX_KEY_BYTES }

  /** What the Worker asks of the keys themselves. */
  predicate AreKeys(keys: seq<Key>) {
    0 < |keys| <= MAX_KEYS && Distinct(keys) && forall i :: 0 <= i < |keys| ==> IsObjectKey(keys[i])
  }

  predicate Acceptable(keys: seq<Key>) {
    AreKeys(keys) && ArrayBytes(keys) <= MAX_BYTES
  }

  function Sum(parts: seq<nat>): nat {
    if parts == [] then 0 else Sum(parts[..|parts| - 1]) + parts[|parts| - 1]
  }

  lemma {:induction false} SumGrows(parts: seq<nat>, n: nat)
    requires n <= |parts|
    ensures Sum(parts[..n]) <= Sum(parts)
  {
    if n < |parts| {
      SumGrows(parts[..|parts| - 1], n);
      assert parts[..|parts| - 1][..n] == parts[..n];
    } else {
      assert parts[..n] == parts;
    }
  }

  /** `readKeys`: the body arrives in parts, and too many bytes end the reading early. `body` is what its text
      parses to, if that is an array of strings. A body of the length that `JSON.stringify` gives it is read
      exactly if its keys are acceptable. */
  method ReadKeys(parts: seq<nat>, body: Option<seq<Key>>) returns (read: Option<seq<Key>>)
    ensures read == if Sum(parts) <= MAX_BYTES && body.Some? && AreKeys(body.value) then body else None
    ensures body.Some? && Sum(parts) == ArrayBytes(body.value) ==> (read == body <==> Acceptable(body.value))
  {
    var size := 0;
    for n := 0 to |parts|
      invariant size == Sum(parts[..n]) <= MAX_BYTES
    {
      assert parts[..n + 1][..n] == parts[..n];
      size := size + parts[n];
      SumGrows(parts, n + 1);
      if size > MAX_BYTES { return None; }
    }
    assert parts[..|parts|] == parts;
    if body.None? { return None; }
    var keys := body.value;
    if keys == [] || |keys| > MAX_KEYS || !Distinct(keys) { return None; }
    for i := 0 to |keys|
      invariant forall j :: 0 <= j < i ==> IsObjectKey(keys[j])
    {
      if !IsObjectKey(keys[i]) { return None; }
    }
    read := Some(keys);
  }

  // ---------- one page in batches ----------

  /** A batch within the limits; a single key is taken whatever its length. */
  predicate IsBatch(batch: seq<Key>) {
    0 < |batch| <= MAX_KEYS && (|batch| == 1 || ArrayBytes(batch) <= MAX_BYTES)
  }

  lemma ArrayGrows(keys: seq<Key>, key: Key)
    ensures ArrayBytes(keys + [key]) == ArrayBytes(keys) + StringBytes(key) + if keys == [] then 0 else 1
  {
    assert (keys + [key])[..|keys|] == keys;
  }

  /** One more key of a page, and what it adds to the body. */
  lemma PageGrows(page: seq<Key>, from: nat, offset: nat)
    requires from <= offset < |page|
    ensures page[from..offset + 1] == page[from..offset] + [page[offset]]
    ensures ArrayBytes(page[from..offset + 1]) ==
            ArrayBytes(page[from..offset]) + StringBytes(page[offset]) + if offset == from then 0 else 1
  {
    assert page[from..offset + 1] == page[from..offset] + [page[offset]];
    ArrayGrows(page[from..offset], page[offset]);
  }

  lemma NoKeys()
    ensures ArrayBytes([]) == 2
  {
  }

  /** The next batch from an offset: its byte count is the length of its JSON, it holds as many keys as fit. */
  method NextBatch(page: seq<Key>, from: nat) returns (keys: seq<Key>, offset: nat)
    requires from < |page|
    ensures from < offset <= |page| && keys == page[from..offset] && IsBatch(keys)
    ensures offset < |page| ==> !IsBatch(page[from..offset + 1])
  {
    keys, offset := [], from;
    var bytes: nat := 2;
    NoKeys();
    hide ArrayBytes, StringBytes;
    while offset < |page| && |keys| < MAX_KEYS
      invariant from <= offset <= |page| && keys == page[from..offset] && |keys| <= MAX_KEYS
      invariant bytes == ArrayBytes(keys) && (keys != [] ==> IsBatch(keys))
      decreases |page| - offset
    {
      var key := page[offset];
      var nextBytes := StringBytes(key) + if keys != [] then 1 else 0;
      PageGrows(page, from, offset);
      if keys != [] && bytes + nextBytes > MAX_BYTES { return; }
      keys, bytes, offset := keys + [key], bytes + nextBytes, offset + 1;
    }
  }

  lemma {:induction false} KeysFit(keys: seq<Key>)
    requires forall i :: 0 <= i < |keys| ==> IsObjectKey(keys[i])
    ensures ArrayBytes(keys) <= 2 + |keys| * (6 * MAX_KEY_BYTES + 3)
  {
    if keys != [] {
      KeysFit(keys[..|keys| - 1]);
      EscapedBound(keys[|keys| - 1]);
    }
  }

  /** Every batch of a page of distinct object keys is one that the Worker accepts. */
  lemma BatchIsAcceptable(page: seq<Key>, from: nat, offset: nat)
    requires Distinct(page) && from <= offset <= |page| && IsBatch(page[from..offset])
    requires forall i :: 0 <= i < |page| ==> IsObjectKey(page[i])
    ensures Acceptable(page[from..offset])
  {
    var keys := page[from..offset];
    if |keys| == 1 { KeysFit(keys); }
  }

  // ---------- the bucket ----------

  function Without(objects: seq<Key>, keys: seq<Key>): (rest: seq<Key>)
    ensures |rest| <= |objects|
    ensures forall k :: k in rest <==> k in objects && k !in keys
  {
    if objects == [] then []
    else (if objects[0] in keys then [] else [objects[0]]) + Without(objects[1..], keys)
  }

  lemma {:induction false} WithoutPrefix(objects: seq<Key>, n: nat, m: nat)
    requires Distinct(objects) && n <= m <= |objects|
    ensures Without(objects[n..], objects[n..m]) == objects[m..]
    decreases m - n
  {
    hide Without, Distinct;
    if n == m {
      WithoutNone(objects[n..]);
      assert objects[n..m] == [];
    } else {
      WithoutPrefix(objects, n + 1, m);
      PrefixStep(objects, n, m);
    }
  }

  lemma PrefixStep(objects: seq<Key>, n: nat, m: nat)
    requires Distinct(objects) && n < m <= |objects|
    ensures Without(objects[n..], objects[n..m]) == Without(objects[n + 1..], objects[n + 1..m])
  {
    hide Without;
    var key, rest, keys := objects[n], objects[n + 1..], objects[n + 1..m];
    assert objects[n..m] == [key] + keys;
    SkipFirst(objects, n, m, n + 1);
    WithoutMore(rest, key, keys);
    WithoutFirst(objects, n, objects[n..m]);
  }

  lemma WithoutFirst(objects: seq<Key>, n: nat, keys: seq<Key>)
    requires n < |objects| && objects[n] in keys
    ensures Without(objects[n..], keys) == Without(objects[n + 1..], keys)
  {
    assert objects[n..][1..] == objects[n + 1..];
  }

  lemma {:induction false} WithoutNone(objects: seq<Key>)
    ensures Without(objects, []) == objects
  {
    if objects != [] { WithoutNone(objects[1..]); }
  }

  lemma {:induction false} WithoutMore(objects: seq<Key>, key: Key, keys: seq<Key>)
    requires key !in objects
    ensures Without(objects, [key] + keys) == Without(objects, keys)
  {
    if objects != [] {
      assert objects[0] in objects;
      WithoutMore(objects[1..], key, keys);
    }
  }

  lemma {:induction false} WithoutDistinct(objects: seq<Key>, keys: seq<Key>)
    requires Distinct(objects)
    ensures Distinct(Without(objects, keys))
  {
    if objects != [] {
      WithoutDistinct(objects[1..], keys);
      assert objects[0] !in objects[1..];
    }
  }

  lemma SkipFirst(objects: seq<Key>, n: nat, m: nat, k: nat)
    requires Distinct(objects) && n < m <= |objects| && n < k <= |objects|
    ensures objects[n] !in objects[k..]
  {
  }

  datatype Outcome = Failed | Cleared

  /** The bucket, and how its calls end: a failed removal may still have removed its batch. */
  class Bucket {
    var objects: seq<Key>
    var clock: nat
    const fails: nat -> bool
    const effective: nat -> bool
    const pageSize: nat -> nat
    /** The batches that were sent. */
    ghost var sent: seq<seq<Key>>

    ghost predicate Valid()
      reads this
    {
      && Distinct(objects) && (forall i :: 0 <= i < |objects| ==> IsObjectKey(objects[i]))
      && (forall i :: 0 <= i < |sent| ==> Acceptable(sent[i]))
    }

    constructor (objects: seq<Key>, fails: nat -> bool, effective: nat -> bool, pageSize: nat -> nat)
      requires Distinct(objects) && forall i :: 0 <= i < |objects| ==> IsObjectKey(objects[i])
      ensures Valid() && this.objects == objects && sent == []
      ensures this.fails == fails && this.pageSize == pageSize
    {
      this.objects, this.fails, this.effective, this.pageSize := objects, fails, effective, pageSize;
      clock, sent := 0, [];
    }

    /** The check of the target, and the first page of the listing, which is in key order. */
    method List() returns (page: Option<seq<Key>>)
      requires Valid()
      modifies `clock
      ensures Valid() && clock == old(clock) + 2
      ensures page.None? <==> fails(old(clock)) || fails(old(clock) + 1)
      ensures page.Some? ==>
        page.value <= objects && (pageSize(old(clock) + 1) > 0 && objects != [] ==> page.value != [])
    {
      var n := pageSize(clock + 1);
      page := if fails(clock) || fails(clock + 1) then None else Some(if n <= |objects| then objects[..n] else objects);
      clock := clock + 2;
    }

    /** Sends one batch to the Worker. */
    method Remove(keys: seq<Key>) returns (removed: bool)
      requires Valid() && Acceptable(keys)
      modifies `objects, `clock, `sent
      ensures Valid()
      ensures clock == old(clock) + 1 && sent == old(sent) + [keys]
      ensures removed == !fails(old(clock))
      ensures removed ==> objects == Without(old(objects), keys)
      ensures objects == old(objects) || objects == Without(old(objects), keys)
    {
      removed := !fails(clock);
      ghost var before := objects;
      WithoutDistinct(objects, keys);
      if removed || effective(clock) { objects := Without(objects, keys); }
      assert forall i :: 0 <= i < |objects| ==> objects[i] in objects;
      assert forall i :: 0 <= i < |objects| ==> objects[i] in before;
      clock, sent := clock + 1, sent + [keys];
    }

    /** Removes the next batch of a page. */
    method RemoveNext(page: seq<Key>, from: nat, ghost all: seq<Key>)
      returns (removed: bool, keys: seq<Key>, offset: nat)
      requires Valid() && from < |page| && page <= all && Distinct(all) && objects == all[from..]
      requires forall i :: 0 <= i < |page| ==> IsObjectKey(page[i])
      modifies `objects, `clock, `sent
      ensures Valid() && from < offset <= |page| && keys == page[from..offset] && sent == old(sent) + [keys]
      ensures removed ==> objects == all[offset..]
      ensures removed == !fails(old(clock))
    {
      keys, offset := NextBatch(page, from);
      assert Distinct(page);
      BatchIsAcceptable(page, from, offset);
      WithoutPrefix(all, from, offset);
      assert all[from..offset] == keys;
      removed := Remove(keys);
    }

    /** Removes one page, batch by batch. */
    method ClearPage(page: seq<Key>) returns (cleared: bool, ghost batches: seq<seq<Key>>)
      requires Valid() && page <= objects && page != []
      modifies `objects, `clock, `sent
      ensures Valid() && sent == old(sent) + batches
      ensures cleared ==> objects == old(objects)[|page|..] && Flatten(batches) == page
      ensures (forall n :: !fails(n)) ==> cleared
    {
      ghost var all, before := objects, sent;
      assert forall i :: 0 <= i < |page| ==> IsObjectKey(page[i]);
      batches := [];
      var offset := 0;
      while offset < |page|
        invariant 0 <= offset <= |page| && Valid() && objects == all[offset..]
        invariant Flatten(batches) == page[..offset] && sent == before + batches
        decreases |page| - offset
      {
        hide Acceptable, IsObjectKey, Distinct;
        var removed, keys;
        ghost var from := offset;
        removed, keys, offset := RemoveNext(page, offset, all);
        assert (batches + [keys])[..|batches|] == batches;
        batches := batches + [keys];
        if !removed { return false, batches; }
        assert page[..from] + keys == page[..offset];
      }
      assert page[..|page|] == page;
      cleared := true;
    }

    /**
     * `clearBucketObjects`: it lists from the start after every page. Every batch it sends is one that the
     * Worker accepts. It ends with an empty bucket whenever no call fails and nothing is added, and never
     * reports an empty bucket that is not.
     */
    method Clear() returns (outcome: Outcome)
      requires Valid()
      modifies this
      ensures Valid()
      ensures outcome == Cleared ==> objects == []
      ensures (forall n :: !fails(n) && pageSize(n) > 0) ==> outcome == Cleared
    {
      var previousFirst: Option<Key> := None;
      while true
        invariant Valid() && (previousFirst.Some? ==> previousFirst.value !in objects)
        decreases |objects|
      {
        var page := List();
        if page.None? { return Failed; }
        if page.value == [] {
          return if objects != [] then Failed else Cleared;
        }
        if previousFirst == Some(page.value[0]) { return Failed; }
        previousFirst := Some(page.value[0]);
        ghost var before := objects;
        assert before[0] == page.value[0];
        var cleared, _ := ClearPage(page.value);
        if !cleared { return Failed; }
        SkipFirst(before, 0, |page.value|, |page.value|);
      }
    }
  }
}
