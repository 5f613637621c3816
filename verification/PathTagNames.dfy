/**
 What a wire form tells apart (path-tags.ts, `tag` and `wire`): two paths share one only if they have the same
 portable names, as long as the hash gives the messages signed for them different values.
 */
module PathTagNames {
  import B = Base32
  import opened BitStrings
  import opened Paths
  import opened PathTags

  /** The message signed for a path's name `i`. */
  function MessageAt(e: Engine, segments: seq<string>, i: nat): string
    requires i < |segments|
  {
    Message(e, Plain(segments[..i]), segments[i])
  }

  /** Level by level, the hash does not take one path's message for the other's. */
  predicate TellsApart(e: Engine, a: seq<string>, b: seq<string>)
    requires |a| == |b|
  {
    forall i :: 0 <= i < |a| && e.mac(MessageAt(e, a, i)) == e.mac(MessageAt(e, b, i)) ==>
      MessageAt(e, a, i) == MessageAt(e, b, i)
  }

  predicate SameNames(e: Engine, a: seq<string>, b: seq<string>) {
    |a| == |b| && forall i :: 0 <= i < |a| ==> e.key(a[i]) == e.key(b[i])
  }

  lemma SameTail(p: string, x: string, q: string, y: string)
    requires p + x == q + y && (|p| == |q| || |x| == |y|)
    ensures p == q && x == y
  {
    assert p == (p + x)[..|p|] && q == (q + y)[..|q|];
    assert x == (p + x)[|p|..] && y == (q + y)[|q|..];
  }

  /** In one folder the message tells the name. */
  lemma MessageTellsName(e: Engine, p: string, x: string, q: string, y: string)
    requires e.key(p) == e.key(q) && Message(e, p, x) == Message(e, q, y)
    ensures e.key(x) == e.key(y)
  {
    SameTail("crate-path-v1\0" + e.key(p) + "\0", e.key(x), "crate-path-v1\0" + e.key(q) + "\0", e.key(y));
  }

  /** For one name the message tells the folder. */
  lemma MessageTellsFolder(e: Engine, p: string, q: string, x: string)
    requires Message(e, p, x) == Message(e, q, x)
    ensures e.key(p) == e.key(q)
  {
    SameTail("crate-path-v1\0" + e.key(p) + "\0", e.key(x), "crate-path-v1\0" + e.key(q) + "\0", e.key(x));
    SameTail("crate-path-v1\0" + e.key(p), "\0", "crate-path-v1\0" + e.key(q), "\0");
    SameTail("crate-path-v1\0", e.key(p), "crate-path-v1\0", e.key(q));
  }

  /** Equal tags have equal hashes. */
  lemma TagTellsHash(e: Engine, p: string, x: string, q: string, y: string)
    requires IsEngine(e) && Tag(e, p, x) == Tag(e, q, y)
    ensures e.mac(Message(e, p, x)) == e.mac(Message(e, q, y))
  {
    assert e.mac(Message(e, p, x)) == Tag(e, p, x)[..TAG_LENGTH];
    assert e.mac(Message(e, q, y)) == Tag(e, q, y)[..TAG_LENGTH];
  }

  /** Equal names in different folders are not linked: their tags are equal only where the hash collides. */
  lemma EqualNamesAreUnlinkable(e: Engine, p: string, q: string, name: string)
    requires IsEngine(e) && e.key(p) != e.key(q)
    ensures Message(e, p, name) != Message(e, q, name)
    ensures Tag(e, p, name) == Tag(e, q, name) <==> e.mac(Message(e, p, name)) == e.mac(Message(e, q, name))
  {
    if Message(e, p, name) == Message(e, q, name) { MessageTellsFolder(e, p, q, name); }
    if Tag(e, p, name) == Tag(e, q, name) { TagTellsHash(e, p, name, q, name); }
  }

  /** A tag has no slash, so the last slash splits a wire form. */
  lemma LastTag(e: Engine, a: seq<string>, b: seq<string>)
    requires IsEngine(e) && |a| == |b| > 0 && Uncached(e, a) == Uncached(e, b)
    ensures var n := |a| - 1;
      && Uncached(e, a[..n]) == Uncached(e, b[..n])
      && Tag(e, Plain(a[..n]), a[n]) == Tag(e, Plain(b[..n]), b[n])
  {
    var n := |a| - 1;
    if n > 0 {
      ExtendsParent(e, a);
      ExtendsParent(e, b);
      TagIsPlain(e, Plain(a[..n]), a[n]);
      TagIsPlain(e, Plain(b[..n]), b[n]);
      hide IsEngine, Uncached, Tag;
      LastSlash(Uncached(e, a[..n]), Tag(e, Plain(a[..n]), a[n]), Uncached(e, b[..n]), Tag(e, Plain(b[..n]), b[n]));
    } else {
      assert a[..0] == [] && b[..0] == [];
    }
  }

  lemma MessageInPrefix(e: Engine, a: seq<string>, i: nat)
    requires i < |a| - 1
    ensures MessageAt(e, a[..|a| - 1], i) == MessageAt(e, a, i)
  {
    assert a[..|a| - 1][..i] == a[..i];
  }

  lemma FoldersToldApart(e: Engine, a: seq<string>, b: seq<string>)
    requires |a| == |b| > 0 && TellsApart(e, a, b)
    ensures TellsApart(e, a[..|a| - 1], b[..|a| - 1])
  {
    hide MessageAt;
    var p, q := a[..|a| - 1], b[..|a| - 1];
    forall i | 0 <= i < |p| && e.mac(MessageAt(e, p, i)) == e.mac(MessageAt(e, q, i))
      ensures MessageAt(e, p, i) == MessageAt(e, q, i)
    {
      MessageInPrefix(e, a, i);
      MessageInPrefix(e, b, i);
    }
  }

  /** Below folders of one portable form, the hash of the last names' messages tells them apart. */
  lemma LastNamesSame(e: Engine, a: seq<string>, b: seq<string>)
    requires IsEngine(e) && |a| == |b| > 0 && TellsApart(e, a, b) && Uncached(e, a) == Uncached(e, b)
    requires SameNames(e, a[..|a| - 1], b[..|a| - 1])
    ensures e.key(a[|a| - 1]) == e.key(b[|a| - 1])
  {
    hide Uncached, Tag, Plain, Message;
    var n := |a| - 1;
    LastTag(e, a, b);
    SameNamesSameWire(e, a[..n], b[..n]);
    TagTellsHash(e, Plain(a[..n]), a[n], Plain(b[..n]), b[n]);
    assert MessageAt(e, a, n) == MessageAt(e, b, n);
    MessageTellsName(e, Plain(a[..n]), a[n], Plain(b[..n]), b[n]);
  }

  lemma {:induction false} SameWireSameNames(e: Engine, a: seq<string>, b: seq<string>)
    requires IsEngine(e) && |a| == |b| && TellsApart(e, a, b) && Uncached(e, a) == Uncached(e, b)
    ensures SameNames(e, a, b)
  {
    hide IsEngine, Uncached, TellsApart;
    if a != [] {
      var n := |a| - 1;
      LastTag(e, a, b);
      FoldersToldApart(e, a, b);
      SameWireSameNames(e, a[..n], b[..n]);
      LastNamesSame(e, a, b);
    }
  }

  /** Two paths share a wire form exactly if their names have the same portable forms, unless the hash collides
      on the messages of one level: different files have different server identities. */
  lemma WireTellsPaths(e: Engine, a: seq<string>, b: seq<string>)
    requires IsEngine(e) && a != [] && b != [] && (|a| == |b| ==> TellsApart(e, a, b))
    ensures Uncached(e, a) == Uncached(e, b) <==> SameNames(e, a, b)
  {
    if SameNames(e, a, b) { SameNamesSameWire(e, a, b); }
    if Uncached(e, a) == Uncached(e, b) {
      UncachedSlashes(e, a);
      UncachedSlashes(e, b);
      SameWireSameNames(e, a, b);
    }
  }

  // ---------- the hash ----------

  function FirstBytes(mac: seq<Byte>): seq<Byte> {
    if |mac| <= 16 then mac else mac[..16]
  }

  /** Tags as `tag` makes them: the first 16 bytes of the signature in base32. */
  function Signed(key: string -> string, sign: string -> seq<Byte>): Engine {
    Engine(key, m => B.Base32(FirstBytes(sign(m))))
  }

  lemma {:induction false} EncodedChars(bits: seq<bool>)
    requires |B.ALPHABET| == Power(5)
    ensures forall i :: 0 <= i < |Encode(bits, 5, B.ALPHABET)| ==> IsTagChar(Encode(bits, 5, B.ALPHABET)[i])
    decreases |bits|
  {
    assert forall i :: 0 <= i < |B.ALPHABET| ==> IsTagChar(B.ALPHABET[i]);
    if |bits| > 5 { EncodedChars(bits[5..]); }
  }

  /** A signature of 16 bytes or more gives 26 tag characters, and two tags differ as those bytes do. */
  lemma SignedIsEngine(key: string -> string, sign: string -> seq<Byte>)
    requires IsPortableForm(key) && forall m :: |sign(m)| >= 16
    ensures IsEngine(Signed(key, sign))
    ensures forall m, n :: Signed(key, sign).mac(m) == Signed(key, sign).mac(n) <==>
      FirstBytes(sign(m)) == FirstBytes(sign(n))
  {
    var e := Signed(key, sign);
    B.IsBase32();
    forall m
      ensures |e.mac(m)| == TAG_LENGTH && forall i :: 0 <= i < TAG_LENGTH ==> IsTagChar(e.mac(m)[i])
    {
      B.Base32Length(FirstBytes(sign(m)));
      EncodedChars(Bits(FirstBytes(sign(m))));
    }
    forall m, n | e.mac(m) == e.mac(n) ensures FirstBytes(sign(m)) == FirstBytes(sign(n)) {
      B.Base32IsInjective(FirstBytes(sign(m)), FirstBytes(sign(n)));
    }
  }
}
