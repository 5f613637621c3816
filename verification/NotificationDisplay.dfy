/** The display text of a reminder notification and its envelope cache (notification-keys.ts). */
module NotificationDisplay {
  import opened Common
  import opened JsonBytes

  const ELLIPSIS: Point := 0x2026
  const TITLE_BUDGET := 800
  const BODY_BUDGET := 160
  const DISPLAY_LIMIT := 1024

  datatype Display = Display(title: seq<Point>, body: seq<Point>)

  /** The JSON text of a display: 22 bytes around its escaped strings. */
  function DisplayBytes(d: Display): nat {
    22 + Escaped(d.title) + Escaped(d.body)
  }

  /** The longest prefix within a number of bytes. */
  predicate IsLongestPrefix(s: seq<Point>, k: nat, bytes: int) {
    && k <= |s| && (k > 0 ==> Utf8Bytes(s[..k]) <= bytes)
    && (k < |s| ==> Utf8Bytes(s[..k + 1]) > bytes)
  }

  /** `trimDisplay`: a value that fits is kept; otherwise the longest prefix that leaves room for an ellipsis. */
  method TrimDisplay(value: seq<Point>, budget: nat) returns (result: seq<Point>, ghost k: nat)
    ensures Utf8Bytes(value) <= budget ==> result == value
    ensures Utf8Bytes(value) > budget ==> IsLongestPrefix(value, k, budget - 3) && result == value[..k] + [ELLIPSIS]
    ensures Utf8Bytes(result) <= budget <==> budget >= 3 || Utf8Bytes(value) <= budget
  {
    k := 0;
    if Utf8Bytes(value) <= budget { return value, k; }
    result := [];
    var length := 0;
    for i := 0 to |value|
      invariant result == value[..i] && length == Utf8Bytes(value[..i]) && k == i
      invariant i > 0 ==> length <= budget - 3
    {
      assert value[..i + 1][..i] == value[..i];
      length := length + PointBytes(value[i]);
      if length > budget - 3 { break; }
      result := result + [value[i]];
      k := i + 1;
    }
    assert value[..|value|] == value;
    assert (result + [ELLIPSIS])[..k] == result;
    result := result + [ELLIPSIS];
  }

  /** The longest prefix of a title that keeps the whole display within the limit. */
  predicate IsLongestTitle(title: seq<Point>, shortened: seq<Point>, body: seq<Point>) {
    && shortened <= title && DisplayBytes(Display(shortened, body)) <= DISPLAY_LIMIT
    && (|shortened| < |title| ==> DisplayBytes(Display(title[..|shortened| + 1], body)) > DISPLAY_LIMIT)
  }

  /** A body within its budget fits without a title. */
  lemma BodyFits(body: seq<Point>)
    requires Utf8Bytes(body) <= BODY_BUDGET
    ensures DisplayBytes(Display([], body)) <= DISPLAY_LIMIT
  {
    EscapedBound(body);
  }

  /** A prefix of a title, one character more of which does not fit. */
  predicate IsShortened(title: seq<Point>, shortened: seq<Point>, body: seq<Point>) {
    && shortened <= title
    && (|shortened| < |title| ==> DisplayBytes(Display(title[..|shortened| + 1], body)) > DISPLAY_LIMIT)
  }

  lemma WholeIsShortened(title: seq<Point>, body: seq<Point>)
    ensures IsShortened(title, title, body)
  {
    assert title[..|title|] == title;
  }

  lemma ShorterIsShortened(title: seq<Point>, shortened: seq<Point>, body: seq<Point>)
    requires IsShortened(title, shortened, body) && shortened != []
    requires DisplayBytes(Display(shortened, body)) > DISPLAY_LIMIT
    ensures IsShortened(title, shortened[..|shortened| - 1], body)
  {
    hide DisplayBytes;
    assert title[..|shortened|] == shortened;
  }

  /** The display that is sealed. Shortening the title always ends: the trimmed body alone fits, since its
      160 bytes escape to at most 960. */
  method BuildDisplay(title: seq<Point>, body: seq<Point>) returns (display: Display, ghost trimmed: seq<Point>)
    ensures DisplayBytes(display) <= DISPLAY_LIMIT
    ensures Utf8Bytes(trimmed) <= TITLE_BUDGET && (Utf8Bytes(title) <= TITLE_BUDGET ==> trimmed == title)
    ensures Utf8Bytes(display.body) <= BODY_BUDGET && (Utf8Bytes(body) <= BODY_BUDGET ==> display.body == body)
    ensures IsLongestTitle(trimmed, display.title, display.body)
  {
    var shown, short;
    ghost var k;
    shown, k := TrimDisplay(title, TITLE_BUDGET);
    short, k := TrimDisplay(body, BODY_BUDGET);
    BodyFits(short);
    WholeIsShortened(shown, short);
    hide DisplayBytes, Utf8Bytes, IsLongestPrefix, IsShortened;
    display, trimmed := Display(shown, short), shown;
    while DisplayBytes(display) > DISPLAY_LIMIT
      invariant display.body == short && IsShortened(trimmed, display.title, short)
      decreases |display.title|
    {
      assert display == Display(display.title, short);
      ShorterIsShortened(trimmed, display.title, short);
      display := display.(title := display.title[..|display.title| - 1]);
    }
    LongestTitle(trimmed, display.title, display.body);
  }

  lemma LongestTitle(title: seq<Point>, shortened: seq<Point>, body: seq<Point>)
    requires IsShortened(title, shortened, body) && DisplayBytes(Display(shortened, body)) <= DISPLAY_LIMIT
    ensures IsLongestTitle(title, shortened, body)
  {
  }

  // ---------- the envelope cache ----------

  const MAX_CACHED_ENVELOPES := 4096

  /** The fingerprint of a reminder and its display, and encryption, which is different every time. */
  datatype Cipher = Cipher(fingerprint: (string, Display) -> string, encrypt: (Display, nat) -> string,
    decrypt: string -> Option<Display>)

  ghost predicate IsCipher(c: Cipher) {
    && (forall id, a, b :: c.fingerprint(id, a) == c.fingerprint(id, b) ==> a == b)
    && (forall d, nonce :: c.decrypt(c.encrypt(d, nonce)) == Some(d))
  }

  /** One remembered envelope, under its reminder and fingerprint. */
  datatype Envelope = Envelope(id: string, fingerprint: string, text: string)

  function Find(envelopes: seq<Envelope>, id: string, fingerprint: string): (i: nat)
    ensures i <= |envelopes|
    ensures i < |envelopes| ==> envelopes[i].id == id && envelopes[i].fingerprint == fingerprint
  {
    if envelopes == [] || (envelopes[0].id == id && envelopes[0].fingerprint == fingerprint) then 0
    else 1 + Find(envelopes[1..], id, fingerprint)
  }

  /** The envelopes but one. */
  function Others(envelopes: seq<Envelope>, i: nat): seq<Envelope> {
    if i < |envelopes| then envelopes[..i] + envelopes[i + 1..] else envelopes
  }

  function LastOf(envelopes: seq<Envelope>, n: nat): seq<Envelope> {
    if |envelopes| <= n then envelopes else envelopes[|envelopes| - n..]
  }

  class Notifications {
    const cipher: Cipher
    /** Least recently used first. */
    var envelopes: seq<Envelope>
    var nonce: nat

    /** Every remembered envelope holds the display its fingerprint was made from. */
    ghost predicate Valid()
      reads this
    {
      && IsCipher(cipher) && |envelopes| <= MAX_CACHED_ENVELOPES
      && forall i :: 0 <= i < |envelopes| ==> Truthful(envelopes[i])
    }

    ghost predicate Truthful(e: Envelope) {
      exists d :: cipher.fingerprint(e.id, d) == e.fingerprint && cipher.decrypt(e.text) == Some(d)
    }

    constructor (cipher: Cipher)
      requires IsCipher(cipher)
      ensures Valid() && this.cipher == cipher && envelopes == []
    {
      this.cipher, envelopes, nonce := cipher, [], 0;
    }

    /** The caching part of `sealNotification`: a remembered envelope is used again, and only a missing one is made
        anew; either way it opens to the given display. It is the most recent one afterwards, the others keep their
        order, and the oldest go when there are too many. */
    method Seal(id: string, display: Display) returns (envelope: string)
      requires Valid()
      modifies this
      ensures Valid() && cipher.decrypt(envelope) == Some(display)
      ensures envelopes != [] && envelopes[|envelopes| - 1] == Envelope(id, cipher.fingerprint(id, display), envelope)
      ensures var i := Find(old(envelopes), id, cipher.fingerprint(id, display));
        && envelope == (if i < |old(envelopes)| then old(envelopes)[i].text else cipher.encrypt(display, old(nonce)))
        && nonce == (if i < |old(envelopes)| then old(nonce) else old(nonce) + 1)
        && envelopes == LastOf(Others(old(envelopes), i) + [envelopes[|envelopes| - 1]], MAX_CACHED_ENVELOPES)
    {
      var fingerprint := cipher.fingerprint(id, display);
      var i := Find(envelopes, id, fingerprint);
      if i < |envelopes| {
        envelope := envelopes[i].text;
        assert Truthful(envelopes[i]);
        envelopes := envelopes[..i] + envelopes[i + 1..];
      } else {
        envelope := cipher.encrypt(display, nonce);
        nonce := nonce + 1;
      }
      var latest := Envelope(id, fingerprint, envelope);
      assert Truthful(latest);
      envelopes := envelopes + [latest];
      ghost var all := envelopes;
      assert all == Others(old(envelopes), i) + [latest];
      while |envelopes| > MAX_CACHED_ENVELOPES
        modifies `envelopes
        invariant 0 < |envelopes| <= MAX_CACHED_ENVELOPES + 1 && envelopes[|envelopes| - 1] == latest
        invariant forall j :: 0 <= j < |envelopes| ==> Truthful(envelopes[j])
        invariant envelopes == all || (|all| == MAX_CACHED_ENVELOPES + 1 && envelopes == all[1..])
      {
        envelopes := envelopes[1..];
      }
      assert envelopes == LastOf(all, MAX_CACHED_ENVELOPES);
    }
  }
}
