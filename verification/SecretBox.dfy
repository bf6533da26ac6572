/**
  * Secrets sealed at rest: the layout `enc:v2:<kid>:<body>`, `seal` and `open`. The cipher and the
  * base64url coder are values with laws; everything around them is written out.
  */
module SecretBox {
  import opened Options
  import opened Bytes
  import Utf8

  const NONCE_LEN := 12
  const TAG_LEN := 16

  datatype Error = KeyUnavailable | Invalid

  /** A key id and context go into the additional data as the header and the context. */
  datatype Aad = Aad(header: string, context: string)

  datatype Sealed = Sealed(tag: seq<Byte>, body: seq<Byte>)

  /** AES-256-GCM, base64url without padding and UTF-8 decoding. */
  datatype Crypto = Crypto(
    aeadSeal: (seq<Byte>, seq<Byte>, Aad, seq<Byte>) -> Sealed,
    aeadOpen: (seq<Byte>, seq<Byte>, Aad, seq<Byte>) -> Option<seq<Byte>>,
    encode: seq<Byte> -> string,
    decode: string -> Option<seq<Byte>>,
    utf8: seq<Byte> -> Option<string>)

  /** What is sealed opens; the coders undo each other. */
  ghost predicate Lawful(c: Crypto) {
    && (forall key, iv, aad, text :: |c.aeadSeal(key, iv, aad, text).tag| == TAG_LEN)
    && (forall key, iv, aad, text ::
          var s := c.aeadSeal(key, iv, aad, text); c.aeadOpen(key, iv, aad, s.body + s.tag) == Some(text))
    && (forall b :: c.decode(c.encode(b)) == Some(b) && UrlSafe(c.encode(b)) && (b != [] ==> c.encode(b) != []))
    && (forall s :: c.utf8(Utf8.Encode(s)) == Some(s))
  }

  /**
    * A ciphertext opens under one context only. This is an idealisation: a real 16-octet tag makes a
    * second context infeasible to find, not impossible. Nothing but the statements about other
    * contexts rests on it.
    */
  ghost predicate Binding(c: Crypto) {
    forall key, iv, aad, aad', data :: c.aeadOpen(key, iv, aad, data).Some? && c.aeadOpen(key, iv, aad', data).Some? ==> aad == aad'
  }

  datatype Keyring = Keyring(active: string, keys: map<string, seq<Byte>>)

  /** What `Keyring::parse` guarantees: well-formed key ids, the active one among them. */
  predicate RingOk(ring: Keyring) {
    ring.active in ring.keys && forall kid | kid in ring.keys :: KeyIdOk(kid)
  }

  predicate UrlSafeChar(c: char) {
    'a' <= c <= 'z' || 'A' <= c <= 'Z' || '0' <= c <= '9' || c == '_' || c == '-'
  }

  predicate UrlSafe(s: string) {
    forall i | 0 <= i < |s| :: UrlSafeChar(s[i])
  }

  predicate KeyIdOk(kid: string) {
    1 <= |kid| <= 32 && UrlSafe(kid)
  }

  // ---------------------------------------------------------------- the layout

  const PREFIX := "enc:v2:"

  function Header(kid: string): string {
    PREFIX + kid + ":"
  }

  /** The language of the sealed-secret expression, with its two groups. */
  predicate Matches(stored: string, kid: string, body: string) {
    stored == Header(kid) + body && KeyIdOk(kid) && body != "" && UrlSafe(body)
  }

  /** The number of leading url-safe characters. */
  function Run(s: string): (n: nat)
    ensures n <= |s| && UrlSafe(s[..n]) && (n < |s| ==> !UrlSafeChar(s[n]))
  {
    if s == [] || !UrlSafeChar(s[0]) then 0 else
      var n := Run(s[1..]);
      assert s[..n + 1] == [s[0]] + s[1..][..n];
      n + 1
  }

  /** The expression's greedy match. */
  function Captures(stored: string): Option<(string, string)> {
    if !(PREFIX <= stored) then None
    else
      var rest := stored[|PREFIX|..];
      var n := Run(rest);
      if 1 <= n <= 32 && n < |rest| && rest[n] == ':' && rest[n + 1..] != "" && UrlSafe(rest[n + 1..])
      then Some((rest[..n], rest[n + 1..])) else None
  }

  function FirstColon(s: string): (at: Option<nat>)
    ensures at.Some? ==> at.value < |s| && s[at.value] == ':' && forall i | 0 <= i < at.value :: s[i] != ':'
    ensures at.None? ==> forall i | 0 <= i < |s| :: s[i] != ':'
  {
    if s == [] then None else if s[0] == ':' then Some(0)
    else match FirstColon(s[1..]) case None => None case Some(n) => Some(n + 1)
  }

  /** `key_id`: strip the prefix, split once at a colon, check both parts. */
  function KeyId(stored: string): Option<string> {
    if !(PREFIX <= stored) then None
    else
      var rest := stored[|PREFIX|..];
      match FirstColon(rest)
      case None => None
      case Some(at) =>
        var kid, body := rest[..at], rest[at + 1..];
        if KeyIdOk(kid) && body != "" && UrlSafe(body) then Some(kid) else None
  }

  lemma {:induction false} RunIs(rest: string, kid: string, body: string)
    requires rest == kid + ":" + body && UrlSafe(kid)
    ensures Run(rest) == |kid|
  {
    assert forall i | 0 <= i < |kid| :: rest[i] == kid[i];
    assert rest[|kid|] == ':';
    assert forall i | 0 <= i < Run(rest) :: rest[i] == rest[..Run(rest)][i];
  }

  lemma MatchParts(stored: string, kid: string, body: string)
    requires stored == Header(kid) + body
    ensures PREFIX <= stored && stored[|PREFIX|..] == kid + ":" + body
    ensures stored[|PREFIX|..][..|kid|] == kid && stored[|PREFIX|..][|kid|] == ':' && stored[|PREFIX|..][|kid| + 1..] == body
  {
    var n := |PREFIX|;
    assert stored == PREFIX + (kid + ":" + body);
    assert stored[n..] == kid + ":" + body;
  }

  lemma PartsMatch(stored: string, n: nat)
    requires PREFIX <= stored && n < |stored| - |PREFIX| && stored[|PREFIX| + n] == ':'
    ensures var rest := stored[|PREFIX|..]; rest[n] == ':' && stored == Header(rest[..n]) + rest[n + 1..]
  {
    var m := |PREFIX|;
    var rest := stored[m..];
    assert stored == PREFIX + rest;
    assert rest == rest[..n] + [rest[n]] + rest[n + 1..];
    assert stored == PREFIX + (rest[..n] + ":" + rest[n + 1..]);
  }

  /** The greedy match finds the groups exactly when the expression matches, and they are the only ones. */
  lemma CapturesIs(stored: string, kid: string, body: string)
    ensures Captures(stored) == Some((kid, body)) <==> Matches(stored, kid, body)
  {
    hide KeyIdOk, PREFIX;
    if Matches(stored, kid, body) {
      MatchParts(stored, kid, body);
      assert KeyIdOk(kid) ==> 1 <= |kid| <= 32 && UrlSafe(kid) by { ShapeOfKeyId(kid); }
      RunIs(stored[|PREFIX|..], kid, body);
    }
    if Captures(stored) == Some((kid, body)) {
      var n := Run(stored[|PREFIX|..]);
      PartsMatch(stored, n);
      ShapeOfKeyId(kid);
    }
  }

  lemma ShapeOfKeyId(kid: string)
    ensures KeyIdOk(kid) <==> 1 <= |kid| <= 32 && UrlSafe(kid)
  {
  }

  /** `key_id` names the very key the expression's first group names. */
  lemma KeyIdIsCaptured(stored: string)
    ensures KeyId(stored) == match Captures(stored) case None => None case Some(c) => Some(c.0)
  {
    hide PREFIX, KeyIdOk, Captures;
    match Captures(stored)
    case Some(c) =>
      CapturesIs(stored, c.0, c.1);
      MatchParts(stored, c.0, c.1);
      ShapeOfKeyId(c.0);
      var rest := stored[|PREFIX|..];
      assert forall i | 0 <= i < |c.0| :: rest[i] == c.0[i];
      assert FirstColon(rest) == Some(|c.0|);
    case None =>
      if KeyId(stored).Some? {
        var rest := stored[|PREFIX|..];
        var at := FirstColon(rest).value;
        PartsMatch(stored, at);
        CapturesIs(stored, rest[..at], rest[at + 1..]);
      }
  }

  // ---------------------------------------------------------------- sealing and opening

  function Seal(c: Crypto, ring: Keyring, iv: seq<Byte>, plaintext: string, context: string): Result<string, Error> {
    if ring.active !in ring.keys then Err(KeyUnavailable)
    else
      var sealed := c.aeadSeal(ring.keys[ring.active], iv, Aad(Header(ring.active), context), Utf8.Encode(plaintext));
      Ok(Header(ring.active) + c.encode(iv + sealed.tag + sealed.body))
  }

  function Open(c: Crypto, ring: Keyring, stored: string, context: string): Result<string, Error> {
    match Captures(stored)
    case None => Err(Invalid)
    case Some((kid, body)) =>
      match c.decode(body)
      case None => Err(Invalid)
      case Some(raw) =>
        if |raw| < NONCE_LEN + TAG_LEN || c.encode(raw) != body then Err(Invalid)
        else if kid !in ring.keys then Err(KeyUnavailable)
        else
          match c.aeadOpen(ring.keys[kid], raw[..NONCE_LEN], Aad(Header(kid), context), raw[NONCE_LEN + TAG_LEN..] + raw[NONCE_LEN..NONCE_LEN + TAG_LEN])
          case None => Err(Invalid)
          case Some(bytes) => match c.utf8(bytes) case None => Err(Invalid) case Some(text) => Ok(text)
  }

  function Opened(c: Crypto, ring: Keyring, stored: string, context: string): Option<string> {
    match Open(c, ring, stored, context)
    case Ok(text) => Some(text)
    case Err(_) => None
  }

  lemma Packed(iv: seq<Byte>, tag: seq<Byte>, body: seq<Byte>)
    requires |iv| == NONCE_LEN && |tag| == TAG_LEN
    ensures var raw := iv + tag + body;
            raw[..NONCE_LEN] == iv && raw[NONCE_LEN..NONCE_LEN + TAG_LEN] == tag && raw[NONCE_LEN + TAG_LEN..] == body && raw != []
  {
  }

  /** A sealed value names the active key and opens to the plaintext. */
  lemma SealOpens(c: Crypto, ring: Keyring, iv: seq<Byte>, plaintext: string, context: string)
    requires Lawful(c) && RingOk(ring) && |iv| == NONCE_LEN
    ensures var s := Seal(c, ring, iv, plaintext, context);
            s.Ok? && KeyId(s.value) == Some(ring.active) && Opened(c, ring, s.value, context) == Some(plaintext)
  {
    hide KeyIdOk, Captures, KeyId, Header, Utf8.Encode, PREFIX;
    var kid := ring.active;
    var aad := Aad(Header(kid), context);
    var sealed := c.aeadSeal(ring.keys[kid], iv, aad, Utf8.Encode(plaintext));
    var raw := iv + sealed.tag + sealed.body;
    Packed(iv, sealed.tag, sealed.body);
    var body := c.encode(raw);
    var stored := Header(kid) + body;
    CapturesIs(stored, kid, body);
    KeyIdIsCaptured(stored);
    assert c.decode(body) == Some(raw);
    assert c.aeadOpen(ring.keys[kid], iv, aad, sealed.body + sealed.tag) == Some(Utf8.Encode(plaintext));
  }

  /** With a binding cipher a value that opens under one context opens under no other. */
  lemma OneContext(c: Crypto, ring: Keyring, stored: string, context: string, other: string)
    requires Binding(c) && Opened(c, ring, stored, context).Some? && other != context
    ensures Opened(c, ring, stored, other) == None
  {
    hide Captures, Header, Utf8.Encode;
    var kid, body := Captures(stored).value.0, Captures(stored).value.1;
    assert Aad(Header(kid), other) != Aad(Header(kid), context);
  }

  /** `open` uses the key `key_id` names and no other: only that entry of the keyring matters. */
  lemma OpenUsesKeyId(c: Crypto, ring: Keyring, other: Keyring, stored: string, context: string)
    requires KeyId(stored).Some? ==>
      var kid := KeyId(stored).value; (kid in ring.keys <==> kid in other.keys) && (kid in ring.keys ==> ring.keys[kid] == other.keys[kid])
    ensures Open(c, ring, stored, context) == Open(c, other, stored, context)
    ensures Open(c, ring, stored, context).Ok? ==> KeyId(stored).Some? && KeyId(stored).value in ring.keys
    ensures Open(c, ring, stored, context) == Err(KeyUnavailable) ==> KeyId(stored).Some? && KeyId(stored).value !in ring.keys
  {
    hide Captures, KeyId;
    KeyIdIsCaptured(stored);
  }
}
