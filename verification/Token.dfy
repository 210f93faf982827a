/** internal/auth/token.go: subscribe tokens and the replay cache. The MAC is a parameter; where a
    lemma needs it idealised, it is injective in its message. What is proved is what the server relies
    on when it admits a subscriber: that the message the MAC is made over determines expiry, socket,
    channel and id, whatever bytes they hold, that a token verifies for what it was signed for and, with
    such a MAC, for nothing else, and which error any other string gets. The cache is one object here;
    what verifications and sweeps do to each other in it is the subject of Replay. */
module Token {
  import opened Options
  import opened Text

  type Mac = (string, string) -> seq<Byte>

  const JTI_LEN := 32

  // ----- the MAC input ---------------------------------------------------------------------------------

  function MacPayload(expMs: int, socketID: string, channel: string, jti: string): string {
    "v1|" + (Dec(expMs) + "|" + (DecNat(|socketID|) + ":" +
      (socketID + ("|" + (DecNat(|channel|) + ":" + (channel + ("|" + jti)))))))
  }

  lemma DecNatFree(n: nat, c: char)
    requires !IsDigit(c)
    ensures Free(DecNat(n), c)
  {
    forall i | 0 <= i < |DecNat(n)| ensures DecNat(n)[i] != c { assert IsDigit(DecNat(n)[i]); }
  }

  /** A length-prefixed field can be read back whatever it contains. */
  lemma FieldUnique(a: string, x: string, b: string, y: string)
    requires DecNat(|a|) + ":" + (a + x) == DecNat(|b|) + ":" + (b + y)
    ensures a == b && x == y
  {
    DecNatFree(|a|, ':');
    DecNatFree(|b|, ':');
    CutUnique(DecNat(|a|), a + x, DecNat(|b|), b + y, ':');
    ValueOfDec(|a|);
    ValueOfDec(|b|);
    assert a == (a + x)[..|a|] && b == (b + y)[..|b|];
    assert x == (a + x)[|a|..] && y == (b + y)[|b|..];
  }

  lemma AfterTag(tag: string, x: string, y: string)
    requires tag + x == tag + y
    ensures x == y
  {
    assert x == (tag + x)[|tag|..] && y == (tag + y)[|tag|..];
  }

  /** No two different (expiry, socket, channel, jti) share a MAC input, whatever bytes the fields
      hold: none can move from one field into the next. */
  lemma MacPayloadInjective(e: int, s: string, c: string, j: string, e': int, s': string, c': string, j': string)
    requires MacPayload(e, s, c, j) == MacPayload(e', s', c', j')
    ensures e == e' && s == s' && c == c' && j == j'
  {
    var chan := DecNat(|c|) + ":" + (c + ("|" + j));
    var chan' := DecNat(|c'|) + ":" + (c' + ("|" + j'));
    var sock := DecNat(|s|) + ":" + (s + ("|" + chan));
    var sock' := DecNat(|s'|) + ":" + (s' + ("|" + chan'));
    AfterTag("v1|", Dec(e) + "|" + sock, Dec(e') + "|" + sock');
    DecFree(e, '|');
    DecFree(e', '|');
    CutUnique(Dec(e), sock, Dec(e'), sock', '|');
    DecInjective(e, e');
    FieldUnique(s, "|" + chan, s', "|" + chan');
    AfterTag("|", chan, chan');
    FieldUnique(c, "|" + j, c', "|" + j');
    AfterTag("|", j, j');
  }

  // ----- signing and verifying ------------------------------------------------------------------------------

  predicate IsJTI(s: string) { |s| == JTI_LEN && forall i :: 0 <= i < |s| ==> IsHex(s[i]) }

  method ValidJTI(s: string) returns (ok: bool)
    ensures ok == IsJTI(s)
  {
    if |s| != JTI_LEN { return false; }
    for i := 0 to |s|
      invariant forall j :: 0 <= j < i ==> IsHex(s[j])
    {
      var c := s[i];
      if (c < '0' || c > '9') && (c < 'a' || c > 'f') { return false; }
    }
    return true;
  }

  /** SignToken, given the sixteen random bytes. */
  function SignToken(mac: Mac, secret: string, socketID: string, channel: string, expMs: int,
    random: seq<Byte>): string {
    Dec(expMs) + ":" + (Hex(random) + ":" + B64Encode(mac(secret, MacPayload(expMs, socketID, channel, Hex(random)))))
  }

  datatype TokenError = Malformed | Expired | Invalid | Replayed

  /** What a token says about itself. */
  datatype Claims = Claims(expMs: int, jti: string, sig: seq<Byte>)

  /** The three parts, read in the order VerifyTokenAgainst reads them at a clock reading. */
  function Read(tok: string, nowMs: int): (r: (Option<Claims>, TokenError))
    ensures r.0.Some? ==> nowMs <= r.0.value.expMs && IsJTI(r.0.value.jti)
  {
    match Cut(tok, ':')
    case None => (None, Malformed)
    case Some((first, more)) =>
      match Cut(more, ':')
      case None => (None, Malformed)
      case Some((jti, last)) =>
        match ParseInt(first)
        case None => (None, Malformed)
        case Some(expMs) =>
          if nowMs > expMs then (None, Expired)
          else if !IsJTI(jti) then (None, Malformed)
          else match B64Decode(last)
            case None => (None, Malformed)
            case Some(sig) => (Some(Claims(expMs, jti, sig)), Invalid)
  }

  /** Everything but the replay check. */
  predicate Genuine(mac: Mac, secret: string, socketID: string, channel: string, k: Claims) {
    k.sig == mac(secret, MacPayload(k.expMs, socketID, channel, k.jti))
  }

  lemma ReadSigned(mac: Mac, secret: string, socketID: string, channel: string, expMs: int, random: seq<Byte>,
      nowMs: int)
    requires IsInt64(expMs) && |random| == 16
    ensures var r := Read(SignToken(mac, secret, socketID, channel, expMs, random), nowMs);
      if nowMs > expMs then r == (None, Expired)
      else r.0 == Some(Claims(expMs, Hex(random), mac(secret, MacPayload(expMs, socketID, channel, Hex(random)))))
  {
    var jti := Hex(random);
    var sig := mac(secret, MacPayload(expMs, socketID, channel, jti));
    DecFree(expMs, ':');
    CutAt(Dec(expMs), jti + ":" + B64Encode(sig), ':');
    CutAt(jti, B64Encode(sig), ':');
    ParseDec(expMs);
    B64RoundTrip(sig);
  }

  /** A signed token verifies for its own socket and channel until, and including, the millisecond
      it expires in, whatever the MAC. */
  lemma SignedVerifies(mac: Mac, secret: string, socketID: string, channel: string, expMs: int, random: seq<Byte>,
      nowMs: int)
    requires IsInt64(expMs) && |random| == 16
    ensures var r := Read(SignToken(mac, secret, socketID, channel, expMs, random), nowMs);
      (r.0.Some? && Genuine(mac, secret, socketID, channel, r.0.value)) <==> nowMs <= expMs
  {
    ReadSigned(mac, secret, socketID, channel, expMs, random, nowMs);
  }

  ghost predicate Ideal(mac: Mac, secret: string) {
    forall p, q :: mac(secret, p) == mac(secret, q) ==> p == q
  }

  /** With the MAC idealised, any string that verifies does so for one socket and channel only. */
  lemma TokenBindsOnePair(mac: Mac, secret: string, tok: string, s: string, c: string, s': string, c': string,
      nowMs: int, nowMs': int)
    requires Ideal(mac, secret)
    requires Read(tok, nowMs).0.Some? && Genuine(mac, secret, s, c, Read(tok, nowMs).0.value)
    requires Read(tok, nowMs').0.Some? && Genuine(mac, secret, s', c', Read(tok, nowMs').0.value)
    ensures s == s' && c == c'
  {
    var k := Read(tok, nowMs).0.value;
    MacPayloadInjective(k.expMs, s, c, k.jti, k.expMs, s', c', k.jti);
  }

  /** In particular a signed token: it verifies exactly for the pair it was signed for, in time. */
  lemma SignedVerifiesOnlyForItsPair(mac: Mac, secret: string, s: string, c: string, expMs: int, random: seq<Byte>,
      s': string, c': string, nowMs: int)
    requires Ideal(mac, secret) && IsInt64(expMs) && |random| == 16
    ensures var r := Read(SignToken(mac, secret, s, c, expMs, random), nowMs);
      (r.0.Some? && Genuine(mac, secret, s', c', r.0.value)) <==> (nowMs <= expMs && s' == s && c' == c)
  {
    ReadSigned(mac, secret, s, c, expMs, random, nowMs);
    if nowMs <= expMs && mac(secret, MacPayload(expMs, s', c', Hex(random)))
      == mac(secret, MacPayload(expMs, s, c, Hex(random))) {
      MacPayloadInjective(expMs, s', c', Hex(random), expMs, s, c, Hex(random));
    }
  }

  /** Nothing that verifies carries a jti or expiry other than those its MAC was made over. */
  lemma ClaimsAreSigned(mac: Mac, secret: string, s: string, c: string, expMs: int, random: seq<Byte>, k: Claims,
      s': string, c': string)
    requires Ideal(mac, secret) && Genuine(mac, secret, s', c', k)
    requires k.sig == mac(secret, MacPayload(expMs, s, c, Hex(random)))
    ensures k.expMs == expMs && k.jti == Hex(random) && s' == s && c' == c
  {
    MacPayloadInjective(k.expMs, s', c', k.jti, expMs, s, c, Hex(random));
  }

  /** Two calls that drew different random bytes give different tokens with different jtis. */
  lemma FreshTokensDiffer(mac: Mac, secret: string, s: string, c: string, expMs: int, r: seq<Byte>, r': seq<Byte>)
    requires IsInt64(expMs) && |r| == |r'| == 16 && r != r'
    ensures Hex(r) != Hex(r') && SignToken(mac, secret, s, c, expMs, r) != SignToken(mac, secret, s, c, expMs, r')
  {
    if Hex(r) == Hex(r') { HexInjective(r, r'); }
    ReadSigned(mac, secret, s, c, expMs, r, expMs);
    ReadSigned(mac, secret, s, c, expMs, r', expMs);
  }

  // ----- the replay cache -------------------------------------------------------------------------------------

  const NS_PER_MS := 1000000

  function Ms(ns: int): int { ns / NS_PER_MS }

  class ReplayCache {
    /** jti to expiry, in nanoseconds. */
    var seen: map<string, int>

    constructor ()
      ensures seen == map[]
    {
      seen := map[];
    }

    method CheckAndRecord(jti: string, exp: int) returns (first: bool)
      modifies this
      ensures first <==> jti !in old(seen)
      ensures seen == if first then old(seen)[jti := exp] else old(seen)
    {
      if jti in seen { return false; }
      seen := seen[jti := exp];
      return true;
    }

    /** Exactly the entries whose expiry has been reached go, and the result counts them. */
    method Sweep(now: int) returns (swept: nat)
      modifies this
      ensures seen == Kept(old(seen), now)
      ensures swept == |old(seen)| - |seen|
    {
      swept := 0;
      var rest := seen.Keys;
      while rest != {}
        invariant rest <= seen.Keys && rest <= old(seen).Keys
        invariant forall j :: j in seen <==> j in old(seen) && (j in rest || now < old(seen)[j])
        invariant forall j :: j in seen ==> seen[j] == old(seen)[j]
        invariant swept == |old(seen)| - |seen|
        decreases rest
      {
        var j :| j in rest;
        if now >= seen[j] {
          assert (seen - {j}).Keys == seen.Keys - {j};
          assert |seen| == |seen.Keys| && |seen - {j}| == |(seen - {j}).Keys|;
          seen := seen - {j};
          swept := swept + 1;
        }
        rest := rest - {j};
      }
    }
  }

  function Kept(seen: map<string, int>, now: int): map<string, int> { map j | j in seen && now < seen[j] :: seen[j] }

  /** VerifyTokenAgainst: every error in the order the code finds it, and a jti is recorded only by
      a token that is otherwise good. */
  method VerifyTokenAgainst(mac: Mac, secret: string, socketID: string, channel: string, tok: string, now: int,
      cache: ReplayCache)
    returns (err: Option<TokenError>)
    modifies cache
    ensures var (claims, error) := Read(tok, Ms(now));
      && (claims.None? ==> err == Some(error) && cache.seen == old(cache.seen))
      && (claims.Some? && !Genuine(mac, secret, socketID, channel, claims.value) ==>
            err == Some(Invalid) && cache.seen == old(cache.seen))
      && (claims.Some? && Genuine(mac, secret, socketID, channel, claims.value) ==>
            (err.None? <==> claims.value.jti !in old(cache.seen)) && (err.Some? ==> err == Some(Replayed)) &&
            cache.seen == if err.None? then old(cache.seen)[claims.value.jti := claims.value.expMs * NS_PER_MS]
              else old(cache.seen))
  {
    var first := Cut(tok, ':');
    if first.None? { return Some(Malformed); }
    var second := Cut(first.value.1, ':');
    if second.None? { return Some(Malformed); }
    var expMs := ParseInt(first.value.0);
    if expMs.None? { return Some(Malformed); }
    if Ms(now) > expMs.value { return Some(Expired); }
    var jti := second.value.0;
    var valid := ValidJTI(jti);
    if !valid { return Some(Malformed); }
    var sig := B64Decode(second.value.1);
    if sig.None? { return Some(Malformed); }
    if sig.value != mac(secret, MacPayload(expMs.value, socketID, channel, jti)) { return Some(Invalid); }
    var unseen := cache.CheckAndRecord(jti, expMs.value * NS_PER_MS);
    if !unseen { return Some(Replayed); }
    return None;
  }
}
