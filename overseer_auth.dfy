/**
 * The ID-token cache of the Overseer client. Tokens are cached per `serviceName_audience` key
 * with a fixed lifetime of one hour from the moment they are stored; a cached entry is served
 * while the clock is strictly before its expiry, and a fresh token is minted otherwise. The
 * token provider is an oracle object that answers mint requests from a script and records the
 * audiences it was asked for; the clock readings are parameters.
 */
module OverseerAuth {
  import opened Wrappers
  import opened JsText
  import opened JsNumber

  datatype CachedToken = CachedToken(token: string, expiresAt: int)

  type TokenCache = map<string, CachedToken>

  /** What one ID-token request yields: a token string (possibly empty), no token at all
      (`null` or `undefined`), or a thrown error, given as its string form. */
  datatype MintResult = Minted(token: string) | NoToken | MintFailed(error: string)

  /** One hour, in milliseconds. */
  const TokenLifetimeMs := 3600 * 1000

  const MintErrorPrefix := "Failed to generate authentication token: "

  /** The string form of the error raised when the provider gives no token. */
  const NoTokenError := "Error: Failed to get ID token from service account"

  function TokenKey(serviceName: string, targetUrl: string): string
  {
    serviceName + "_" + targetUrl
  }

  /** With the service name fixed, distinct audiences have distinct cache keys. */
  lemma TokenKeyInjective(serviceName: string, a: string, b: string)
    requires TokenKey(serviceName, a) == TokenKey(serviceName, b)
    ensures a == b
  {
    var n := |serviceName| + 1;
    assert a == TokenKey(serviceName, a)[n..];
    assert b == TokenKey(serviceName, b)[n..];
  }

  predicate IsTokenExpired(entry: CachedToken, now: int)
  {
    now >= entry.expiresAt
  }

  /** The token the cache serves for `key` at time `now`, if any. */
  function CachedLookup(cache: TokenCache, key: string, now: int): (r: Option<string>)
    ensures r.Some? <==> key in cache && now < cache[key].expiresAt
    ensures r.Some? ==> r.value == cache[key].token
  {
    if key in cache && !IsTokenExpired(cache[key], now) then Some(cache[key].token) else None
  }

  /** `generateNewToken`: the outcome and the new cache after one request whose answer is
      `mint`, with the clock at `mintedAt` when the entry is stored. */
  function Mint(cache: TokenCache, key: string, mint: MintResult, mintedAt: int): (r: (Result<string, string>, TokenCache))
    ensures r.0.Success? <==> mint.Minted? && |mint.token| > 0
    ensures r.0.Success? ==> r.0.value == mint.token
    ensures r.0.Success? ==> r.1 == cache[key := CachedToken(mint.token, mintedAt + TokenLifetimeMs)]
    ensures r.0.Failure? ==> r.1 == cache
    ensures r.0.Failure? ==> OccursAt(r.0.error, 0, MintErrorPrefix)
    ensures mint.NoToken? || mint == Minted("") ==> r.0 == Failure(MintErrorPrefix + NoTokenError)
  {
    match mint
    case Minted(t) =>
      if |t| > 0 then (Success(t), cache[key := CachedToken(t, mintedAt + TokenLifetimeMs)])
      else (Failure(MintErrorPrefix + NoTokenError), cache)
    case NoToken => (Failure(MintErrorPrefix + NoTokenError), cache)
    case MintFailed(e) => (Failure(MintErrorPrefix + e), cache)
  }

  /** `getAuthenticationToken` on values: the outcome, the new cache, and whether a token was
      requested from the provider. */
  function GetToken(cache: TokenCache, key: string, now: int, mint: MintResult, mintedAt: int)
    : (r: (Result<string, string>, TokenCache, bool))
  {
    match CachedLookup(cache, key, now)
    case Some(t) => (Success(t), cache, false)
    case None =>
      var (res, next) := Mint(cache, key, mint, mintedAt);
      (res, next, true)
  }

  /** A live entry is served as it is: no request, no change to the cache. */
  lemma CacheHitServesStoredToken(cache: TokenCache, key: string, now: int, mint: MintResult, mintedAt: int)
    requires key in cache && now < cache[key].expiresAt
    ensures GetToken(cache, key, now, mint, mintedAt) == (Success(cache[key].token), cache, false)
  {
  }

  /** An entry is already expired at its expiry instant; a miss or an expired entry makes
      exactly one request, whose outcome the call returns. */
  lemma ExpiredEntryMints(cache: TokenCache, key: string, now: int, mint: MintResult, mintedAt: int)
    requires key !in cache || now >= cache[key].expiresAt
    ensures var r := GetToken(cache, key, now, mint, mintedAt);
      r.2 && (r.0, r.1) == Mint(cache, key, mint, mintedAt)
  {
  }

  /** Storing a token touches only its own key. */
  lemma MintKeepsOtherKeys(cache: TokenCache, key: string, mint: MintResult, mintedAt: int, other: string, now: int)
    requires other != key
    ensures var next := Mint(cache, key, mint, mintedAt).1;
      (other in next <==> other in cache) && (other in cache ==> next[other] == cache[other])
    ensures CachedLookup(Mint(cache, key, mint, mintedAt).1, other, now) == CachedLookup(cache, other, now)
  {
  }

  /** A token stored at `mintedAt` is served for exactly one hour. */
  lemma MintedTokenLivesOneHour(cache: TokenCache, key: string, token: string, mintedAt: int, now: int)
    requires |token| > 0
    ensures var next := Mint(cache, key, Minted(token), mintedAt).1;
      CachedLookup(next, key, now) == if now < mintedAt + TokenLifetimeMs then Some(token) else None
  {
  }

  /** Two calls for the same audience, the second less than an hour after the first stored its
      token, give the identical token and make one request between them. */
  lemma {:induction false} SecondCallWithinHourHitsCache(
    cache: TokenCache, key: string,
    now1: int, mint1: MintResult, mintedAt1: int,
    now2: int, mint2: MintResult, mintedAt2: int)
    requires GetToken(cache, key, now1, mint1, mintedAt1).0.Success?
    requires GetToken(cache, key, now1, mint1, mintedAt1).2 ==> now2 < mintedAt1 + TokenLifetimeMs
    requires !GetToken(cache, key, now1, mint1, mintedAt1).2 ==> now2 < cache[key].expiresAt
    ensures var first := GetToken(cache, key, now1, mint1, mintedAt1);
      GetToken(first.1, key, now2, mint2, mintedAt2) == (first.0, first.1, false)
  {
    var first := GetToken(cache, key, now1, mint1, mintedAt1);
    if first.2 {
      assert first.1 == cache[key := CachedToken(mint1.token, mintedAt1 + TokenLifetimeMs)];
    } else {
      assert first.1 == cache;
    }
  }

  /** The ID-token provider as an oracle: it answers from `answers` (an exhausted script gives
      no token) and records each audience it is asked for. */
  class TokenProvider {
    var answers: seq<MintResult>
    var audiences: seq<string>

    constructor(script: seq<MintResult>)
      ensures answers == script && audiences == []
    {
      answers := script;
      audiences := [];
    }

    function NextAnswer(): MintResult
      reads this
    {
      if |answers| == 0 then NoToken else answers[0]
    }

    method FetchIdToken(audience: string) returns (m: MintResult)
      modifies this
      ensures m == old(NextAnswer())
      ensures answers == if |old(answers)| == 0 then [] else old(answers)[1..]
      ensures audiences == old(audiences) + [audience]
    {
      m := NextAnswer();
      if |answers| > 0 {
        answers := answers[1..];
      }
      audiences := audiences + [audience];
    }
  }

  class Auth {
    const serviceName: string
    const provider: TokenProvider
    var tokenCache: TokenCache

    constructor(serviceName: string, provider: TokenProvider)
      ensures this.serviceName == serviceName && this.provider == provider
      ensures tokenCache == map[]
    {
      this.serviceName := serviceName;
      this.provider := provider;
      tokenCache := map[];
    }

    /** `generateNewToken`: one request to the provider; the token is stored under `key` with
        expiry `mintedAt` plus one hour unless the request failed or gave no token. */
    method GenerateNewToken(targetUrl: string, key: string, mintedAt: int) returns (r: Result<string, string>)
      modifies this, provider
      ensures provider.audiences == old(provider.audiences) + [targetUrl]
      ensures (r, tokenCache) == Mint(old(tokenCache), key, old(provider.NextAnswer()), mintedAt)
    {
      var mint := provider.FetchIdToken(targetUrl);
      var res := Mint(tokenCache, key, mint, mintedAt);
      r := res.0;
      tokenCache := res.1;
    }

    /** `getAuthenticationToken`, with the clock at `now` for the expiry test and at
        `mintedAt` when a new token is stored. */
    method GetAuthenticationToken(targetUrl: string, now: int, mintedAt: int) returns (r: Result<string, string>)
      modifies this, provider
      ensures var key := TokenKey(serviceName, targetUrl);
        var g := GetToken(old(tokenCache), key, now, old(provider.NextAnswer()), mintedAt);
        r == g.0 && tokenCache == g.1 &&
        provider.audiences == old(provider.audiences) + (if g.2 then [targetUrl] else [])
      ensures var key := TokenKey(serviceName, targetUrl);
        key in old(tokenCache) && now < old(tokenCache)[key].expiresAt ==>
          r == Success(old(tokenCache)[key].token) && tokenCache == old(tokenCache) &&
          provider.audiences == old(provider.audiences) && provider.answers == old(provider.answers)
    {
      var key := TokenKey(serviceName, targetUrl);
      if key in tokenCache && !IsTokenExpired(tokenCache[key], now) {
        r := Success(tokenCache[key].token);
        return;
      }
      r := GenerateNewToken(targetUrl, key, mintedAt);
    }
  }

  // ---------------------------------------------------------------------------------------
  // Helpers the class declares but does not call
  // ---------------------------------------------------------------------------------------

  /** What `jsonwebtoken.decode` gives: a claims object whose `exp` may be absent, a value
      that is not an object (`null` or a string), or a thrown error. */
  datatype Claims = Payload(exp: Option<int>) | NotAnObject | DecodeError

  /** `calculateTokenTimeToExpiry`: seconds left before `exp`, at least five minutes; one hour
      when the claims carry no usable `exp`. */
  function TokenTimeToExpiry(claims: Claims, nowMs: int): (r: int)
    ensures r >= 300
    ensures !(claims.Payload? && claims.exp.Some? && claims.exp.value != 0) ==> r == 3600
    ensures claims.Payload? && claims.exp.Some? && claims.exp.value != 0 ==>
      var remaining := claims.exp.value - nowMs / 1000;
      r >= remaining && (r == remaining || r == 300)
  {
    match claims
    case Payload(exp) =>
      if exp.None? || exp.value == 0 then 3600
      else
        var remaining := exp.value - nowMs / 1000;
        if remaining > 300 then remaining else 300
    case NotAnObject => 3600
    case DecodeError => 3600
  }

  newtype byte = x: int | 0 <= x < 256

  /** UTF-8 encoding of one character (`Buffer.from` of a string). */
  function Utf8Char(c: char): (r: seq<byte>)
    ensures 1 <= |r| <= 4
    ensures c as int < 0x80 ==> r == [c as int as byte]
  {
    var v := c as int;
    if v < 0x80 then [v as byte]
    else if v < 0x800 then [(0xC0 + v / 0x40) as byte, (0x80 + v % 0x40) as byte]
    else if v < 0x10000 then
      [(0xE0 + v / 0x1000) as byte, (0x80 + v / 0x40 % 0x40) as byte, (0x80 + v % 0x40) as byte]
    else
      [(0xF0 + v / 0x40000) as byte, (0x80 + v / 0x1000 % 0x40) as byte,
       (0x80 + v / 0x40 % 0x40) as byte, (0x80 + v % 0x40) as byte]
  }

  function Utf8(s: string): (r: seq<byte>)
    ensures |r| >= |s|
    decreases |s|
  {
    if |s| == 0 then [] else Utf8Char(s[0]) + Utf8(s[1..])
  }

  /** An ASCII text encodes to one byte per character. */
  lemma {:induction false} Utf8OfAscii(s: string)
    requires forall k :: 0 <= k < |s| ==> s[k] as int < 0x80
    ensures |Utf8(s)| == |s|
    ensures forall k :: 0 <= k < |s| ==> Utf8(s)[k] as int == s[k] as int
    decreases |s|
  {
    if |s| > 0 {
      Utf8OfAscii(s[1..]);
      assert s[1..][0..] == s[1..];
      forall k | 0 <= k < |s| ensures Utf8(s)[k] as int == s[k] as int {
        if k > 0 { assert s[1..][k - 1] == s[k]; }
      }
    }
  }

  /** The base64 alphabet of section 4 of RFC 4648. */
  function Base64Char(v: nat): (c: char)
    requires v < 64
  {
    if v < 26 then ('A' as int + v) as char
    else if v < 52 then ('a' as int + v - 26) as char
    else if v < 62 then ('0' as int + v - 52) as char
    else if v == 62 then '+' else '/'
  }

  predicate IsBase64Char(c: char)
  {
    'A' <= c <= 'Z' || 'a' <= c <= 'z' || '0' <= c <= '9' || c == '+' || c == '/'
  }

  function Base64Value(c: char): (v: nat)
    requires IsBase64Char(c)
    ensures v < 64 && Base64Char(v) == c
  {
    if 'A' <= c <= 'Z' then c as int - 'A' as int
    else if 'a' <= c <= 'z' then c as int - 'a' as int + 26
    else if '0' <= c <= '9' then c as int - '0' as int + 52
    else if c == '+' then 62 else 63
  }

  /** Three bytes as four characters. */
  function Encode3(b0: int, b1: int, b2: int): (q: string)
    requires 0 <= b0 < 256 && 0 <= b1 < 256 && 0 <= b2 < 256
    ensures |q| == 4
  {
    [Base64Char(b0 / 4), Base64Char(b0 % 4 * 16 + b1 / 16), Base64Char(b1 % 16 * 4 + b2 / 64), Base64Char(b2 % 64)]
  }

  /** Two final bytes, padded with one `=`. */
  function Encode2(b0: int, b1: int): (q: string)
    requires 0 <= b0 < 256 && 0 <= b1 < 256
    ensures |q| == 4
  {
    [Base64Char(b0 / 4), Base64Char(b0 % 4 * 16 + b1 / 16), Base64Char(b1 % 16 * 4), '=']
  }

  /** One final byte, padded with two `=`. */
  function Encode1(b0: int): (q: string)
    requires 0 <= b0 < 256
    ensures |q| == 4
  {
    [Base64Char(b0 / 4), Base64Char(b0 % 4 * 16), '=', '=']
  }

  /** Base64 with `=` padding, three bytes to four characters. */
  function Base64(b: seq<byte>): string
    decreases |b|
  {
    if |b| == 0 then ""
    else if |b| == 1 then Encode1(b[0] as int)
    else if |b| == 2 then Encode2(b[0] as int, b[1] as int)
    else Encode3(b[0] as int, b[1] as int, b[2] as int) + Base64(b[3..])
  }

  /** Reads four characters of base64 back into the three (or fewer, when padded) bytes. */
  function DecodeQuantum(q: string): (r: Option<seq<byte>>)
    requires |q| == 4
  {
    if !IsBase64Char(q[0]) || !IsBase64Char(q[1]) then None
    else
      var v0 := Base64Value(q[0]);
      var v1 := Base64Value(q[1]);
      var x0 := (v0 * 4 + v1 / 16) as byte;
      if q[2] == '=' && q[3] == '=' then Some([x0])
      else if !IsBase64Char(q[2]) then None
      else
        var v2 := Base64Value(q[2]);
        var x1 := (v1 % 16 * 16 + v2 / 4) as byte;
        if q[3] == '=' then Some([x0, x1])
        else if !IsBase64Char(q[3]) then None
        else Some([x0, x1, (v2 % 4 * 64 + Base64Value(q[3])) as byte])
  }

  function Base64Decode(s: string): (r: Option<seq<byte>>)
    decreases |s|
  {
    if |s| == 0 then Some([])
    else if |s| < 4 then None
    else
      match DecodeQuantum(s[..4])
      case None => None
      case Some(x) =>
        match Base64Decode(s[4..])
        case None => None
        case Some(y) => Some(x + y)
  }

  lemma Base64CharIsBase64(v: nat)
    requires v < 64
    ensures IsBase64Char(Base64Char(v)) && Base64Value(Base64Char(v)) == v
  {
  }

  /** Splitting `16 * q + r` back into its quotient and remainder. */
  lemma DivModBy16(q: int, r: int)
    requires 0 <= r < 16
    ensures (q * 16 + r) / 16 == q && (q * 16 + r) % 16 == r
  {
  }

  /** Splitting `4 * q + r` back into its quotient and remainder. */
  lemma DivModBy4(q: int, r: int)
    requires 0 <= r < 4
    ensures (q * 4 + r) / 4 == q && (q * 4 + r) % 4 == r
  {
  }

  /** A byte is its top bits and its bottom bits. */
  lemma ByteSplit(b: int, d: int)
    requires 0 <= b && d > 0
    ensures b == b / d * d + b % d
  {
  }

  /** One group of three bytes. */
  lemma QuantumRoundTrip3(x0: byte, x1: byte, x2: byte)
    ensures DecodeQuantum(Encode3(x0 as int, x1 as int, x2 as int)) == Some([x0, x1, x2])
  {
    var b0, b1, b2 := x0 as int, x1 as int, x2 as int;
    var v0, v1, v2, v3 := b0 / 4, b0 % 4 * 16 + b1 / 16, b1 % 16 * 4 + b2 / 64, b2 % 64;
    Base64CharIsBase64(v0);
    Base64CharIsBase64(v1);
    Base64CharIsBase64(v2);
    Base64CharIsBase64(v3);
    DivModBy16(b0 % 4, b1 / 16);
    DivModBy4(b1 % 16, b2 / 64);
    ByteSplit(b0, 4);
    ByteSplit(b1, 16);
    ByteSplit(b2, 64);
  }

  /** A final group of two bytes. */
  lemma QuantumRoundTrip2(b0: int, b1: int)
    requires 0 <= b0 < 256 && 0 <= b1 < 256
    ensures DecodeQuantum(Encode2(b0, b1)) == Some([b0 as byte, b1 as byte])
  {
    var v0, v1, v2 := b0 / 4, b0 % 4 * 16 + b1 / 16, b1 % 16 * 4;
    Base64CharIsBase64(v0);
    Base64CharIsBase64(v1);
    Base64CharIsBase64(v2);
    DivModBy16(b0 % 4, b1 / 16);
    DivModBy4(b1 % 16, 0);
    ByteSplit(b0, 4);
    ByteSplit(b1, 16);
  }

  /** A final single byte. */
  lemma QuantumRoundTrip1(b0: int)
    requires 0 <= b0 < 256
    ensures DecodeQuantum(Encode1(b0)) == Some([b0 as byte])
  {
    Base64CharIsBase64(b0 / 4);
    Base64CharIsBase64(b0 % 4 * 16);
    DivModBy16(b0 % 4, 0);
    ByteSplit(b0, 4);
  }

  /** Four characters for every started group of three bytes. */
  lemma {:induction false} Base64Length(b: seq<byte>)
    ensures |Base64(b)| == 4 * ((|b| + 2) / 3)
    decreases |b|
  {
    if |b| >= 3 {
      Base64Length(b[3..]);
    }
  }

  /** Decoding reads one group and then the rest. */
  lemma {:induction false} DecodeFirstQuantum(q: string, rest: string, x: seq<byte>, y: seq<byte>)
    requires |q| == 4 && DecodeQuantum(q) == Some(x) && Base64Decode(rest) == Some(y)
    ensures Base64Decode(q + rest) == Some(x + y)
  {
    assert (q + rest)[..4] == q && (q + rest)[4..] == rest;
  }

  lemma {:induction false} RoundTripOne(b: seq<byte>)
    requires |b| == 1
    ensures Base64Decode(Base64(b)) == Some(b)
  {
    var q := Encode1(b[0] as int);
    QuantumRoundTrip1(b[0] as int);
    assert Base64(b) == q && q + "" == q;
    DecodeFirstQuantum(q, "", [b[0]], []);
    assert [b[0]] + [] == b;
  }

  lemma {:induction false} RoundTripTwo(b: seq<byte>)
    requires |b| == 2
    ensures Base64Decode(Base64(b)) == Some(b)
  {
    var q := Encode2(b[0] as int, b[1] as int);
    QuantumRoundTrip2(b[0] as int, b[1] as int);
    assert Base64(b) == q && q + "" == q;
    DecodeFirstQuantum(q, "", [b[0], b[1]], []);
    assert [b[0], b[1]] + [] == b;
  }

  lemma {:induction false} RoundTripStep(x0: byte, x1: byte, x2: byte, rest: seq<byte>)
    requires Base64Decode(Base64(rest)) == Some(rest)
    ensures Base64Decode(Base64([x0, x1, x2] + rest)) == Some([x0, x1, x2] + rest)
  {
    var b := [x0, x1, x2] + rest;
    var q := Encode3(x0 as int, x1 as int, x2 as int);
    assert b[3..] == rest;
    assert Base64(b) == q + Base64(rest);
    QuantumRoundTrip3(x0, x1, x2);
    DecodeFirstQuantum(q, Base64(rest), [x0, x1, x2], rest);
  }

  lemma {:induction false} RoundTripCons(b: seq<byte>)
    requires |b| >= 3 && Base64Decode(Base64(b[3..])) == Some(b[3..])
    ensures Base64Decode(Base64(b)) == Some(b)
  {
    RoundTripStep(b[0], b[1], b[2], b[3..]);
    assert b == [b[0], b[1], b[2]] + b[3..];
  }

  /** Decoding gives the bytes back. */
  lemma {:induction false} Base64RoundTrip(b: seq<byte>)
    ensures Base64Decode(Base64(b)) == Some(b)
    decreases |b|
  {
    if |b| == 1 {
      RoundTripOne(b);
    } else if |b| == 2 {
      RoundTripTwo(b);
    } else if |b| >= 3 {
      Base64RoundTrip(b[3..]);
      RoundTripCons(b);
    }
  }

  /** Encoding a whole number of three-byte groups followed by the rest. */
  lemma {:induction false} Base64Append(a: seq<byte>, b: seq<byte>)
    requires |a| % 3 == 0
    ensures Base64(a + b) == Base64(a) + Base64(b)
    decreases |a|
  {
    if |a| > 0 {
      assert (a + b)[3..] == a[3..] + b;
      assert (a + b)[..3] == a[..3];
      Base64Append(a[3..], b);
    } else {
      assert a + b == b;
    }
  }

  /** `substring(0, n)` for `n >= 0`. */
  function Prefix(s: string, n: nat): (r: string)
    ensures |r| == if |s| < n then |s| else n
  {
    if |s| <= n then s else s[..n]
  }

  /** `generateTokenId`: the first eight characters of the base64 form of the token's bytes. */
  function GenerateTokenId(token: string): (id: string)
  {
    Prefix(Base64(Utf8(token)), 8)
  }

  /** The id has eight characters, fewer only for a token of at most five bytes, and is read
      from the first six bytes alone; so tokens that share six leading bytes (as tokens with
      the same JWT header do) share their id. */
  lemma {:induction false} TokenIdReadsSixBytes(token: string)
    ensures var bytes := Utf8(token);
      |GenerateTokenId(token)| == (if |bytes| >= 6 then 8 else 4 * ((|bytes| + 2) / 3))
    ensures |Utf8(token)| >= 6 ==> GenerateTokenId(token) == Base64(Utf8(token)[..6])
  {
    var bytes := Utf8(token);
    Base64Length(bytes);
    if |bytes| >= 6 {
      var head := bytes[..6];
      assert head + bytes[6..] == bytes;
      Base64Append(head, bytes[6..]);
      var e := Base64(head);
      Base64Length(head);
      assert Base64(bytes) == e + Base64(bytes[6..]);
      assert (e + Base64(bytes[6..]))[..8] == e;
    }
  }
}
