/** The token check of src/refresh_jwt.py: `decode_jwt_payload` reads the middle
    segment of a JWT without verifying it, and `is_cached_token_valid` accepts
    the cached token only while more than a day remains before its expiry. */
module JwtCache {
  import opened Wrappers
  import opened Text
  import opened Json

  /** `TOKEN_REFRESH_BUFFER_HOURS` */
  const RefreshBufferHours := 24

  /** `urlsafe_b64decode` followed by `json.loads`; None when either raises. */
  type SegmentDecoder = string -> Option<Json>

  /** The '=' padding appended to a base64 segment. */
  function Padding(s: string): (r: string)
    ensures |r| <= 3
    ensures (|s| + |r|) % 4 == 0
    ensures |s| % 4 == 0 ==> r == ""
    ensures forall i :: 0 <= i < |r| ==> r[i] == '='
  {
    var padding := 4 - |s| % 4;
    if padding != 4 then Equals(padding) else ""
  }

  /** `'=' * n` */
  function Equals(n: nat): (r: string)
    ensures |r| == n && forall i :: 0 <= i < n ==> r[i] == '='
  {
    if n == 0 then "" else Equals(n - 1) + "="
  }

  /** `decode_jwt_payload`: None unless the token has exactly three
      dot-separated parts and the padded middle one decodes. */
  function DecodeJwtPayload(token: string, decode: SegmentDecoder): Option<Json>
  {
    var parts := Split(token, '.');
    if |parts| != 3 then None
    else decode(parts[1] + Padding(parts[1]))
  }

  function Pow2(k: nat): (r: nat)
    ensures r >= 1
  {
    if k == 0 then 1 else 2 * Pow2(k - 1)
  }

  /** The least integer too large for a float: 2^1024 - 2^970 and beyond round
      past the largest double, so converting them raises OverflowError. */
  const FloatOverflow: int := Pow2(1024) - Pow2(970)

  /** A numeric `exp`; Python's `bool` counts as 0 or 1. Any other value makes
      `exp - time.time()` raise, and so does an integer that cannot become a
      float. */
  function ExpSeconds(exp: Json): (r: Option<int>)
    ensures r.Some? <==> exp.JBool? || (exp.JInt? && -FloatOverflow < exp.n < FloatOverflow)
    ensures exp.JInt? && r.Some? ==> r.value == exp.n
    ensures exp.JBool? ==> r == Some(if exp.b then 1 else 0)
  {
    match exp
    case JInt(n) => if -FloatOverflow < n < FloatOverflow then Some(n) else None
    case JBool(b) => Some(if b then 1 else 0)
    case _ => None
  }

  /** `is_cached_token_valid`. `cache` is the parsed cache file, None when it is
      missing or does not parse; `now` is `time.time()` in whole seconds. Every
      exception is caught and counts as "not valid". */
  function IsCachedTokenValid(cache: Option<Json>, decode: SegmentDecoder, now: int): bool
  {
    if cache.None? || !cache.value.JObj? then false
    else
      var jwtToken := Get(cache.value.fields, "jwt_token");
      if !Truthy(jwtToken) then false
      else if !jwtToken.JStr? then false   // `.split` raises inside the decoder, which answers None
      else
        var payload := DecodeJwtPayload(jwtToken.s, decode);
        if payload.None? || !Truthy(payload.value) then false
        else if !payload.value.JObj? then false   // `'exp' in` or `payload['exp']` raises
        else if "exp" !in payload.value.fields then false
        else match ExpSeconds(payload.value.fields["exp"])
          case None => false
          case Some(exp) => exp - now > RefreshBufferHours * 3600
  }

  /** The expiry the cache holds, when it can be read: an independent reading of
      the cache used to characterise the check. */
  function CachedExpiry(cache: Option<Json>, decode: SegmentDecoder): Option<int>
  {
    match cache
    case Some(JObj(f)) =>
      (match Get(f, "jwt_token")
       case JStr(t) =>
         (match DecodeJwtPayload(t, decode)
          case Some(JObj(p)) => if "exp" in p then ExpSeconds(p["exp"]) else None
          case _ => None)
       case _ => None)
    case _ => None
  }

  // ---------------------------------------------------------------- properties

  /** A token whose dot count is not two never decodes. */
  lemma WrongSegmentCountDecodesToNone(token: string, decode: SegmentDecoder)
    requires Count(token, '.') != 2
    ensures DecodeJwtPayload(token, decode) == None
  {
    SplitCount(token, '.');
  }

  /** The padded segment is the segment followed by at most three '='s, a multiple
      of four long, and unchanged when already a multiple of four. */
  lemma PaddedSegment(s: string)
    ensures var p := s + Padding(s);
      && |p| % 4 == 0
      && p[..|s|] == s
      && |p| - |s| <= 3
      && (forall i :: |s| <= i < |p| ==> p[i] == '=')
      && (|s| % 4 == 0 ==> p == s)
  {
  }

  /** The token is accepted exactly when its expiry can be read and lies more
      than 24 hours after `now`. */
  lemma ValidIffExpiryBeyondBuffer(cache: Option<Json>, decode: SegmentDecoder, now: int)
    ensures IsCachedTokenValid(cache, decode, now)
        <==> CachedExpiry(cache, decode).Some? && CachedExpiry(cache, decode).value - now > 24 * 3600
  {
    if cache.Some? && cache.value.JObj? {
      var jwtToken := Get(cache.value.fields, "jwt_token");
      if jwtToken.JStr? && jwtToken.s == "" {
        assert Split("", '.') == [""];
      }
      if jwtToken.JStr? {
        var payload := DecodeJwtPayload(jwtToken.s, decode);
        if payload.Some? && payload.value.JObj? && payload.value.fields == map[] {
          assert "exp" !in payload.value.fields;
        }
      }
    }
  }

  /** An empty or missing token, or one without a readable expiry, is never
      accepted. */
  lemma NoExpiryNotValid(cache: Option<Json>, decode: SegmentDecoder, now: int)
    requires CachedExpiry(cache, decode).None?
    ensures !IsCachedTokenValid(cache, decode, now)
  {
    ValidIffExpiryBeyondBuffer(cache, decode, now);
  }

  /** An expiry too large for a float is never accepted, however far ahead it lies. */
  lemma HugeExpiryNotValid(cache: Option<Json>, decode: SegmentDecoder, now: int, f: Dict, t: string, p: Dict)
    requires cache == Some(JObj(f)) && Get(f, "jwt_token") == JStr(t)
    requires DecodeJwtPayload(t, decode) == Some(JObj(p))
    requires "exp" in p && p["exp"].JInt? && p["exp"].n >= FloatOverflow
    ensures !IsCachedTokenValid(cache, decode, now)
  {
    ValidIffExpiryBeyondBuffer(cache, decode, now);
  }

  /** A token accepted now was also accepted at every earlier moment. */
  lemma ValidEarlier(cache: Option<Json>, decode: SegmentDecoder, now: int, earlier: int)
    requires earlier <= now && IsCachedTokenValid(cache, decode, now)
    ensures IsCachedTokenValid(cache, decode, earlier)
  {
    ValidIffExpiryBeyondBuffer(cache, decode, now);
    ValidIffExpiryBeyondBuffer(cache, decode, earlier);
  }
}
