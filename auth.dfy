/** Access-token claims: building the claims of a new token with its expiry,
    and checking the claims of a presented token. Signing and parsing the token
    (JSON Web Token, HS256) are the `encode` and `decode` parameters; the clock
    is the `now` parameter, a `datetime` in whole seconds. */
module Auth {
  import opened Results
  import opened Dates

  /** `ACCESS_TOKEN_EXPIRE_MINUTES`. */
  const AccessTokenExpireMinutes: int := 30
  const SecondsPerMinute: int := 60

  /** A `datetime`, as the whole seconds since 0001-01-01 00:00:00; the last one
      is 9999-12-31 23:59:59. */
  const MaxInstant: int := MaxOrdinal * 86400 - 1
  type Instant = t: int | 0 <= t <= MaxInstant

  /** A `timedelta`, in whole seconds: from -999999999 days to 999999999 days,
      23:59:59. */
  const MinDuration: int := -999999999 * 86400
  const MaxDuration: int := 999999999 * 86400 + 86399
  type Duration = d: int | MinDuration <= d <= MaxDuration

  /** The thirty-minute default lifetime of a token. */
  const DefaultLifetime: Duration := AccessTokenExpireMinutes * SecondsPerMinute

  /** `t + d` for a `datetime` and a `timedelta`: the instant `d` seconds later,
      or `OverflowError` when that is not a `datetime`. */
  function AddSeconds(t: Instant, d: Duration): (r: Result<Instant, DateError>)
    ensures r.Ok? <==> 0 <= t + d <= MaxInstant
    ensures r.Ok? ==> r.value == t + d
  {
    if 0 <= t + d <= MaxInstant then Ok(t + d) else Err(DateOutOfRange)
  }

  /** A claim value: JSON values and the `datetime` of the expiry claim. */
  datatype Value = Null | Str(s: string) | Num(n: int) | Bool(b: bool) | Time(t: int)

  type Claims = map<string, Value>

  /** `CredentialsException(message)`: what the caller passes to `verify_token`
      and gets raised back. */
  datatype CredentialsException = CredentialsException(message: string)

  /** A Python `dict` of claims, updated in place. */
  class Dict {
    var entries: Claims

    /** `other.copy()`: a new dictionary with the same entries. */
    constructor Copy(other: Dict)
      ensures entries == other.entries
    {
      entries := other.entries;
    }

    /** `self.update(other)`: keys of `other` are added or overwritten, the rest kept. */
    method Update(other: Claims)
      modifies this
      ensures entries == old(entries) + other
    {
      entries := entries + other;
    }
  }

  /** The `exp` claim: `now + expires_delta` for a truthy (non-zero) delta,
      also a negative one; `now` plus thirty minutes when the delta is omitted
      or zero; `OverflowError` when that sum is not a `datetime`. */
  function ExpiresAt(now: Instant, expiresDelta: Option<Duration>): (r: Result<Instant, DateError>)
    ensures expiresDelta.Some? && expiresDelta.value != 0 ==>
      && (r.Ok? <==> 0 <= now + expiresDelta.value <= MaxInstant)
      && (r.Ok? ==> r.value == now + expiresDelta.value)
    ensures expiresDelta == None || expiresDelta == Some(0) ==>
      && (r.Ok? <==> now + 1800 <= MaxInstant)
      && (r.Ok? ==> r.value == now + 1800)
  {
    if expiresDelta.Some? && expiresDelta.value != 0 then AddSeconds(now, expiresDelta.value)
    else AddSeconds(now, DefaultLifetime)
  }

  /** The claims a token is issued with: every claim of `data` with its own
      value, and `exp` added, or overwritten when `data` already has one. */
  function IssuedClaims(data: Claims, exp: Instant): (claims: Claims)
    ensures claims.Keys == data.Keys + {"exp"}
    ensures forall k :: k in data && k != "exp" ==> claims[k] == data[k]
    ensures claims["exp"] == Time(exp)
  {
    data + map["exp" := Time(exp)]
  }

  /** `create_access_token`: copies `data`, sets the expiry on the copy and
      encodes it, or raises `OverflowError` when the expiry is not a `datetime`.
      `data` itself is left as it was (no `modifies` clause names it). */
  method CreateAccessToken(data: Dict, now: Instant, expiresDelta: Option<Duration>,
                           encode: Claims -> string)
    returns (r: Result<string, DateError>)
    ensures r.Err? <==> ExpiresAt(now, expiresDelta).Err?
    ensures r.Ok? ==> r.value == encode(IssuedClaims(data.entries, ExpiresAt(now, expiresDelta).value))
  {
    var toEncode := new Dict.Copy(data);
    var expire := ExpiresAt(now, expiresDelta);
    if expire.Err? {
      return Err(expire.error);
    }
    toEncode.Update(map["exp" := Time(expire.value)]);
    r := Ok(encode(toEncode.entries));
  }

  /** `payload.get("user_id") is not None`. */
  predicate HasUserId(payload: Claims)
  {
    "user_id" in payload && payload["user_id"] != Null
  }

  /** `verify_token`: the decoded payload, unchanged, when decoding succeeds and
      it carries a non-`None` `user_id`; the caller's exception otherwise. */
  function VerifyToken<E>(token: string, credentialsException: E, decode: string -> Option<Claims>)
    : (r: Result<Claims, E>)
    ensures decode(token).None? ==> r == Err(credentialsException)
    ensures decode(token).Some? && !HasUserId(decode(token).value) ==> r == Err(credentialsException)
    ensures r.Ok? <==> decode(token).Some? && HasUserId(decode(token).value)
    ensures r.Ok? ==> r.value == decode(token).value
  {
    match decode(token)
    case None => Err(credentialsException)
    case Some(payload) =>
      if "user_id" !in payload || payload["user_id"] == Null then Err(credentialsException)
      else Ok(payload)
  }

  /** Should the token library give back, for a token it signed, a payload with
      the same keys and the same value under every key but `exp` (which it
      turns into a number), a token issued for `data` passes `verify_token`
      exactly when `data` carries a non-`None` `user_id`, and yields the
      claims of `data` with an `exp` added. */
  lemma IssuedTokenVerifies<E>(data: Claims, exp: Instant,
                               encode: Claims -> string, decode: string -> Option<Claims>, e: E)
    requires var sent := IssuedClaims(data, exp); var got := decode(encode(sent));
      && got.Some?
      && got.value.Keys == sent.Keys
      && forall k :: k in sent && k != "exp" ==> got.value[k] == sent[k]
    ensures var r := VerifyToken(encode(IssuedClaims(data, exp)), e, decode);
      && (r.Ok? <==> HasUserId(data))
      && (r.Ok? ==> r.value.Keys == data.Keys + {"exp"})
      && (r.Ok? ==> forall k :: k in data && k != "exp" ==> r.value[k] == data[k])
  {
  }
}
