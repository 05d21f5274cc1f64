/** The session store and inspector: one cookie named `token` holding the
    bearer credential, and the lookups that read its claims. Decoding reads
    the payload only; no signature is checked, since the server is the
    authority on that and rejects a forged token with 401. */
module Auth {
  import opened Wrappers
  import opened Text

  /** The claims the client reads from a token payload: `exp` in seconds
      since the epoch (section 4.1.4 of RFC 7519) and the display name. */
  datatype Claims = Claims(exp: Option<int>, name: Option<string>)

  /** `jwtDecode`: the payload's claims, or `None` where it throws because it
      cannot parse the token. */
  type Decoder = string -> Option<Claims>

  /** `decoded.exp > Date.now() / 1000`, the clock read in whole milliseconds.
      A missing `exp` is `undefined`, and `undefined > x` is false. */
  function Unexpired(c: Claims, nowMs: int): (live: bool)
    ensures live <==> c.exp.Some? && c.exp.value > nowMs / 1000
  {
    if c.exp.Some? then
      var q := nowMs / 1000;
      assert nowMs == 1000 * q + nowMs % 1000;
      assert c.exp.value * 1000 > nowMs <==> c.exp.value > q;
      c.exp.value * 1000 > nowMs
    else false
  }

  /** The integer comparison is the source's comparison against seconds with
      a fractional part: equality is not live. */
  lemma UnexpiredInSeconds(c: Claims, nowMs: int)
    ensures Unexpired(c, nowMs) <==> c.exp.Some? && c.exp.value as real > nowMs as real / 1000.0
  {
    if c.exp.Some? {
      var e, n := c.exp.value as real, nowMs as real;
      assert e > n / 1000.0 <==> e * 1000.0 > n;
    }
  }

  /** How the inspector sees the slot: nothing there, a token it cannot
      decode, a decodable token past `exp`, or a live one. */
  datatype Phase = SignedOut | Malformed | Expired | Active

  /** The phase is decided by the slot alone: signed out for an empty slot,
      and otherwise by whether its text decodes and whether the claims are
      still live. */
  function PhaseOf(slot: Option<string>, decode: Decoder, nowMs: int): (p: Phase)
    ensures p == SignedOut <==> !Truthy(slot)
    ensures p == Malformed <==> Truthy(slot) && decode(slot.value).None?
    ensures p == Expired <==> Truthy(slot) && decode(slot.value).Some? && !Unexpired(decode(slot.value).value, nowMs)
    ensures p == Active <==> Truthy(slot) && decode(slot.value).Some? && Unexpired(decode(slot.value).value, nowMs)
  {
    if !Truthy(slot) then SignedOut
    else
      match decode(slot.value)
      case None => Malformed
      case Some(c) => if Unexpired(c, nowMs) then Active else Expired
  }

  /** The cookie slot. */
  class TokenStore {
    var token: Option<string>

    constructor()
      ensures token == None
    {
      token := None;
    }

    /** `setAuthToken`: the new token replaces whatever was stored. */
    method Set(t: string)
      modifies this
      ensures token == Some(t)
    {
      token := Some(t);
    }

    /** `removeAuthToken`: the slot is empty afterwards, whatever it held. */
    method Remove()
      modifies this
      ensures token == None
    {
      token := None;
    }

    /** `isAuthenticated`: true exactly for a live token. Only a token that
        cannot be decoded is evicted; an expired one stays in the slot. */
    method IsAuthenticated(decode: Decoder, nowMs: int) returns (live: bool)
      modifies this
      ensures live <==> PhaseOf(old(token), decode, nowMs) == Active
      ensures token == if PhaseOf(old(token), decode, nowMs) == Malformed then None else old(token)
    {
      var t := token;
      if !Truthy(t) {
        return false;
      }
      match decode(t.value) {
        case None =>
          Remove();
          live := false;
        case Some(c) =>
          live := Unexpired(c, nowMs);
      }
    }

    /** `getCurrentUser`: the decoded claims, with no expiry check; a token
        that cannot be decoded is evicted and yields no user. */
    method GetCurrentUser(decode: Decoder) returns (user: Option<Claims>)
      modifies this
      ensures user == if Truthy(old(token)) then decode(old(token).value) else None
      ensures token == if Truthy(old(token)) && user.None? then None else old(token)
    {
      var t := token;
      if !Truthy(t) {
        return None;
      }
      user := decode(t.value);
      if user.None? {
        Remove();
      }
    }

    /** A decodable token past its `exp`, once stored, is not live, is left in
        the slot, and still names its user. */
    method ExpiredTokenKeepsUser(t: string, decode: Decoder, nowMs: int) returns (live: bool, user: Option<Claims>)
      requires t != "" && decode(t).Some? && !Unexpired(decode(t).value, nowMs)
      modifies this
      ensures !live && user == decode(t) && token == Some(t)
    {
      Set(t);
      live := IsAuthenticated(decode, nowMs);
      user := GetCurrentUser(decode);
    }

    /** `handleLogin`: store the token, then look the user up from it. */
    method HandleLogin(t: string, decode: Decoder) returns (user: Option<Claims>)
      modifies this
      ensures user == if t != "" then decode(t) else None
      ensures token == if t != "" && user.None? then None else Some(t)
    {
      Set(t);
      user := GetCurrentUser(decode);
    }
  }
}
