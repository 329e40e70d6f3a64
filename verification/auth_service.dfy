/** The session side of the application (src/services/authService.ts): the
    user derived from a token's claims, the token and user kept in the shared
    store, and the check that a stored token is still valid. Decoding a token
    is an abstract partial function; the clock is a parameter. */
module Auth {
  import opened Wrappers
  import opened Strings
  import opened Types
  import opened Storage

  /** The claims of a decoded token that the service reads; each may be
      missing. `exp` is in seconds since the epoch. */
  datatype Claims = Claims(sub: Option<string>, role: Option<string>, name: Option<string>, exp: Option<int>)

  /** `response.data` of the login and register endpoints. */
  datatype AuthResponse = AuthResponse(token: Option<string>)

  const InvalidToken := "Invalid token format"
  const DefaultRole := "USER"

  predicate Truthy(s: Option<string>) {
    s.Some? && s.value != ""
  }

  /** `decoded.role?.replace('ROLE_', '') || 'USER'`. */
  function DerivedRole(role: Option<string>): (r: string)
    ensures r != ""
    ensures role.None? ==> r == DefaultRole
    ensures role.Some? && RemoveFirst(role.value, "ROLE_") != "" ==> r == RemoveFirst(role.value, "ROLE_")
    ensures role.Some? && RemoveFirst(role.value, "ROLE_") == "" ==> r == DefaultRole
  {
    if role.None? then DefaultRole
    else var stripped := RemoveFirst(role.value, "ROLE_");
      if stripped == "" then DefaultRole else stripped
  }

  /** A role claim written as `ROLE_<x>` yields `<x>`, and a bare `ROLE_`
      yields the default role. */
  lemma PrefixedRoleClaim(x: string)
    ensures x != "" ==> DerivedRole(Some("ROLE_" + x)) == x
    ensures x == "" ==> DerivedRole(Some("ROLE_" + x)) == DefaultRole
  {
    RemoveFirstOfPrefixed("ROLE_", x);
  }

  /** `parseUserDataFromToken` over the decoded claims (`None` when the token
      cannot be decoded). Every failure is reported as `Invalid token format`. */
  function ParseUserData(claims: Option<Claims>): (r: Result<UserData, string>)
    ensures r.Failure? ==> r.error == InvalidToken
    ensures r.Success? <==> claims.Some? && (Truthy(claims.value.name) || claims.value.sub.Some?)
    ensures r.Success? ==> r.value.id.None? && r.value.email == claims.value.sub
    ensures r.Success? ==> r.value.role == DerivedRole(claims.value.role) && r.value.role != ""
    ensures r.Success? && Truthy(claims.value.name) ==> r.value.name == claims.value.name.value
    ensures r.Success? && !Truthy(claims.value.name) ==>
      r.value.name == BeforeFirst(claims.value.sub.value, '@') && '@' !in r.value.name
  {
    if claims.None? then Failure(InvalidToken)
    else
      var c := claims.value;
      if Truthy(c.name) then Success(UserData(None, c.sub, c.name.value, DerivedRole(c.role)))
      else if c.sub.None? then Failure(InvalidToken)   // `decoded.sub.split` on a missing subject
      else Success(UserData(None, c.sub, BeforeFirst(c.sub.value, '@'), DerivedRole(c.role)))
  }

  /** With no name claim, a subject `local@domain` gives the name `local`. */
  lemma {:induction false} NameFromSubject(local: string, domain: string, role: Option<string>, exp: Option<int>)
    requires '@' !in local
    ensures var r := ParseUserData(Some(Claims(Some(local + "@" + domain), role, None, exp)));
      r.Success? && r.value.name == local && r.value.email == Some(local + "@" + domain)
  {
    var s := local + "@" + domain;
    assert s[|local|] == '@' && s[..|local|] == local;
    assert forall i :: 0 <= i < |local| ==> s[i] == local[i];
  }

  class AuthService {
    const storage: Store
    const decode: string -> Option<Claims>

    constructor (storage: Store, decode: string -> Option<Claims>)
      ensures this.storage == storage && this.decode == decode
    {
      this.storage := storage;
      this.decode := decode;
    }

    /** `getToken`. */
    function Token(): (t: Option<string>)
      reads storage
      ensures t.Some? <==> TokenKey in storage.items && storage.items[TokenKey].Text?
      ensures t.Some? ==> storage.items[TokenKey] == Text(t.value)
    {
      storage.TextAt(TokenKey)
    }

    /** `isAuthenticated` at `now` (milliseconds): a truthy token that decodes
        and whose expiry lies after `now / 1000`. */
    predicate IsAuthenticated(now: Time)
      reads storage
      ensures !Truthy(Token()) ==> !IsAuthenticated(now)
      ensures Truthy(Token()) && decode(Token().value).None? ==> !IsAuthenticated(now)
      ensures Truthy(Token()) && decode(Token().value).Some? ==>
        (IsAuthenticated(now) <==> Unexpired(decode(Token().value).value, now))
    {
      Truthy(Token()) && decode(Token().value).Some? && Unexpired(decode(Token().value).value, now)
    }

    /** `decodedToken.exp > Date.now() / 1000`; a missing expiry compares false. */
    static predicate Unexpired(c: Claims, now: Time)
      ensures Unexpired(c, now) <==> c.exp.Some? && c.exp.value * 1000 > now
    {
      c.exp.Some? && (c.exp.value as real) > (now as real) / 1000.0
    }

    /** What login and register leave in the store: with a truthy token, the
        token, and the derived user when the token can be parsed. */
    ghost function AfterAuth(items: map<string, Value>, resp: AuthResponse): map<string, Value> {
      if !Truthy(resp.token) then items
      else
        var withToken := items[TokenKey := Text(resp.token.value)];
        match ParseUserData(decode(resp.token.value))
        case Success(u) => withToken[UserKey := Profile(u)]
        case Failure(_) => withToken
    }

    /** The common tail of `login` and `register`; `err` is the error the
        parse throws after the token has already been stored. */
    method StoreSession(resp: AuthResponse) returns (err: Option<string>)
      requires storage.Valid()
      modifies storage
      ensures storage.Valid()
      ensures storage.items == AfterAuth(old(storage.items), resp)
      ensures err.Some? <==> Truthy(resp.token) && ParseUserData(decode(resp.token.value)).Failure?
      ensures err.Some? ==> err.value == InvalidToken
    {
      err := None;
      if Truthy(resp.token) {
        var token := resp.token.value;
        storage.SetItem(TokenKey, Text(token));
        var parsed := ParseUserData(decode(token));
        match parsed
        case Success(u) => storage.SetItem(UserKey, Profile(u));
        case Failure(e) => err := Some(e);
      }
    }

    /** `login`. `reply` is the endpoint's answer, or the error it threw;
        errors are re-thrown. */
    method Login(reply: Result<AuthResponse, string>) returns (r: Result<AuthResponse, string>)
      requires storage.Valid()
      modifies storage
      ensures storage.Valid()
      ensures reply.Failure? ==> r == reply && storage.items == old(storage.items)
      ensures reply.Success? ==> storage.items == AfterAuth(old(storage.items), reply.value)
      ensures reply.Success? && r.Success? ==> r == reply
      ensures reply.Success? && r.Failure? ==> r.error == InvalidToken
      ensures reply.Success? ==>
        (r.Failure? <==> Truthy(reply.value.token) && ParseUserData(decode(reply.value.token.value)).Failure?)
    {
      if reply.Failure? {
        return reply;
      }
      var err := StoreSession(reply.value);
      if err.Some? {
        return Failure(err.value);
      }
      r := reply;
    }

    /** `register`: the same storage effects as `login`, against the
        registration endpoint. */
    method Register(reply: Result<AuthResponse, string>) returns (r: Result<AuthResponse, string>)
      requires storage.Valid()
      modifies storage
      ensures storage.Valid()
      ensures reply.Failure? ==> r == reply && storage.items == old(storage.items)
      ensures reply.Success? ==> storage.items == AfterAuth(old(storage.items), reply.value)
      ensures reply.Success? && r.Success? ==> r == reply
      ensures reply.Success? && r.Failure? ==> r.error == InvalidToken
      ensures reply.Success? ==>
        (r.Failure? <==> Truthy(reply.value.token) && ParseUserData(decode(reply.value.token.value)).Failure?)
    {
      if reply.Failure? {
        return reply;
      }
      var err := StoreSession(reply.value);
      if err.Some? {
        return Failure(err.value);
      }
      r := reply;
    }

    /** `logout`: the remote logout is attempted only with a truthy token;
        whatever it does, the whole store is emptied, so its outcome is not an
        input. */
    method Logout() returns (posted: bool)
      requires storage.Valid()
      modifies storage
      ensures storage.Valid()
      ensures storage.items == map[]
      ensures posted == Truthy(old(Token()))
    {
      posted := Truthy(Token());
      // `finally`: runs after the remote call whether or not it failed
      storage.RemoveItem(TokenKey);
      storage.RemoveItem(UserKey);
      storage.Clear();
    }

    /** `getUser`: the stored user if there is one; otherwise the user derived
        from a truthy token, which is then stored; otherwise nothing. A token
        that cannot be parsed gives nothing and stores nothing. */
    method GetUser() returns (u: Option<UserData>)
      requires storage.Valid()
      modifies storage
      ensures storage.Valid()
      ensures UserKey in old(storage.items) ==>
        u == Some(old(storage.items)[UserKey].user) && storage.items == old(storage.items)
      ensures UserKey !in old(storage.items) && !Truthy(old(Token())) ==>
        u.None? && storage.items == old(storage.items)
      ensures UserKey !in old(storage.items) && Truthy(old(Token())) ==>
        var parsed := ParseUserData(decode(old(Token()).value));
        && (parsed.Success? ==> u == Some(parsed.value) && storage.items == old(storage.items)[UserKey := Profile(parsed.value)])
        && (parsed.Failure? ==> u.None? && storage.items == old(storage.items))
      ensures u.Some? ==> UserKey in storage.items && storage.items[UserKey] == Profile(u.value)
    {
      if UserKey in storage.items {
        return Some(storage.items[UserKey].user);
      }
      var token := Token();
      if Truthy(token) {
        var parsed := ParseUserData(decode(token.value));
        if parsed.Failure? {
          // the thrown parse error is caught here
          return None;
        }
        storage.SetItem(UserKey, Profile(parsed.value));
        return Some(parsed.value);
      }
      u := None;
    }
  }

  /** A second `getUser` returns what the first returned, and a user it
      returns is the one left in the store. */
  method GetUserTwice(auth: AuthService) returns (first: Option<UserData>, second: Option<UserData>)
    requires auth.storage.Valid()
    modifies auth.storage
    ensures first.Some? ==> second == first
    ensures first.None? ==> second.None?
    ensures first.Some? ==> UserKey in auth.storage.items && auth.storage.items[UserKey] == Profile(first.value)
  {
    first := auth.GetUser();
    ghost var filled := auth.storage.items;
    second := auth.GetUser();
    assert first.None? ==> auth.storage.items == filled;
  }

  /** Once a token has expired it stays expired: authentication at a later
      time implies authentication at every earlier time. */
  lemma ExpiryIsFinal(auth: AuthService, earlier: Time, later: Time)
    requires earlier <= later
    ensures auth.IsAuthenticated(later) ==> auth.IsAuthenticated(earlier)
  {
    if auth.IsAuthenticated(later) {
      assert (earlier as real) / 1000.0 <= (later as real) / 1000.0;
    }
  }

  /** After `logout` nobody is authenticated. */
  method LogoutEndsSession(auth: AuthService, now: Time)
    requires auth.storage.Valid()
    modifies auth.storage
    ensures !auth.IsAuthenticated(now)
  {
    var _ := auth.Logout();
  }

  /** A successful login with a token that parses and has not expired
      leaves the session authenticated. */
  method LoginAuthenticates(auth: AuthService, resp: AuthResponse, now: Time)
    returns (r: Result<AuthResponse, string>)
    requires auth.storage.Valid()
    requires Truthy(resp.token) && auth.decode(resp.token.value).Some?
    requires AuthService.Unexpired(auth.decode(resp.token.value).value, now)
    modifies auth.storage
    ensures auth.IsAuthenticated(now)
  {
    r := auth.Login(Success(resp));
  }
}
