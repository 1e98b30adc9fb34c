/** The token-issuing mock server of server.py: an in-memory `USERS` table
    and HS256-signed JSON Web Tokens (RFC 7519) with the `sub`, `iat` and
    `exp` claims, an access kind and a refresh kind signed with different
    secrets, and the endpoints signup, login, refresh, forgot and me. */
module MockServer {
  import opened Text
  import opened Hashing

  const Secret := "dev-secret"
  const RefreshSecret := "refresh-secret"
  /** Lifetimes in seconds: 15 minutes and 7 days. */
  const AccessTtl: int := 900
  const RefreshTtl: int := 60 * 60 * 24 * 7

  const Expired := "Token expirado"
  const Invalid := "Token inválido"
  const MissingCredentials := "Credenciais ausentes"
  const Taken := "E-mail já cadastrado"
  const BadCredentials := "Credenciais inválidas"
  /** The answer FastAPI gives for an exception no handler catches. */
  const InternalError := "Internal Server Error"

  /** The registered claims of a payload (sections 4.1.2, 4.1.4 and 4.1.6
      of RFC 7519); a payload may lack `sub` or `exp`. */
  datatype Claims = Claims(sub: Option<string>, iat: int, exp: Option<int>)

  /** A compact token after base64 and JSON decoding: the header's `alg`,
      the claims, and the key the signature was made with; `Malformed` is
      text that does not decode at all. HMAC is idealised: a signature
      checks against exactly the key that made it. */
  datatype Token = Jws(alg: string, claims: Claims, key: string) | Malformed

  /** `time.time()` in whole seconds. Whether a token is already expired at
      the very instant `exp` depends on the PyJWT version (`exp <= now` in
      2.x, `exp < now` in 1.x), so that boundary is part of the clock. */
  datatype Clock = Clock(now: int, expiredAtExp: bool)

  /** An answer: the value, or the status and `detail` of an HTTPException. */
  datatype Outcome<T> = Ok(value: T) | Fail(status: int, detail: string)

  /** `TokenOut`; `token_type` is always "bearer". */
  datatype TokenPair = TokenPair(access: Token, refresh: Token)

  /** A value of `USERS`. */
  datatype Account = Account(passwordHash: PasswordHash, name: string)

  /** The body of `/me`. */
  datatype Profile = Profile(email: string, name: string)

  /** `make_token(email, ttl, secret)` at instant `now`. */
  function MakeToken(email: string, ttl: int, secret: string, now: int): Token
  {
    Jws("HS256", Claims(Some(email), now, Some(now + ttl)), secret)
  }

  /** A fresh access/refresh pair for `email`. */
  function IssuePair(email: string, now: int): TokenPair
  {
    TokenPair(MakeToken(email, AccessTtl, Secret, now), MakeToken(email, RefreshTtl, RefreshSecret, now))
  }

  predicate IsExpired(exp: Option<int>, clock: Clock)
  {
    exp.Some? && (exp.value < clock.now || (clock.expiredAtExp && exp.value == clock.now))
  }

  /** `verify_token(token, secret)`: PyJWT first checks the header's
      algorithm against `["HS256"]` and the signature, then the expiry; a
      payload without `sub` makes `payload["sub"]` raise a KeyError that
      no `except` clause catches. */
  function VerifyToken(token: Token, secret: string, clock: Clock): (r: Outcome<string>)
    ensures r.Ok? ==> token.Jws? && token.claims.sub == Some(r.value)
    ensures r.Ok? || r == Fail(401, Invalid) || r == Fail(401, Expired) || r == Fail(500, InternalError)
    ensures r == Fail(401, Invalid) <==> !(token.Jws? && token.alg == "HS256" && token.key == secret)
    ensures r == Fail(401, Expired) <==>
      token.Jws? && token.alg == "HS256" && token.key == secret && IsExpired(token.claims.exp, clock)
    ensures r.Ok? ==> !IsExpired(token.claims.exp, clock)
  {
    if token.Malformed? || token.alg != "HS256" || token.key != secret then Fail(401, Invalid)
    else if IsExpired(token.claims.exp, clock) then Fail(401, Expired)
    else match token.claims.sub
      case None => Fail(500, InternalError)
      case Some(email) => Ok(email)
  }

  /** A token made with a secret yields its subject under that secret
      until its lifetime has run out. */
  lemma MadeTokenVerifies(email: string, ttl: int, secret: string, issuedAt: int, clock: Clock)
    requires clock.now < issuedAt + ttl || (clock.now == issuedAt + ttl && !clock.expiredAtExp)
    ensures VerifyToken(MakeToken(email, ttl, secret, issuedAt), secret, clock) == Ok(email)
  {
  }

  /** Once its lifetime has run out, the token is reported expired under
      its own secret. */
  lemma MadeTokenExpires(email: string, ttl: int, secret: string, issuedAt: int, clock: Clock)
    requires clock.now > issuedAt + ttl
    ensures VerifyToken(MakeToken(email, ttl, secret, issuedAt), secret, clock) == Fail(401, Expired)
  {
  }

  /** A token made with one secret is invalid under any other, whatever
      the instant: the signature check comes before the expiry check. */
  lemma WrongSecretInvalid(email: string, ttl: int, secret: string, other: string, issuedAt: int, clock: Clock)
    requires other != secret
    ensures VerifyToken(MakeToken(email, ttl, secret, issuedAt), other, clock) == Fail(401, Invalid)
  {
  }

  /** The two secrets differ, so an access token is no refresh token and a
      refresh token is no access token. */
  lemma SecretsSeparate(email: string, now: int, clock: Clock)
    ensures VerifyToken(IssuePair(email, now).access, RefreshSecret, clock) == Fail(401, Invalid)
    ensures VerifyToken(IssuePair(email, now).refresh, Secret, clock) == Fail(401, Invalid)
  {
    assert Secret[0] != RefreshSecret[0];
  }

  /** `bearer_user`: the header must be present, non-empty and start with
      "bearer " in any case; the token is what follows the first space. */
  function BearerUser(header: Option<string>, decode: string -> Token, clock: Clock): (r: Outcome<string>)
    ensures header.None? || header.value == "" || !StartsWith(Lower(header.value), "bearer ") <==>
      r == Fail(401, MissingCredentials)
    ensures r != Fail(401, MissingCredentials) ==>
      r == VerifyToken(decode(header.value[7..]), Secret, clock)
  {
    if header.None? || header.value == "" || !StartsWith(Lower(header.value), "bearer ") then
      Fail(401, MissingCredentials)
    else
      var parts := SplitOnce(header.value, ' ');
      BearerSplit(header.value);
      VerifyToken(decode(parts[1]), Secret, clock)
  }

  /** When the prefix check passes the first space is the seventh
      character, so `split(" ", 1)` always has a second part and it is the
      text after "bearer ". */
  lemma BearerSplit(h: string)
    requires StartsWith(Lower(h), "bearer ")
    ensures |SplitOnce(h, ' ')| == 2 && SplitOnce(h, ' ')[1] == h[7..]
  {
    var l := Lower(h);
    forall i | 0 <= i <= 6 ensures h[i] == ' ' <==> i == 6 {
      assert l[i] == "bearer "[i];
    }
    assert h[6] == ' ';
    var k := IndexOf(h, ' ');
    assert k.Some? && k.value <= 6;
    assert k.value == 6;
  }

  /** Any spelling of the scheme that lowers to "bearer " hands the rest
      of the header to the decoder. */
  lemma BearerPrefix(p: string, text: string, decode: string -> Token, clock: Clock)
    requires Lower(p) == "bearer "
    ensures BearerUser(Some(p + text), decode, clock) == VerifyToken(decode(text), Secret, clock)
  {
    var h := p + text;
    assert Lower(h)[..7] == Lower(p) by {
      forall i | 0 <= i < 7
        ensures Lower(h)[i] == Lower(p)[i]
      {
        assert h[i] == p[i];
      }
    }
    assert StartsWith(Lower(h), "bearer ");
    assert h[7..] == text;
  }

  /** The scheme name is matched without regard to case. */
  lemma BearerSchemeCaseInsensitive(text: string, decode: string -> Token, clock: Clock)
    ensures BearerUser(Some("Bearer " + text), decode, clock) == VerifyToken(decode(text), Secret, clock)
    ensures BearerUser(Some("BEARER " + text), decode, clock) == VerifyToken(decode(text), Secret, clock)
    ensures BearerUser(Some("bearer " + text), decode, clock) == VerifyToken(decode(text), Secret, clock)
  {
    SchemeSpellings();
    BearerPrefix("Bearer ", text, decode, clock);
    BearerPrefix("BEARER ", text, decode, clock);
    BearerPrefix("bearer ", text, decode, clock);
  }

  lemma SchemeSpellings()
    ensures Lower("Bearer ") == "bearer " && Lower("BEARER ") == "bearer " && Lower("bearer ") == "bearer "
  {
    assert Lower("Bearer ") == "bearer ";
    assert Lower("BEARER ") == "bearer ";
  }

  /** A header without a space after the scheme is refused before any
      token is looked at. */
  lemma BearerWithoutSpaceRefused(decode: string -> Token, clock: Clock)
    ensures BearerUser(Some("Bearer"), decode, clock) == Fail(401, MissingCredentials)
    ensures BearerUser(Some("Basic abc"), decode, clock) == Fail(401, MissingCredentials)
  {
    assert !StartsWith(Lower("Basic abc"), "bearer ") by {
      assert Lower("Basic abc")[0] == 'b' && Lower("Basic abc")[1] == 'a';
    }
  }

  /** `POST /auth/refresh`: a refresh token that verifies under the
      refresh secret gets a new pair for the same subject; `USERS` is not
      consulted and nothing is revoked. */
  function Refresh(refresh: Token, clock: Clock): (r: Outcome<TokenPair>)
    ensures r.Ok? <==> VerifyToken(refresh, RefreshSecret, clock).Ok?
    ensures r.Ok? ==> refresh.Jws? && refresh.claims.sub.Some? && r.value == IssuePair(refresh.claims.sub.value, clock.now)
    ensures r.Fail? ==> r.status == VerifyToken(refresh, RefreshSecret, clock).status && r.detail == VerifyToken(refresh, RefreshSecret, clock).detail
  {
    match VerifyToken(refresh, RefreshSecret, clock)
    case Ok(email) => Ok(IssuePair(email, clock.now))
    case Fail(status, detail) => Fail(status, detail)
  }

  /** The refresh token a successful refresh returns is itself a working
      refresh token for the same subject, for seven days. */
  lemma RefreshRotates(refresh: Token, clock: Clock, later: Clock)
    requires Refresh(refresh, clock).Ok?
    requires clock.now <= later.now < clock.now + RefreshTtl
    ensures Refresh(Refresh(refresh, clock).value.refresh, later).Ok?
    ensures refresh.Jws? && Refresh(Refresh(refresh, clock).value.refresh, later).value ==
      IssuePair(refresh.claims.sub.value, later.now)
  {
  }

  /** The presented refresh token is not revoked: it keeps refreshing, as
      long as it has not expired. */
  lemma RefreshDoesNotRevoke(refresh: Token, clock: Clock, later: Clock)
    requires Refresh(refresh, clock).Ok?
    requires !IsExpired(refresh.claims.exp, later)
    ensures Refresh(refresh, later).Ok?
  {
  }

  /** An access token is never accepted by the refresh endpoint. */
  lemma RefreshRefusesAccessTokens(email: string, now: int, clock: Clock)
    ensures Refresh(IssuePair(email, now).access, clock) == Fail(401, Invalid)
  {
    SecretsSeparate(email, now, clock);
  }

  class Server {
    var users: map<string, Account>

    constructor ()
      ensures users == map[]
    {
      users := map[];
    }

    /** `POST /auth/signup`: a taken address is a 400 and `USERS` stays as
        it was; otherwise exactly that key is added and a new pair issued. */
    method Signup(email: string, password: string, name: string, now: int, salt: nat)
      returns (r: Outcome<TokenPair>)
      modifies this
      ensures old(users).Keys <= users.Keys
      ensures email in old(users) ==> r == Fail(400, Taken) && users == old(users)
      ensures email !in old(users) ==>
        && users == old(users)[email := Account(Hash(Bcrypt, password, salt), name)]
        && r == Ok(IssuePair(email, now))
    {
      if email in users {
        r := Fail(400, Taken);
        return;
      }
      users := users[email := Account(Hash(Bcrypt, password, salt), name)];
      r := Ok(IssuePair(email, now));
    }

    /** `POST /auth/login`: one answer for a wrong address and a wrong
        password alike. */
    function Login(email: string, password: string, now: int): (r: Outcome<TokenPair>)
      reads this
      ensures r.Ok? <==> email in users && Verify(password, users[email].passwordHash)
      ensures r.Ok? ==> r.value == IssuePair(email, now)
      ensures r.Fail? ==> r == Fail(401, BadCredentials)
    {
      if email !in users || !Verify(password, users[email].passwordHash) then Fail(401, BadCredentials)
      else Ok(IssuePair(email, now))
    }

    /** `POST /auth/forgot`: `{"status": "ok"}` on both branches. */
    function Forgot(email: string): (status: string)
      reads this
      ensures status == "ok"
    {
      if email !in users then "ok" else "ok"
    }

    /** `GET /me`: `USERS[user_email]` is a KeyError, so a 500, for a valid
        token whose subject is not registered. */
    function Me(header: Option<string>, decode: string -> Token, clock: Clock): (r: Outcome<Profile>)
      reads this
      ensures r.Ok? <==> BearerUser(header, decode, clock).Ok? && BearerUser(header, decode, clock).value in users
      ensures r.Ok? ==> r.value == Profile(BearerUser(header, decode, clock).value, users[BearerUser(header, decode, clock).value].name)
      ensures BearerUser(header, decode, clock).Fail? ==>
        r == Fail(BearerUser(header, decode, clock).status, BearerUser(header, decode, clock).detail)
      ensures BearerUser(header, decode, clock).Ok? && r.Fail? ==> r == Fail(500, InternalError)
    {
      match BearerUser(header, decode, clock)
      case Fail(status, detail) => Fail(status, detail)
      case Ok(email) =>
        if email in users then Ok(Profile(email, users[email].name)) else Fail(500, InternalError)
    }

    /** A subject is registered when it is a key of `USERS`. */
    predicate Registered(t: Token)
      reads this
    {
      t.Jws? && t.claims.sub.Some? && t.claims.sub.value in users
    }

    /** The response to a forgotten password reveals nothing: it is the
        same for a registered and an unknown address. */
    lemma ForgotDoesNotEnumerate(known: string, unknown: string)
      requires known in users && unknown !in users
      ensures Forgot(known) == Forgot(unknown) == "ok"
    {
    }

    /** Login does not reveal whether an address is registered: an unknown
        address and a wrong password get the same answer. */
    lemma LoginDoesNotEnumerate(unknown: string, known: string, password: string, now: int)
      requires unknown !in users && known in users && !Verify(password, users[known].passwordHash)
      ensures Login(unknown, password, now) == Login(known, password, now) == Fail(401, BadCredentials)
    {
    }

    /** Login issues tokens only for registered subjects. */
    lemma LoginIssuesRegistered(email: string, password: string, now: int)
      requires Login(email, password, now).Ok?
      ensures Registered(Login(email, password, now).value.access)
      ensures Registered(Login(email, password, now).value.refresh)
    {
    }

    /** Refreshing a token of a registered subject issues tokens of a
        registered subject. */
    lemma RefreshKeepsRegistered(refresh: Token, clock: Clock)
      requires Registered(refresh) && Refresh(refresh, clock).Ok?
      ensures Registered(Refresh(refresh, clock).value.access)
      ensures Registered(Refresh(refresh, clock).value.refresh)
    {
    }

    /** The lookup in `/me` never misses for a token of a registered
        subject: the only 500 is for a subject that is not registered or a
        payload with no `sub`. */
    lemma MeNeverMisses(header: Option<string>, decode: string -> Token, clock: Clock)
      requires header.Some? && StartsWith(Lower(header.value), "bearer ")
      requires Registered(decode(header.value[7..]))
      ensures Me(header, decode, clock).Ok? || Me(header, decode, clock).status == 401
    {
    }
  }

  /** Every issued token names a registered subject for good: `USERS` only
      grows, so signing up others keeps earlier subjects registered, and
      `/me` with the access token of a new account finds it. */
  method SignupThenMe(decode: string -> Token) returns (first: Outcome<Profile>, second: Outcome<Profile>)
    requires decode("t-a") == IssuePair("a@x.com", 0).access
    ensures first == Ok(Profile("a@x.com", "Ana")) && second == Ok(Profile("a@x.com", "Ana"))
  {
    var server := new Server();
    var r1 := server.Signup("a@x.com", "pw-a", "Ana", 0, 1);
    var clock := Clock(10, true);
    var header := "Bearer t-a";
    assert header[7..] == "t-a";
    assert StartsWith(Lower(header), "bearer ");
    first := server.Me(Some(header), decode, clock);
    var r2 := server.Signup("b@x.com", "pw-b", "Bia", 5, 2);
    assert "a@x.com" != "b@x.com" by { assert "a@x.com"[0] != "b@x.com"[0]; }
    second := server.Me(Some(header), decode, clock);
  }
}
