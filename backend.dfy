/** The verification-based auth server of backend/app.py: an account table
    keyed by normalised e-mail, an append-only table of e-mailed one-time
    codes, and the four endpoints signup, verify-email, resend-token and
    login. Each account moves Unregistered -> Pending -> Verified. */
module Backend {
  import opened Text
  import opened Hashing

  /** `TOKEN_TTL_MINUTES` at its default. Instants are whole seconds. */
  const TokenTtlMinutes: nat := 10
  const TokenTtlText: string := "10"
  const TokenTtl: int := TokenTtlMinutes * 60

  /** Length of the numeric code `generate_token(6)` produces. */
  const CodeLength: nat := 6

  /** Bounds of the request schemas: `SignupIn.password` and `VerifyIn.token`. */
  const MinPassword: nat := 6
  const MaxPassword: nat := 128
  const MinToken: nat := 1
  const MaxToken: nat := 64

  /** A row of `users`. */
  datatype User = User(email: string, passwordHash: PasswordHash, isVerified: bool, createdAt: int)

  /** A row of `email_tokens`; `id` is the auto-increment key. */
  datatype EmailToken = EmailToken(id: nat, email: string, token: string, expiresAt: int, createdAt: int)

  /** An HTTP answer: the status and its `message` or `detail` text. */
  datatype Response = Response(status: int, detail: string)

  /** The message handed to `send_email`. */
  datatype Mail = Mail(to: string, subject: string, content: string)

  /** What `send_email` did: SMTP is outside the model, so it is an input. */
  datatype Delivery = Delivered | SendFailed(error: string)

  const SignupOk := "Conta criada. Enviamos um token para seu e-mail."
  const AlreadyVerifiedAccount := "E-mail já cadastrado e verificado."
  const NotFoundOrExpired := "Token não encontrado ou expirado."
  const InvalidToken := "Token inválido."
  const VerifiedOk := "E-mail verificado com sucesso."
  const UnknownUser := "Usuário não encontrado."
  const AlreadyVerifiedUser := "Usuário já verificado."
  const ResendOk := "Novo token enviado."
  const BadCredentials := "Credenciais inválidas."
  const NotVerified := "Conta ainda não verificada. Verifique seu e-mail."
  const LoginOk := "Login OK"
  const SchemaError := "Unprocessable Entity"

  /** Every endpoint looks accounts up by `email.lower().strip()`. */
  function NormalizeEmail(email: string): (e: string)
    ensures IsLowered(e)
    ensures e == [] || (!IsSpace(e[0]) && !IsSpace(e[|e| - 1]))
    ensures |e| <= |email|
  {
    LowerIsLowered(email);
    StripKeepsLowered(Lower(email));
    Strip(Lower(email))
  }

  /** Normalising an already normalised address changes nothing, so the
      keys of `users` are fixed points of the normalisation. */
  lemma NormalizeIdempotent(email: string)
    ensures NormalizeEmail(NormalizeEmail(email)) == NormalizeEmail(email)
  {
    NormalizeFixesNormal(NormalizeEmail(email));
  }

  /** An address that is already lower-case and has no surrounding
      whitespace is its own normal form. */
  lemma NormalizeFixesNormal(email: string)
    requires IsLowered(email)
    requires email == [] || (!IsSpace(email[0]) && !IsSpace(email[|email| - 1]))
    ensures NormalizeEmail(email) == email
  {
    LowerFixesLowered(email);
    LStripOfTrimmed(email);
    RStripOfTrimmed(email);
  }

  predicate IsCode(s: string)
  {
    |s| == CodeLength && forall i {:trigger IsDigit(s[i])} | 0 <= i < |s| :: IsDigit(s[i])
  }

  /** A code has no whitespace to strip. */
  lemma StripOfCode(code: string)
    requires IsCode(code)
    ensures Strip(code) == code
  {
    assert IsDigit(code[0]) && IsDigit(code[|code| - 1]);
    LStripOfTrimmed(code);
    RStripOfTrimmed(code);
  }

  /** `generate_token(n)`: `n` digits, each picked by `secrets.choice`;
      which digits is left open. */
  method GenerateToken(n: nat) returns (code: string)
    ensures |code| == n
    ensures forall i | 0 <= i < |code| :: IsDigit(code[i])
  {
    code := "";
    while |code| < n
      invariant |code| <= n
      invariant forall i | 0 <= i < |code| :: IsDigit(code[i])
    {
      assert '0' in "0123456789";
      var d :| d in "0123456789";
      code := code + [d];
    }
  }

  function VerificationMail(email: string, code: string): Mail
  {
    Mail(email, "Seu token de verificação",
         "Olá!\n\nSeu token de verificação é: " + code + "\nEle expira em " + TokenTtlText + " minutos.\n")
  }

  function ResendMail(email: string, code: string): Mail
  {
    Mail(email, "Seu novo token de verificação",
         "Olá!\n\nSeu novo token é: " + code + "\nEle expira em " + TokenTtlText + " minutos.\n")
  }

  /** Auto-increment keys grow with insertion order. */
  ghost predicate IdsIncreasing(rows: seq<EmailToken>)
  {
    forall i, j | 0 <= i < j < |rows| :: rows[i].id < rows[j].id
  }

  /** The newest row for `email`: the last one appended. */
  function Latest(rows: seq<EmailToken>, email: string): (r: Option<EmailToken>)
    ensures r.Some? ==> exists i | 0 <= i < |rows| :: rows[i] == r.value && r.value.email == email
    ensures r.None? <==> forall i | 0 <= i < |rows| :: rows[i].email != email
  {
    if rows == [] then None
    else if rows[|rows| - 1].email == email then Some(rows[|rows| - 1])
    else
      var front := rows[..|rows| - 1];
      var r := Latest(front, email);
      assert forall i | 0 <= i < |front| :: front[i] == rows[i];
      r
  }

  lemma IdsIncreasingFront(rows: seq<EmailToken>)
    requires IdsIncreasing(rows) && rows != []
    ensures IdsIncreasing(rows[..|rows| - 1])
  {
    var front := rows[..|rows| - 1];
    forall i, j | 0 <= i < j < |front|
      ensures front[i].id < front[j].id
    {
      assert front[i] == rows[i] && front[j] == rows[j];
    }
  }

  /** The last appended row is the one `order_by(EmailToken.id.desc()).first()`
      picks: no other row for that address has a higher id. */
  lemma {:induction false} LatestHasHighestId(rows: seq<EmailToken>, email: string)
    requires IdsIncreasing(rows)
    requires Latest(rows, email).Some?
    ensures forall i | 0 <= i < |rows| && rows[i].email == email :: rows[i].id <= Latest(rows, email).value.id
  {
    var n := |rows|;
    if rows[n - 1].email == email {
      forall i | 0 <= i < n && rows[i].email == email
        ensures rows[i].id <= rows[n - 1].id
      {
        if i < n - 1 {
          assert rows[i].id < rows[n - 1].id;
        }
      }
    } else {
      var front := rows[..n - 1];
      IdsIncreasingFront(rows);
      assert Latest(rows, email) == Latest(front, email);
      LatestHasHighestId(front, email);
      var top := Latest(front, email).value.id;
      forall i | 0 <= i < n && rows[i].email == email
        ensures rows[i].id <= top
      {
        assert front[i] == rows[i];
      }
    }
  }

  /** How `verify_email` judges a code. */
  datatype Verdict = Missing | Expired | Mismatch | Accepted

  /** Only the newest row counts; it has expired once `expires_at < now`
      (strictly), and the code must equal its `token`. */
  function Judge(rows: seq<EmailToken>, email: string, code: string, now: int): Verdict
  {
    match Latest(rows, email)
    case None => Missing
    case Some(t) =>
      if t.expiresAt < now then Expired
      else if code != t.token then Mismatch
      else Accepted
  }

  function VerifyResponse(v: Verdict): (r: Response)
    ensures r.status == 200 <==> v == Accepted
    ensures r.status != 200 ==> r.status == 400
  {
    match v
    case Missing => Response(400, NotFoundOrExpired)
    case Expired => Response(400, NotFoundOrExpired)
    case Mismatch => Response(400, InvalidToken)
    case Accepted => Response(200, VerifiedOk)
  }

  /** A code is accepted exactly when it is the newest row's code and that
      row has not expired; the expiry instant itself still counts. */
  lemma AcceptedIff(rows: seq<EmailToken>, email: string, code: string, now: int)
    ensures Judge(rows, email, code, now) == Accepted <==>
      Latest(rows, email).Some? && now <= Latest(rows, email).value.expiresAt && code == Latest(rows, email).value.token
  {
  }

  /** A freshly issued code verifies until, and at, its expiry instant, and
      is reported expired one second later. */
  lemma IssuedCodeVerifies(rows: seq<EmailToken>, id: nat, email: string, code: string, issuedAt: int, now: int)
    requires issuedAt <= now
    ensures var rows' := rows + [EmailToken(id, email, code, issuedAt + TokenTtl, issuedAt)];
      && (now <= issuedAt + TokenTtl ==> Judge(rows', email, code, now) == Accepted)
      && (now > issuedAt + TokenTtl ==> Judge(rows', email, code, now) == Expired)
  {
  }

  /** Issuing a new code supersedes the old ones: any other code is
      refused, even one of an older row that has not expired. */
  lemma NewRowSupersedes(rows: seq<EmailToken>, row: EmailToken, code: string, now: int)
    requires code != row.token
    ensures Judge(rows + [row], row.email, code, now) != Accepted
  {
  }

  /** Adding a row for one address leaves every other address's verdict alone. */
  lemma OtherAddressesUnaffected(rows: seq<EmailToken>, row: EmailToken, email: string, code: string, now: int)
    requires row.email != email
    ensures Judge(rows + [row], email, code, now) == Judge(rows, email, code, now)
  {
    assert (rows + [row])[..|rows|] == rows;
  }

  class AuthApi {
    var users: map<string, User>
    var tokens: seq<EmailToken>
    var nextId: nat

    /** Each account is stored under its own address; every token row
        belongs to an account (the foreign key); ids grow and stay below
        the next id. */
    ghost predicate Valid()
      reads this
    {
      && (forall k | k in users :: users[k].email == k)
      && (forall t | t in tokens :: t.email in users && t.id < nextId)
      && IdsIncreasing(tokens)
    }

    /** What every endpoint keeps: accounts are never removed or
        un-verified, and token rows are only ever appended. */
    twostate predicate Grows()
      reads this
    {
      && old(users).Keys <= users.Keys
      && (forall k | k in old(users) && old(users)[k].isVerified :: users[k].isVerified)
      && old(tokens) <= tokens
    }

    constructor ()
      ensures Valid()
      ensures users == map[] && tokens == [] && nextId == 0
    {
      users, tokens, nextId := map[], [], 0;
    }

    /** Appends one fresh token row for `e`. */
    method AddToken(e: string, now: int) returns (code: string)
      requires Valid() && e in users
      modifies this
      ensures Valid() && users == old(users) && nextId == old(nextId) + 1
      ensures IsCode(code)
      ensures tokens == old(tokens) + [EmailToken(old(nextId), e, code, now + TokenTtl, now)]
    {
      code := GenerateToken(CodeLength);
      var row := EmailToken(nextId, e, code, now + TokenTtl, now);
      ghost var before := tokens;
      tokens := tokens + [row];
      nextId := nextId + 1;
      assert forall t | t in tokens :: t in before || t == row;
      forall i, j | 0 <= i < j < |tokens| ensures tokens[i].id < tokens[j].id {
        assert tokens[i] == before[i];
        if j < |before| {
          assert tokens[j] == before[j];
        }
      }
    }

    /** The account row signup leaves for `e`: a new unverified row, or the
        existing unverified one with its hash and `created_at` overwritten,
        which is the same row value since it is stored under its own
        address. */
    method PutPending(e: string, hash: PasswordHash, now: int)
      requires Valid() && (e in users ==> !users[e].isVerified)
      modifies this
      ensures Valid() && tokens == old(tokens) && nextId == old(nextId)
      ensures users == old(users)[e := User(e, hash, false, now)]
    {
      if e in users {
        users := users[e := users[e].(passwordHash := hash, createdAt := now)];
      } else {
        users := users[e := User(e, hash, false, now)];
      }
    }

    /** `POST /auth/signup`. A verified account is refused and nothing
        changes. Otherwise the account is created unverified, or its hash
        and `created_at` are overwritten, one token row is appended, both
        are committed, and only then is the e-mail sent: a failed send is a
        500 that keeps the committed rows. */
    method Signup(email: string, password: string, now: int, salt: nat, delivery: Delivery)
      returns (resp: Response, mail: Option<Mail>)
      requires Valid()
      modifies this
      ensures Valid() && Grows()
      ensures !(MinPassword <= |password| <= MaxPassword) ==>
        resp.status == 422 && mail.None? && unchanged(this)
      ensures MinPassword <= |password| <= MaxPassword ==>
        var e := NormalizeEmail(email);
        if e in old(users) && old(users)[e].isVerified then
          resp == Response(400, AlreadyVerifiedAccount) && mail.None? && unchanged(this)
        else
          && users == old(users)[e := User(e, Hash(BcryptSha256, password, salt), false, now)]
          && nextId == old(nextId) + 1
          && |tokens| == |old(tokens)| + 1 && tokens[..|old(tokens)|] == old(tokens)
          && (var t := tokens[|old(tokens)|];
              && t == EmailToken(old(nextId), e, t.token, now + TokenTtl, now)
              && IsCode(t.token)
              && mail == Some(VerificationMail(e, t.token)))
          && resp == (if delivery.Delivered? then Response(200, SignupOk)
                      else Response(500, "Erro ao enviar e-mail: " + delivery.error))
    {
      mail := None;
      if |password| < MinPassword || |password| > MaxPassword {
        resp := Response(422, SchemaError);
        return;
      }
      var e := NormalizeEmail(email);
      if e in users && users[e].isVerified {
        resp := Response(400, AlreadyVerifiedAccount);
        return;
      }
      PutPending(e, Hash(BcryptSha256, password, salt), now);
      var code := AddToken(e, now);
      mail := Some(VerificationMail(e, code));
      if delivery.Delivered? {
        resp := Response(200, SignupOk);
      } else {
        resp := Response(500, "Erro ao enviar e-mail: " + delivery.error);
      }
    }

    /** Sets `is_verified` on the account stored under `e`. */
    method MarkVerified(e: string)
      requires Valid() && e in users
      modifies this
      ensures Valid() && tokens == old(tokens) && nextId == old(nextId)
      ensures users == old(users)[e := old(users)[e].(isVerified := true)]
    {
      users := users[e := users[e].(isVerified := true)];
    }

    /** `POST /auth/verify-email`. The code is stripped and judged against
        the newest row only; success marks the account verified and leaves
        the row in place, so the same code keeps working until it expires. */
    method VerifyEmail(email: string, token: string, now: int) returns (resp: Response)
      requires Valid()
      modifies this
      ensures Valid() && Grows()
      ensures tokens == old(tokens) && nextId == old(nextId) && users.Keys == old(users).Keys
      ensures !(MinToken <= |token| <= MaxToken) ==> resp.status == 422 && unchanged(this)
      ensures MinToken <= |token| <= MaxToken ==>
        var e := NormalizeEmail(email);
        var v := Judge(old(tokens), e, Strip(token), now);
        && resp == VerifyResponse(v)
        && (v == Accepted ==> e in old(users) && users == old(users)[e := old(users)[e].(isVerified := true)])
        && (v != Accepted ==> users == old(users))
    {
      if |token| < MinToken || |token| > MaxToken {
        resp := Response(422, SchemaError);
        return;
      }
      var e := NormalizeEmail(email);
      var code := Strip(token);
      var latest := Latest(tokens, e);
      if latest.None? || latest.value.expiresAt < now {
        resp := Response(400, NotFoundOrExpired);
        return;
      }
      if code != latest.value.token {
        resp := Response(400, InvalidToken);
        return;
      }
      if e !in users {
        // The 404 branch of the source: the foreign key rules it out.
        assert false;
      }
      MarkVerified(e);
      resp := Response(200, VerifiedOk);
    }

    /** `POST /auth/resend-token`: 404 for an unknown account, 400 for a
        verified one; otherwise one new token row, committed before the
        e-mail is sent. Accounts are not touched. */
    method ResendToken(email: string, now: int, delivery: Delivery) returns (resp: Response, mail: Option<Mail>)
      requires Valid()
      modifies this
      ensures Valid() && Grows() && users == old(users)
      ensures var e := NormalizeEmail(email);
        if e !in old(users) then
          resp == Response(404, UnknownUser) && mail.None? && unchanged(this)
        else if old(users)[e].isVerified then
          resp == Response(400, AlreadyVerifiedUser) && mail.None? && unchanged(this)
        else
          && nextId == old(nextId) + 1
          && |tokens| == |old(tokens)| + 1 && tokens[..|old(tokens)|] == old(tokens)
          && (var t := tokens[|old(tokens)|];
              && t == EmailToken(old(nextId), e, t.token, now + TokenTtl, now)
              && IsCode(t.token)
              && mail == Some(ResendMail(e, t.token)))
          && resp == (if delivery.Delivered? then Response(200, ResendOk)
                      else Response(500, "Erro ao enviar e-mail: " + delivery.error))
    {
      mail := None;
      var e := NormalizeEmail(email);
      if e !in users {
        resp := Response(404, UnknownUser);
        return;
      }
      if users[e].isVerified {
        resp := Response(400, AlreadyVerifiedUser);
        return;
      }
      var code := AddToken(e, now);
      mail := Some(ResendMail(e, code));
      if delivery.Delivered? {
        resp := Response(200, ResendOk);
      } else {
        resp := Response(500, "Erro ao enviar e-mail: " + delivery.error);
      }
    }

    /** `POST /auth/login`: unknown account 401, unverified 403 whatever the
        password, wrong password 401, otherwise 200. Nothing is written. */
    function Login(email: string, password: string): (r: Response)
      reads this
      ensures var e := NormalizeEmail(email);
        && (r.status == 200 <==> e in users && users[e].isVerified && Verify(password, users[e].passwordHash))
        && (r.status == 403 <==> e in users && !users[e].isVerified)
        && (r.status == 401 <==> e !in users || (users[e].isVerified && !Verify(password, users[e].passwordHash)))
        && (r.status == 401 ==> r.detail == BadCredentials)
    {
      var e := NormalizeEmail(email);
      if e !in users then Response(401, BadCredentials)
      else if !users[e].isVerified then Response(403, NotVerified)
      else if !Verify(password, users[e].passwordHash) then Response(401, BadCredentials)
      else Response(200, LoginOk)
    }
  }

  /** An address the scenarios below accept: it is already normal. */
  lemma SampleNormal()
    ensures NormalizeEmail("a@x.com") == "a@x.com"
  {
    NormalizeFixesNormal("a@x.com");
  }

  /** Two signups for the same address before it is verified: the second
      overwrites the password hash and `created_at` and appends a second row. */
  method SignupTwice(a: string) returns (api: AuthApi, stale: string, latest: string, answers: seq<Response>)
    requires NormalizeEmail(a) == a
    ensures answers == [Response(200, SignupOk), Response(200, SignupOk)]
    ensures fresh(api) && api.Valid()
    ensures IsCode(stale) && IsCode(latest)
    ensures api.users == map[a := User(a, Hash(BcryptSha256, "secret2", 2), false, 60)]
    ensures api.tokens == [EmailToken(0, a, stale, TokenTtl, 0), EmailToken(1, a, latest, 60 + TokenTtl, 60)]
  {
    api := new AuthApi();
    var r1, _ := api.Signup(a, "secret1", 0, 1, Delivered);
    assert api.users == map[a := User(a, Hash(BcryptSha256, "secret1", 1), false, 0)];
    assert |api.tokens| == 1 && api.nextId == 1;
    stale := api.tokens[0].token;
    var r2, _ := api.Signup(a, "secret2", 60, 2, Delivered);
    assert |api.tokens| == 2 && api.tokens[0].token == stale;
    latest := api.tokens[1].token;
    answers := [r1, r2];
  }

  /** How the two rows of `SignupTwice` judge codes: only the newest counts. */
  lemma JudgeTwoRows(a: string, stale: string, latest: string, code: string, now: int)
    requires now <= 60 + TokenTtl
    ensures var rows := [EmailToken(0, a, stale, TokenTtl, 0), EmailToken(1, a, latest, 60 + TokenTtl, 60)];
      Judge(rows, a, code, now) == if code == latest then Accepted else Mismatch
  {
  }

  /** The same, through the normalisation and the stripping the endpoint
      applies, for a normal address and a well-formed code. */
  lemma VerifyTwoRows(a: string, stale: string, latest: string, code: string, now: int)
    requires NormalizeEmail(a) == a && IsCode(code) && now <= 60 + TokenTtl
    ensures var rows := [EmailToken(0, a, stale, TokenTtl, 0), EmailToken(1, a, latest, 60 + TokenTtl, 60)];
      VerifyResponse(Judge(rows, NormalizeEmail(a), Strip(code), now)).status == if code == latest then 200 else 400
  {
    StripOfCode(code);
    JudgeTwoRows(a, stale, latest, code, now);
  }

  /** After two signups, a stale code, the newest code, a repeated
      verification, and logins with the new password and the old one. The stale code is refused unless the random draw
      happened to repeat it. */
  method SignupRetryScenario(a: string) returns (statuses: seq<int>, stale: string, latest: string)
    requires NormalizeEmail(a) == a
    ensures statuses == [200, 200, if stale == latest then 200 else 400, 200, 200, 200, 401]
  {
    var api, answers;
    api, stale, latest, answers := SignupTwice(a);
    VerifyTwoRows(a, stale, latest, stale, 120);
    VerifyTwoRows(a, stale, latest, latest, 180);
    VerifyTwoRows(a, stale, latest, latest, 240);
    var r3 := api.VerifyEmail(a, stale, 120);
    var r4 := api.VerifyEmail(a, latest, 180);
    var r5 := api.VerifyEmail(a, latest, 240);
    var r6 := api.Login(a, "secret2");
    assert r6.status == 200;
    var r7 := api.Login(a, "secret1");
    assert r7.status == 401;
    statuses := [answers[0].status, answers[1].status, r3.status, r4.status, r5.status, r6.status, r7.status];
  }
}
