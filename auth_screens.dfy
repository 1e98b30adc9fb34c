/** The authentication screens of screens/auth.py: field checks done in a
    fixed order before anything is sent, one POST to the verification
    server per flow, the loader shown around the request and hidden on
    every path, and navigation only on success. The HTTP outcome of each
    flow is an input. */
module AuthScreens {
  import opened Text
  import opened EmailPattern
  import opened AppShell

  /** What `requests.post` led to: a response with its status and the text
      the screen shows for it (`data.get("detail") or str(data)`), or an
      exception with its message. */
  datatype Outcome = Replied(status: int, detail: string) | Failed(error: string)

  /** A request the screen sent: the URL and the JSON payload. */
  datatype Post = Post(url: string, payload: map<string, string>)

  const MissingCredentials := "Informe e-mail e senha."
  const InvalidEmail := "E-mail inválido."
  const ShortPassword := "A senha deve ter pelo menos 6 caracteres."
  const PasswordsDiffer := "As senhas não coincidem."
  const MissingToken := "Informe o token."
  const MissingEmail := "E-mail não definido nesta verificação."
  const InvalidResetEmail := "Informe um e-mail válido."
  const ResetNotice := "Se o e-mail existir, enviaremos instruções."
  const MinPasswordLength: nat := 6

  /** The first complaint of `do_login`, if any. */
  function LoginProblem(email: string, password: string): (r: Option<string>)
    ensures r.None? <==> email != "" && password != ""
    ensures r.Some? ==> r.value == MissingCredentials
  {
    if email == "" || password == "" then Some(MissingCredentials) else None
  }

  /** The first complaint of `create_account`: the address, then the
      length, then the confirmation; only the first failing check speaks. */
  function SignupProblem(email: string, password: string, confirm: string): (r: Option<string>)
    ensures r.None? <==> IsEmail(email) && |password| >= MinPasswordLength && password == confirm
    ensures r == Some(InvalidEmail) <==> !IsEmail(email)
    ensures r == Some(ShortPassword) <==> IsEmail(email) && |password| < MinPasswordLength
    ensures r == Some(PasswordsDiffer) <==> IsEmail(email) && |password| >= MinPasswordLength && password != confirm
  {
    if !IsEmail(email) then Some(InvalidEmail)
    else if |password| < MinPasswordLength then Some(ShortPassword)
    else if password != confirm then Some(PasswordsDiffer)
    else None
  }

  /** The code `verify_token` sends: `(token or "").strip()`. */
  function TypedCode(token: Option<string>): (code: string)
    ensures code == [] || (!IsSpace(code[0]) && !IsSpace(code[|code| - 1]))
    ensures token.None? ==> code == ""
  {
    Strip(if token.Some? then token.value else "")
  }

  /** The first complaint of `verify_token`: the stripped code is checked
      before the address the screen was given. */
  function VerifyProblem(token: Option<string>, email: string): (r: Option<string>)
    ensures r.None? <==> TypedCode(token) != "" && email != ""
    ensures r == Some(MissingToken) <==> TypedCode(token) == ""
    ensures r == Some(MissingEmail) <==> TypedCode(token) != "" && email == ""
  {
    if TypedCode(token) == "" then Some(MissingToken)
    else if email == "" then Some(MissingEmail)
    else None
  }

  /** A code made only of whitespace is refused as missing. */
  lemma BlankCodeIsMissing(token: string, email: string)
    requires forall i | 0 <= i < |token| :: IsSpace(token[i])
    ensures VerifyProblem(Some(token), email) == Some(MissingToken)
  {
    StripOfBlank(token);
  }

  /** What every flow does once its request has an outcome: the success
      statuses toast and, when given, navigate; any other status or an
      exception opens one error dialog; the loader is hidden in any case. */
  method Conclude(app: MyApp, outcome: Outcome, success: set<int>, toast: string, next: Option<string>,
                  failPrefix: string, errorPrefix: string)
    requires app.Valid() && app.root != null
    requires next.Some? ==> next.value in ScreenNames
    modifies app, app.root
    ensures app.Valid() && app.root == old(app.root) && app.loaderDialog.None? && app.loadersOnScreen == 0
    ensures app.root.screenNames == old(app.root.screenNames) && app.root.verifyEmail == old(app.root.verifyEmail)
    ensures outcome.Replied? && outcome.status in success ==>
      && app.toasts == old(app.toasts) + [toast] && app.errorDialog == old(app.errorDialog)
      && app.root.current == (if next.Some? then next.value else old(app.root.current))
    ensures outcome.Replied? && outcome.status !in success ==>
      && app.errorDialog == Some(Dialog(DefaultErrorTitle, failPrefix + outcome.detail))
      && app.toasts == old(app.toasts) && app.root.current == old(app.root.current)
    ensures outcome.Failed? ==>
      && app.errorDialog == Some(Dialog(DefaultErrorTitle, errorPrefix + outcome.error))
      && app.toasts == old(app.toasts) && app.root.current == old(app.root.current)
  {
    match outcome {
      case Replied(status, detail) =>
        if status in success {
          app.Toast(toast);
          if next.Some? {
            app.root.SetCurrent(next.value);
          }
        } else {
          app.NotifyError(failPrefix + detail, DefaultErrorTitle);
        }
      case Failed(error) =>
        app.NotifyError(errorPrefix + error, DefaultErrorTitle);
    }
    app.HideLoader();
  }

  /** `LoginScreen.do_login`: empty fields are refused without a request;
      only a 200 goes to "home". This screen posts to the verification
      server's login. */
  method DoLogin(app: MyApp, email: string, password: string, outcome: Outcome) returns (sent: Option<Post>)
    requires app.Valid() && app.root != null
    modifies app, app.root
    ensures app.Valid() && app.root == old(app.root) && app.root.verifyEmail == old(app.root.verifyEmail)
    ensures LoginProblem(email, password).Some? ==>
      && sent.None? && app.errorDialog == Some(Dialog(DefaultErrorTitle, MissingCredentials))
      && app.root.current == old(app.root.current) && app.loaderDialog == old(app.loaderDialog)
    ensures LoginProblem(email, password).None? ==>
      && sent == Some(Post(ApiBaseUrl + "/auth/login", map["email" := email, "password" := password]))
      && app.loaderDialog.None?
      && (app.root.current == "home" <==> (outcome.Replied? && outcome.status == 200) || old(app.root.current) == "home")
      && (outcome.Replied? && outcome.status == 200 ==> app.toasts == old(app.toasts) + ["Login realizado!"])
      && (outcome.Replied? && outcome.status != 200 ==> app.errorDialog == Some(Dialog(DefaultErrorTitle, outcome.detail)))
      && (outcome.Failed? ==> app.errorDialog == Some(Dialog(DefaultErrorTitle, "Erro ao fazer login: " + outcome.error)))
  {
    var problem := LoginProblem(email, password);
    if problem.Some? {
      app.NotifyError(problem.value, DefaultErrorTitle);
      return None;
    }
    app.ShowLoader("Validando credenciais...");
    sent := Some(Post(ApiBaseUrl + "/auth/login", map["email" := email, "password" := password]));
    Conclude(app, outcome, {200}, "Login realizado!", Some("home"), "", "Erro ao fazer login: ");
    assert outcome.Replied? ==> "" + outcome.detail == outcome.detail;
  }

  /** `SignupScreen.create_account`: the three checks in order, then the
      signup request; a 200 or a 201 hands the address to the verify
      screen and shows it. */
  method CreateAccount(app: MyApp, email: string, password: string, confirm: string, outcome: Outcome)
    returns (sent: Option<Post>)
    requires app.Valid() && app.root != null
    modifies app, app.root
    ensures app.Valid() && app.root == old(app.root)
    ensures SignupProblem(email, password, confirm).Some? ==>
      && sent.None? && app.errorDialog == Some(Dialog(DefaultErrorTitle, SignupProblem(email, password, confirm).value))
      && app.root.current == old(app.root.current) && app.root.verifyEmail == old(app.root.verifyEmail)
      && app.loaderDialog == old(app.loaderDialog)
    ensures SignupProblem(email, password, confirm).None? ==>
      && sent == Some(Post(ApiBaseUrl + "/auth/signup", map["email" := email, "password" := password]))
      && app.loaderDialog.None?
      && (outcome.Replied? && outcome.status in {200, 201} ==>
            app.root.current == "verify" && app.root.verifyEmail == email)
      && (!(outcome.Replied? && outcome.status in {200, 201}) ==>
            app.root.current == old(app.root.current) && app.root.verifyEmail == old(app.root.verifyEmail))
      && (outcome.Replied? && outcome.status in {200, 201} ==>
            app.toasts == old(app.toasts) + ["Conta criada! Enviamos um token para seu e-mail."]
            && app.errorDialog == old(app.errorDialog))
      && (!(outcome.Replied? && outcome.status in {200, 201}) ==> app.toasts == old(app.toasts))
      && (outcome.Replied? && outcome.status !in {200, 201} ==>
            app.errorDialog == Some(Dialog(DefaultErrorTitle, "Falha ao criar conta: " + outcome.detail)))
      && (outcome.Failed? ==>
            app.errorDialog == Some(Dialog(DefaultErrorTitle, "Erro ao criar conta: " + outcome.error)))
  {
    var problem := SignupProblem(email, password, confirm);
    if problem.Some? {
      app.NotifyError(problem.value, DefaultErrorTitle);
      return None;
    }
    app.ShowLoader("Criando conta e enviando token...");
    sent := Some(Post(ApiBaseUrl + "/auth/signup", map["email" := email, "password" := password]));
    Conclude(app, outcome, {200, 201}, "Conta criada! Enviamos um token para seu e-mail.", Some("verify"),
             "Falha ao criar conta: ", "Erro ao criar conta: ");
    if outcome.Replied? && outcome.status in {200, 201} {
      app.root.SetVerifyEmail(email);
    }
  }

  /** `VerifyTokenScreen.verify_token`: the stripped code and then the
      screen's address must be non-empty; only a 200 goes to "login". */
  method VerifyToken(app: MyApp, token: Option<string>, outcome: Outcome) returns (sent: Option<Post>)
    requires app.Valid() && app.root != null
    modifies app, app.root
    ensures app.Valid() && app.root == old(app.root) && app.root.verifyEmail == old(app.root.verifyEmail)
    ensures VerifyProblem(token, old(app.root.verifyEmail)).Some? ==>
      && sent.None?
      && app.errorDialog == Some(Dialog(DefaultErrorTitle, VerifyProblem(token, old(app.root.verifyEmail)).value))
      && app.root.current == old(app.root.current) && app.loaderDialog == old(app.loaderDialog)
    ensures VerifyProblem(token, old(app.root.verifyEmail)).None? ==>
      && sent == Some(Post(ApiBaseUrl + "/auth/verify-email", map["email" := old(app.root.verifyEmail), "token" := TypedCode(token)]))
      && app.loaderDialog.None?
      && (outcome.Replied? && outcome.status == 200 ==> app.root.current == "login")
      && (!(outcome.Replied? && outcome.status == 200) ==> app.root.current == old(app.root.current))
      && (outcome.Replied? && outcome.status == 200 ==>
            app.toasts == old(app.toasts) + ["Conta verificada! Faça login."] && app.errorDialog == old(app.errorDialog))
      && (!(outcome.Replied? && outcome.status == 200) ==> app.toasts == old(app.toasts))
      && (outcome.Replied? && outcome.status != 200 ==>
            app.errorDialog == Some(Dialog(DefaultErrorTitle, "Não foi possível verificar: " + outcome.detail)))
      && (outcome.Failed? ==>
            app.errorDialog == Some(Dialog(DefaultErrorTitle, "Erro ao verificar: " + outcome.error)))
  {
    var code := TypedCode(token);
    var email := app.root.verifyEmail;
    var problem := VerifyProblem(token, email);
    if problem.Some? {
      app.NotifyError(problem.value, DefaultErrorTitle);
      return None;
    }
    app.ShowLoader("Validando token...");
    sent := Some(Post(ApiBaseUrl + "/auth/verify-email", map["email" := email, "token" := code]));
    Conclude(app, outcome, {200}, "Conta verificada! Faça login.", Some("login"),
             "Não foi possível verificar: ", "Erro ao verificar: ");
  }

  /** `VerifyTokenScreen.resend_token`: needs the screen's address; never
      navigates. */
  method ResendToken(app: MyApp, outcome: Outcome) returns (sent: Option<Post>)
    requires app.Valid() && app.root != null
    modifies app, app.root
    ensures app.Valid() && app.root == old(app.root) && app.root.current == old(app.root.current)
    ensures app.root.verifyEmail == old(app.root.verifyEmail)
    ensures old(app.root.verifyEmail) == "" ==>
      sent.None? && app.errorDialog == Some(Dialog(DefaultErrorTitle, MissingEmail)) && app.loaderDialog == old(app.loaderDialog)
    ensures old(app.root.verifyEmail) != "" ==>
      && sent == Some(Post(ApiBaseUrl + "/auth/resend-token", map["email" := old(app.root.verifyEmail)]))
      && app.loaderDialog.None?
      && (outcome.Replied? && outcome.status == 200 ==>
            app.toasts == old(app.toasts) + ["Novo token enviado para " + old(app.root.verifyEmail) + "."])
      && (outcome.Replied? && outcome.status != 200 ==>
            app.errorDialog == Some(Dialog(DefaultErrorTitle, "Falha ao reenviar token: " + outcome.detail)))
      && (outcome.Failed? ==>
            app.errorDialog == Some(Dialog(DefaultErrorTitle, "Erro ao reenviar token: " + outcome.error)))
  {
    var email := app.root.verifyEmail;
    if email == "" {
      app.NotifyError(MissingEmail, DefaultErrorTitle);
      return None;
    }
    app.ShowLoader("Reenviando token...");
    sent := Some(Post(ApiBaseUrl + "/auth/resend-token", map["email" := email]));
    Conclude(app, outcome, {200}, "Novo token enviado para " + email + ".", None,
             "Falha ao reenviar token: ", "Erro ao reenviar token: ");
  }

  /** `ForgotPasswordScreen.send_reset`: nothing is sent; a valid address
      gets the same notice and goes to "login" whether or not an account
      exists. */
  method SendReset(app: MyApp, email: string)
    requires app.Valid() && app.root != null
    modifies app, app.root
    ensures app.Valid() && app.root == old(app.root) && app.loaderDialog == old(app.loaderDialog)
    ensures app.root.verifyEmail == old(app.root.verifyEmail)
    ensures !IsEmail(email) ==>
      app.errorDialog == Some(Dialog(DefaultErrorTitle, InvalidResetEmail)) && app.root.current == old(app.root.current)
    ensures IsEmail(email) ==>
      app.toasts == old(app.toasts) + [ResetNotice] && app.root.current == "login" && app.errorDialog == old(app.errorDialog)
  {
    if !IsEmail(email) {
      app.NotifyError(InvalidResetEmail, DefaultErrorTitle);
      return;
    }
    app.Toast(ResetNotice);
    app.root.SetCurrent("login");
  }

  /** The address the scenarios below use passes the screens' check. */
  lemma SampleAddress()
    ensures IsEmail("a@x.com")
  {
    var b := "a@x.com";
    assert Body(b) == b;
    assert b[1] == '@' && b[3] == '.';
    assert forall m | 0 <= m < |b| && m != 1 :: b[m] != '@';
  }

  /** The code the scenario below types has nothing to strip. */
  lemma SampleCode()
    ensures TypedCode(Some("123456")) == "123456"
  {
    LStripOfTrimmed("123456");
    RStripOfTrimmed("123456");
  }

  /** A mistyped confirmation sends nothing and stays on "login"; the
      corrected form is sent and, on a 200, the verify screen takes over
      with the address. */
  method SignupFlowScenario() returns (attempts: seq<bool>, shown: seq<string>, handed: string)
    ensures attempts == [false, true]
    ensures shown == ["login", "verify"]
    ensures handed == "a@x.com"
  {
    var app := new MyApp();
    app.Start();
    var root := app.root;
    SampleAddress();
    assert "secret1" != "secret2" by { assert "secret1"[6] != "secret2"[6]; }
    var s1 := CreateAccount(app, "a@x.com", "secret1", "secret2", Replied(200, ""));
    shown := [root.current];
    var s2 := CreateAccount(app, "a@x.com", "secret1", "secret1", Replied(200, ""));
    shown := shown + [root.current];
    attempts := [s1.Some?, s2.Some?];
    handed := root.verifyEmail;
  }

  /** On the verify screen a refused code keeps the screen, and an
      accepted one leads to "login". */
  method VerifyFlowScenario() returns (sent: seq<Option<Post>>, shown: seq<string>)
    ensures shown == ["verify", "login"]
    ensures |sent| == 2 && sent[0] == sent[1]
    ensures sent[1] == Some(Post(ApiBaseUrl + "/auth/verify-email", map["email" := "a@x.com", "token" := "123456"]))
  {
    var app := new MyApp();
    app.Start();
    var root := app.root;
    root.SetVerifyEmail("a@x.com");
    root.SetCurrent("verify");
    var typed := Some("123456");
    SampleCode();
    assert root.verifyEmail == "a@x.com";
    assert VerifyProblem(typed, root.verifyEmail) == None;
    var post := Post(ApiBaseUrl + "/auth/verify-email", map["email" := "a@x.com", "token" := "123456"]);
    var s1 := VerifyToken(app, typed, Replied(400, "Token inválido."));
    assert root.verifyEmail == "a@x.com";
    assert s1 == Some(post);
    var first := root.current;
    var s2 := VerifyToken(app, typed, Replied(200, ""));
    assert s2 == Some(post);
    shown := [first, root.current];
    sent := [s1, s2];
  }
}
