/**
 * The login handler (src/pages/api/login.ts): configuration check, one
 * sign-in attempt with the trimmed credentials, and on success one session
 * cookie and a redirect to the admin area.
 */
module Login {
  import opened Wrappers
  import opened Text
  import opened Store
  import opened Http

  const SessionCookieName := "sb_access_token"
  /** Seven days, in seconds: `60 * 60 * 24 * 7`. */
  const SessionMaxAge := 60 * 60 * 24 * 7
  const AdminArea := "/admin"

  /** `SUPABASE_URL` and `SUPABASE_ANON_KEY` as the handler's module reads them. */
  datatype Env = Env(url: Option<string>, anonKey: Option<string>)

  /** `url && anon`: both are set and non-empty. */
  predicate Configured(env: Env) {
    env.url.Some? && env.url.value != "" && env.anonKey.Some? && env.anonKey.value != ""
  }

  /** A missing or empty URL or key leaves the handler unconfigured; two non-empty values configure it. */
  lemma ConfigurationTruthiness(url: string, key: string)
    ensures !Configured(Env(None, Some(key))) && !Configured(Env(Some(""), Some(key)))
    ensures !Configured(Env(Some(url), None)) && !Configured(Env(Some(url), Some("")))
    ensures Configured(Env(Some(url), Some(key))) <==> url != "" && key != ""
  {
  }

  /** The form fields the handler reads. */
  datatype LoginForm = LoginForm(email: Option<string>, password: Option<string>)

  /** The sign-in answered without error and with a session. */
  predicate SignedIn(outcome: SignInAnswer) {
    !outcome.failed && outcome.session.Some?
  }

  /** The cookie that carries the session's access token. */
  function SessionCookie(token: string): (c: SetCookie)
    ensures c.name == "sb_access_token" && c.value == token
    ensures c.options.maxAge == 604800
    ensures c.options.httpOnly && c.options.secure && c.options.sameSite == Lax && c.options.path == "/"
  {
    SetCookie(SessionCookieName, token, CookieOptions(true, true, Lax, "/", SessionMaxAge))
  }

  /** One POST to the login endpoint; `outcome` is what the identity service answers to the credentials. */
  function LoginRun(env: Env, form: LoginForm, outcome: SignInAnswer): (run: Run)
    ensures !Configured(env) ==> run == Run(Text(500, "Missing env"), [], [])
    ensures Configured(env) ==>
      run.calls == [SignIn(AnonKey, Trim(FormValue(form.email)), Trim(FormValue(form.password)), outcome)]
    ensures Count(run.calls, Authenticate) <= 1
    ensures Count(run.calls, Update) == 0 && Count(run.calls, Insert) == 0
    ensures |run.cookies| == (if Configured(env) && SignedIn(outcome) then 1 else 0)
    ensures run.response.Status() == 401 <==> Configured(env) && !SignedIn(outcome)
    ensures run.response.Status() == 303 <==> Configured(env) && SignedIn(outcome)
    ensures run.response.Status() == 303 ==>
      && run.response == SeeOther("/admin")
      && run.cookies == [SessionCookie(outcome.session.value.accessToken)]
  {
    var email := Trim(FormValue(form.email));
    var password := Trim(FormValue(form.password));
    if !Configured(env) then Run(Text(500, "Missing env"), [], [])
    else
      var attempt := SignIn(AnonKey, email, password, outcome);
      CountOne(attempt);
      if outcome.failed || outcome.session.None? then Run(Text(401, "Invalid login"), [attempt], [])
      else Run(SeeOther(AdminArea), [attempt], [SessionCookie(outcome.session.value.accessToken)])
  }

  /** The handler itself, against the backend and the response's cookie jar. */
  method PostLogin(b: Backend, jar: CookieJar, env: Env, form: LoginForm, outcome: SignInAnswer)
    returns (response: Response)
    modifies b`calls, jar
    ensures var run := LoginRun(env, form, outcome);
      && response == run.response
      && b.calls == old(b.calls) + run.calls
      && jar.sent == old(jar.sent) + run.cookies
    ensures b.leads == old(b.leads)
  {
    var email := Trim(FormValue(form.email));
    var password := Trim(FormValue(form.password));
    if !Configured(env) {
      response := Text(500, "Missing env");
      return;
    }
    var answer := b.SignIn(email, password, outcome);
    if answer.failed || answer.session.None? {
      response := Text(401, "Invalid login");
      return;
    }
    jar.Set(SessionCookie(answer.session.value.accessToken));
    response := SeeOther(AdminArea);
  }
}
