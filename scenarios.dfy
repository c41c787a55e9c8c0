/** Worked requests: concrete inputs and what the handlers do with them. */
module Scenarios {
  import opened Wrappers
  import opened Text
  import opened Store
  import opened Http
  import opened LeadIntake
  import opened AdminGate
  import opened Contacted
  import opened Login

  /** A well-formed submission with an empty honeypot is stored once, tagged "landing", not yet contacted. */
  lemma GenuineSubmission(leads: map<LeadId, Lead>, newId: LeadId)
    ensures var form := LeadForm(Some(""), Some("Jo"), Some("a@b.com"), Some("hello there!"));
      var run := Intake(form, LeadHeaders(None, None), Some(newId));
      var after := Replay(leads, run.calls);
      && run.response == SeeOther("/gracias")
      && Count(run.calls, Insert) == 1
      && newId in after
      && after[newId].source == "landing"
      && !after[newId].contacted
  {
    var form := LeadForm(Some(""), Some("Jo"), Some("a@b.com"), Some("hello there!"));
    TrimOfTrimmed("Jo");
    TrimOfTrimmed("a@b.com");
    TrimOfTrimmed("hello there!");
    assert "a@b.com"[1] == '@';
    assert Admissible(form);
    IntakeEffect(leads, form, LeadHeaders(None, None), Some(newId));
  }

  /** The same submission with the honeypot filled in is discarded silently. */
  lemma BotSubmission(leads: map<LeadId, Lead>, newId: LeadId)
    ensures var form := LeadForm(Some("acme corp"), Some("Jo"), Some("a@b.com"), Some("hello there!"));
      var run := Intake(form, LeadHeaders(None, None), Some(newId));
      && run.response == NoContent
      && Replay(leads, run.calls) == leads
  {
    var form := LeadForm(Some("acme corp"), Some("Jo"), Some("a@b.com"), Some("hello there!"));
    assert !IsSpace("acme corp"[0]);
    TrimEmptyIffBlank("acme corp");
    assert IsBot(form);
  }

  /** A valid session whose profile is not an admin's is forbidden, and no update is attempted. */
  lemma NonAdminToggle(now: Timestamp, updateOk: bool)
    ensures var dir := Directory(map["tok" := "u1"], map["u1" := Profile(Some(false))]);
      var form := ContactedForm(Some("42"), Some("true"), None);
      var run := ContactedRun(Some("tok"), form, now, dir, updateOk);
      && run.response == Forbidden
      && Count(run.calls, Update) == 0
  {
    var dir := Directory(map["tok" := "u1"], map["u1" := Profile(Some(false))]);
    var form := ContactedForm(Some("42"), Some("true"), None);
    TrimOfTrimmed("42");
    TrimOfTrimmed("true");
    assert WellFormed(form);
    assert Authenticated(Some("tok"), dir) && !Authorized(Some("tok"), dir);
  }

  /** Correct credentials: one seven-day session cookie and a redirect to the admin area. */
  lemma SuccessfulLogin(env: Env, form: LoginForm, token: string)
    requires Configured(env)
    ensures var run := LoginRun(env, form, SignInAnswer(false, Some(Session(token))));
      && run.response == SeeOther("/admin")
      && |run.cookies| == 1
      && run.cookies[0].value == token
      && run.cookies[0].options.maxAge == 7 * 24 * 60 * 60
  {
  }

  /** Rejected credentials: unauthorized, no cookie. */
  lemma FailedLogin(env: Env, form: LoginForm, session: Option<Session>)
    requires Configured(env)
    ensures var run := LoginRun(env, form, SignInAnswer(true, session));
      run.response == Text(401, "Invalid login") && run.cookies == []
  {
  }
}
