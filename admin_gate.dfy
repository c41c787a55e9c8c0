/**
 * The gate that both admin mutations run (src/pages/api/leads/contacted.ts:9-56
 * and src/pages/api/leads/notes.ts:9-43): token present, request well formed,
 * identity resolves, profile says admin, then one update through the
 * service-role client. The two handlers differ only in how they parse the form
 * into an `AdminRequest`.
 */
module AdminGate {
  import opened Wrappers
  import opened Store
  import opened Http

  /** Where a successful mutation redirects when the form names no target. */
  const DefaultRedirect := "/admin"

  const Unauthorized := Text(401, "Unauthorized")
  const BadRequest := Text(400, "Bad request")
  const Forbidden := Text(403, "Forbidden")
  const ServerError := Text(500, "Server error")

  /** A well-formed mutation request: the target lead, the columns to write, where to go afterwards. */
  datatype AdminRequest = AdminRequest(id: LeadId, patch: Patch, redirectTo: string)

  /** `cookies.get("sb_access_token")?.value` is truthy. */
  predicate HasToken(cookie: Option<string>) {
    cookie.Some? && cookie.value != ""
  }

  /** A missing cookie and an empty token both count as no token; any other value is a token. */
  lemma TokenTruthiness(token: string)
    ensures !HasToken(None) && !HasToken(Some(""))
    ensures HasToken(Some(token)) <==> token != ""
  {
  }

  /** The bearer resolves to a user. */
  predicate Authenticated(cookie: Option<string>, dir: Directory) {
    HasToken(cookie) && dir.UserOf(cookie.value).Some?
  }

  /** The bearer resolves to a user whose profile, read under the bearer's own scope, says admin. */
  predicate Authorized(cookie: Option<string>, dir: Directory) {
    Authenticated(cookie, dir) && IsAdmin(dir.ProfileOf(dir.UserOf(cookie.value).value))
  }

  /**
   * One admin mutation request. `request` is the parsed form (`None` when it
   * is malformed); `updateOk` is whether the backend reports the update
   * without error.
   */
  function AdminRun(cookie: Option<string>, request: Option<AdminRequest>, dir: Directory, updateOk: bool): (run: Run)
    ensures run.cookies == []
    // short-circuit order: 401 on no token, then 400 on a malformed form, both before any call
    ensures !HasToken(cookie) ==> run.response == Unauthorized && run.calls == []
    ensures HasToken(cookie) && request.None? ==> run.response == BadRequest && run.calls == []
    // the call counters
    ensures Count(run.calls, Identity) == (if HasToken(cookie) && request.Some? then 1 else 0)
    ensures Count(run.calls, ProfileLookup) == (if Authenticated(cookie, dir) && request.Some? then 1 else 0)
    ensures Count(run.calls, Update) == (if Authorized(cookie, dir) && request.Some? then 1 else 0)
    ensures Count(run.calls, Insert) == 0 && Count(run.calls, Authenticate) == 0
    // the status mapping
    ensures run.response.Status() == 401 <==> !Authenticated(cookie, dir) && (HasToken(cookie) ==> request.Some?)
    ensures run.response.Status() == 403 <==> Authenticated(cookie, dir) && request.Some? && !Authorized(cookie, dir)
    ensures run.response.Status() == 500 <==> Authorized(cookie, dir) && request.Some? && !updateOk
    ensures run.response.Status() == 303 <==> Authorized(cookie, dir) && request.Some? && updateOk
    ensures run.response.Status() == 303 ==> run.response == SeeOther(request.value.redirectTo)
    // privilege separation: everything before the update runs under the caller's own bearer
    ensures forall i :: 0 <= i < |run.calls| ==>
      run.calls[i].scope == (if run.calls[i].UpdateLead? then ServiceRole else UserScoped(cookie.value))
    // the update is the last call, and writes the requested patch on the requested row
    ensures forall i :: 0 <= i < |run.calls| && run.calls[i].UpdateLead? ==>
      && i == |run.calls| - 1
      && run.calls[i] == UpdateLead(ServiceRole, request.value.id, request.value.patch, updateOk)
  {
    if !HasToken(cookie) then Run(Unauthorized, [], [])
    else if request.None? then Run(BadRequest, [], [])
    else
      var token := cookie.value;
      var user := dir.UserOf(token);
      var identity := Call.GetUser(UserScoped(token), user);
      CountOne(identity);
      if user.None? then Run(Unauthorized, [identity], [])
      else
        var lookup := Call.SelectProfile(UserScoped(token), user.value, dir.ProfileOf(user.value));
        CountTwo(identity, lookup);
        if !IsAdmin(lookup.profile) then Run(Forbidden, [identity, lookup], [])
        else
          var update := UpdateLead(ServiceRole, request.value.id, request.value.patch, updateOk);
          CountThree(identity, lookup, update);
          if !updateOk then Run(ServerError, [identity, lookup, update], [])
          else Run(SeeOther(request.value.redirectTo), [identity, lookup, update], [])
  }

  /** The leads table after the request: the requested row is patched when, and only when, the response is the redirect. */
  lemma AdminEffect(leads: map<LeadId, Lead>, cookie: Option<string>, request: Option<AdminRequest>, dir: Directory, updateOk: bool)
    ensures var run := AdminRun(cookie, request, dir, updateOk);
      Replay(leads, run.calls) ==
        if run.response.Status() == 303 then UpdateRows(leads, request.value.id, request.value.patch) else leads
  {
    var run := AdminRun(cookie, request, dir, updateOk);
    if Authorized(cookie, dir) && request.Some? {
      var checks, update := run.calls[..2], run.calls[2];
      assert run.calls == checks + [update];
      ReplayAppend(leads, checks, [update]);
      ReplayReadOnly(leads, checks);
      ReplayOne(leads, update);
    } else {
      ReplayReadOnly(leads, run.calls);
    }
  }

  /** Every call the gate makes keeps the table valid, provided the requested patch does. */
  lemma AdminCallsValid(cookie: Option<string>, request: Option<AdminRequest>, dir: Directory, updateOk: bool)
    requires request.Some? ==> PatchValid(request.value.patch)
    ensures var run := AdminRun(cookie, request, dir, updateOk);
      forall i :: 0 <= i < |run.calls| ==> CallValid(run.calls[i])
  {
  }

  /**
   * The gate, step by step against the backend: each check is one round trip
   * and the first failing check ends the request.
   */
  method AuthorizeAndMutate(b: Backend, cookie: Option<string>, request: Option<AdminRequest>, updateOk: bool)
    returns (response: Response)
    modifies b
    ensures var run := AdminRun(cookie, request, b.dir, updateOk);
      && response == run.response
      && b.calls == old(b.calls) + run.calls
      && b.leads == Replay(old(b.leads), run.calls)
    ensures b.Counter(Update) == old(b.Counter(Update)) + (if Authorized(cookie, b.dir) && request.Some? then 1 else 0)
    ensures b.Counter(ProfileLookup) == old(b.Counter(ProfileLookup)) + (if Authenticated(cookie, b.dir) && request.Some? then 1 else 0)
    ensures b.Counter(Identity) == old(b.Counter(Identity)) + (if HasToken(cookie) && request.Some? then 1 else 0)
    ensures old(b.Valid()) && (request.Some? ==> PatchValid(request.value.patch)) ==> b.Valid()
  {
    ghost var before, log := b.leads, b.calls;
    if cookie.None? || cookie.value == "" {
      response := Unauthorized;
    } else if request.None? {
      response := BadRequest;
    } else {
      var token := cookie.value;
      var user := b.GetUser(token);
      ghost var identity := Call.GetUser(UserScoped(token), user);
      if user.None? {
        response := Unauthorized;
      } else {
        var profile := b.SelectProfile(UserScoped(token), user.value);
        ghost var lookup := Call.SelectProfile(UserScoped(token), user.value, profile);
        assert b.calls == log + [identity, lookup];
        if !IsAdmin(profile) {
          response := Forbidden;
        } else {
          var ok := b.Update(ServiceRole, request.value.id, request.value.patch, updateOk);
          response := if ok then SeeOther(request.value.redirectTo) else ServerError;
          assert b.calls == log + [identity, lookup, UpdateLead(ServiceRole, request.value.id, request.value.patch, updateOk)];
        }
      }
    }

    ghost var run := AdminRun(cookie, request, b.dir, updateOk);
    assert response == run.response && b.calls == log + run.calls;
    assert b.leads == Replay(before, run.calls) by {
      AdminEffect(before, cookie, request, b.dir, updateOk);
    }
    assert Count(b.calls, Update) == Count(log, Update) + Count(run.calls, Update) by {
      CountAppend(log, run.calls, Update);
    }
    assert Count(b.calls, ProfileLookup) == Count(log, ProfileLookup) + Count(run.calls, ProfileLookup) by {
      CountAppend(log, run.calls, ProfileLookup);
    }
    assert Count(b.calls, Identity) == Count(log, Identity) + Count(run.calls, Identity) by {
      CountAppend(log, run.calls, Identity);
    }
    assert TableValid(before) && (request.Some? ==> PatchValid(request.value.patch)) ==> TableValid(b.leads) by {
      if TableValid(before) && (request.Some? ==> PatchValid(request.value.patch)) {
        AdminCallsValid(cookie, request, b.dir, updateOk);
        ReplayKeepsValid(before, run.calls);
      }
    }
  }
}
