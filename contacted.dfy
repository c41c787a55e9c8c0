/**
 * Toggle-contacted (src/pages/api/leads/contacted.ts): the form names a lead
 * and a flag; the gate writes the flag together with a matching timestamp.
 */
module Contacted {
  import opened Wrappers
  import opened Text
  import opened Store
  import opened Http
  import opened AdminGate

  /** The form fields the handler reads. */
  datatype ContactedForm = ContactedForm(id: Option<string>, next: Option<string>, redirectTo: Option<string>)

  /** The trimmed `next` field is one of the two flag spellings. */
  predicate FlagWellFormed(form: ContactedForm) {
    var next := Trim(FormValue(form.next));
    next == "true" || next == "false"
  }

  /** The form is accepted: a non-blank id and a well-formed flag. */
  predicate WellFormed(form: ContactedForm) {
    Trim(FormValue(form.id)) != "" && FlagWellFormed(form)
  }

  /** The value the request asks `contacted` to take. */
  predicate Requested(form: ContactedForm) {
    Trim(FormValue(form.next)) == "true"
  }

  /** The request the gate runs; `now` is the clock reading `new Date().toISOString()` would give. */
  function ParseContacted(form: ContactedForm, now: Timestamp): (request: Option<AdminRequest>)
    ensures request.Some? <==> WellFormed(form)
    ensures request.Some? ==> request.value.id == Trim(FormValue(form.id))
    ensures request.Some? ==> request.value.redirectTo == form.redirectTo.GetOr(DefaultRedirect)
    ensures request.Some? ==>
      && request.value.patch.ContactedPatch?
      && PatchValid(request.value.patch)
      && request.value.patch.contacted == Requested(form)
      && (Requested(form) ==> request.value.patch.contactedAt == Some(now))
  {
    var id := Trim(FormValue(form.id));
    var next := Trim(FormValue(form.next));
    var redirectTo := form.redirectTo.GetOr(DefaultRedirect);
    if id == "" || (next != "true" && next != "false") then None
    else
      var contacted := next == "true";
      Some(AdminRequest(id, ContactedPatch(contacted, if contacted then Some(now) else None), redirectTo))
  }

  /** One POST to the toggle-contacted endpoint. */
  function ContactedRun(cookie: Option<string>, form: ContactedForm, now: Timestamp, dir: Directory, updateOk: bool): (run: Run)
    ensures !HasToken(cookie) ==> run == Run(Unauthorized, [], [])
    ensures HasToken(cookie) && !WellFormed(form) ==> run == Run(BadRequest, [], [])
    ensures Count(run.calls, Update) == (if Authorized(cookie, dir) && WellFormed(form) then 1 else 0)
    ensures run.response.Status() == 303 ==> run.response == SeeOther(form.redirectTo.GetOr("/admin"))
  {
    AdminRun(cookie, ParseContacted(form, now), dir, updateOk)
  }

  /**
   * What the table holds afterwards: on the redirect the named lead has
   * `contacted` as requested and `contacted_at` set exactly then, and nothing
   * else in the table changed; on every other outcome nothing changed at all.
   */
  lemma ToggleEffect(leads: map<LeadId, Lead>, cookie: Option<string>, form: ContactedForm, now: Timestamp, dir: Directory, updateOk: bool)
    ensures var run := ContactedRun(cookie, form, now, dir, updateOk);
      var after := Replay(leads, run.calls);
      var id := Trim(FormValue(form.id));
      && after.Keys == leads.Keys
      && (forall k :: k in leads && k != id ==> after[k] == leads[k])
      && (run.response.Status() != 303 ==> after == leads)
      && (run.response.Status() == 303 && id in leads ==>
            && after[id].contacted == Requested(form)
            && PairConsistent(after[id])
            && (after[id].contacted ==> after[id].contactedAt == Some(now))
            && after[id].notes == leads[id].notes
            && SameIntakeColumns(after[id], leads[id]))
  {
    AdminEffect(leads, cookie, ParseContacted(form, now), dir, updateOk);
  }

  /** The handler itself: parse the form, then run the gate against the backend. */
  method PostContacted(b: Backend, cookie: Option<string>, form: ContactedForm, now: Timestamp, updateOk: bool)
    returns (response: Response)
    modifies b
    ensures var run := ContactedRun(cookie, form, now, b.dir, updateOk);
      && response == run.response
      && b.calls == old(b.calls) + run.calls
      && b.leads == Replay(old(b.leads), run.calls)
    ensures old(b.Valid()) ==> b.Valid()
  {
    var request := ParseContacted(form, now);
    response := AuthorizeAndMutate(b, cookie, request, updateOk);
  }
}
