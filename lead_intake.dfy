/**
 * The public contact-form handler (src/pages/api/lead.ts): a honeypot field,
 * three validation rules on trimmed fields, one insert through the
 * service-role client, and the mapping of the outcome to a status.
 */
module LeadIntake {
  import opened Wrappers
  import opened Text
  import opened Store
  import opened Http

  /** The intake channel tag written into every row. */
  const Source := "landing"
  /** Where a successful submission is redirected. */
  const ThankYouPage := "/gracias"

  /** The form fields the handler reads; `None` is a field the form does not carry. */
  datatype LeadForm = LeadForm(
    company: Option<string>, name: Option<string>, email: Option<string>, message: Option<string>)

  /** The request headers the handler reads; `None` is an absent header. */
  datatype LeadHeaders = LeadHeaders(userAgent: Option<string>, forwardedFor: Option<string>)

  /** The honeypot `company` field holds something other than white space. */
  predicate IsBot(form: LeadForm) {
    Trim(FormValue(form.company)) != []
  }

  /** The three validation rules hold of the trimmed fields. */
  predicate FieldsAcceptable(form: LeadForm) {
    AcceptableFields(Trim(FormValue(form.name)), Trim(FormValue(form.email)), Trim(FormValue(form.message)))
  }

  /** A submission that reaches the store. */
  predicate Admissible(form: LeadForm) {
    !IsBot(form) && FieldsAcceptable(form)
  }

  /** `x-forwarded-for` split at its first comma, that part trimmed; nothing when the header is absent. */
  function ClientIp(headers: LeadHeaders): (ip: Option<string>)
    ensures ip.None? <==> headers.forwardedFor.None?
    ensures ip.Some? ==> ',' !in ip.value && Trimmed(ip.value)
  {
    match headers.forwardedFor
    case None => None
    case Some(h) =>
      TrimKeeps(BeforeComma(h), ',');
      Some(Trim(BeforeComma(h)))
  }

  /** The row inserted for an admissible submission. */
  function Row(form: LeadForm, headers: LeadHeaders): (row: NewLead)
    ensures Trimmed(row.name) && Trimmed(row.email) && Trimmed(row.message)
    ensures row.source == Source && row.userAgent == headers.userAgent && row.ip == ClientIp(headers)
  {
    NewLead(Trim(FormValue(form.name)), Trim(FormValue(form.email)), Trim(FormValue(form.message)),
            Source, ClientIp(headers), headers.userAgent)
  }

  /**
   * One POST to the intake endpoint. `newId` is the store's answer to the
   * insert: the id given to the new row, or `None` when it reports an error.
   */
  function Intake(form: LeadForm, headers: LeadHeaders, newId: Option<LeadId>): (run: Run)
    ensures run.cookies == []
    ensures IsBot(form) ==> run.response == NoContent && run.calls == []
    ensures !IsBot(form) && !FieldsAcceptable(form) ==>
      run.response == Text(400, "Invalid input") && run.calls == []
    ensures Admissible(form) ==> run.calls == [InsertLead(ServiceRole, Row(form, headers), newId)]
    ensures Count(run.calls, Insert) == (if Admissible(form) then 1 else 0)
    ensures run.response.Status() == 204 <==> IsBot(form)
    ensures run.response.Status() == 400 <==> !IsBot(form) && !FieldsAcceptable(form)
    ensures run.response.Status() == 303 <==> Admissible(form) && newId.Some?
    ensures run.response.Status() == 303 ==> run.response == SeeOther(ThankYouPage)
    ensures run.response.Status() == 500 <==> Admissible(form) && newId.None?
    ensures forall i :: 0 <= i < |run.calls| ==> CallValid(run.calls[i])
  {
    if Trim(FormValue(form.company)) != [] then
      Run(NoContent, [], [])
    else
      var row := Row(form, headers);
      if !AcceptableFields(row.name, row.email, row.message) then
        Run(Text(400, "Invalid input"), [], [])
      else
        var calls := [InsertLead(ServiceRole, row, newId)];
        CountOne(calls[0]);
        if newId.None? then Run(Text(500, "Database error"), calls, [])
        else Run(SeeOther(ThankYouPage), calls, [])
  }

  /** The honeypot fires exactly when `company` holds a character other than white space. */
  lemma BotIffNotBlank(form: LeadForm)
    ensures IsBot(form) <==> !Blank(FormValue(form.company))
  {
    TrimEmptyIffBlank(FormValue(form.company));
  }

  /** The inserted row carries the trimmed fields, the channel tag, the client address and the user agent. */
  lemma InsertedRow(form: LeadForm, headers: LeadHeaders)
    ensures var row := Row(form, headers);
      && row.name == Trim(FormValue(form.name))
      && row.email == Trim(FormValue(form.email))
      && row.message == Trim(FormValue(form.message))
      && row.source == "landing"
      && row.userAgent == headers.userAgent
      && row.ip == ClientIp(headers)
  {
  }

  /** The address is the trimmed text before the header's first comma. */
  lemma {:induction false} ClientIpIsFirstHop(headers: LeadHeaders, pad: string, hop: string, pad': string, rest: string)
    requires Blank(pad) && Blank(pad') && Trimmed(hop)
    requires ',' !in pad && ',' !in hop && ',' !in pad'
    requires rest == [] || rest[0] == ','
    requires headers.forwardedFor == Some(pad + hop + pad' + rest)
    ensures ClientIp(headers) == Some(hop)
  {
    var h := headers.forwardedFor.value;
    var first := pad + hop + pad';
    assert h == first + rest;
    assert ',' !in first by {
      forall i | 0 <= i < |first| ensures first[i] != ',' {
        if i < |pad| { assert first[i] == pad[i]; }
        else if i < |pad| + |hop| { assert first[i] == hop[i - |pad|]; }
        else { assert first[i] == pad'[i - |pad| - |hop|]; }
      }
    }
    assert first <= h;
    BeforeCommaUnique(h, first);
    TrimOfPadded(pad, hop, pad');
  }

  /** What the leads table holds after the request. */
  lemma IntakeEffect(leads: map<LeadId, Lead>, form: LeadForm, headers: LeadHeaders, newId: Option<LeadId>)
    ensures var run := Intake(form, headers, newId);
      Replay(leads, run.calls) ==
        if run.response.Status() == 303 then leads[newId.value := Created(Row(form, headers))] else leads
  {
    var run := Intake(form, headers, newId);
    if Admissible(form) {
      assert run.calls[1..] == [];
    }
  }

  /** The handler itself, step by step against the backend. */
  method PostLead(b: Backend, form: LeadForm, headers: LeadHeaders, newId: Option<LeadId>) returns (response: Response)
    requires newId.Some? ==> newId.value !in b.leads
    modifies b
    ensures var run := Intake(form, headers, newId);
      && response == run.response
      && b.calls == old(b.calls) + run.calls
      && b.leads == Replay(old(b.leads), run.calls)
    ensures b.Counter(Insert) == old(b.Counter(Insert)) + (if Admissible(form) then 1 else 0)
    ensures b.Counter(Update) == old(b.Counter(Update))
    ensures old(b.Valid()) ==> b.Valid()
  {
    ghost var run := Intake(form, headers, newId);
    ghost var before := b.leads;
    IntakeEffect(before, form, headers, newId);
    CountAppend(b.calls, run.calls, Insert);
    CountAppend(b.calls, run.calls, Update);
    if TableValid(before) {
      ReplayKeepsValid(before, run.calls);
    }

    var company := FormValue(form.company);
    if Trim(company) != [] {
      response := NoContent;
      return;
    }
    var name := Trim(FormValue(form.name));
    var email := Trim(FormValue(form.email));
    var message := Trim(FormValue(form.message));
    if |name| < 2 || '@' !in email || |message| < 10 {
      response := Text(400, "Invalid input");
      return;
    }
    var ua := headers.userAgent;
    var ip := match headers.forwardedFor
      case None => None
      case Some(h) => Some(Trim(BeforeComma(h)));
    var ok := b.Insert(ServiceRole, NewLead(name, email, message, Source, ip, ua), newId);
    if !ok {
      response := Text(500, "Database error");
      return;
    }
    response := SeeOther(ThankYouPage);
  }
}
