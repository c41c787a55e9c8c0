/**
 * Set-notes (src/pages/api/leads/notes.ts): the form names a lead and a text;
 * the gate writes the trimmed text, cut to the column's limit.
 */
module Notes {
  import opened Wrappers
  import opened Text
  import opened Store
  import opened Http
  import opened AdminGate

  /** The form fields the handler reads. */
  datatype NotesForm = NotesForm(id: Option<string>, notes: Option<string>, redirectTo: Option<string>)

  /** `String(form.get("notes") ?? "").trim().slice(0, 2000)`. */
  function NotesText(raw: Option<string>): (text: string)
    ensures |text| <= NotesLimit
    ensures text <= Trim(FormValue(raw))
    ensures |Trim(FormValue(raw))| <= NotesLimit ==> text == Trim(FormValue(raw))
    ensures |Trim(FormValue(raw))| > NotesLimit ==> |text| == NotesLimit
  {
    Take(Trim(FormValue(raw)), NotesLimit)
  }

  /** The request the gate runs: only the id decides whether the form is accepted. */
  function ParseNotes(form: NotesForm): (request: Option<AdminRequest>)
    ensures request.Some? <==> Trim(FormValue(form.id)) != ""
    ensures request.Some? ==> request.value.id == Trim(FormValue(form.id))
    ensures request.Some? ==> request.value.redirectTo == form.redirectTo.GetOr(DefaultRedirect)
    ensures request.Some? ==> request.value.patch == NotesPatch(NotesText(form.notes)) && PatchValid(request.value.patch)
  {
    var id := Trim(FormValue(form.id));
    var notes := NotesText(form.notes);
    var redirectTo := form.redirectTo.GetOr(DefaultRedirect);
    if id == "" then None else Some(AdminRequest(id, NotesPatch(notes), redirectTo))
  }

  /** Blank or missing notes are accepted and clear the column. */
  lemma BlankNotesClear(form: NotesForm)
    requires Trim(FormValue(form.id)) != ""
    requires Blank(FormValue(form.notes))
    ensures ParseNotes(form).Some? && ParseNotes(form).value.patch == NotesPatch("")
  {
    TrimEmptyIffBlank(FormValue(form.notes));
  }

  /** One POST to the set-notes endpoint. */
  function NotesRun(cookie: Option<string>, form: NotesForm, dir: Directory, updateOk: bool): (run: Run)
    ensures !HasToken(cookie) ==> run == Run(Unauthorized, [], [])
    ensures HasToken(cookie) && Trim(FormValue(form.id)) == "" ==> run == Run(BadRequest, [], [])
    ensures Count(run.calls, Update) == (if Authorized(cookie, dir) && Trim(FormValue(form.id)) != "" then 1 else 0)
    ensures run.response.Status() == 303 ==> run.response == SeeOther(form.redirectTo.GetOr("/admin"))
  {
    AdminRun(cookie, ParseNotes(form), dir, updateOk)
  }

  /**
   * What the table holds afterwards: on the redirect the named lead's notes are
   * the prepared text and nothing else in the table changed; on every other
   * outcome nothing changed at all.
   */
  lemma NotesEffect(leads: map<LeadId, Lead>, cookie: Option<string>, form: NotesForm, dir: Directory, updateOk: bool)
    ensures var run := NotesRun(cookie, form, dir, updateOk);
      var after := Replay(leads, run.calls);
      var id := Trim(FormValue(form.id));
      && after.Keys == leads.Keys
      && (forall k :: k in leads && k != id ==> after[k] == leads[k])
      && (run.response.Status() != 303 ==> after == leads)
      && (run.response.Status() == 303 && id in leads ==>
            && after[id].notes == NotesText(form.notes)
            && after[id].contacted == leads[id].contacted
            && after[id].contactedAt == leads[id].contactedAt
            && SameIntakeColumns(after[id], leads[id]))
  {
    AdminEffect(leads, cookie, ParseNotes(form), dir, updateOk);
  }

  /** The handler itself: parse the form, then run the gate against the backend. */
  method PostNotes(b: Backend, cookie: Option<string>, form: NotesForm, updateOk: bool)
    returns (response: Response)
    modifies b
    ensures var run := NotesRun(cookie, form, b.dir, updateOk);
      && response == run.response
      && b.calls == old(b.calls) + run.calls
      && b.leads == Replay(old(b.leads), run.calls)
    ensures old(b.Valid()) ==> b.Valid()
  {
    var request := ParseNotes(form);
    response := AuthorizeAndMutate(b, cookie, request, updateOk);
  }
}
