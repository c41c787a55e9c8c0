/**
 * The Supabase backend as the handlers see it: the `leads` table, the identity
 * service, the `profiles` table, and a log of every round trip a request makes.
 * Each logged call carries the answer the backend gave, so the table's new
 * contents are a function of the old contents and the log (`Replay`).
 */
module Store {
  import opened Wrappers

  type LeadId = string
  type UserId = string
  /** An ISO-8601 timestamp, as produced by `new Date().toISOString()`; opaque here. */
  type Timestamp = string

  /** The most characters the notes column is given (src/pages/api/leads/notes.ts:14). */
  const NotesLimit: nat := 2000

  /** The row that the intake handler inserts (src/pages/api/lead.ts:27). */
  datatype NewLead = NewLead(
    name: string, email: string, message: string, source: string,
    ip: Option<string>, userAgent: Option<string>)

  /** A stored lead: the inserted columns plus the columns the admin workflow edits. */
  datatype Lead = Lead(
    name: string, email: string, message: string, source: string,
    ip: Option<string>, userAgent: Option<string>,
    contacted: bool, contactedAt: Option<Timestamp>, notes: string)

  /** The stored form of an inserted row: the table's column defaults fill the rest. */
  function Created(row: NewLead): (l: Lead)
    ensures SameIntake(l, row)
    ensures !l.contacted && l.contactedAt == None && l.notes == ""
  {
    Lead(row.name, row.email, row.message, row.source, row.ip, row.userAgent, false, None, "")
  }

  /** The columns written at intake are those of `row`. */
  predicate SameIntake(l: Lead, row: NewLead) {
    && l.name == row.name && l.email == row.email && l.message == row.message
    && l.source == row.source && l.ip == row.ip && l.userAgent == row.userAgent
  }

  /** The intake columns of two leads agree. */
  predicate SameIntakeColumns(l: Lead, m: Lead) {
    SameIntake(l, NewLead(m.name, m.email, m.message, m.source, m.ip, m.userAgent))
  }

  /** The columns of one `update(...)` call. */
  datatype Patch =
    | ContactedPatch(contacted: bool, contactedAt: Option<Timestamp>)
    | NotesPatch(notes: string)

  /** A row after `patch` is written to it: the patched columns take their new values, all others keep theirs. */
  function ApplyPatch(l: Lead, patch: Patch): (r: Lead)
    ensures SameIntakeColumns(r, l)
    ensures patch.ContactedPatch? ==>
      r.contacted == patch.contacted && r.contactedAt == patch.contactedAt && r.notes == l.notes
    ensures patch.NotesPatch? ==>
      r.notes == patch.notes && r.contacted == l.contacted && r.contactedAt == l.contactedAt
  {
    match patch
    case ContactedPatch(c, at) => l.(contacted := c, contactedAt := at)
    case NotesPatch(n) => l.(notes := n)
  }

  /** `update(patch).eq("id", id)`: the row with that id is patched; no row matching is not an error. */
  function UpdateRows(leads: map<LeadId, Lead>, id: LeadId, patch: Patch): (r: map<LeadId, Lead>)
    ensures r.Keys == leads.Keys
    ensures id in leads ==> r[id] == ApplyPatch(leads[id], patch)
    ensures forall k :: k in leads && k != id ==> r[k] == leads[k]
  {
    if id in leads then leads[id := ApplyPatch(leads[id], patch)] else leads
  }

  /** `contacted_at` is set exactly when `contacted` is. */
  predicate PairConsistent(l: Lead) {
    l.contactedAt.Some? <==> l.contacted
  }

  /** The intake rules: trimmed name of two or more characters, an '@' in the e-mail, a message of ten or more. */
  predicate AcceptableFields(name: string, email: string, message: string) {
    |name| >= 2 && '@' in email && |message| >= 10
  }

  /** What every lead written through the handlers satisfies. */
  predicate LeadValid(l: Lead) {
    && AcceptableFields(l.name, l.email, l.message)
    && PairConsistent(l)
    && |l.notes| <= NotesLimit
  }

  predicate TableValid(leads: map<LeadId, Lead>) {
    forall id :: id in leads ==> LeadValid(leads[id])
  }

  /** A patch that keeps a valid lead valid. */
  predicate PatchValid(patch: Patch) {
    match patch
    case ContactedPatch(c, at) => at.Some? <==> c
    case NotesPatch(n) => |n| <= NotesLimit
  }

  datatype Profile = Profile(isAdmin: Option<bool>)

  /** JavaScript's `prof?.is_admin` is truthy: a row was found and its flag is `true`. */
  predicate IsAdmin(profile: Option<Profile>) {
    profile.Some? && profile.value.isAdmin == Some(true)
  }

  /** Only a profile row whose flag is `true` passes: a missing row, a null flag and `false` do not. */
  lemma AdminFlagTruthiness(profile: Option<Profile>)
    ensures IsAdmin(profile) <==> profile == Some(Profile(Some(true)))
    ensures !IsAdmin(None) && !IsAdmin(Some(Profile(None))) && !IsAdmin(Some(Profile(Some(false))))
  {
  }

  /**
   * What the identity side answers: which bearer tokens resolve to a user, and
   * which profile row a user-scoped select on `profiles` returns for a user.
   */
  datatype Directory = Directory(sessions: map<string, UserId>, profiles: map<UserId, Profile>) {

    /** `auth.getUser()` with the token as bearer. */
    function UserOf(token: string): Option<UserId> {
      if token in sessions then Some(sessions[token]) else None
    }

    /** `from("profiles").select("is_admin").eq("id", user).maybeSingle()`. */
    function ProfileOf(user: UserId): Option<Profile> {
      if user in profiles then Some(profiles[user]) else None
    }
  }

  datatype Session = Session(accessToken: string)

  /** The `{ data, error }` that `signInWithPassword` resolves to. */
  datatype SignInAnswer = SignInAnswer(failed: bool, session: Option<Session>)

  /** The credential a client is built with: the anon key with a user's bearer token, the anon key alone, or the service-role key. */
  datatype Scope = UserScoped(token: string) | AnonKey | ServiceRole

  /** One round trip to the backend, with the answer it got. */
  datatype Call =
    | GetUser(scope: Scope, user: Option<UserId>)
    | SelectProfile(scope: Scope, subject: UserId, profile: Option<Profile>)
    | UpdateLead(scope: Scope, id: LeadId, patch: Patch, ok: bool)
    | InsertLead(scope: Scope, row: NewLead, newId: Option<LeadId>)
    | SignIn(scope: Scope, email: string, password: string, outcome: SignInAnswer)

  datatype Kind = Identity | ProfileLookup | Update | Insert | Authenticate

  function KindOf(c: Call): Kind {
    match c
    case GetUser(_, _) => Identity
    case SelectProfile(_, _, _) => ProfileLookup
    case UpdateLead(_, _, _, _) => Update
    case InsertLead(_, _, _) => Insert
    case SignIn(_, _, _, _) => Authenticate
  }

  /** How many calls of kind `k` a log holds: the model's call counters. */
  function Count(calls: seq<Call>, k: Kind): (n: nat)
    ensures n <= |calls|
  {
    if calls == [] then 0
    else (if KindOf(calls[0]) == k then 1 else 0) + Count(calls[1..], k)
  }

  /** A counter is zero exactly when the log holds no call of that kind. */
  lemma {:induction false} CountZeroIff(calls: seq<Call>, k: Kind)
    ensures Count(calls, k) == 0 <==> forall i :: 0 <= i < |calls| ==> KindOf(calls[i]) != k
    decreases |calls|
  {
    if calls != [] {
      CountZeroIff(calls[1..], k);
      assert forall i :: 1 <= i < |calls| ==> calls[i] == calls[1..][i - 1];
    }
  }

  /** One call's contribution to the counter of kind `k`. */
  function Tally(c: Call, k: Kind): nat {
    if KindOf(c) == k then 1 else 0
  }

  /** The counters of logs of one, two and three calls. */
  lemma CountOne(c: Call)
    ensures forall k :: Count([c], k) == Tally(c, k)
  {
    assert [c][1..] == [];
  }

  lemma CountTwo(c: Call, d: Call)
    ensures forall k :: Count([c, d], k) == Tally(c, k) + Tally(d, k)
  {
    assert [c, d][1..] == [d];
    CountOne(d);
  }

  lemma CountThree(c: Call, d: Call, e: Call)
    ensures forall k :: Count([c, d, e], k) == Tally(c, k) + Tally(d, k) + Tally(e, k)
  {
    assert [c, d, e][1..] == [d, e];
    CountTwo(d, e);
  }

  lemma {:induction false} CountAppend(a: seq<Call>, b: seq<Call>, k: Kind)
    ensures Count(a + b, k) == Count(a, k) + Count(b, k)
    decreases |a|
  {
    if a == [] {
      assert a + b == b;
    } else {
      assert (a + b)[0] == a[0] && (a + b)[1..] == a[1..] + b;
      CountAppend(a[1..], b, k);
    }
  }

  /** The change one call makes to the leads table: only a successful write changes it. */
  function Effect(leads: map<LeadId, Lead>, c: Call): (r: map<LeadId, Lead>)
    ensures leads.Keys <= r.Keys
    ensures KindOf(c) != Update && KindOf(c) != Insert ==> r == leads
    ensures c.UpdateLead? ==> r.Keys == leads.Keys
  {
    match c
    case UpdateLead(_, id, patch, true) => UpdateRows(leads, id, patch)
    case InsertLead(_, row, Some(id)) => leads[id := Created(row)]
    case _ => leads
  }

  /** The leads table after the calls of a log, in order. */
  function Replay(leads: map<LeadId, Lead>, calls: seq<Call>): (r: map<LeadId, Lead>)
    ensures leads.Keys <= r.Keys
    decreases |calls|
  {
    if calls == [] then leads else Replay(Effect(leads, calls[0]), calls[1..])
  }

  /** A one-call log has that call's effect. */
  lemma ReplayOne(leads: map<LeadId, Lead>, c: Call)
    ensures Replay(leads, [c]) == Effect(leads, c)
  {
    assert [c][1..] == [];
  }

  lemma {:induction false} ReplayAppend(leads: map<LeadId, Lead>, a: seq<Call>, b: seq<Call>)
    ensures Replay(leads, a + b) == Replay(Replay(leads, a), b)
    decreases |a|
  {
    if a == [] {
      assert a + b == b;
    } else {
      assert (a + b)[0] == a[0] && (a + b)[1..] == a[1..] + b;
      ReplayAppend(Effect(leads, a[0]), a[1..], b);
    }
  }

  /** A log with no successful write leaves the table as it was. */
  lemma {:induction false} ReplayReadOnly(leads: map<LeadId, Lead>, calls: seq<Call>)
    requires Count(calls, Update) == 0 && Count(calls, Insert) == 0
    ensures Replay(leads, calls) == leads
    decreases |calls|
  {
    if calls != [] {
      assert KindOf(calls[0]) != Update && KindOf(calls[0]) != Insert;
      ReplayReadOnly(leads, calls[1..]);
    }
  }

  /** A call that every handler makes only in this shape. */
  predicate CallValid(c: Call) {
    match c
    case UpdateLead(_, _, patch, _) => PatchValid(patch)
    case InsertLead(_, row, _) => AcceptableFields(row.name, row.email, row.message)
    case _ => true
  }

  /** Writes of valid rows and valid patches keep every lead valid. */
  lemma {:induction false} ReplayKeepsValid(leads: map<LeadId, Lead>, calls: seq<Call>)
    requires TableValid(leads)
    requires forall i :: 0 <= i < |calls| ==> CallValid(calls[i])
    ensures TableValid(Replay(leads, calls))
    decreases |calls|
  {
    if calls != [] {
      var next := Effect(leads, calls[0]);
      assert CallValid(calls[0]);
      forall id | id in next ensures LeadValid(next[id]) {
        match calls[0]
        case UpdateLead(_, target, patch, true) =>
          if id == target { assert LeadValid(ApplyPatch(leads[id], patch)); }
        case _ =>
      }
      ReplayKeepsValid(next, calls[1..]);
    }
  }

  /**
   * The backend one request talks to. `dir` is fixed; `leads` is the table the
   * handlers write; `calls` logs every round trip in order. `Valid()` is the
   * table invariant: the single backend calls do not maintain it on their own
   * (they write whatever they are given), the handler methods preserve it.
   */
  class Backend {
    const dir: Directory
    var leads: map<LeadId, Lead>
    var calls: seq<Call>

    constructor (dir: Directory, leads: map<LeadId, Lead>)
      ensures this.dir == dir && this.leads == leads && calls == []
    {
      this.dir := dir;
      this.leads := leads;
      calls := [];
    }

    /** The number of round trips of kind `k` made so far. */
    function Counter(k: Kind): nat
      reads this
    {
      Count(calls, k)
    }

    predicate Valid()
      reads this
    {
      TableValid(leads)
    }

    /** `auth.getUser()` on a client carrying `token` as bearer. */
    method GetUser(token: string) returns (user: Option<UserId>)
      modifies this`calls
      ensures user == dir.UserOf(token)
      ensures calls == old(calls) + [Call.GetUser(UserScoped(token), user)]
    {
      user := dir.UserOf(token);
      calls := calls + [Call.GetUser(UserScoped(token), user)];
    }

    /** The profile row of `subject`, read with a client built from `scope`. */
    method SelectProfile(scope: Scope, subject: UserId) returns (profile: Option<Profile>)
      modifies this`calls
      ensures profile == dir.ProfileOf(subject)
      ensures calls == old(calls) + [Call.SelectProfile(scope, subject, profile)]
    {
      profile := dir.ProfileOf(subject);
      calls := calls + [Call.SelectProfile(scope, subject, profile)];
    }

    /** One atomic `update(patch).eq("id", id)`; `ok` is whether the backend reports no error. */
    method Update(scope: Scope, id: LeadId, patch: Patch, ok: bool) returns (done: bool)
      modifies this
      ensures done == ok
      ensures calls == old(calls) + [UpdateLead(scope, id, patch, ok)]
      ensures leads == if ok then UpdateRows(old(leads), id, patch) else old(leads)
    {
      done := ok;
      calls := calls + [UpdateLead(scope, id, patch, ok)];
      if ok {
        leads := UpdateRows(leads, id, patch);
      }
    }

    /** One `insert([row])`; `newId` is the fresh id the backend gives the row, `None` when it reports an error. */
    method Insert(scope: Scope, row: NewLead, newId: Option<LeadId>) returns (done: bool)
      requires newId.Some? ==> newId.value !in leads
      modifies this
      ensures done == newId.Some?
      ensures calls == old(calls) + [InsertLead(scope, row, newId)]
      ensures leads == if done then old(leads)[newId.value := Created(row)] else old(leads)
    {
      done := newId.Some?;
      calls := calls + [InsertLead(scope, row, newId)];
      if done {
        leads := leads[newId.value := Created(row)];
      }
    }

    /** `auth.signInWithPassword({ email, password })`; `outcome` is what the identity service answers. */
    method SignIn(email: string, password: string, outcome: SignInAnswer) returns (answer: SignInAnswer)
      modifies this`calls
      ensures answer == outcome
      ensures calls == old(calls) + [Call.SignIn(AnonKey, email, password, outcome)]
    {
      answer := outcome;
      calls := calls + [Call.SignIn(AnonKey, email, password, outcome)];
    }
  }
}
