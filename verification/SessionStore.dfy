/** The durable session tables and the effect of each transaction on them. */
module SessionStore {
  import opened Mail

  datatype Status = Ready | Active | Waiting | Complete | Failed

  datatype Input = Input(event: Event, incorporated: bool)

  /** A wake_sessions row together with its wake_inputs rows in acceptance order. */
  datatype Session = Session(
    rowid: nat,
    executable: string,
    state: Json,
    status: Status,
    deadline: Option<real>,
    token: Option<nat>,
    leaseUntil: Option<real>,
    revision: nat,
    lastClaim: nat,
    completedAt: Option<real>,
    attempts: nat,
    worker: Option<string>,
    lastError: Option<string>,
    inbox: seq<Input>)

  /** `nextRow` and `nextToken` supply row identities and fresh lease tokens. */
  datatype Store = Store(
    sessions: map<Id, Session>,
    definitions: map<string, Json>,
    nextRow: nat,
    nextToken: nat)

  datatype Activation = Activation(
    session: Id,
    executable: string,
    token: nat,
    state: Json,
    events: seq<Event>,
    hasMore: bool,
    attempt: nat,
    lastError: Option<string>)

  datatype Publication = Publication(session: Id, event: Event)

  datatype Spawn = Spawn(session: Id, executable: string, state: Json)

  datatype Proposal = Proposal(
    state: Json,
    incorporated: seq<EventId>,
    publish: seq<Publication>,
    deadline: Option<real>,
    complete: bool,
    spawn: seq<Spawn>,
    rebind: Option<string>)

  datatype Query = Query(
    now: real,
    leaseSeconds: real,
    executable: Option<string>,
    maxEvents: Option<int>,
    session: Option<Id>,
    worker: Option<string>,
    maxAttempts: Option<int>)

  /** Row identities are distinct and below the next one to be given out. */
  predicate RowsOk(db: Store) {
    && (forall id | id in db.sessions :: db.sessions[id].rowid < db.nextRow)
    && (forall a, b | a in db.sessions && b in db.sessions && a != b :: db.sessions[a].rowid != db.sessions[b].rowid)
  }

  // ---- Inboxes ---------------------------------------------------------------

  predicate Known(inbox: seq<Input>, id: EventId) {
    exists i :: 0 <= i < |inbox| && inbox[i].event.id == id
  }

  /** Mail not yet incorporated, in acceptance order. */
  function Pending(inbox: seq<Input>): (events: seq<Event>) {
    if inbox == [] then []
    else
      var last := inbox[|inbox| - 1];
      Pending(inbox[..|inbox| - 1]) + if last.incorporated then [] else [last.event]
  }

  /** The whole acceptance order of a session. */
  function Accepted(inbox: seq<Input>): (events: seq<Event>)
    ensures |events| == |inbox|
  {
    seq(|inbox|, i requires 0 <= i < |inbox| => inbox[i].event)
  }

  function Mark(inbox: seq<Input>, ids: seq<EventId>): (marked: seq<Input>)
    ensures |marked| == |inbox|
  {
    seq(|inbox|, i requires 0 <= i < |inbox| =>
      inbox[i].(incorporated := inbox[i].incorporated || inbox[i].event.id in ids))
  }

  function Ids(events: seq<Event>): (ids: set<EventId>) {
    set e | e in events :: e.id
  }

  // ---- Creation and mail -----------------------------------------------------

  function NewSession(rowid: nat, executable: string, state: Json): Session {
    Session(rowid, executable, state, Ready, None, None, None, 0, 0, None, 0, None, None, [])
  }

  function CreateIn(db: Store, id: Id, executable: string, state: Json): Result<Store> {
    if id == "" || executable == "" then Err(ValueError)
    else if id in db.sessions then Err(AlreadyExists)
    else Ok(db.(sessions := db.sessions[id := NewSession(db.nextRow, executable, state)],
                nextRow := db.nextRow + 1))
  }

  /** Deliver mail to a session; false reports a duplicate. */
  function AppendTo(db: Store, id: Id, event: Event, timer: bool): Result<(Store, bool)> {
    if event.id == External("") then Err(ValueError)
    else if event.id.Timer? && !timer then Err(ValueError)
    else if id !in db.sessions then Err(KeyError)
    else if Known(db.sessions[id].inbox, event.id) then Ok((db, false))
    else if db.sessions[id].status == Complete then Err(ValueError)
    else
      var s := db.sessions[id];
      Ok((db.(sessions := db.sessions[id := s.(inbox := s.inbox + [Input(event, false)])]), true))
  }

  // ---- Readiness and claims --------------------------------------------------

  predicate Terminal(s: Session) { s.status == Complete || s.status == Failed }

  predicate Due(s: Session, now: real) { s.deadline.Some? && s.deadline.value <= now }

  /** Everything a claim asks for except that no live lease or backoff is in the way. */
  predicate Runnable(s: Session, now: real) {
    !Terminal(s) && (s.status == Ready || s.status == Active || Due(s, now) || Pending(s.inbox) != [])
  }

  predicate Free(s: Session, now: real) { s.leaseUntil.None? || s.leaseUntil.value <= now }

  predicate IsReady(s: Session, now: real) { Free(s, now) && Runnable(s, now) }

  predicate Matches(db: Store, q: Query, id: Id) {
    && id in db.sessions
    && IsReady(db.sessions[id], q.now)
    && (q.executable.None? || q.executable.value == db.sessions[id].executable)
    && (q.session.None? || q.session.value == id)
  }

  predicate Before(a: Session, b: Session) {
    a.lastClaim < b.lastClaim || (a.lastClaim == b.lastClaim && a.rowid < b.rowid)
  }

  /** The row the claim query selects: least recently claimed, then oldest. */
  predicate IsFirst(db: Store, q: Query, id: Id) {
    && Matches(db, q, id)
    && (forall other | other in db.sessions ::
          Matches(db, q, other) && other != id ==> Before(db.sessions[id], db.sessions[other]))
  }

  predicate Exhausted(s: Session, q: Query) {
    q.maxAttempts.Some? && s.attempts >= q.maxAttempts.value
  }

  predicate ValidQuery(q: Query) {
    && q.leaseSeconds > 0.0
    && (q.maxEvents.Some? ==> q.maxEvents.value > 0)
    && (q.maxAttempts.Some? ==> q.maxAttempts.value > 0)
  }

  function Park(s: Session): Session {
    s.(status := Failed, token := None, leaseUntil := None, worker := None)
  }

  function TimerEvent(id: Id, s: Session): Event
    requires s.deadline.Some?
  {
    Event(Timer(id, s.revision), System, "timer", None, None, DeadlineAt(s.deadline.value))
  }

  /** A due deadline becomes mail, once per revision. */
  function WithTimer(id: Id, s: Session, now: real): Session {
    if Due(s, now) && !Known(s.inbox, Timer(id, s.revision))
    then s.(inbox := s.inbox + [Input(TimerEvent(id, s), false)])
    else s
  }

  predicate IsMaxClaim(sessions: map<Id, Session>, m: nat) {
    && (forall k | k in sessions :: sessions[k].lastClaim <= m)
    && (m == 0 || exists k | k in sessions :: sessions[k].lastClaim == m)
  }

  ghost function MaxClaim(sessions: map<Id, Session>): (m: nat)
    ensures IsMaxClaim(sessions, m)
  {
    MaxClaimExists(sessions);
    var m: nat :| IsMaxClaim(sessions, m);
    m
  }

  lemma MaxClaimExists(sessions: map<Id, Session>)
    ensures exists m: nat :: IsMaxClaim(sessions, m)
    decreases |sessions|
  {
    if sessions == map[] {
      assert IsMaxClaim(sessions, 0);
    } else {
      var id :| id in sessions;
      var rest := sessions - {id};
      MaxClaimExists(rest);
      var m: nat :| IsMaxClaim(rest, m);
      var n := if m < sessions[id].lastClaim then sessions[id].lastClaim else m;
      forall k | k in sessions ensures sessions[k].lastClaim <= n {
        assert k != id ==> k in rest;
      }
      assert m == n != 0 ==> exists k :: k in rest && rest[k].lastClaim == m;
      assert IsMaxClaim(sessions, n);
    }
  }

  function Leased(s: Session, q: Query, token: nat, claim: nat): Session {
    s.(status := Active, token := Some(token), leaseUntil := Some(q.now + q.leaseSeconds),
       worker := q.worker, attempts := s.attempts + 1, lastClaim := claim)
  }

  function HasMore(s: Session, q: Query): bool {
    q.maxEvents.Some? && |Pending(s.inbox)| > q.maxEvents.value
  }

  function Batch(s: Session, q: Query): (events: seq<Event>)
    requires ValidQuery(q)
    ensures events <= Pending(s.inbox)
  {
    if HasMore(s, q) then Pending(s.inbox)[..q.maxEvents.value] else Pending(s.inbox)
  }

  function Activate(id: Id, s: Session, q: Query, token: nat): Activation
    requires ValidQuery(q)
  {
    Activation(id, s.executable, token, s.state, Batch(s, q), HasMore(s, q), s.attempts + 1, s.lastError)
  }

  function ReadyIds(db: Store, q: Query): set<Id> {
    set id | id in db.sessions && Matches(db, q, id)
  }

  function ParkFirst(db: Store, id: Id): Store
    requires id in db.sessions
  {
    db.(sessions := db.sessions[id := Park(db.sessions[id])])
  }

  ghost function LeaseFirst(db: Store, q: Query, id: Id): (Store, Activation)
    requires ValidQuery(q) && id in db.sessions
  {
    var t := WithTimer(id, db.sessions[id], q.now);
    (db.(sessions := db.sessions[id := Leased(t, q, db.nextToken, MaxClaim(db.sessions) + 1)],
         nextToken := db.nextToken + 1),
     Activate(id, t, q, db.nextToken))
  }

  lemma ParkingShrinks(db: Store, q: Query, id: Id)
    requires Matches(db, q, id)
    ensures ReadyIds(ParkFirst(db, id), q) < ReadyIds(db, q)
  {
    assert id in ReadyIds(db, q) && id !in ReadyIds(ParkFirst(db, id), q);
    assert ReadyIds(ParkFirst(db, id), q) <= ReadyIds(db, q);
  }

  /** One claim: park exhausted sessions in claim order, then lease the first that is left. */
  ghost function ClaimFrom(db: Store, q: Query): (Store, Option<Activation>)
    requires ValidQuery(q)
    decreases ReadyIds(db, q)
  {
    if !exists id :: IsFirst(db, q, id) then (db, None)
    else
      var id :| IsFirst(db, q, id);
      if Exhausted(db.sessions[id], q) then
        ParkingShrinks(db, q, id);
        ClaimFrom(ParkFirst(db, id), q)
      else
        var (next, act) := LeaseFirst(db, q, id);
        (next, Some(act))
  }

  lemma FirstIsUnique(db: Store, q: Query, a: Id, b: Id)
    requires IsFirst(db, q, a) && IsFirst(db, q, b)
    ensures a == b
  {
  }

  lemma NothingToClaim(db: Store, q: Query)
    requires ValidQuery(q) && forall k :: !IsFirst(db, q, k)
    ensures ClaimFrom(db, q) == (db, None)
  {
  }

  lemma ClaimUnfolds(db: Store, q: Query, id: Id)
    requires ValidQuery(q) && IsFirst(db, q, id)
    ensures ReadyIds(ParkFirst(db, id), q) < ReadyIds(db, q)
    ensures Exhausted(db.sessions[id], q) ==> ClaimFrom(db, q) == ClaimFrom(ParkFirst(db, id), q)
    ensures !Exhausted(db.sessions[id], q) ==>
      ClaimFrom(db, q) == (LeaseFirst(db, q, id).0, Some(LeaseFirst(db, q, id).1))
  {
    ParkingShrinks(db, q, id);
    forall k | IsFirst(db, q, k) ensures k == id {
      FirstIsUnique(db, q, k, id);
    }
  }

  // ---- Leases ----------------------------------------------------------------

  predicate Holds(db: Store, act: Activation, now: real) {
    && act.session in db.sessions
    && db.sessions[act.session].token == Some(act.token)
    && db.sessions[act.session].leaseUntil.Some?
    && db.sessions[act.session].leaseUntil.value > now
  }

  function ParkedStatus(s: Session): Status { if s.revision > 0 then Waiting else Ready }

  function Released(s: Session, now: real, error: Option<string>, retryAfter: Option<real>): Session {
    s.(status := ParkedStatus(s), token := None, worker := None, lastError := error,
       leaseUntil := if retryAfter.None? || retryAfter.value == 0.0 then None else Some(now + retryAfter.value))
  }

  function ReleaseFrom(db: Store, act: Activation, now: real, error: Option<string>, retryAfter: Option<real>)
    : Result<Store>
  {
    if retryAfter.Some? && retryAfter.value < 0.0 then Err(ValueError)
    else if !Holds(db, act, now) then Err(StaleActivation)
    else Ok(db.(sessions := db.sessions[act.session := Released(db.sessions[act.session], now, error, retryAfter)]))
  }

  function Retried(s: Session): Session {
    s.(status := ParkedStatus(s), attempts := 0, lastError := None)
  }

  function RetryIn(db: Store, id: Id): Result<(Store, bool)> {
    if id !in db.sessions then Err(KeyError)
    else if db.sessions[id].status != Failed then Ok((db, false))
    else Ok((db.(sessions := db.sessions[id := Retried(db.sessions[id])]), true))
  }

  // ---- Checkpoints -----------------------------------------------------------

  function Children(spawn: seq<Spawn>): (ids: seq<Id>)
    ensures |ids| == |spawn|
  {
    seq(|spawn|, i requires 0 <= i < |spawn| => spawn[i].session)
  }

  predicate Distinct<T(==)>(s: seq<T>) {
    forall i, j | 0 <= i < j < |s| :: s[i] != s[j]
  }

  /** The argument errors a checkpoint reports before it opens its transaction. */
  predicate Malformed(act: Activation, p: Proposal) {
    || (p.deadline.Some? && p.complete)
    || (p.rebind.Some? && (p.rebind.value == "" || p.complete))
    || p.rebind == Some(act.executable)
    || (exists id | id in p.incorporated :: id !in Ids(act.events))
    || !Distinct(Children(p.spawn))
    || act.session in Children(p.spawn)
  }

  function SpawnAll(db: Store, spawn: seq<Spawn>): (r: Result<Store>)
    ensures r.Ok? ==> db.sessions.Keys <= r.value.sessions.Keys
    decreases |spawn|
  {
    if spawn == [] then Ok(db)
    else if spawn[0].executable !in db.definitions then Err(ValueError)
    else match CreateIn(db, spawn[0].session, spawn[0].executable, spawn[0].state)
      case Err(e) => Err(e)
      case Ok(next) => SpawnAll(next, spawn[1..])
  }

  function PublishAll(db: Store, publish: seq<Publication>): (r: Result<Store>)
    ensures r.Ok? ==> db.sessions.Keys == r.value.sessions.Keys
    decreases |publish|
  {
    if publish == [] then Ok(db)
    else match AppendTo(db, publish[0].session, publish[0].event, false)
      case Err(e) => Err(e)
      case Ok(next) => PublishAll(next.0, publish[1..])
  }

  function Incorporate(db: Store, id: Id, ids: seq<EventId>): Store
    requires id in db.sessions
  {
    var s := db.sessions[id];
    db.(sessions := db.sessions[id := s.(inbox := Mark(s.inbox, ids))])
  }

  function Checkpointed(s: Session, p: Proposal, now: real): Session {
    s.(state := p.state, status := if p.complete then Complete else Waiting, deadline := p.deadline,
       completedAt := if p.complete then Some(now) else None,
       executable := if p.rebind.Some? then p.rebind.value else s.executable,
       token := None, leaseUntil := None, worker := None, attempts := 0, lastError := None,
       revision := s.revision + 1)
  }

  function CommitTo(db: Store, act: Activation, p: Proposal, now: real): Result<Store> {
    if Malformed(act, p) then Err(ValueError)
    else if !Holds(db, act, now) then Err(StaleActivation)
    else if p.rebind.Some? && p.rebind.value !in db.definitions then Err(ValueError)
    else match SpawnAll(db, p.spawn)
      case Err(e) => Err(e)
      case Ok(spawned) =>
        match PublishAll(Incorporate(spawned, act.session, p.incorporated), p.publish)
        case Err(e) => Err(e)
        case Ok(sent) =>
          var s := sent.sessions[act.session];
          if p.complete && Pending(s.inbox) != [] then Err(ValueError)
          else Ok(sent.(sessions := sent.sessions[act.session := Checkpointed(s, p, now)]))
  }

  // ---- Definitions and retention ---------------------------------------------

  function BindIn(db: Store, executable: string, contract: Json): Result<Store> {
    if executable in db.definitions && db.definitions[executable] != contract then Err(ValueError)
    else Ok(db.(definitions := db.definitions[executable := contract]))
  }

  predicate Purgeable(s: Session, before: real) {
    s.status == Complete && s.completedAt.Some? && s.completedAt.value < before
  }

  function PurgeFrom(db: Store, ids: set<Id>): Store {
    db.(sessions := db.sessions - ids)
  }
}
