/**
 The core capability runtime: one call drives the Cell store, the operation journal and the evidence log in turn, and
 the process may die between any two of their transactions. Calls run one at a time; other code works on the Cell
 store in between.
 */
module CoreCapabilities {
  import opened Prelude
  import C = Cells
  import J = OperationJournal
  import Runs

  datatype Resource = CellRow | AirflowRunRow | Sandbox | Publication | ModelCall | Cleanup | Admission | EvidenceLog | Generation

  datatype Record = Record(
    cell: C.CellId, epoch: nat, kind: string, policy: string, key: Option<C.OpKey>, payload: string)

  datatype World = World(db: C.Db, journal: J.Journal, evidence: seq<Record>)

  datatype Policy = Policy(repo: string, target: string, digest: string)

  /** `permitted` is the verdict of the security and authority tables on the request's actor, role, tenant and scope. */
  datatype Request = Request(
    cell: C.CellId, epoch: nat, run: C.AirflowRun, resource: Resource, capability: string, kind: string,
    parts: seq<string>, externalKey: Option<string>, expectedPolicy: string, permitted: bool, attempt: J.Attempt)

  datatype CoreError =
    | CellStore(cause: C.CellError) | Journal(error: J.JournalError)
    | PolicyMismatch | DifferentPolicy | PolicyKeyReused | NotActive | DifferentRun | NotOwner
    | NoPolicy | StalePolicy | NotPermitted | DifferentEffect | DifferentEvidence | Died

  const TERMINAL_EFFECTS: set<Resource> := {Cleanup, EvidenceLog}

  function KeyOf(r: Request): C.OpKey {
    if r.externalKey.Some? then C.Named(r.externalKey.value) else C.Derived(r.kind, r.cell, r.epoch, r.parts)
  }

  function PolicyKey(id: C.CellId, epoch: nat, digest: string): C.OpKey {
    C.Derived("policy_activation", id, epoch, [digest])
  }

  function RunText(run: C.AirflowRun): seq<string> { [run.dagId, run.runId] }

  function BindKey(id: C.CellId, epoch: nat, run: C.AirflowRun): C.OpKey {
    C.Derived("airflow_bind", id, epoch, RunText(run) + if run.mapIndex.Some? then [Digits(run.mapIndex.value)] else ["-1"])
  }

  function Digits(n: nat): string {
    if n < 10 then ["0123456789"[n]] else Digits(n / 10) + ["0123456789"[n % 10]]
  }

  function RefOf(r: Request): J.Ref { J.Ref(r.cell, r.epoch, r.kind, KeyOf(r)) }

  /** The payload of the Cell event, as canonical JSON. */
  function EffectPayload(r: Request, result: string): string {
    "{\"capability\":\"" + r.capability + "\",\"intent_digest\":\"" + r.attempt.intent + "\",\"resource\":\""
    + ResourceName(r.resource) + "\",\"result_digest\":\"result:" + result + "\",\"status\":\"committed\"}"
  }

  function ResourceName(r: Resource): string {
    match r
    case CellRow => "cell" case AirflowRunRow => "airflow_run" case Sandbox => "sandbox"
    case Publication => "github_publication" case ModelCall => "model_call" case Cleanup => "cleanup"
    case Admission => "admission" case EvidenceLog => "evidence" case Generation => "generation"
  }

  function EffectEvent(r: Request, result: string): C.Event {
    C.Event(r.cell, r.epoch, KeyOf(r), "external_mutation", EffectPayload(r, result))
  }

  lemma {:induction false} DigitsTellNumbersApart(m: nat, n: nat)
    requires Digits(m) == Digits(n)
    ensures m == n
  {
    DigitsEnd(m);
    DigitsEnd(n);
    if m >= 10 && n >= 10 {
      assert Digits(m)[..|Digits(m)| - 1] == Digits(m / 10) && Digits(n)[..|Digits(n)| - 1] == Digits(n / 10);
      DigitsTellNumbersApart(m / 10, n / 10);
    }
  }

  lemma DigitsEnd(n: nat)
    ensures Digits(n) != [] && Digits(n)[|Digits(n)| - 1] == "0123456789"[n % 10] && Digits(n)[0] != '-'
    ensures n >= 10 <==> |Digits(n)| >= 2
  {
    if n >= 10 { DigitsEnd(n / 10); }
  }

  /** One binding key stands for one Cell, epoch and run, one policy key for one Cell, epoch and policy, and the key of a
      request that names none for its Cell, epoch, kind and parts. */
  lemma KeysAreDistinct(
      id: C.CellId, epoch: nat, run: C.AirflowRun, id': C.CellId, epoch': nat, run': C.AirflowRun, digest: string,
      digest': string, r: Request, r': Request)
    ensures BindKey(id, epoch, run) == BindKey(id', epoch', run') ==> (id, epoch, run) == (id', epoch', run')
    ensures PolicyKey(id, epoch, digest) == PolicyKey(id', epoch', digest') ==> (id, epoch, digest) == (id', epoch', digest')
    ensures KeyOf(r) == KeyOf(r') && r.externalKey.None? ==>
              r'.externalKey.None? && (r.cell, r.epoch, r.kind, r.parts) == (r'.cell, r'.epoch, r'.kind, r'.parts)
    ensures KeyOf(r) == KeyOf(r') && r.externalKey.Some? ==> r'.externalKey == r.externalKey
  {
    if BindKey(id, epoch, run) == BindKey(id', epoch', run') {
      var (p, p') := (BindKey(id, epoch, run).parts, BindKey(id', epoch', run').parts);
      assert p[0] == p'[0] && p[1] == p'[1] && p[2] == p'[2];
      if run.mapIndex.Some? { DigitsEnd(run.mapIndex.value); }
      if run'.mapIndex.Some? { DigitsEnd(run'.mapIndex.value); }
      if run.mapIndex.Some? && run'.mapIndex.Some? { DigitsTellNumbersApart(run.mapIndex.value, run'.mapIndex.value); }
    }
    if PolicyKey(id, epoch, digest) == PolicyKey(id', epoch', digest') {
      assert PolicyKey(id, epoch, digest).parts[0] == digest && PolicyKey(id', epoch', digest').parts[0] == digest';
    }
  }

  /** The event of an effect tells receipts apart: another receipt under the same key is noticed. */
  lemma EventsTellReceiptsApart(r: Request, result: string, other: string)
    requires EffectEvent(r, result) == EffectEvent(r, other)
    ensures result == other
  {
    var head := "{\"capability\":\"" + r.capability + "\",\"intent_digest\":\"" + r.attempt.intent + "\",\"resource\":\""
                + ResourceName(r.resource) + "\",\"result_digest\":\"result:";
    var tail := "\",\"status\":\"committed\"}";
    assert EffectPayload(r, result) == head + result + tail && EffectPayload(r, other) == head + other + tail;
    assert (head + result + tail)[|head|..|head| + |result|] == result;
    assert (head + other + tail)[|head|..|head| + |other|] == other;
  }

  // ---- one store transaction ----

  function Power(w: World): nat { w.journal.power }

  function Spend(w: World): World
    requires Power(w) > 0
  {
    w.(journal := w.journal.(power := w.journal.power - 1))
  }

  /** One transaction on the Cell store, or death before it. */
  function CellTx(w: World, op: C.Op): (World, Result<(), CoreError>) {
    if Power(w) == 0 then (w, Err(Died))
    else match C.Transact(w.db, op)
      case Ok(d) => (Spend(w).(db := d), Ok(()))
      case Err(e) => (Spend(w), Err(CellStore(e)))
  }

  // ---- at most once into the event log and the evidence log ----

  function EventWith(events: seq<C.Event>, id: C.CellId, key: C.OpKey): Option<C.Event> {
    if events == [] then None
    else if events[|events| - 1].cell == id && events[|events| - 1].key == key then Some(events[|events| - 1])
    else EventWith(events[..|events| - 1], id, key)
  }

  function EffectOnce(w: World, e: C.Event): (World, Result<(), CoreError>) {
    var t := CellTx(w, C.Record(e));
    if t.1 != Err(CellStore(C.DuplicateOperation)) then t
    else match EventWith(w.db.events, e.cell, e.key)
      case None => (t.0, Err(DifferentEffect))
      case Some(seen) =>
        if seen.kind == e.kind && seen.payload == e.payload then (t.0, Ok(())) else (t.0, Err(DifferentEffect))
  }

  function EvidenceWith(log: seq<Record>, id: C.CellId, key: C.OpKey): Option<Record> {
    if log == [] then None
    else if log[|log| - 1].cell == id && log[|log| - 1].key == Some(key) then Some(log[|log| - 1])
    else EvidenceWith(log[..|log| - 1], id, key)
  }

  function AppendEvidence(w: World, rec: Record): (World, Result<(), CoreError>) {
    if Power(w) == 0 then (w, Err(Died)) else (Spend(w).(evidence := w.evidence + [rec]), Ok(()))
  }

  function EvidenceOnce(w: World, rec: Record): (World, Result<(), CoreError>)
    requires rec.key.Some?
  {
    match EvidenceWith(w.evidence, rec.cell, rec.key.value)
    case None => AppendEvidence(w, rec)
    case Some(seen) =>
      if seen.epoch != rec.epoch || seen.policy != rec.policy || seen.kind != rec.kind then (w, Err(DifferentEvidence))
      else (w, Ok(()))
  }

  predicate PolicyRecorded(log: seq<Record>, id: C.CellId, epoch: nat, digest: string) {
    exists k :: 0 <= k < |log| && log[k].cell == id && log[k].kind == "policy_activation" && log[k].epoch == epoch
                && log[k].policy == digest
  }

  function PolicyEvidenceOnce(w: World, id: C.CellId, epoch: nat, digest: string, actor: string): (World, Result<(), CoreError>) {
    if PolicyRecorded(w.evidence, id, epoch, digest) then (w, Ok(()))
    else AppendEvidence(w, Record(id, epoch, "policy_activation", digest, None, actor))
  }

  // ---- the three calls ----

  function PolicyFields(digest: string): C.Fields { C.Fields(None, None, Some(digest), map[]) }

  function RunFields(run: C.AirflowRun): C.Fields { C.Fields(Some("running"), Some(run), None, map[]) }

  /** The Cell the call works on: newly activated, or the busy Cell, unless that carries another policy. */
  function Activated(w: World, id: C.CellId, digest: string, actor: string): (World, Result<(), CoreError>) {
    var t := CellTx(w, C.Activate(id, actor));
    if t.1 != Err(CellStore(C.CellBusy)) then t
    else if id in w.db.cells && w.db.cells[id].policy.Some? && w.db.cells[id].policy != Some(digest) then
      (t.0, Err(DifferentPolicy))
    else (t.0, Ok(()))
  }

  function SetPolicy(w: World, id: C.CellId, digest: string): (World, Result<(), CoreError>)
    requires id in w.db.cells
  {
    var epoch := w.db.cells[id].epoch;
    var t := CellTx(w, C.Patch(id, epoch, PolicyKey(id, epoch, digest), PolicyFields(digest), digest));
    if t.1 != Err(CellStore(C.DuplicateOperation)) then t
    else if w.db.cells[id].policy != Some(digest) then (t.0, Err(PolicyKeyReused))
    else (t.0, Ok(()))
  }

  function Activate(w: World, id: C.CellId, policy: Policy, actor: string): (World, Result<(), CoreError>) {
    if policy.repo != id.repo || policy.target != id.target then (w, Err(PolicyMismatch))
    else
      var a := Activated(w, id, policy.digest, actor);
      if a.1.Err? then a
      else if id !in a.0.db.cells then (a.0, Err(CellStore(C.UnknownCell)))
      else
        var s := SetPolicy(a.0, id, policy.digest);
        if s.1.Err? then s
        else PolicyEvidenceOnce(s.0, id, a.0.db.cells[id].epoch, policy.digest, actor)
  }

  function RequirePolicy(cell: C.Cell): Option<string> {
    if cell.policy.Some? && "policy:" <= cell.policy.value then cell.policy else None
  }

  predicate EffectRefused(cell: C.Cell, resource: Resource) {
    cell.state in C.TERMINAL_STATES && resource !in TERMINAL_EFFECTS
  }

  /** The evidence of a binding, when the Cell has a policy. */
  function BindRecord(id: C.CellId, epoch: nat, run: C.AirflowRun, digest: string): Record {
    Record(id, epoch, "airflow_bound", digest, Some(BindKey(id, epoch, run)), run.dagId + "/" + run.runId)
  }

  function BindEvidence(w: World, id: C.CellId, epoch: nat, run: C.AirflowRun): (World, Result<(), CoreError>)
    requires id in w.db.cells
  {
    match RequirePolicy(w.db.cells[id])
    case None => (w, Err(NoPolicy))
    case Some(digest) =>
      EvidenceOnce(w, BindRecord(id, epoch, run, digest))
  }

  function BindAirflow(w: World, id: C.CellId, epoch: nat, run: C.AirflowRun): (World, Result<(), CoreError>) {
    if id !in w.db.cells then (w, Err(CellStore(C.UnknownCell)))
    else if w.db.cells[id].epoch != epoch then (w, Err(CellStore(C.StaleEpoch)))
    else if EffectRefused(w.db.cells[id], AirflowRunRow) then (w, Err(NotActive))
    else if w.db.cells[id].airflow.Some? then
      if w.db.cells[id].airflow != Some(run) then (w, Err(DifferentRun)) else BindEvidence(w, id, epoch, run)
    else
      var t := CellTx(w, C.Patch(id, epoch, BindKey(id, epoch, run), RunFields(run), run.runId));
      if t.1.Err? then t
      else if id !in t.0.db.cells then (t.0, Err(CellStore(C.UnknownCell)))
      else BindEvidence(t.0, id, epoch, run)
  }

  /** Everything `execute_external` checks before it goes to the journal. */
  function Admissible(w: World, r: Request): Result<(), CoreError> {
    if r.cell !in w.db.cells then Err(CellStore(C.UnknownCell))
    else
      var cell := w.db.cells[r.cell];
      if cell.epoch != r.epoch then Err(CellStore(C.StaleEpoch))
      else if cell.airflow != Some(r.run) then Err(NotOwner)
      else if RequirePolicy(cell).None? then Err(NoPolicy)
      else if cell.policy != Some(r.expectedPolicy) then Err(StalePolicy)
      else if !r.permitted then Err(NotPermitted)
      else if !AlreadyCommitted(w, KeyOf(r)) && EffectRefused(cell, r.resource) then Err(NotActive)
      else Ok(())
  }

  predicate AlreadyCommitted(w: World, key: C.OpKey) {
    key in w.journal.rows && w.journal.rows[key].state == J.Committed
  }

  function EffectEvidence(r: Request, result: string): Record {
    Record(r.cell, r.epoch, "external_mutation", r.expectedPolicy, Some(KeyOf(r)), EffectPayload(r, result) + result)
  }

  function ExecuteExternal(w: World, r: Request): (World, Result<string, CoreError>) {
    var ok := Admissible(w, r);
    if ok.Err? then (w, Err(ok.error))
    else
      var ran := J.Execute(w.journal, RefOf(r), r.attempt);
      var w1 := w.(journal := ran.0);
      match ran.1
      case Err(e) => (w1, Err(Journal(e)))
      case Ok(result) => Recorded(w1, r, result)
  }

  /** After the journal: one Cell event, then one evidence record. */
  function Recorded(w: World, r: Request, result: string): (World, Result<string, CoreError>) {
    var noted := EffectOnce(w, EffectEvent(r, result));
    if noted.1.Err? then (noted.0, Err(noted.1.error))
    else
      var shown := EvidenceOnce(noted.0, EffectEvidence(r, result));
      (shown.0, if shown.1.Err? then Err(shown.1.error) else Ok(result))
  }

  // ---- the backend's own bindings ----

  const LIVE_CELL_STATES: set<string> := {"dispatching", "queued", "running"}

  /** The backend binds a policy to a live Cell, never over another one. */
  function BackendPolicy(w: World, id: C.CellId, key: string, digest: string, generation: string): (World, Result<(), CoreError>) {
    if id !in w.db.cells then (w, Err(CellStore(C.UnknownCell)))
    else if w.db.cells[id].state !in LIVE_CELL_STATES then (w, Err(NotActive))
    else if w.db.cells[id].policy.Some? && w.db.cells[id].policy != Some(digest) then (w, Err(DifferentPolicy))
    else
      var t := CellTx(w, C.Patch(id, w.db.cells[id].epoch, C.Named(key), BackendPolicyFields(digest, generation), digest));
      if t.1.Err? && t.1 != Err(CellStore(C.DuplicateOperation)) then t
      else if id !in t.0.db.cells || t.0.db.cells[id].policy != Some(digest) then (t.0, Err(DifferentPolicy))
      else (t.0, Ok(()))
  }

  function BackendPolicyFields(digest: string, generation: string): C.Fields {
    C.Fields(None, None, Some(digest), map["factory_generation" := generation])
  }

  /** The backend binds a dispatched run to a Cell that is still dispatching, and records it if it did so now. */
  function BackendRun(w: World, id: C.CellId, epoch: nat, key: string, run: C.AirflowRun, digest: string)
    : (World, Result<(), CoreError>)
  {
    if id !in w.db.cells then (w, Err(CellStore(C.UnknownCell)))
    else if w.db.cells[id].state == "dispatching" then
      var t := CellTx(w, C.Patch(id, epoch, C.Named(key), BackendRunFields(run), run.runId));
      if t.1 == Err(CellStore(C.DuplicateOperation)) then (t.0, Ok(()))
      else if t.1.Err? then t
      else if !("policy:" <= digest) then (t.0, Err(NoPolicy))
      else AppendEvidence(t.0, Record(id, epoch, "airflow_dispatch", digest, Some(C.Named(key)), run.dagId + "/" + run.runId))
    else if w.db.cells[id].airflow.Some? && w.db.cells[id].airflow.value.runId != run.runId then (w, Err(DifferentRun))
    else (w, Ok(()))
  }

  function BackendRunFields(run: C.AirflowRun): C.Fields { C.Fields(Some("queued"), Some(run), None, map[]) }

  // ---- the machine ----

  /** `Other` is a transaction of the rest of the program on the Cell store, `Note` one of its evidence records. */
  datatype Op =
    | ActivateCell(id: C.CellId, policy: Policy, actor: string)
    | Bind(id: C.CellId, epoch: nat, run: C.AirflowRun)
    | External(request: Request)
    | BindPolicy(id: C.CellId, name: string, digest: string, generation: string)
    | BindDispatched(id: C.CellId, epoch: nat, name: string, run: C.AirflowRun, digest: string)
    | Other(op: C.Op)
    | Note(rec: Record)

  /** The rest of the program uses its own operation keys, sets neither run nor policy, and never puts a Cell back to
      the states in which only enrolment and activation leave it. */
  predicate Foreign(op: C.Op) {
    match op
    case Patch(_, _, key, f, _) =>
      key.Named? && f.airflow.None? && f.policy.None? && f.state != Some("created") && f.state != Some("dispatching")
    case Record(e) => e.key.Named?
    case Ensure(_) => true
    case Activate(_, _) => true
    case TakeEpoch(_, _, _) => true
  }

  /** The world one call leaves; its result, with the receipt of an external effect. */
  function Perform(w: World, op: Op): (World, Result<string, CoreError>) {
    match op
    case ActivateCell(id, policy, actor) => NoReceipt(Activate(w, id, policy, actor))
    case Bind(id, epoch, run) => NoReceipt(BindAirflow(w, id, epoch, run))
    case External(r) => ExecuteExternal(w, r)
    case BindPolicy(id, name, digest, generation) => NoReceipt(BackendPolicy(w, id, name, digest, generation))
    case BindDispatched(id, epoch, name, run, digest) => NoReceipt(BackendRun(w, id, epoch, name, run, digest))
    case Other(op) => NoReceipt(CellTx(w, op))
    case Note(rec) => NoReceipt(AppendEvidence(w, rec))
  }

  function NoReceipt(t: (World, Result<(), CoreError>)): (World, Result<string, CoreError>) {
    (t.0, match t.1 case Ok(_) => Ok("") case Err(e) => Err(e))
  }

  function WithPower(w: World, power: nat): World { w.(journal := w.journal.(power := power)) }

  /** One call by a process that dies after `power` more transactions. */
  ghost predicate StepOp(w: World, op: Op, power: nat, w': World) {
    (op.Other? ==> Foreign(op.op)) && (op.Note? ==> op.rec.key.None?) && w' == Perform(WithPower(w, power), op).0
  }

  ghost predicate Next(w: World, w': World) { exists op, power :: StepOp(w, op, power, w') }

  ghost predicate Init(w: World) {
    && w.db.cells == map[] && w.db.events == [] && w.evidence == []
    && w.journal.rows == map[] && w.journal.calls == [] && w.journal.effects == []
    && w.journal.absences == []
  }

  // ---- what every transaction on the Cell store keeps ----

  /** A key is made for the epoch at which it is used. At the current epoch a policy key means that a policy is set, a
      binding key that a run is bound, and an activation that the Cell is no longer unused. */
  ghost predicate KeysDated(db: C.Db) {
    forall i :: 0 <= i < |db.events| ==> KeyDated(db, db.events[i])
  }

  ghost predicate KeyDated(db: C.Db, e: C.Event) {
    && (e.key.Derived? ==>
          && e.key.epochPart == e.epoch
          && (e.key.kind == "policy_activation" && C.Current(db, e.cell, e.epoch) ==> db.cells[e.cell].policy.Some?)
          && (e.key.kind == "airflow_bind" && C.Current(db, e.cell, e.epoch) ==> db.cells[e.cell].airflow.Some?))
    && (e.key.Activation? ==>
          && e.key.epoch == e.epoch
          && (C.Current(db, e.cell, e.epoch) ==> !C.Fresh(db.cells[e.cell])))
  }

  ghost predicate FreshHasNoPolicy(db: C.Db) {
    forall c :: c in db.cells && C.Fresh(db.cells[c]) ==> db.cells[c].policy.None?
  }

  ghost predicate DispatchingIsUnbound(db: C.Db) {
    forall c :: c in db.cells && db.cells[c].state == "dispatching" ==> db.cells[c].airflow.None?
  }

  ghost predicate DbInv(db: C.Db) {
    C.EventsFenced(db) && KeysDated(db) && FreshHasNoPolicy(db) && DispatchingIsUnbound(db)
  }

  /** Epochs never fall; within an epoch a bound run and a set policy stay as they are; nothing logged changes. */
  ghost predicate BoundKept(db: C.Db, db': C.Db) {
    && (forall c :: c in db.cells ==> c in db'.cells && CellKept(db.cells[c], db'.cells[c]))
    && db.events <= db'.events
  }

  predicate CellKept(a: C.Cell, b: C.Cell) {
    && a.epoch <= b.epoch
    && (a.epoch == b.epoch && a.airflow.Some? ==> b.airflow == a.airflow)
    && (a.epoch == b.epoch && a.policy.Some? ==> b.policy == a.policy)
  }

  /** A run is set only where there is none, a policy only where there is none or the same one, never on a Cell that
      was not activated; and no Cell goes back to `created`. */
  ghost predicate Careful(db: C.Db, op: C.Op) {
    match op
    case Ensure(_) => true
    case Activate(_, _) => true
    case TakeEpoch(_, _, _) => true
    case Record(e) => KeyDated(db, e)
    case Patch(id, epoch, key, f, payload) =>
      && (key.Derived? ==> key.epochPart == epoch
                           && (key.kind == "policy_activation" ==> f.policy.Some?)
                           && (key.kind == "airflow_bind" ==> f.airflow.Some?))
      && !key.Activation?
      && f.state != Some("created") && f.state != Some("dispatching")
      && (f.airflow.Some? ==> f.state.Some?)
      && (C.Current(db, id, epoch) ==>
            var cell := db.cells[id];
            && (f.airflow.Some? ==> cell.airflow.None?)
            && (f.policy.Some? ==> !C.Fresh(cell) && (cell.policy.None? || cell.policy == f.policy)))
  }

  lemma ForeignIsCareful(db: C.Db, op: C.Op)
    requires Foreign(op)
    ensures Careful(db, op)
  {
  }

  predicate StaysMarked(a: C.Cell, b: C.Cell) {
    && (a.policy.Some? ==> b.policy.Some?) && (a.airflow.Some? ==> b.airflow.Some?) && (!C.Fresh(a) ==> !C.Fresh(b))
  }

  /** After a transaction that sets one Cell and appends one event, the old events are still dated. */
  lemma EventsStayDated(db: C.Db, db': C.Db, id: C.CellId)
    requires DbInv(db) && C.EventsFenced(db') && db.events <= db'.events && |db'.events| <= |db.events| + 1
    requires forall c :: c in db.cells ==> c in db'.cells
    requires forall c :: c in db.cells && c != id ==> db'.cells[c] == db.cells[c]
    requires id in db.cells ==>
               && db.cells[id].epoch <= db'.cells[id].epoch
               && (db.cells[id].epoch == db'.cells[id].epoch ==> StaysMarked(db.cells[id], db'.cells[id]))
    requires |db'.events| > |db.events| ==> KeyDated(db', db'.events[|db.events|])
    ensures KeysDated(db')
  {
    forall i | 0 <= i < |db'.events| ensures KeyDated(db', db'.events[i]) {
      if i < |db.events| {
        assert db'.events[i] == db.events[i];
        assert KeyDated(db, db.events[i]);
      }
    }
  }

  lemma ActivateCareful(db: C.Db, id: C.CellId, actor: string, db': C.Db)
    requires DbInv(db) && C.ActivateTx(db, id, actor) == Ok(db')
    ensures DbInv(db') && BoundKept(db, db')
    ensures id in db'.cells && !C.Fresh(db'.cells[id]) && db'.cells[id].policy.None?
  {
    C.ActivateKeepsLog(db, id, actor);
    EventsStayDated(db, db', id);
  }

  lemma TakeEpochCareful(db: C.Db, id: C.CellId, expected: nat, actor: string, db': C.Db)
    requires DbInv(db) && C.TakeEpochTx(db, id, expected, actor) == Ok(db')
    ensures DbInv(db') && BoundKept(db, db')
  {
    C.TakeEpochKeepsLog(db, id, expected, actor);
    EventsStayDated(db, db', id);
  }

  lemma PatchCareful(db: C.Db, id: C.CellId, epoch: nat, key: C.OpKey, f: C.Fields, payload: string, db': C.Db)
    requires DbInv(db) && Careful(db, C.Patch(id, epoch, key, f, payload))
    requires C.PatchTx(db, id, epoch, key, f, payload) == Ok(db')
    ensures DbInv(db') && BoundKept(db, db')
    ensures C.Current(db, id, epoch) && C.Current(db', id, epoch) && db'.cells[id] == C.WithFields(db.cells[id], f)
  {
    C.PatchKeepsLog(db, id, epoch, key, f, payload);
    EventsStayDated(db, db', id);
  }

  lemma RecordCareful(db: C.Db, e: C.Event, db': C.Db)
    requires DbInv(db) && KeyDated(db, e) && C.Append(db, e) == Ok(db')
    ensures DbInv(db') && BoundKept(db, db')
  {
    C.AppendKeepsLog(db, e);
    EventsStayDated(db, db', e.cell);
  }

  lemma EnsureCareful(db: C.Db, id: C.CellId)
    requires DbInv(db)
    ensures DbInv(C.Enrolled(db, id)) && BoundKept(db, C.Enrolled(db, id))
  {
    C.RaiseKeepsLog(db, id, C.Enrolled(db, id).cells[id]);
    if id !in db.cells {
      assert forall i :: 0 <= i < |db.events| ==> db.events[i].cell != id;
      assert forall i :: 0 <= i < |db.events| ==> KeyDated(db, db.events[i]);
    }
  }

  lemma TransactCareful(db: C.Db, op: C.Op, db': C.Db)
    requires DbInv(db) && Careful(db, op) && C.Transact(db, op) == Ok(db')
    ensures DbInv(db') && BoundKept(db, db')
  {
    match op
    case Ensure(id) => EnsureCareful(db, id);
    case Activate(id, actor) => ActivateCareful(db, id, actor, db');
    case TakeEpoch(id, expected, actor) => TakeEpochCareful(db, id, expected, actor, db');
    case Patch(id, epoch, key, f, payload) => PatchCareful(db, id, epoch, key, f, payload, db');
    case Record(e) => RecordCareful(db, e, db');
  }

  // ---- what every call keeps ----

  ghost predicate EvidenceUnique(log: seq<Record>) {
    forall i, j :: 0 <= i < j < |log| && log[i].key.Some? && log[i].cell == log[j].cell ==> log[i].key != log[j].key
  }

  /** Every record under a caller's own key has its event: the event is always written first. */
  ghost predicate RecordsHaveEvents(w: World) {
    forall i :: 0 <= i < |w.evidence| && w.evidence[i].key.Some? && w.evidence[i].key.value.Named? ==>
      C.HasKey(w.db.events, w.evidence[i].cell, w.evidence[i].key.value)
  }

  ghost predicate Inv(w: World) {
    DbInv(w.db) && J.Inv(w.journal) && EvidenceUnique(w.evidence) && RecordsHaveEvents(w)
  }

  /** Events only grow, so the records keep theirs. */
  lemma RecordsKeepEvents(w: World, w': World)
    requires RecordsHaveEvents(w) && w'.evidence == w.evidence && w.db.events <= w'.db.events
    ensures RecordsHaveEvents(w')
  {
    forall i | 0 <= i < |w.evidence| && w.evidence[i].key.Some? && w.evidence[i].key.value.Named?
      ensures C.HasKey(w'.db.events, w.evidence[i].cell, w.evidence[i].key.value)
    {
      C.HasKeyStays(w.db.events, w'.db.events, w.evidence[i].cell, w.evidence[i].key.value);
    }
  }

  ghost predicate Kept(w: World, w': World) {
    && BoundKept(w.db, w'.db)
    && J.Kept(w.journal, w'.journal)
    && w.evidence <= w'.evidence
  }

  lemma KeptTransitive(w: World, v: World, u: World)
    requires Kept(w, v) && Kept(v, u)
    ensures Kept(w, u)
  {
    BoundKeptTransitive(w.db, v.db, u.db);
    forall key | key in w.journal.rows ensures key in u.journal.rows { }
  }

  lemma BoundKeptTransitive(a: C.Db, b: C.Db, c: C.Db)
    requires BoundKept(a, b) && BoundKept(b, c)
    ensures BoundKept(a, c)
  {
  }

  ghost predicate SameLogs(w: World, w': World) {
    && w'.journal.rows == w.journal.rows && w'.journal.calls == w.journal.calls && w'.journal.effects == w.journal.effects
    && w'.journal.absences == w.journal.absences
    && w'.evidence == w.evidence
  }

  /** Only the power differs in the journal. */
  lemma PowerIsIrrelevant(j: J.Journal, j': J.Journal)
    requires J.Inv(j) && j' == j.(power := j'.power)
    ensures J.Inv(j') && J.Kept(j, j')
  {
    forall key | key in j'.rows ensures J.RowInv(j', key) { assert J.RowInv(j, key); }
  }

  lemma CellTxKeeps(w: World, op: C.Op, w': World)
    requires Inv(w) && Careful(w.db, op) && w' == CellTx(w, op).0
    ensures Inv(w') && Kept(w, w') && SameLogs(w, w')
  {
    PowerIsIrrelevant(w.journal, w'.journal);
    if Power(w) > 0 && C.Transact(w.db, op).Ok? {
      TransactCareful(w.db, op, w'.db);
      RecordsKeepEvents(w, w');
    }
  }

  lemma {:induction false} EventWithFinds(events: seq<C.Event>, id: C.CellId, key: C.OpKey)
    ensures C.HasKey(events, id, key) <==> EventWith(events, id, key).Some?
    ensures EventWith(events, id, key).Some? ==>
              var e := EventWith(events, id, key).value; e in events && e.cell == id && e.key == key
  {
    if events != [] {
      var front, last := events[..|events| - 1], events[|events| - 1];
      EventWithFinds(front, id, key);
      assert events == front + [last];
      if C.HasKey(front, id, key) { C.HasKeyStays(front, events, id, key); }
      if C.HasKey(events, id, key) && !(last.cell == id && last.key == key) {
        var i :| 0 <= i < |events| && events[i].cell == id && events[i].key == key;
        assert front[i] == events[i];
      }
    }
  }

  ghost predicate HasRecord(log: seq<Record>, id: C.CellId, key: C.OpKey) {
    exists i :: 0 <= i < |log| && log[i].cell == id && log[i].key == Some(key)
  }

  lemma {:induction false} EvidenceWithFinds(log: seq<Record>, id: C.CellId, key: C.OpKey)
    ensures HasRecord(log, id, key) <==> EvidenceWith(log, id, key).Some?
    ensures EvidenceWith(log, id, key).Some? ==>
              var rec := EvidenceWith(log, id, key).value; rec in log && rec.cell == id && rec.key == Some(key)
  {
    if log != [] {
      var front, last := log[..|log| - 1], log[|log| - 1];
      EvidenceWithFinds(front, id, key);
      assert log == front + [last];
      if HasRecord(front, id, key) {
        var i :| 0 <= i < |front| && front[i].cell == id && front[i].key == Some(key);
        assert log[i] == front[i];
      }
      if HasRecord(log, id, key) && !(last.cell == id && last.key == Some(key)) {
        var i :| 0 <= i < |log| && log[i].cell == id && log[i].key == Some(key);
        assert front[i] == log[i];
      }
    }
  }

  lemma AppendEvidenceKeeps(w: World, rec: Record, w': World)
    requires Inv(w) && w' == AppendEvidence(w, rec).0
    requires rec.key.Some? ==> !HasRecord(w.evidence, rec.cell, rec.key.value)
    requires rec.key.Some? && rec.key.value.Named? ==> C.HasKey(w.db.events, rec.cell, rec.key.value)
    ensures Inv(w') && Kept(w, w') && w'.db == w.db
  {
    PowerIsIrrelevant(w.journal, w'.journal);
  }

  lemma EvidenceOnceKeeps(w: World, rec: Record, w': World)
    requires Inv(w) && rec.key.Some? && w' == EvidenceOnce(w, rec).0
    requires rec.key.value.Named? ==> C.HasKey(w.db.events, rec.cell, rec.key.value)
    ensures Inv(w') && Kept(w, w') && w'.db == w.db
  {
    EvidenceWithFinds(w.evidence, rec.cell, rec.key.value);
    if EvidenceWith(w.evidence, rec.cell, rec.key.value).None? { AppendEvidenceKeeps(w, rec, w'); }
  }

  lemma EffectOnceKeeps(w: World, e: C.Event, w': World)
    requires Inv(w) && KeyDated(w.db, e) && w' == EffectOnce(w, e).0
    ensures Inv(w') && Kept(w, w') && SameLogs(w, w')
    ensures EffectOnce(w, e).1.Ok? ==> C.HasKey(w'.db.events, e.cell, e.key)
  {
    CellTxKeeps(w, C.Record(e), w');
    if EffectOnce(w, e).1.Ok? && !C.HasKey(w.db.events, e.cell, e.key) {
      assert w'.db.events[|w.db.events|] == e;
    }
  }

  lemma SetPolicyKeeps(w: World, id: C.CellId, digest: string, w': World)
    requires Inv(w) && id in w.db.cells && !C.Fresh(w.db.cells[id])
    requires w.db.cells[id].policy.None? || w.db.cells[id].policy == Some(digest)
    requires w' == SetPolicy(w, id, digest).0
    ensures Inv(w') && Kept(w, w') && SameLogs(w, w')
    ensures SetPolicy(w, id, digest).1 != Err(PolicyKeyReused)
  {
    var epoch := w.db.cells[id].epoch;
    var key := PolicyKey(id, epoch, digest);
    CellTxKeeps(w, C.Patch(id, epoch, key, PolicyFields(digest), digest), w');
    if C.HasKey(w.db.events, id, key) {
      var i :| 0 <= i < |w.db.events| && w.db.events[i].cell == id && w.db.events[i].key == key;
      assert KeyDated(w.db, w.db.events[i]);
    }
  }

  lemma ActivateKeeps(w: World, id: C.CellId, policy: Policy, actor: string, w': World)
    requires Inv(w) && w' == Activate(w, id, policy, actor).0
    ensures Inv(w') && Kept(w, w')
    ensures Activate(w, id, policy, actor).1 != Err(PolicyKeyReused)
  {
    if policy.repo == id.repo && policy.target == id.target {
      var a := Activated(w, id, policy.digest, actor);
      CellTxKeeps(w, C.Activate(id, actor), a.0);
      if a.1.Ok? && id in a.0.db.cells {
        if C.ActivateTx(w.db, id, actor).Ok? { ActivateCareful(w.db, id, actor, a.0.db); }
        var s := SetPolicy(a.0, id, policy.digest);
        SetPolicyKeeps(a.0, id, policy.digest, s.0);
        if s.1.Ok? {
          PolicyEvidenceKeeps(s.0, id, a.0.db.cells[id].epoch, policy.digest, actor, w');
          KeptTransitive(a.0, s.0, w');
        }
        KeptTransitive(w, a.0, w');
      }
    }
  }

  lemma PolicyEvidenceKeeps(w: World, id: C.CellId, epoch: nat, digest: string, actor: string, w': World)
    requires Inv(w) && w' == PolicyEvidenceOnce(w, id, epoch, digest, actor).0
    ensures Inv(w') && Kept(w, w') && PolicyEvidenceOnce(w, id, epoch, digest, actor).1 != Err(PolicyKeyReused)
  {
    if !PolicyRecorded(w.evidence, id, epoch, digest) {
      AppendEvidenceKeeps(w, Record(id, epoch, "policy_activation", digest, None, actor), w');
    }
  }

  lemma BindEvidenceKeeps(w: World, id: C.CellId, epoch: nat, run: C.AirflowRun, w': World)
    requires Inv(w) && id in w.db.cells && w' == BindEvidence(w, id, epoch, run).0
    ensures Inv(w') && Kept(w, w')
  {
    var digest := RequirePolicy(w.db.cells[id]);
    if digest.Some? {
      EvidenceOnceKeeps(w, BindRecord(id, epoch, run, digest.value), w');
    }
  }

  lemma BindKeeps(w: World, id: C.CellId, epoch: nat, run: C.AirflowRun, w': World)
    requires Inv(w) && w' == BindAirflow(w, id, epoch, run).0
    ensures Inv(w') && Kept(w, w')
  {
    if C.Current(w.db, id, epoch) && !EffectRefused(w.db.cells[id], AirflowRunRow) {
      if w.db.cells[id].airflow.Some? {
        if w.db.cells[id].airflow == Some(run) { BindEvidenceKeeps(w, id, epoch, run, w'); }
      } else {
        var t := CellTx(w, C.Patch(id, epoch, BindKey(id, epoch, run), RunFields(run), run.runId));
        CellTxKeeps(w, C.Patch(id, epoch, BindKey(id, epoch, run), RunFields(run), run.runId), t.0);
        if t.1.Ok? && id in t.0.db.cells {
          BindEvidenceKeeps(t.0, id, epoch, run, w');
          KeptTransitive(w, t.0, w');
        }
      }
    }
  }

  lemma RecordedKeeps(w: World, r: Request, result: string, w': World)
    requires Inv(w) && KeyDated(w.db, EffectEvent(r, result)) && w' == Recorded(w, r, result).0
    ensures Inv(w') && Kept(w, w')
  {
    var noted := EffectOnce(w, EffectEvent(r, result));
    EffectOnceKeeps(w, EffectEvent(r, result), noted.0);
    if noted.1.Ok? {
      EvidenceOnceKeeps(noted.0, EffectEvidence(r, result), w');
      KeptTransitive(w, noted.0, w');
    }
  }

  lemma ExternalKeeps(w: World, r: Request, w': World)
    requires Inv(w) && w' == ExecuteExternal(w, r).0
    ensures Inv(w') && Kept(w, w')
  {
    if Admissible(w, r).Ok? {
      var ran := J.Execute(w.journal, RefOf(r), r.attempt);
      var w1 := w.(journal := ran.0);
      J.ExecuteKeeps(w.journal, RefOf(r), r.attempt, ran.0);
      assert Inv(w1) && Kept(w, w1);
      if ran.1.Ok? {
        RecordedKeeps(w1, r, ran.1.value, w');
        KeptTransitive(w, w1, w');
      }
    }
  }

  lemma BackendPolicyKeeps(w: World, id: C.CellId, key: string, digest: string, generation: string, w': World)
    requires Inv(w) && w' == BackendPolicy(w, id, key, digest, generation).0
    ensures Inv(w') && Kept(w, w')
  {
    if id in w.db.cells && w.db.cells[id].state in LIVE_CELL_STATES
       && (w.db.cells[id].policy.None? || w.db.cells[id].policy == Some(digest)) {
      CellTxKeeps(w, C.Patch(id, w.db.cells[id].epoch, C.Named(key), BackendPolicyFields(digest, generation), digest), w');
    }
  }

  lemma BackendRunKeeps(w: World, id: C.CellId, epoch: nat, key: string, run: C.AirflowRun, digest: string, w': World)
    requires Inv(w) && w' == BackendRun(w, id, epoch, key, run, digest).0
    ensures Inv(w') && Kept(w, w')
  {
    if id in w.db.cells && w.db.cells[id].state == "dispatching" {
      var op := C.Patch(id, epoch, C.Named(key), BackendRunFields(run), run.runId);
      var t := CellTx(w, op);
      CellTxKeeps(w, op, t.0);
      if t.1.Ok? && "policy:" <= digest {
        NewKeyHasNoRecord(w, id, C.Named(key));
        assert t.0.db.events[|w.db.events|].key == C.Named(key);
        AppendEvidenceKeeps(t.0, Record(id, epoch, "airflow_dispatch", digest, Some(C.Named(key)),
                                        run.dagId + "/" + run.runId), w');
        KeptTransitive(w, t.0, w');
      }
    }
  }

  /** A caller's key that no event has yet has no record either. */
  lemma NewKeyHasNoRecord(w: World, id: C.CellId, key: C.OpKey)
    requires RecordsHaveEvents(w) && key.Named? && !C.HasKey(w.db.events, id, key)
    ensures !HasRecord(w.evidence, id, key)
  {
  }

  lemma PerformKeeps(w: World, op: Op, w': World)
    requires Inv(w) && w' == Perform(w, op).0 && (op.Other? ==> Foreign(op.op)) && (op.Note? ==> op.rec.key.None?)
    ensures Inv(w') && Kept(w, w')
  {
    match op {
      case ActivateCell(id, policy, actor) => ActivateKeeps(w, id, policy, actor, w');
      case Bind(id, epoch, run) => BindKeeps(w, id, epoch, run, w');
      case External(r) => ExternalKeeps(w, r, w');
      case BindPolicy(id, name, digest, generation) => BackendPolicyKeeps(w, id, name, digest, generation, w');
      case BindDispatched(id, epoch, name, run, digest) => BackendRunKeeps(w, id, epoch, name, run, digest, w');
      case Other(op) => ForeignIsCareful(w.db, op); CellTxKeeps(w, op, w');
      case Note(rec) => AppendEvidenceKeeps(w, rec, w');
    }
  }

  lemma StepKeeps(w: World, w': World)
    requires Inv(w) && Next(w, w')
    ensures Inv(w') && Kept(w, w')
  {
    var op, power :| StepOp(w, op, power, w');
    PowerIsIrrelevant(w.journal, WithPower(w, power).journal);
    PerformKeeps(WithPower(w, power), op, w');
    KeptTransitive(w, WithPower(w, power), w');
  }

  lemma InvHolds(run: seq<World>, i: nat)
    requires Runs.IsRun(Init, Next, run) && i < |run|
    ensures Inv(run[i])
  {
    forall w, w' | Inv(w) && Next(w, w') ensures Inv(w') { StepKeeps(w, w'); }
    Runs.InvariantHolds(Init, Next, Inv, run, i);
  }

  lemma KeptInRun(run: seq<World>, i: nat, j: nat)
    requires Runs.IsRun(Init, Next, run) && i <= j < |run|
    ensures Kept(run[i], run[j])
  {
    forall w, w' | Inv(w) && Next(w, w') ensures Inv(w') && Kept(w, w') { StepKeeps(w, w'); }
    forall w, v, u | Kept(w, v) && Kept(v, u) ensures Kept(w, u) { KeptTransitive(w, v, u); }
    Runs.StepsCompose(Init, Next, Inv, Kept, run, i, j);
  }

  // ---- the main results ----

  /**
   For each (Cell, epoch) the bound Airflow run and the policy digest never change once set, through any crashes and
   re-runs; and activation never finds its own policy key used for another policy.
   */
  lemma BindingsNeverChange(run: seq<World>, i: nat, j: nat, id: C.CellId)
    requires Runs.IsRun(Init, Next, run) && i <= j < |run|
    requires id in run[i].db.cells && id in run[j].db.cells && run[i].db.cells[id].epoch == run[j].db.cells[id].epoch
    ensures run[i].db.cells[id].airflow.Some? ==> run[j].db.cells[id].airflow == run[i].db.cells[id].airflow
    ensures run[i].db.cells[id].policy.Some? ==> run[j].db.cells[id].policy == run[i].db.cells[id].policy
    ensures forall policy, actor, power ::
              Activate(WithPower(run[i], power), id, policy, actor).1 != Err(PolicyKeyReused)
  {
    KeptInRun(run, i, j);
    InvHolds(run, i);
    forall policy, actor, power ensures Activate(WithPower(run[i], power), id, policy, actor).1 != Err(PolicyKeyReused) {
      var v := WithPower(run[i], power);
      PowerIsIrrelevant(run[i].journal, v.journal);
      ActivateKeeps(v, id, policy, actor, Activate(v, id, policy, actor).0);
    }
  }

  /** A successful activation leaves the Cell under the given policy, with the policy on record for its epoch. */
  lemma ActivationSetsThePolicy(w: World, id: C.CellId, policy: Policy, actor: string, w': World)
    requires Inv(w) && Activate(w, id, policy, actor) == (w', Ok(()))
    ensures id in w'.db.cells && w'.db.cells[id].policy == Some(policy.digest) && !C.Fresh(w'.db.cells[id])
    ensures PolicyRecorded(w'.evidence, id, w'.db.cells[id].epoch, policy.digest)
  {
    var a := Activated(w, id, policy.digest, actor);
    ActivatedIsNotFresh(w, id, policy.digest, actor, a.0);
    var s := SetPolicy(a.0, id, policy.digest);
    PolicyIsSet(a.0, id, policy.digest, s.0);
    PolicyIsRecorded(s.0, id, a.0.db.cells[id].epoch, policy.digest, actor, w');
  }

  lemma ActivatedIsNotFresh(w: World, id: C.CellId, digest: string, actor: string, w': World)
    requires Inv(w) && Activated(w, id, digest, actor) == (w', Ok(())) && id in w'.db.cells
    ensures Inv(w') && !C.Fresh(w'.db.cells[id]) && (w'.db.cells[id].policy.None? || w'.db.cells[id].policy == Some(digest))
  {
    CellTxKeeps(w, C.Activate(id, actor), w');
    if C.ActivateTx(w.db, id, actor).Ok? { ActivateCareful(w.db, id, actor, w'.db); }
  }

  lemma PolicyIsSet(w: World, id: C.CellId, digest: string, w': World)
    requires id in w.db.cells && !C.Fresh(w.db.cells[id]) && SetPolicy(w, id, digest) == (w', Ok(()))
    ensures id in w'.db.cells && w'.db.cells[id].policy == Some(digest) && !C.Fresh(w'.db.cells[id])
    ensures w'.db.cells[id].epoch == w.db.cells[id].epoch
  {
  }

  lemma PolicyIsRecorded(w: World, id: C.CellId, epoch: nat, digest: string, actor: string, w': World)
    requires PolicyEvidenceOnce(w, id, epoch, digest, actor) == (w', Ok(()))
    ensures w'.db == w.db && PolicyRecorded(w'.evidence, id, epoch, digest)
  {
    if !PolicyRecorded(w.evidence, id, epoch, digest) {
      assert w'.evidence[|w.evidence|] == Record(id, epoch, "policy_activation", digest, None, actor);
    }
  }

  // ---- which calls succeed ----

  lemma ActivationKeyIsNew(db: C.Db, id: C.CellId)
    requires DbInv(db) && C.Startable(db, id)
    ensures !C.HasKey(db.events, id, C.Activation(C.NextEpoch(db, id)))
  {
    forall i | 0 <= i < |db.events| && db.events[i].cell == id
      ensures db.events[i].key != C.Activation(C.NextEpoch(db, id))
    {
      assert KeyDated(db, db.events[i]);
    }
  }

  lemma ActivatedExactlyWhen(w: World, id: C.CellId, digest: string, actor: string)
    requires Inv(w) && Power(w) >= 1
    ensures var (w', r) := Activated(w, id, digest, actor);
            && (r.Ok? <==> C.Startable(w.db, id) || w.db.cells[id].policy in {None, Some(digest)})
            && (r.Err? ==> r == Err(DifferentPolicy))
            && (r.Ok? ==> id in w'.db.cells && Power(w') == Power(w) - 1)
  {
    if C.Startable(w.db, id) { ActivationKeyIsNew(w.db, id); }
    C.ActivatedExactlyWhenStartable(w.db, id, actor);
  }

  lemma PolicyCanBeSet(w: World, id: C.CellId, digest: string)
    requires Inv(w) && Power(w) >= 1 && id in w.db.cells && w.db.cells[id].policy in {None, Some(digest)}
    ensures var (w', r) := SetPolicy(w, id, digest); r == Ok(()) && Power(w') == Power(w) - 1
  {
    var key := PolicyKey(id, w.db.cells[id].epoch, digest);
    if C.HasKey(w.db.events, id, key) {
      var i :| 0 <= i < |w.db.events| && w.db.events[i].cell == id && w.db.events[i].key == key;
      assert KeyDated(w.db, w.db.events[i]);
    }
  }

  /**
   An activation that is not cut short succeeds exactly when the policy names the Cell's repository and target and the
   Cell can be started, or is at work under this policy or none; each refusal says which of these failed.
   */
  lemma ActivationSucceedsExactlyWhen(w: World, id: C.CellId, policy: Policy, actor: string)
    requires Inv(w) && Power(w) >= 3
    ensures var r := Activate(w, id, policy, actor).1;
            var named := policy.repo == id.repo && policy.target == id.target;
            var free := C.Startable(w.db, id) || w.db.cells[id].policy in {None, Some(policy.digest)};
            && (r.Ok? <==> named && free)
            && (r == Err(PolicyMismatch) <==> !named)
            && (r == Err(DifferentPolicy) <==> named && !free)
  {
    ActivatedExactlyWhen(w, id, policy.digest, actor);
    var a := Activated(w, id, policy.digest, actor);
    if a.1.Ok? {
      ActivatedIsNotFresh(w, id, policy.digest, actor, a.0);
      PolicyCanBeSet(a.0, id, policy.digest);
    }
  }

  lemma BindingKeyMeansBound(db: C.Db, id: C.CellId, epoch: nat, run: C.AirflowRun)
    requires DbInv(db) && C.Current(db, id, epoch) && C.HasKey(db.events, id, BindKey(id, epoch, run))
    ensures db.cells[id].airflow.Some?
  {
    var i :| 0 <= i < |db.events| && db.events[i].cell == id && db.events[i].key == BindKey(id, epoch, run);
    assert KeyDated(db, db.events[i]);
  }

  /** Whatever is on record under the key was recorded for the same epoch, policy and kind. */
  ghost predicate RecordsAgree(log: seq<Record>, rec: Record) {
    forall i :: 0 <= i < |log| && log[i].cell == rec.cell && log[i].key == rec.key ==> SameMutation(log[i], rec)
  }

  lemma EvidenceSucceedsExactlyWhen(w: World, rec: Record)
    requires EvidenceUnique(w.evidence) && rec.key.Some? && Power(w) >= 1
    ensures EvidenceOnce(w, rec).1.Ok? <==> RecordsAgree(w.evidence, rec)
    ensures EvidenceOnce(w, rec).1.Err? ==> EvidenceOnce(w, rec).1 == Err(DifferentEvidence)
  {
    EvidenceWithFinds(w.evidence, rec.cell, rec.key.value);
    var seen := EvidenceWith(w.evidence, rec.cell, rec.key.value);
    if seen.Some? {
      var k :| 0 <= k < |w.evidence| && w.evidence[k] == seen.value;
      forall i | 0 <= i < |w.evidence| && w.evidence[i].cell == rec.cell && w.evidence[i].key == rec.key ensures i == k { }
    } else {
      assert !HasRecord(w.evidence, rec.cell, rec.key.value);
    }
  }

  lemma BindEvidenceSucceedsExactlyWhen(w: World, id: C.CellId, epoch: nat, run: C.AirflowRun)
    requires EvidenceUnique(w.evidence) && Power(w) >= 1 && id in w.db.cells
    ensures var digest := w.db.cells[id].policy;
            BindEvidence(w, id, epoch, run).1.Ok? <==>
              digest.Some? && "policy:" <= digest.value && RecordsAgree(w.evidence, BindRecord(id, epoch, run, digest.value))
  {
    var digest := RequirePolicy(w.db.cells[id]);
    if digest.Some? { EvidenceSucceedsExactlyWhen(w, BindRecord(id, epoch, run, digest.value)); }
  }

  /**
   A binding that is not cut short succeeds exactly when the Cell is at this epoch and not ended, has a policy, is bound
   to no run or to this one, and no other record stands under the binding's key.
   */
  lemma BindingSucceedsExactlyWhen(w: World, id: C.CellId, epoch: nat, run: C.AirflowRun)
    requires Inv(w) && Power(w) >= 2
    ensures BindAirflow(w, id, epoch, run).1.Ok? <==>
              && C.Current(w.db, id, epoch) && w.db.cells[id].state !in C.TERMINAL_STATES
              && w.db.cells[id].airflow in {None, Some(run)}
              && w.db.cells[id].policy.Some? && "policy:" <= w.db.cells[id].policy.value
              && RecordsAgree(w.evidence, BindRecord(id, epoch, run, w.db.cells[id].policy.value))
  {
    if C.Current(w.db, id, epoch) && w.db.cells[id].state !in C.TERMINAL_STATES {
      if w.db.cells[id].airflow.Some? {
        BindEvidenceSucceedsExactlyWhen(w, id, epoch, run);
      } else {
        UnboundBindingSucceedsExactlyWhen(w, id, epoch, run);
      }
    }
  }

  lemma UnboundBindingSucceedsExactlyWhen(w: World, id: C.CellId, epoch: nat, run: C.AirflowRun)
    requires Inv(w) && Power(w) >= 2
    requires C.Current(w.db, id, epoch) && w.db.cells[id].state !in C.TERMINAL_STATES && w.db.cells[id].airflow.None?
    ensures BindAirflow(w, id, epoch, run).1.Ok? <==>
              && w.db.cells[id].policy.Some? && "policy:" <= w.db.cells[id].policy.value
              && RecordsAgree(w.evidence, BindRecord(id, epoch, run, w.db.cells[id].policy.value))
  {
    if C.HasKey(w.db.events, id, BindKey(id, epoch, run)) {
      BindingKeyMeansBound(w.db, id, epoch, run);
      assert false;
    }
    C.PatchedExactlyWhenCurrent(w.db, id, epoch, BindKey(id, epoch, run), RunFields(run), run.runId);
    var t := CellTx(w, C.Patch(id, epoch, BindKey(id, epoch, run), RunFields(run), run.runId));
    BindEvidenceSucceedsExactlyWhen(t.0, id, epoch, run);
  }

  /** Exactly these requests get as far as the journal; a committed key may be read back on an ended Cell too. */
  lemma AdmittedExactlyWhenAuthorised(w: World, r: Request)
    ensures Admissible(w, r).Ok? <==>
              && C.Current(w.db, r.cell, r.epoch)
              && w.db.cells[r.cell].airflow == Some(r.run)
              && w.db.cells[r.cell].policy == Some(r.expectedPolicy) && "policy:" <= r.expectedPolicy
              && r.permitted
              && (w.db.cells[r.cell].state in C.TERMINAL_STATES ==>
                    r.resource in {Cleanup, EvidenceLog} || AlreadyCommitted(w, KeyOf(r)))
    ensures Admissible(w, r).Err? ==> ExecuteExternal(w, r) == (w, Err(Admissible(w, r).error))
  {
  }

  /** The backend's policy binding, not cut short, succeeds exactly on a live Cell that has no other policy, under a key
      that is new or has set this policy. */
  lemma BackendPolicySucceedsExactlyWhen(w: World, id: C.CellId, key: string, digest: string, generation: string)
    requires Power(w) >= 1
    ensures var (w', r) := BackendPolicy(w, id, key, digest, generation);
            && (r.Ok? <==>
                  && id in w.db.cells && w.db.cells[id].state in {"dispatching", "queued", "running"}
                  && (w.db.cells[id].policy == Some(digest)
                      || (w.db.cells[id].policy.None? && !C.HasKey(w.db.events, id, C.Named(key)))))
            && (r.Ok? ==> id in w'.db.cells && w'.db.cells[id].policy == Some(digest))
  {
    if id in w.db.cells {
      C.PatchedExactlyWhenCurrent(w.db, id, w.db.cells[id].epoch, C.Named(key), BackendPolicyFields(digest, generation), digest);
    }
  }

  /** The backend's run binding, not cut short, sets the run of a dispatching Cell once; it never replaces another run id
      of a Cell that has moved on. */
  lemma BackendRunSucceedsExactlyWhen(w: World, id: C.CellId, epoch: nat, key: string, run: C.AirflowRun, digest: string)
    requires Power(w) >= 2
    ensures var (w', r) := BackendRun(w, id, epoch, key, run, digest);
            && (r.Ok? <==>
                  && id in w.db.cells
                  && if w.db.cells[id].state == "dispatching" then
                       w.db.cells[id].epoch == epoch && (C.HasKey(w.db.events, id, C.Named(key)) || "policy:" <= digest)
                     else w.db.cells[id].airflow.None? || w.db.cells[id].airflow.value.runId == run.runId)
            && (r.Ok? && id in w.db.cells && w.db.cells[id].state == "dispatching" && !C.HasKey(w.db.events, id, C.Named(key)) ==>
                  && id in w'.db.cells && w'.db.cells[id].airflow == Some(run) && w'.db.cells[id].state == "queued"
                  && w'.evidence == w.evidence + [Record(id, epoch, "airflow_dispatch", digest, Some(C.Named(key)),
                                                         run.dagId + "/" + run.runId)])
  {
    C.PatchedExactlyWhenCurrent(w.db, id, epoch, C.Named(key), BackendRunFields(run), run.runId);
  }

  /** However often an activation is repeated, its policy is recorded once: the second time finds the record. */
  lemma PolicyIsRecordedOnce(w: World, id: C.CellId, epoch: nat, digest: string, actor: string, w': World, actor': string)
    requires PolicyEvidenceOnce(w, id, epoch, digest, actor) == (w', Ok(()))
    ensures PolicyEvidenceOnce(w', id, epoch, digest, actor') == (w', Ok(()))
    ensures w'.evidence == w.evidence || w'.evidence == w.evidence + [Record(id, epoch, "policy_activation", digest, None, actor)]
    ensures w'.evidence == w.evidence <==>
              exists k :: 0 <= k < |w.evidence| && w.evidence[k].cell == id && w.evidence[k].kind == "policy_activation"
                          && w.evidence[k].epoch == epoch && w.evidence[k].policy == digest
  {
    PolicyIsRecorded(w, id, epoch, digest, actor, w');
  }

  lemma PatchBinds(w: World, id: C.CellId, epoch: nat, run: C.AirflowRun, t: World)
    requires Inv(w) && C.Current(w.db, id, epoch) && w.db.cells[id].airflow.None?
    requires CellTx(w, C.Patch(id, epoch, BindKey(id, epoch, run), RunFields(run), run.runId)) == (t, Ok(()))
    ensures Inv(t) && C.Current(t.db, id, epoch) && t.db.cells[id].airflow == Some(run) && t.db.cells[id].state == "running"
  {
    CellTxKeeps(w, C.Patch(id, epoch, BindKey(id, epoch, run), RunFields(run), run.runId), t);
  }

  /** A successful binding leaves the Cell bound to this run at this epoch, with exactly one record of it. */
  lemma BindingBindsTheRun(w: World, id: C.CellId, epoch: nat, run: C.AirflowRun, w': World)
    requires Inv(w) && BindAirflow(w, id, epoch, run) == (w', Ok(()))
    ensures C.Current(w'.db, id, epoch) && w'.db.cells[id].airflow == Some(run) && w'.db.cells[id].policy.Some?
    ensures if w.db.cells[id].airflow.None? then w'.db.cells[id].state == "running" else w'.db == w.db
    ensures ExactlyOneRecord(w'.evidence, BindRecord(id, epoch, run, w'.db.cells[id].policy.value))
  {
    var t := if w.db.cells[id].airflow.Some? then w
             else CellTx(w, C.Patch(id, epoch, BindKey(id, epoch, run), RunFields(run), run.runId)).0;
    if w.db.cells[id].airflow.None? { PatchBinds(w, id, epoch, run, t); }
    var rec := BindRecord(id, epoch, run, t.db.cells[id].policy.value);
    EvidenceOnceLeavesOne(t, rec, w');
    EvidenceOnceKeeps(t, rec, w');
  }

  /** The log holds one event under the key of e, and it has e's kind and payload. */
  ghost predicate ExactlyOneEvent(events: seq<C.Event>, e: C.Event) {
    exists i :: && 0 <= i < |events| && SameEffect(events[i], e)
                && forall k :: 0 <= k < |events| && events[k].cell == e.cell && events[k].key == e.key ==> k == i
  }

  predicate SameEffect(a: C.Event, b: C.Event) {
    a.cell == b.cell && a.key == b.key && a.kind == b.kind && a.payload == b.payload
  }

  /** The log holds one record under the key of rec, for its epoch, policy and kind. */
  ghost predicate ExactlyOneRecord(log: seq<Record>, rec: Record) {
    exists i :: && 0 <= i < |log| && SameMutation(log[i], rec)
                && forall k :: 0 <= k < |log| && log[k].cell == rec.cell && log[k].key == rec.key ==> k == i
  }

  predicate SameMutation(a: Record, b: Record) {
    a.cell == b.cell && a.key == b.key && a.kind == b.kind && a.epoch == b.epoch && a.policy == b.policy
  }

  lemma EffectOnceLeavesOne(w: World, e: C.Event, w': World)
    requires Inv(w) && KeyDated(w.db, e) && EffectOnce(w, e) == (w', Ok(()))
    ensures ExactlyOneEvent(w'.db.events, e)
  {
    EffectOnceKeeps(w, e, w');
    EventWithFinds(w.db.events, e.cell, e.key);
    var events := w'.db.events;
    var found := if C.HasKey(w.db.events, e.cell, e.key) then EventWith(w.db.events, e.cell, e.key).value else e;
    if !C.HasKey(w.db.events, e.cell, e.key) { assert events[|events| - 1] == e; }
    assert found in events;
    var i :| 0 <= i < |events| && events[i] == found;
    assert SameEffect(events[i], e);
    forall k | 0 <= k < |events| && events[k].cell == e.cell && events[k].key == e.key ensures k == i { }
  }

  lemma EvidenceOnceLeavesOne(w: World, rec: Record, w': World)
    requires Inv(w) && rec.key.Some? && EvidenceOnce(w, rec) == (w', Ok(()))
    requires rec.key.value.Named? ==> C.HasKey(w.db.events, rec.cell, rec.key.value)
    ensures ExactlyOneRecord(w'.evidence, rec)
  {
    EvidenceOnceKeeps(w, rec, w');
    EvidenceWithFinds(w.evidence, rec.cell, rec.key.value);
    var log := w'.evidence;
    var seen := EvidenceWith(w.evidence, rec.cell, rec.key.value);
    var found := if seen.Some? then seen.value else rec;
    if seen.None? { assert log[|log| - 1] == rec; }
    assert found in log;
    var i :| 0 <= i < |log| && log[i] == found;
    assert SameMutation(log[i], rec);
    forall k | 0 <= k < |log| && log[k].cell == rec.cell && log[k].key == rec.key ensures k == i { }
  }

  /**
   Whenever a call reports success, however many earlier calls died half-way: the journal holds the receipt as
   committed, and the operation key has exactly one Cell event and exactly one evidence record, both for this receipt.
   */
  lemma SuccessLeavesExactlyOneOfEach(w: World, r: Request, w': World, result: string)
    requires Inv(w) && ExecuteExternal(w, r) == (w', Ok(result))
    ensures ExactlyOneEvent(w'.db.events, EffectEvent(r, result))
    ensures ExactlyOneRecord(w'.evidence, EffectEvidence(r, result))
    ensures AlreadyCommitted(w', KeyOf(r)) && w'.journal.rows[KeyOf(r)].result == result
  {
    var ran := J.Execute(w.journal, RefOf(r), r.attempt);
    var w1 := w.(journal := ran.0);
    J.ExecuteKeeps(w.journal, RefOf(r), r.attempt, ran.0);
    J.ResultsAreCommitted(w.journal, RefOf(r), r.attempt, ran.0, result);
    RecordedLeavesOne(w1, r, result, w');
  }

  lemma RecordedLeavesOne(w: World, r: Request, result: string, w': World)
    requires Inv(w) && KeyDated(w.db, EffectEvent(r, result)) && Recorded(w, r, result) == (w', Ok(result))
    ensures ExactlyOneEvent(w'.db.events, EffectEvent(r, result))
    ensures ExactlyOneRecord(w'.evidence, EffectEvidence(r, result))
    ensures w'.journal.rows == w.journal.rows
  {
    var noted := EffectOnce(w, EffectEvent(r, result));
    EffectOnceLeavesOne(w, EffectEvent(r, result), noted.0);
    EffectOnceKeeps(w, EffectEvent(r, result), noted.0);
    EvidenceOnceLeavesOne(noted.0, EffectEvidence(r, result), w');
    EvidenceOnceKeeps(noted.0, EffectEvidence(r, result), w');
  }

  lemma SuccessInRun(run: seq<World>, i: nat, r: Request, p: nat, x: string)
    requires Runs.IsRun(Init, Next, run) && i < |run| - 1
    requires ExecuteExternal(WithPower(run[i], p), r) == (run[i + 1], Ok(x))
    ensures ExactlyOneEvent(run[i + 1].db.events, EffectEvent(r, x))
    ensures ExactlyOneRecord(run[i + 1].evidence, EffectEvidence(r, x))
    ensures AlreadyCommitted(run[i + 1], KeyOf(r)) && run[i + 1].journal.rows[KeyOf(r)].result == x
  {
    InvHolds(run, i);
    PowerIsIrrelevant(run[i].journal, WithPower(run[i], p).journal);
    SuccessLeavesExactlyOneOfEach(WithPower(run[i], p), r, run[i + 1], x);
  }

  /** A call for a committed key can only return the committed receipt. */
  lemma CommittedAnswersFromTheRow(w: World, r: Request)
    requires Inv(w) && AlreadyCommitted(w, KeyOf(r)) && ExecuteExternal(w, r).1.Ok?
    ensures ExecuteExternal(w, r).1 == Ok(w.journal.rows[KeyOf(r)].result)
  {
    var ran := J.Execute(w.journal, RefOf(r), r.attempt);
    J.ExecuteKeeps(w.journal, RefOf(r), r.attempt, ran.0);
    J.ResultsAreCommitted(w.journal, RefOf(r), r.attempt, ran.0, ran.1.value);
  }

  /** Once a key is committed, every later successful call for it, by any request, returns that one receipt. */
  lemma OneReceiptForEver(run: seq<World>, i: nat, j: nat, key: C.OpKey)
    requires Runs.IsRun(Init, Next, run) && i <= j < |run| && AlreadyCommitted(run[i], key)
    ensures forall r, power :: KeyOf(r) == key && ExecuteExternal(WithPower(run[j], power), r).1.Ok? ==>
              ExecuteExternal(WithPower(run[j], power), r).1 == Ok(run[i].journal.rows[key].result)
  {
    KeptInRun(run, i, j);
    InvHolds(run, j);
    forall r, power | KeyOf(r) == key && ExecuteExternal(WithPower(run[j], power), r).1.Ok?
      ensures ExecuteExternal(WithPower(run[j], power), r).1 == Ok(run[i].journal.rows[key].result)
    {
      PowerIsIrrelevant(run[j].journal, WithPower(run[j], power).journal);
      CommittedAnswersFromTheRow(WithPower(run[j], power), r);
    }
  }

  /**
   At every moment of a run the provider has been called for a key at most once more often than it was definitely
   observed to hold nothing, and at most as often as the key's retry budget allows.
   */
  lemma ProviderIsNeverCalledBlindly(run: seq<World>, i: nat, key: C.OpKey)
    requires Runs.IsRun(Init, Next, run) && i < |run|
    ensures J.Count(run[i].journal.calls, key) <= 1 + J.Count(run[i].journal.absences, key)
    ensures key in run[i].journal.rows ==>
              J.Count(run[i].journal.calls, key) <= run[i].journal.rows[key].maxAttempts
  {
    InvHolds(run, i);
    if key in run[i].journal.rows { assert J.RowInv(run[i].journal, key); }
    assert key !in run[i].journal.calls ==> J.Count(run[i].journal.calls, key) == 0;
  }

  ghost predicate Authorised(w: World, r: Request) {
    && C.Current(w.db, r.cell, r.epoch)
    && w.db.cells[r.cell].airflow == Some(r.run)
    && w.db.cells[r.cell].policy == Some(r.expectedPolicy)
    && r.permitted
    && (w.db.cells[r.cell].state in C.TERMINAL_STATES ==> r.resource in TERMINAL_EFFECTS)
  }

  predicate SameJournal(w: World, w': World) {
    w'.journal.rows == w.journal.rows && w'.journal.calls == w.journal.calls && w'.journal.effects == w.journal.effects
  }

  lemma ActivateReachesNoProvider(w: World, id: C.CellId, policy: Policy, actor: string)
    ensures SameJournal(w, Activate(w, id, policy, actor).0)
  {
    var a := Activated(w, id, policy.digest, actor);
    assert SameJournal(w, a.0);
    if a.1.Ok? && id in a.0.db.cells {
      var s := SetPolicy(a.0, id, policy.digest);
      assert SameJournal(w, s.0);
      assert SameJournal(w, PolicyEvidenceOnce(s.0, id, a.0.db.cells[id].epoch, policy.digest, actor).0);
    }
  }

  lemma BindReachesNoProvider(w: World, id: C.CellId, epoch: nat, run: C.AirflowRun)
    ensures SameJournal(w, BindAirflow(w, id, epoch, run).0)
  {
    var t := CellTx(w, C.Patch(id, epoch, BindKey(id, epoch, run), RunFields(run), run.runId)).0;
    assert SameJournal(w, t);
    assert id in t.db.cells ==> SameJournal(t, BindEvidence(t, id, epoch, run).0);
    assert id in w.db.cells ==> SameJournal(w, BindEvidence(w, id, epoch, run).0);
  }

  lemma BackendRunReachesNoProvider(w: World, id: C.CellId, epoch: nat, key: string, run: C.AirflowRun, digest: string)
    ensures SameJournal(w, BackendRun(w, id, epoch, key, run, digest).0)
  {
    assert SameJournal(w, CellTx(w, C.Patch(id, epoch, C.Named(key), BackendRunFields(run), run.runId)).0);
  }

  lemma OtherCallsReachNoProvider(w: World, op: Op, power: nat, w': World)
    requires StepOp(w, op, power, w') && !op.External?
    ensures SameJournal(w, w')
  {
    var v := WithPower(w, power);
    match op {
      case ActivateCell(id, policy, actor) => ActivateReachesNoProvider(v, id, policy, actor);
      case Bind(id, epoch, run) => BindReachesNoProvider(v, id, epoch, run);
      case BindPolicy(_, _, _, _) =>
      case BindDispatched(id, epoch, name, run, digest) => BackendRunReachesNoProvider(v, id, epoch, name, run, digest);
      case Other(_) =>
      case Note(_) =>
    }
  }

  /**
   A step that calls the provider is made by the bound run, at the current epoch and policy, permitted, and on a Cell
   that is not terminal unless the effect is cleanup or evidence.
   */
  lemma OnlyAuthorisedCallsReachTheProvider(w: World, w': World)
    requires Inv(w) && Next(w, w') && w'.journal.calls != w.journal.calls
    ensures exists r, power :: StepOp(w, External(r), power, w') && Authorised(w, r)
  {
    var op, power :| StepOp(w, op, power, w');
    if !op.External? {
      OtherCallsReachNoProvider(w, op, power, w');
      assert false;
    } else {
      var r := op.request;
      var v := WithPower(w, power);
      if AlreadyCommitted(v, KeyOf(r)) && Admissible(v, r).Ok? { CommittedMakesNoCall(v, r); }
      assert Authorised(w, r);
    }
  }

  lemma CommittedMakesNoCall(w: World, r: Request)
    requires AlreadyCommitted(w, KeyOf(r))
    ensures ExecuteExternal(w, r).0.journal.calls == w.journal.calls
  {
  }

  // ---- convergence ----

  /** The same request again: only what the provider answers, and when, may differ. */
  predicate SameRequest(r: Request, r': Request) {
    r'.(attempt := r.attempt) == r && r'.attempt.intent == r.attempt.intent
  }

  predicate UsesKey(op: Op, key: C.OpKey) {
    match op
    case ActivateCell(_, _, _) => key.Derived? && key.kind == "policy_activation"
    case Bind(id, epoch, run) => key == BindKey(id, epoch, run)
    case External(r) => key == KeyOf(r)
    case BindPolicy(_, name, _, _) => key == C.Named(name)
    case BindDispatched(_, _, name, _, _) => key == C.Named(name)
    case Note(rec) => false
    case Other(Patch(_, _, k, _, _)) => key == k
    case Other(Record(e)) => key == e.key
    case Other(_) => false
  }

  /** Nothing but this request has used its key, and what its earlier calls left behind is what it would leave. */
  ghost predicate Own(w: World, r: Request) {
    var key := KeyOf(r);
    && (key in w.journal.rows ==> J.SameIdentity(RefOf(r), w.journal.rows[key]) && w.journal.rows[key].intent == r.attempt.intent)
    && (forall i :: 0 <= i < |w.db.events| && w.db.events[i].cell == r.cell && w.db.events[i].key == key ==>
          AlreadyCommitted(w, key) && w.db.events[i] == EffectEvent(r, w.journal.rows[key].result))
    && (forall i :: 0 <= i < |w.evidence| && w.evidence[i].cell == r.cell && w.evidence[i].key == Some(key) ==>
          AlreadyCommitted(w, key) && w.evidence[i] == EffectEvidence(r, w.journal.rows[key].result))
  }

  /** Once the journal has given a receipt, two more transactions finish the call. */
  lemma ReceiptIsRecorded(w: World, r: Request, j': J.Journal, result: string)
    requires Inv(w) && Own(w, r) && Admissible(w, r).Ok?
    requires J.Execute(w.journal, RefOf(r), r.attempt) == (j', Ok(result)) && j'.power >= 2
    ensures ExecuteExternal(w, r).1 == Ok(result)
    ensures ExactlyOneEvent(ExecuteExternal(w, r).0.db.events, EffectEvent(r, result))
    ensures ExactlyOneRecord(ExecuteExternal(w, r).0.evidence, EffectEvidence(r, result))
  {
    var w1 := w.(journal := j');
    J.ExecuteKeeps(w.journal, RefOf(r), r.attempt, j');
    J.ResultsAreCommitted(w.journal, RefOf(r), r.attempt, j', result);
    OwnRecordingSucceeds(w, w1, r, result);
    SuccessLeavesExactlyOneOfEach(w, r, ExecuteExternal(w, r).0, result);
  }

  /** Where only r has used its key, its event and its record are new or already its own. */
  lemma OwnRecordingSucceeds(w: World, w1: World, r: Request, result: string)
    requires Inv(w) && Own(w, r) && w1.db == w.db && w1.evidence == w.evidence && Power(w1) >= 2
    requires C.Current(w.db, r.cell, r.epoch)
    requires AlreadyCommitted(w, KeyOf(r)) ==> w.journal.rows[KeyOf(r)].result == result
    ensures Recorded(w1, r, result).1 == Ok(result)
  {
    var e, rec := EffectEvent(r, result), EffectEvidence(r, result);
    EventWithFinds(w.db.events, e.cell, e.key);
    EvidenceWithFinds(w.evidence, rec.cell, rec.key.value);
    var noted := EffectOnce(w1, e);
    assert noted.1 == Ok(()) && noted.0.evidence == w.evidence && Power(noted.0) >= 1;
    assert EvidenceOnce(noted.0, rec).1 == Ok(());
  }

  /**
   A call that is admissible and unopposed, whose receipt the journal or the provider can give, and that lives for
   two transactions more than the journal needs, succeeds with that receipt and leaves exactly one event and one record.
   */
  lemma CallConverges(w: World, r: Request, x: string)
    requires Inv(w) && Own(w, r) && Admissible(w, r).Ok? && J.Unopposed(w.journal, RefOf(r), r.attempt)
    requires J.ReceiptKnown(w.journal, RefOf(r), r.attempt, x) && Power(w) >= J.Effort(r.attempt) + 2
    ensures ExecuteExternal(w, r).1 == Ok(x)
    ensures ExactlyOneEvent(ExecuteExternal(w, r).0.db.events, EffectEvent(r, x))
    ensures ExactlyOneRecord(ExecuteExternal(w, r).0.evidence, EffectEvidence(r, x))
  {
    J.KnownReceiptIsReturned(w.journal, RefOf(r), r.attempt, x);
    ReceiptIsRecorded(w, r, J.Execute(w.journal, RefOf(r), r.attempt).0, x);
  }

  // ---- convergence over runs ----

  predicate CellOpUses(op: C.Op, key: C.OpKey) {
    match op
    case Patch(_, _, k, _, _) => k == key
    case Record(e) => e.key == key
    case Ensure(_) => false
    case Activate(_, _) => false
    case TakeEpoch(_, _, _) => false
  }

  /** Nothing under the key was written: neither a journal row, nor an event, nor an evidence record. */
  ghost predicate Untouched(w: World, w': World, key: C.OpKey) {
    && (key in w.journal.rows <==> key in w'.journal.rows)
    && (key in w.journal.rows ==> w'.journal.rows[key] == w.journal.rows[key])
    && w.db.events <= w'.db.events
    && (forall i :: |w.db.events| <= i < |w'.db.events| ==> w'.db.events[i].key != key)
    && w.evidence <= w'.evidence
    && (forall i :: |w.evidence| <= i < |w'.evidence| ==> w'.evidence[i].key != Some(key))
  }

  lemma UntouchedKeepsOwn(w: World, w': World, r: Request)
    requires Own(w, r) && Untouched(w, w', KeyOf(r))
    ensures Own(w', r)
  {
  }

  lemma CellTxUntouched(w: World, op: C.Op, key: C.OpKey, w': World)
    requires w' == CellTx(w, op).0 && !CellOpUses(op, key) && (key.Named? || key.Derived?)
    ensures Untouched(w, w', key)
  {
  }

  lemma UntouchedTransitive(w: World, v: World, u: World, key: C.OpKey)
    requires Untouched(w, v, key) && Untouched(v, u, key)
    ensures Untouched(w, u, key)
  {
  }

  lemma EvidenceUntouched(w: World, rec: Record, key: C.OpKey, w': World)
    requires rec.key.Some? && rec.key != Some(key) && w' == EvidenceOnce(w, rec).0
    ensures Untouched(w, w', key)
  {
  }

  lemma SetPolicyUntouched(w: World, id: C.CellId, digest: string, key: C.OpKey, w': World)
    requires id in w.db.cells && w' == SetPolicy(w, id, digest).0
    requires key.Named? || (key.Derived? && key.kind != "policy_activation")
    ensures Untouched(w, w', key)
  {
    var epoch := w.db.cells[id].epoch;
    CellTxUntouched(w, C.Patch(id, epoch, PolicyKey(id, epoch, digest), PolicyFields(digest), digest), key, w');
  }

  lemma PolicyEvidenceUntouched(w: World, id: C.CellId, epoch: nat, digest: string, actor: string, key: C.OpKey, w': World)
    requires w' == PolicyEvidenceOnce(w, id, epoch, digest, actor).0
    ensures Untouched(w, w', key)
  {
  }

  lemma ActivateUntouched(w: World, id: C.CellId, policy: Policy, actor: string, key: C.OpKey, w': World)
    requires w' == Activate(w, id, policy, actor).0
    requires key.Named? || (key.Derived? && key.kind != "policy_activation")
    ensures Untouched(w, w', key)
  {
    var a := Activated(w, id, policy.digest, actor);
    CellTxUntouched(w, C.Activate(id, actor), key, a.0);
    if a.1.Ok? && id in a.0.db.cells {
      var epoch := a.0.db.cells[id].epoch;
      var s := SetPolicy(a.0, id, policy.digest);
      SetPolicyUntouched(a.0, id, policy.digest, key, s.0);
      UntouchedTransitive(w, a.0, s.0, key);
      var e := PolicyEvidenceOnce(s.0, id, epoch, policy.digest, actor).0;
      PolicyEvidenceUntouched(s.0, id, epoch, policy.digest, actor, key, e);
      UntouchedTransitive(w, s.0, e, key);
    }
  }

  lemma BindEvidenceUntouched(w: World, id: C.CellId, epoch: nat, run: C.AirflowRun, key: C.OpKey, w': World)
    requires id in w.db.cells && w' == BindEvidence(w, id, epoch, run).0 && key != BindKey(id, epoch, run)
    ensures Untouched(w, w', key)
  {
    var digest := RequirePolicy(w.db.cells[id]);
    if digest.Some? {
      EvidenceUntouched(w, BindRecord(id, epoch, run, digest.value), key, w');
    }
  }

  lemma PatchAndEvidenceUntouched(w: World, id: C.CellId, epoch: nat, run: C.AirflowRun, key: C.OpKey, t: World)
    requires t == CellTx(w, C.Patch(id, epoch, BindKey(id, epoch, run), RunFields(run), run.runId)).0
    requires (key.Named? || key.Derived?) && key != BindKey(id, epoch, run)
    ensures Untouched(w, t, key)
    ensures id in t.db.cells ==> Untouched(w, BindEvidence(t, id, epoch, run).0, key)
  {
    CellTxUntouched(w, C.Patch(id, epoch, BindKey(id, epoch, run), RunFields(run), run.runId), key, t);
    if id in t.db.cells {
      BindEvidenceUntouched(t, id, epoch, run, key, BindEvidence(t, id, epoch, run).0);
      UntouchedTransitive(w, t, BindEvidence(t, id, epoch, run).0, key);
    }
  }

  lemma BindUntouched(w: World, id: C.CellId, epoch: nat, run: C.AirflowRun, key: C.OpKey, w': World)
    requires w' == BindAirflow(w, id, epoch, run).0 && (key.Named? || key.Derived?) && key != BindKey(id, epoch, run)
    ensures Untouched(w, w', key)
  {
    var t := CellTx(w, C.Patch(id, epoch, BindKey(id, epoch, run), RunFields(run), run.runId)).0;
    if id in w.db.cells { BindEvidenceUntouched(w, id, epoch, run, key, BindEvidence(w, id, epoch, run).0); }
    PatchAndEvidenceUntouched(w, id, epoch, run, key, t);
  }

  lemma ExternalUntouched(w: World, r: Request, key: C.OpKey, w': World)
    requires Inv(w) && w' == ExecuteExternal(w, r).0 && (key.Named? || key.Derived?) && key != KeyOf(r)
    ensures Untouched(w, w', key)
  {
    if Admissible(w, r).Ok? {
      var ran := J.Execute(w.journal, RefOf(r), r.attempt);
      J.ExecuteKeeps(w.journal, RefOf(r), r.attempt, ran.0);
      var w1 := w.(journal := ran.0);
      assert Untouched(w, w1, key);
      if ran.1.Ok? {
        var noted := EffectOnce(w1, EffectEvent(r, ran.1.value));
        CellTxUntouched(w1, C.Record(EffectEvent(r, ran.1.value)), key, noted.0);
        UntouchedTransitive(w, w1, noted.0, key);
        if noted.1.Ok? {
          EvidenceUntouched(noted.0, EffectEvidence(r, ran.1.value), key, w');
          UntouchedTransitive(w, noted.0, w', key);
        }
      }
    }
  }

  lemma JournalKeepsOwn(w: World, r: Request, r': Request, w': World)
    requires Inv(w) && Own(w, r) && SameRequest(r, r')
    requires w' == w.(journal := J.Execute(w.journal, RefOf(r'), r'.attempt).0)
    ensures Inv(w') && Own(w', r)
  {
    J.ExecuteKeeps(w.journal, RefOf(r'), r'.attempt, w'.journal);
    if KeyOf(r) in w'.journal.rows { J.RowBelongsToItsCaller(w.journal, RefOf(r'), r'.attempt, w'.journal); }
  }

  lemma EffectKeepsOwn(w: World, r: Request, result: string, w': World)
    requires Own(w, r) && AlreadyCommitted(w, KeyOf(r)) && w.journal.rows[KeyOf(r)].result == result
    requires w' == EffectOnce(w, EffectEvent(r, result)).0
    ensures Own(w', r) && SameJournal(w, w')
  {
    assert w'.db.events == w.db.events || w'.db.events == w.db.events + [EffectEvent(r, result)];
  }

  lemma EvidenceKeepsOwn(w: World, r: Request, result: string, w': World)
    requires Own(w, r) && AlreadyCommitted(w, KeyOf(r)) && w.journal.rows[KeyOf(r)].result == result
    requires w' == EvidenceOnce(w, EffectEvidence(r, result)).0
    ensures Own(w', r)
  {
    assert w'.evidence == w.evidence || w'.evidence == w.evidence + [EffectEvidence(r, result)];
  }

  lemma RecordedKeepsOwn(w: World, r: Request, result: string, w': World)
    requires Own(w, r) && AlreadyCommitted(w, KeyOf(r)) && w.journal.rows[KeyOf(r)].result == result
    requires w' == Recorded(w, r, result).0
    ensures Own(w', r)
  {
    var noted := EffectOnce(w, EffectEvent(r, result));
    EffectKeepsOwn(w, r, result, noted.0);
    EvidenceKeepsOwn(noted.0, r, result, EvidenceOnce(noted.0, EffectEvidence(r, result)).0);
  }

  /** However far the same request gets before it dies, what it leaves behind is its own. */
  lemma SameRequestKeepsOwn(w: World, r: Request, r': Request, w': World)
    requires Inv(w) && Own(w, r) && SameRequest(r, r') && w' == ExecuteExternal(w, r').0
    ensures Own(w', r)
  {
    if Admissible(w, r').Ok? {
      var ran := J.Execute(w.journal, RefOf(r'), r'.attempt);
      var w1 := w.(journal := ran.0);
      JournalKeepsOwn(w, r, r', w1);
      if ran.1.Ok? {
        J.ResultsAreCommitted(w.journal, RefOf(r'), r'.attempt, ran.0, ran.1.value);
        assert Recorded(w1, r', ran.1.value) == Recorded(w1, r, ran.1.value);
        RecordedKeepsOwn(w1, r, ran.1.value, w');
      }
    }
  }

  /** Steps in which the key of r is used by r alone. */
  ghost predicate OwnStep(r: Request, w: World, w': World) {
    exists op, power :: StepOp(w, op, power, w')
                        && ((op.External? && SameRequest(r, op.request)) || !UsesKey(op, KeyOf(r)))
  }

  lemma BackendPolicyUntouched(w: World, id: C.CellId, name: string, digest: string, generation: string, key: C.OpKey, w': World)
    requires w' == BackendPolicy(w, id, name, digest, generation).0 && (key.Named? || key.Derived?) && key != C.Named(name)
    ensures Untouched(w, w', key)
  {
    if id in w.db.cells {
      var op := C.Patch(id, w.db.cells[id].epoch, C.Named(name), BackendPolicyFields(digest, generation), digest);
      CellTxUntouched(w, op, key, CellTx(w, op).0);
    }
  }

  lemma BackendRunUntouched(
      w: World, id: C.CellId, epoch: nat, name: string, run: C.AirflowRun, digest: string, key: C.OpKey, w': World)
    requires w' == BackendRun(w, id, epoch, name, run, digest).0 && (key.Named? || key.Derived?) && key != C.Named(name)
    ensures Untouched(w, w', key)
  {
    var op := C.Patch(id, epoch, C.Named(name), BackendRunFields(run), run.runId);
    var t := CellTx(w, op);
    CellTxUntouched(w, op, key, t.0);
    if w' != w && w' != t.0 {
      assert w'.evidence == t.0.evidence + [w'.evidence[|t.0.evidence|]];
    }
  }

  lemma OtherKeysUntouched(w: World, op: Op, key: C.OpKey, w': World)
    requires Inv(w) && w' == Perform(w, op).0 && !UsesKey(op, key) && (key.Named? || key.Derived?)
    requires op.Note? ==> op.rec.key.None?
    ensures Untouched(w, w', key)
  {
    match op {
      case ActivateCell(id, policy, actor) => ActivateUntouched(w, id, policy, actor, key, w');
      case Bind(id, epoch, run) => BindUntouched(w, id, epoch, run, key, w');
      case External(q) => ExternalUntouched(w, q, key, w');
      case BindPolicy(id, name, digest, generation) => BackendPolicyUntouched(w, id, name, digest, generation, key, w');
      case BindDispatched(id, epoch, name, run, digest) => BackendRunUntouched(w, id, epoch, name, run, digest, key, w');
      case Other(op) => CellTxUntouched(w, op, key, w');
      case Note(_) =>
    }
  }

  lemma OwnStepKeepsOwn(r: Request, w: World, w': World)
    requires Inv(w) && Own(w, r) && OwnStep(r, w, w')
    ensures Inv(w') && Own(w', r)
  {
    var op, power :| StepOp(w, op, power, w')
                     && ((op.External? && SameRequest(r, op.request)) || !UsesKey(op, KeyOf(r)));
    StepOpKeepsOwn(r, w, op, power, w');
  }

  lemma StepOpKeepsOwn(r: Request, w: World, op: Op, power: nat, w': World)
    requires Inv(w) && Own(w, r) && StepOp(w, op, power, w')
    requires (op.External? && SameRequest(r, op.request)) || !UsesKey(op, KeyOf(r))
    ensures Inv(w') && Own(w', r)
  {
    var v := WithPower(w, power);
    PowerIsIrrelevant(w.journal, v.journal);
    assert Inv(v) && Own(v, r);
    PerformKeeps(v, op, w');
    PerformKeepsOwn(r, v, op, w');
  }

  lemma PerformKeepsOwn(r: Request, v: World, op: Op, w': World)
    requires Inv(v) && Own(v, r) && w' == Perform(v, op).0 && (op.Note? ==> op.rec.key.None?)
    requires (op.External? && SameRequest(r, op.request)) || !UsesKey(op, KeyOf(r))
    ensures Own(w', r)
  {
    if op.External? && SameRequest(r, op.request) {
      SameRequestKeepsOwn(v, r, op.request, w');
    } else {
      OtherKeysUntouched(v, op, KeyOf(r), w');
      UntouchedKeepsOwn(v, w', r);
    }
  }

  lemma OwnInRun(run: seq<World>, i: nat, r: Request)
    requires Runs.IsRun(Init, (w, w') => OwnStep(r, w, w'), run) && i < |run|
    ensures Inv(run[i]) && Own(run[i], r)
  {
    var next := (w, w') => OwnStep(r, w, w');
    var inv := w => Inv(w) && Own(w, r);
    forall w, w' | inv(w) && next(w, w') ensures inv(w') { OwnStepKeepsOwn(r, w, w'); }
    Runs.InvariantHolds(Init, next, inv, run, i);
  }

  /**
   Take any run in which r has been tried any number of times and has died anywhere, while other calls and other
   code worked in between under their own keys. Whenever r is admissible and unopposed and its receipt is known, a
   call that is not cut short succeeds with it, and leaves exactly one Cell event and exactly one evidence record.
   */
  lemma RepeatedCallsConverge(run: seq<World>, i: nat, r: Request, power: nat, x: string)
    requires Runs.IsRun(Init, (w, w') => OwnStep(r, w, w'), run) && i < |run|
    requires Admissible(run[i], r).Ok? && J.Unopposed(run[i].journal, RefOf(r), r.attempt)
    requires J.ReceiptKnown(run[i].journal, RefOf(r), r.attempt, x) && power >= J.Effort(r.attempt) + 2
    ensures var done := ExecuteExternal(WithPower(run[i], power), r);
            && done.1 == Ok(x)
            && ExactlyOneEvent(done.0.db.events, EffectEvent(r, x))
            && ExactlyOneRecord(done.0.evidence, EffectEvidence(r, x))
  {
    OwnInRun(run, i, r);
    var v := WithPower(run[i], power);
    PowerIsIrrelevant(run[i].journal, v.journal);
    assert Own(v, r);
    CallConverges(v, r, x);
  }

  // ---- at most one effect ----

  /** Steps in which an absence is reported only while the provider holds nothing for the key. */
  ghost predicate TruthfulStep(w: World, w': World) {
    exists op, power :: StepOp(w, op, power, w')
                        && (op.External? ==> J.Truthful(w.journal, KeyOf(op.request), op.request.attempt))
  }

  lemma TruthfulStepKeepsOneEffect(w: World, w': World)
    requires Inv(w) && J.OneEffectEach(w.journal) && TruthfulStep(w, w')
    ensures Inv(w') && J.OneEffectEach(w'.journal)
  {
    StepKeeps(w, w');
    var op, power :| StepOp(w, op, power, w')
                     && (op.External? ==> J.Truthful(w.journal, KeyOf(op.request), op.request.attempt));
    if op.External? {
      ExternalTakesEffectOnce(WithPower(w, power), op.request, w');
    } else {
      OtherCallsReachNoProvider(w, op, power, w');
    }
  }

  lemma ExternalTakesEffectOnce(w: World, r: Request, w': World)
    requires J.Inv(WithPower(w, 0).journal) && J.OneEffectEach(w.journal) && J.Truthful(w.journal, KeyOf(r), r.attempt)
    requires w' == ExecuteExternal(w, r).0
    ensures J.OneEffectEach(w'.journal)
  {
    PowerIsIrrelevant(WithPower(w, 0).journal, w.journal);
    if Admissible(w, r).Ok? {
      var ran := J.Execute(w.journal, RefOf(r), r.attempt);
      J.ExecuteTakesEffectOnce(w.journal, RefOf(r), r.attempt, ran.0);
      assert ran.1.Ok? ==> w'.journal.effects == ran.0.effects;
    }
  }

  /** With truthful reports of absence no operation key ever takes effect twice, through any crashes and re-runs. */
  lemma NoKeyTakesEffectTwice(run: seq<World>, i: nat, key: C.OpKey)
    requires Runs.IsRun(Init, TruthfulStep, run) && i < |run|
    ensures J.Count(run[i].journal.effects, key) <= 1
  {
    var inv := (w: World) => Inv(w) && J.OneEffectEach(w.journal);
    forall w, w' | inv(w) && TruthfulStep(w, w') ensures inv(w') { TruthfulStepKeepsOneEffect(w, w'); }
    Runs.InvariantHolds(Init, TruthfulStep, inv, run, i);
  }

  // ---- the runtime object ----

  /** `CoreCapabilityRuntime`: the stores it joins, written one transaction at a time until the power runs out. */
  class CoreCapabilityRuntime {
    const cells: C.CellStore
    var journal: J.Journal
    var evidence: seq<Record>

    ghost function Now(): World reads this, cells { World(cells.State(), journal, evidence) }

    constructor (cells: C.CellStore, journal: J.Journal, evidence: seq<Record>)
      ensures this.cells == cells && this.journal == journal && this.evidence == evidence
    {
      this.cells, this.journal, this.evidence := cells, journal, evidence;
    }

    method TakePower() returns (alive: bool)
      modifies this`journal
      ensures alive == (old(journal.power) > 0)
      ensures journal == if alive then old(journal).(power := old(journal.power) - 1) else old(journal)
    {
      alive := journal.power > 0;
      if alive { journal := journal.(power := journal.power - 1); }
    }

    /** Append the event; if its key is taken, look back for the event that has it and compare. */
    method RecordEffectOnce(e: C.Event) returns (r: Result<(), CoreError>)
      modifies this, cells
      ensures (Now(), r) == EffectOnce(old(Now()), e)
    {
      ghost var before := Now();
      var alive := TakePower();
      if !alive { return Err(Died); }
      var appended := cells.AppendEvent(e);
      if appended.Ok? { return Ok(()); }
      if appended.error != C.DuplicateOperation { return Err(CellStore(appended.error)); }
      var i := |cells.events|;
      assert cells.events[..i] == before.db.events;
      while i > 0
        invariant 0 <= i <= |cells.events|
        invariant EventWith(before.db.events, e.cell, e.key) == EventWith(cells.events[..i], e.cell, e.key)
      {
        i := i - 1;
        var seen := cells.events[i];
        assert cells.events[..i + 1][..i] == cells.events[..i];
        if seen.cell == e.cell && seen.key == e.key {
          return if seen.kind != e.kind || seen.payload != e.payload then Err(DifferentEffect) else Ok(());
        }
      }
      r := Err(DifferentEffect);
    }

    /** Look back for a record under the key and compare; append one only if there is none. */
    method RecordEvidenceOnce(rec: Record) returns (r: Result<(), CoreError>)
      requires rec.key.Some?
      modifies this
      ensures (Now(), r) == EvidenceOnce(old(Now()), rec)
    {
      var i := |evidence|;
      assert evidence[..i] == evidence;
      while i > 0
        invariant 0 <= i <= |evidence|
        invariant EvidenceWith(evidence, rec.cell, rec.key.value) == EvidenceWith(evidence[..i], rec.cell, rec.key.value)
      {
        i := i - 1;
        var seen := evidence[i];
        assert evidence[..i + 1][..i] == evidence[..i];
        if seen.cell == rec.cell && seen.key == rec.key {
          return if seen.epoch != rec.epoch || seen.policy != rec.policy || seen.kind != rec.kind
            then Err(DifferentEvidence) else Ok(());
        }
      }
      var alive := TakePower();
      if !alive { return Err(Died); }
      evidence := evidence + [rec];
      r := Ok(());
    }

    method RecordPolicyOnce(id: C.CellId, epoch: nat, digest: string, actor: string) returns (r: Result<(), CoreError>)
      modifies this
      ensures (Now(), r) == PolicyEvidenceOnce(old(Now()), id, epoch, digest, actor)
    {
      var i := |evidence|;
      while i > 0
        invariant 0 <= i <= |evidence|
        invariant forall k :: i <= k < |evidence| ==>
                    !(evidence[k].cell == id && evidence[k].kind == "policy_activation" && evidence[k].epoch == epoch
                      && evidence[k].policy == digest)
      {
        i := i - 1;
        var seen := evidence[i];
        if seen.cell == id && seen.kind == "policy_activation" && seen.epoch == epoch && seen.policy == digest {
          return Ok(());
        }
      }
      var alive := TakePower();
      if !alive { return Err(Died); }
      evidence := evidence + [Record(id, epoch, "policy_activation", digest, None, actor)];
      r := Ok(());
    }

    method ActivateWithPolicy(id: C.CellId, policy: Policy, actor: string) returns (r: Result<(), CoreError>)
      modifies this, cells
      ensures (Now(), r) == Activate(old(Now()), id, policy, actor)
    {
      if policy.repo != id.repo || policy.target != id.target { return Err(PolicyMismatch); }
      r := ActivateOrFind(id, policy.digest, actor);
      if r.Err? { return r; }
      if id !in cells.cells { return Err(CellStore(C.UnknownCell)); }
      var epoch := cells.cells[id].epoch;
      r := PatchPolicy(id, policy.digest);
      if r.Err? { return r; }
      r := RecordPolicyOnce(id, epoch, policy.digest, actor);
    }

    /** A new activation, or the busy Cell, unless that carries another policy. */
    method ActivateOrFind(id: C.CellId, digest: string, actor: string) returns (r: Result<(), CoreError>)
      modifies this, cells
      ensures (Now(), r) == Activated(old(Now()), id, digest, actor)
    {
      var alive := TakePower();
      if !alive { return Err(Died); }
      var activated := cells.ActivateCell(id, actor);
      if activated.Err? {
        if activated.error != C.CellBusy { return Err(CellStore(activated.error)); }
        if id in cells.cells && cells.cells[id].policy.Some? && cells.cells[id].policy != Some(digest) {
          return Err(DifferentPolicy);
        }
      }
      r := Ok(());
    }

    method PatchPolicy(id: C.CellId, digest: string) returns (r: Result<(), CoreError>)
      requires id in cells.cells
      modifies this, cells
      ensures (Now(), r) == SetPolicy(old(Now()), id, digest)
      ensures cells.cells.Keys == old(cells.cells.Keys)
    {
      var alive := TakePower();
      if !alive { return Err(Died); }
      var epoch := cells.cells[id].epoch;
      var patched := cells.PatchCell(id, epoch, PolicyKey(id, epoch, digest), PolicyFields(digest), digest);
      // the epoch was read just now, so a refused patch found its key taken
      if patched.Err? && cells.cells[id].policy != Some(digest) { return Err(PolicyKeyReused); }
      r := Ok(());
    }

    method BindRunEvidence(id: C.CellId, epoch: nat, run: C.AirflowRun) returns (r: Result<(), CoreError>)
      requires id in cells.cells
      modifies this
      ensures (Now(), r) == BindEvidence(old(Now()), id, epoch, run)
    {
      var digest := RequirePolicy(cells.cells[id]);
      if digest.None? { return Err(NoPolicy); }
      r := RecordEvidenceOnce(BindRecord(id, epoch, run, digest.value));
    }

    method BindRun(id: C.CellId, epoch: nat, run: C.AirflowRun) returns (r: Result<(), CoreError>)
      modifies this, cells
      ensures (Now(), r) == BindAirflow(old(Now()), id, epoch, run)
    {
      if id !in cells.cells { return Err(CellStore(C.UnknownCell)); }
      var cell := cells.cells[id];
      if cell.epoch != epoch { return Err(CellStore(C.StaleEpoch)); }
      if EffectRefused(cell, AirflowRunRow) { return Err(NotActive); }
      if cell.airflow.Some? {
        if cell.airflow != Some(run) { return Err(DifferentRun); }
      } else {
        var alive := TakePower();
        if !alive { return Err(Died); }
        var patched := cells.PatchCell(id, epoch, BindKey(id, epoch, run), RunFields(run), run.runId);
        if patched.Err? { return Err(CellStore(patched.error)); }
      }
      r := BindRunEvidence(id, epoch, run);
    }

    method ExecuteMutation(request: Request) returns (r: Result<string, CoreError>)
      modifies this, cells
      ensures (Now(), r) == ExecuteExternal(old(Now()), request)
    {
      if request.cell !in cells.cells { return Err(CellStore(C.UnknownCell)); }
      var cell := cells.cells[request.cell];
      var key := KeyOf(request);
      if cell.epoch != request.epoch { return Err(CellStore(C.StaleEpoch)); }
      if cell.airflow != Some(request.run) { return Err(NotOwner); }
      if RequirePolicy(cell).None? { return Err(NoPolicy); }
      if cell.policy != Some(request.expectedPolicy) { return Err(StalePolicy); }
      if !request.permitted { return Err(NotPermitted); }
      var replayed := key in journal.rows && journal.rows[key].state == J.Committed;
      if !replayed && EffectRefused(cell, request.resource) { return Err(NotActive); }
      var ran := J.Execute(journal, RefOf(request), request.attempt);
      journal := ran.0;
      if ran.1.Err? { return Err(Journal(ran.1.error)); }
      var noted := RecordEffectOnce(EffectEvent(request, ran.1.value));
      if noted.Err? { return Err(noted.error); }
      var shown := RecordEvidenceOnce(EffectEvidence(request, ran.1.value));
      if shown.Err? { return Err(shown.error); }
      r := Ok(ran.1.value);
    }
  }
}
