/**
 The Factory Cell store: one row per Cell holding its current epoch, and one append-only event log.
 Every write is a SQLite transaction, so interleaved connections are sequences of the transactions below.
 A Cell id is a digest of its identity; digests are taken to be injective, so the identity stands for it.
 */
module Cells {
  import opened Prelude
  import Runs

  datatype CellId = CellId(repo: string, target: string, issue: string)

  datatype AirflowRun = AirflowRun(dagId: string, runId: string, mapIndex: Option<nat>)

  /** Operation keys by the way they are built; `Named` is whatever a caller passes in. */
  datatype OpKey =
    | Activation(epoch: nat)
    | EpochAdvance(epoch: nat)
    | Derived(kind: string, cell: CellId, epochPart: nat, parts: seq<string>)
    | Named(text: string)

  /** `columns` are the remaining columns a patch may set: generation, base and target commits, compute, cleanup. */
  datatype Cell = Cell(
    epoch: nat, state: string, airflow: Option<AirflowRun>, policy: Option<string>, columns: map<string, string>)

  datatype Event = Event(cell: CellId, epoch: nat, key: OpKey, kind: string, payload: string)

  /** The columns one `patch` call sets; an absent column is left alone. */
  datatype Fields = Fields(
    state: Option<string>, airflow: Option<AirflowRun>, policy: Option<string>, columns: map<string, string>)

  datatype Db = Db(cells: map<CellId, Cell>, events: seq<Event>)

  datatype CellError = CellBusy | StaleEpoch | DuplicateOperation | UnknownCell

  const TERMINAL_STATES: set<string> := {"success", "failed", "cancelled", "rejected", "cleaned"}

  predicate HasKey(events: seq<Event>, c: CellId, k: OpKey) {
    exists i :: 0 <= i < |events| && events[i].cell == c && events[i].key == k
  }

  predicate Current(db: Db, c: CellId, epoch: nat) {
    c in db.cells && db.cells[c].epoch == epoch
  }

  /** Insert one event only while the Cell stands at the event's epoch; the key is unique per Cell. */
  function Append(db: Db, e: Event): Result<Db, CellError> {
    if !Current(db, e.cell, e.epoch) then Err(StaleEpoch)
    else if HasKey(db.events, e.cell, e.key) then Err(DuplicateOperation)
    else Ok(db.(events := db.events + [e]))
  }

  const NEW_CELL := Cell(1, "created", None, None, map[])

  function Enrolled(db: Db, id: CellId): Db {
    if id in db.cells then db else db.(cells := db.cells[id := NEW_CELL])
  }

  predicate Fresh(c: Cell) { c.state == "created" && c.airflow == None }

  /** An activation clears the binding, the policy and the two columns of the last activation's machine. */
  function Activated(c: Cell, epoch: nat): Cell {
    Cell(epoch, "dispatching", None, None, c.columns - {"compute", "cleanup"})
  }

  function ActivateTx(db: Db, id: CellId, actor: string): Result<Db, CellError> {
    var d := Enrolled(db, id);
    var c := d.cells[id];
    if !Fresh(c) && c.state !in TERMINAL_STATES then Err(CellBusy)
    else
      var next := if Fresh(c) then c.epoch else c.epoch + 1;
      Append(d.(cells := d.cells[id := Activated(c, next)]),
             Event(id, next, Activation(next), "activated", actor))
  }

  function TakeEpochTx(db: Db, id: CellId, expected: nat, actor: string): Result<Db, CellError> {
    if !Current(db, id, expected) then Err(StaleEpoch)
    else
      Append(db.(cells := db.cells[id := db.cells[id].(epoch := expected + 1, policy := None)]),
             Event(id, expected + 1, EpochAdvance(expected + 1), "epoch_advanced", actor))
  }

  function WithFields(c: Cell, f: Fields): Cell {
    Cell(c.epoch,
         if f.state.Some? then f.state.value else c.state,
         if f.airflow.Some? then f.airflow else c.airflow,
         if f.policy.Some? then f.policy else c.policy,
         c.columns + f.columns)
  }

  /** The transaction inside `patch`; the read before it can only refuse, and the append fences again. */
  function PatchTx(db: Db, id: CellId, expected: nat, key: OpKey, f: Fields, payload: string): Result<Db, CellError> {
    var r := Append(db, Event(id, expected, key, "patch", payload));
    if id !in db.cells then Err(UnknownCell)
    else if r.Err? then r
    else Ok(r.value.(cells := r.value.cells[id := WithFields(db.cells[id], f)]))
  }

  datatype Op =
    | Ensure(id: CellId)
    | Activate(id: CellId, actor: string)
    | TakeEpoch(id: CellId, expected: nat, actor: string)
    | Patch(id: CellId, expected: nat, key: OpKey, fields: Fields, payload: string)
    | Record(e: Event)

  function Transact(db: Db, op: Op): Result<Db, CellError> {
    match op
    case Ensure(id) => Ok(Enrolled(db, id))
    case Activate(id, actor) => ActivateTx(db, id, actor)
    case TakeEpoch(id, expected, actor) => TakeEpochTx(db, id, expected, actor)
    case Patch(id, expected, key, f, payload) => PatchTx(db, id, expected, key, f, payload)
    case Record(e) => Append(db, e)
  }

  /**
   Enrolling an identity is once and for all: doing it again changes nothing, no other Cell and no event is touched,
   and activation, which enrols first, has the same outcome with or without it. The first activation of a new
   identity succeeds at epoch 1.
   */
  lemma EnrolmentIsOnceAndForAll(db: Db, id: CellId, actor: string)
    requires EventsFenced(db)
    ensures var d := Enrolled(db, id);
            && Enrolled(d, id) == d && EventsFenced(d) && d.events == db.events
            && (forall c :: c in db.cells ==> c in d.cells && d.cells[c] == db.cells[c])
            && d.cells.Keys == db.cells.Keys + {id}
            && ActivateTx(d, id, actor) == ActivateTx(db, id, actor)
            && (id !in db.cells ==>
                  && ActivateTx(db, id, actor).Ok? && Current(ActivateTx(db, id, actor).value, id, 1)
                  && ActivateTx(db, id, actor).value.cells[id].state == "dispatching")
  {
    var d := Enrolled(db, id);
    RaiseKeepsLog(db, id, d.cells[id]);
    if id !in db.cells { assert forall i :: 0 <= i < |db.events| ==> db.events[i].cell != id; }
  }

  /** A Cell that nobody works on: not enrolled yet, enrolled and never used, or ended. */
  predicate Startable(db: Db, id: CellId) {
    id in db.cells ==>
      || (db.cells[id].state == "created" && db.cells[id].airflow.None?)
      || db.cells[id].state in {"success", "failed", "cancelled", "rejected", "cleaned"}
  }

  /** The epoch an activation asks for: 1 at first, the same for a Cell that was never used, else the next one. */
  function NextEpoch(db: Db, id: CellId): nat {
    if id !in db.cells then 1
    else if db.cells[id].state == "created" && db.cells[id].airflow.None? then db.cells[id].epoch
    else db.cells[id].epoch + 1
  }

  /**
   Which Cells can be activated, and what that makes of them. A Cell is busy exactly when it is neither unused nor ended;
   otherwise only an event that already has the activation's key stands in the way.
   */
  lemma ActivatedExactlyWhenStartable(db: Db, id: CellId, actor: string)
    ensures var (r, epoch) := (ActivateTx(db, id, actor), NextEpoch(db, id));
            && (r == Err(CellBusy) <==> !Startable(db, id))
            && (r == Err(DuplicateOperation) <==> Startable(db, id) && HasKey(db.events, id, Activation(epoch)))
            && (r.Err? ==> r.error in {CellBusy, DuplicateOperation})
            && (r.Ok? ==>
                  && r.value.events == db.events + [Event(id, epoch, Activation(epoch), "activated", actor)]
                  && r.value.cells.Keys == db.cells.Keys + {id}
                  && (forall c :: c in db.cells && c != id ==> r.value.cells[c] == db.cells[c])
                  && var cell := r.value.cells[id];
                     && cell.epoch == epoch && cell.state == "dispatching" && cell.airflow.None? && cell.policy.None?
                     && (forall name :: name in cell.columns <==>
                           id in db.cells && name in db.cells[id].columns && name != "compute" && name != "cleanup")
                     && (forall name :: name in cell.columns ==> cell.columns[name] == db.cells[id].columns[name]))
  {
  }

  /** A take-over moves exactly one epoch on, and drops the policy and nothing else; any other epoch is stale. */
  lemma TakenOverExactlyWhenCurrent(db: Db, id: CellId, expected: nat, actor: string)
    ensures var r := TakeEpochTx(db, id, expected, actor);
            && (r == Err(StaleEpoch) <==> !(id in db.cells && db.cells[id].epoch == expected))
            && (r == Err(DuplicateOperation) <==>
                  id in db.cells && db.cells[id].epoch == expected && HasKey(db.events, id, EpochAdvance(expected + 1)))
            && (r.Err? ==> r.error in {StaleEpoch, DuplicateOperation})
            && (r.Ok? ==>
                  && r.value.events == db.events + [Event(id, expected + 1, EpochAdvance(expected + 1), "epoch_advanced", actor)]
                  && r.value.cells.Keys == db.cells.Keys
                  && (forall c :: c in db.cells && c != id ==> r.value.cells[c] == db.cells[c])
                  && var (was, cell) := (db.cells[id], r.value.cells[id]);
                     && cell.epoch == expected + 1 && cell.policy.None?
                     && cell.state == was.state && cell.airflow == was.airflow && cell.columns == was.columns)
  {
  }

  /** A patch at the current epoch under a new key sets what it names, and nothing else. */
  lemma PatchedExactlyWhenCurrent(db: Db, id: CellId, expected: nat, key: OpKey, f: Fields, payload: string)
    ensures var r := PatchTx(db, id, expected, key, f, payload);
            && (r == Err(UnknownCell) <==> id !in db.cells)
            && (r == Err(StaleEpoch) <==> id in db.cells && db.cells[id].epoch != expected)
            && (r == Err(DuplicateOperation) <==>
                  id in db.cells && db.cells[id].epoch == expected && HasKey(db.events, id, key))
            && (r.Err? ==> r.error in {UnknownCell, StaleEpoch, DuplicateOperation})
            && (r.Ok? ==>
                  && r.value.events == db.events + [Event(id, expected, key, "patch", payload)]
                  && r.value.cells.Keys == db.cells.Keys
                  && (forall c :: c in db.cells && c != id ==> r.value.cells[c] == db.cells[c])
                  && var (was, cell) := (db.cells[id], r.value.cells[id]);
                     && cell.epoch == was.epoch
                     && (if f.state.Some? then Some(cell.state) == f.state else cell.state == was.state)
                     && (if f.airflow.Some? then cell.airflow == f.airflow else cell.airflow == was.airflow)
                     && (if f.policy.Some? then cell.policy == f.policy else cell.policy == was.policy)
                     && cell.columns.Keys == was.columns.Keys + f.columns.Keys
                     && (forall name :: name in cell.columns ==>
                           cell.columns[name] == if name in f.columns then f.columns[name] else was.columns[name]))
  {
  }

  // ---- interleaved connections ----

  /** The store together with the history of activations that committed: which Cell, at which epoch. */
  datatype Sys = Sys(db: Db, activations: seq<(CellId, nat)>)

  ghost predicate Init(s: Sys) {
    s.db.cells == map[] && s.db.events == [] && s.activations == []
  }

  /** One connection runs one transaction; a refused transaction changes nothing. */
  ghost predicate StepOp(s: Sys, op: Op, s': Sys) {
    match Transact(s.db, op)
    case Err(_) => s' == s
    case Ok(d) =>
      s' == Sys(d, if op.Activate? then s.activations + [(op.id, d.cells[op.id].epoch)] else s.activations)
  }

  ghost predicate Next(s: Sys, s': Sys) { exists op :: StepOp(s, op, s') }

  ghost predicate EventsFenced(db: Db) {
    && (forall c :: c in db.cells ==> 1 <= db.cells[c].epoch)
    && (forall i :: 0 <= i < |db.events| ==>
          && db.events[i].cell in db.cells
          && 1 <= db.events[i].epoch <= db.cells[db.events[i].cell].epoch)
    && (forall i, j :: 0 <= i < j < |db.events| && db.events[i].cell == db.events[j].cell ==>
          && db.events[i].epoch <= db.events[j].epoch
          && db.events[i].key != db.events[j].key)
  }

  ghost predicate ActivationsIncrease(s: Sys) {
    && (forall i :: 0 <= i < |s.activations| ==>
          && s.activations[i].0 in s.db.cells
          && s.activations[i].1 <= s.db.cells[s.activations[i].0].epoch
          && HasKey(s.db.events, s.activations[i].0, Activation(s.activations[i].1)))
    && (forall i, j :: 0 <= i < j < |s.activations| && s.activations[i].0 == s.activations[j].0 ==>
          s.activations[i].1 < s.activations[j].1)
  }

  ghost predicate Inv(s: Sys) { EventsFenced(s.db) && ActivationsIncrease(s) }

  /** What one committed transaction may do: epochs never fall, and the log grows by at most one event,
      whose epoch is the Cell's own epoch at the commit. */
  ghost predicate Advances(db: Db, db': Db) {
    && (forall c :: c in db.cells ==> c in db'.cells && db.cells[c].epoch <= db'.cells[c].epoch)
    && db.events <= db'.events
    && (forall i :: |db.events| <= i < |db'.events| ==> Current(db', db'.events[i].cell, db'.events[i].epoch))
  }

  ghost predicate LogKept(s: Sys, s': Sys) {
    && (forall c :: c in s.db.cells ==> c in s'.db.cells && s.db.cells[c].epoch <= s'.db.cells[c].epoch)
    && s.db.events <= s'.db.events
    && s.activations <= s'.activations
  }

  lemma AppendKeepsLog(db: Db, e: Event)
    requires EventsFenced(db) && Append(db, e).Ok?
    ensures EventsFenced(Append(db, e).value) && Advances(db, Append(db, e).value)
  {
    var d := Append(db, e).value;
    forall i, j | 0 <= i < j < |d.events| && d.events[i].cell == d.events[j].cell
      ensures d.events[i].epoch <= d.events[j].epoch && d.events[i].key != d.events[j].key
    {
      if j == |db.events| { assert db.events[i] == d.events[i]; }
    }
  }

  /** Raising one Cell's epoch keeps the log fenced. */
  lemma RaiseKeepsLog(db: Db, id: CellId, c: Cell)
    requires EventsFenced(db) && 1 <= c.epoch && (id in db.cells ==> db.cells[id].epoch <= c.epoch)
    ensures EventsFenced(db.(cells := db.cells[id := c]))
  {
  }

  /** Storing a Cell at an epoch no lower than before and appending an event of that epoch keeps the log. */
  lemma RaiseAndAppendKeepLog(db: Db, id: CellId, c: Cell, e: Event, db': Db)
    requires EventsFenced(db) && 1 <= c.epoch && (id in db.cells ==> db.cells[id].epoch <= c.epoch)
    requires e.cell == id && e.epoch == c.epoch && Append(db.(cells := db.cells[id := c]), e) == Ok(db')
    ensures EventsFenced(db') && Advances(db, db')
  {
    var raised := db.(cells := db.cells[id := c]);
    RaiseKeepsLog(db, id, c);
    AppendKeepsLog(raised, e);
  }

  lemma ActivateKeepsLog(db: Db, id: CellId, actor: string)
    requires EventsFenced(db) && ActivateTx(db, id, actor).Ok?
    ensures EventsFenced(ActivateTx(db, id, actor).value) && Advances(db, ActivateTx(db, id, actor).value)
  {
    var current := Enrolled(db, id).cells[id];
    var next := if Fresh(current) then current.epoch else current.epoch + 1;
    assert Enrolled(db, id).cells[id := Activated(current, next)] == db.cells[id := Activated(current, next)];
    RaiseAndAppendKeepLog(db, id, Activated(current, next), Event(id, next, Activation(next), "activated", actor),
                          ActivateTx(db, id, actor).value);
  }

  lemma TakeEpochKeepsLog(db: Db, id: CellId, expected: nat, actor: string)
    requires EventsFenced(db) && TakeEpochTx(db, id, expected, actor).Ok?
    ensures EventsFenced(TakeEpochTx(db, id, expected, actor).value)
    ensures Advances(db, TakeEpochTx(db, id, expected, actor).value)
  {
    RaiseAndAppendKeepLog(db, id, db.cells[id].(epoch := expected + 1, policy := None),
                          Event(id, expected + 1, EpochAdvance(expected + 1), "epoch_advanced", actor),
                          TakeEpochTx(db, id, expected, actor).value);
  }

  lemma PatchKeepsLog(db: Db, id: CellId, expected: nat, key: OpKey, f: Fields, payload: string)
    requires EventsFenced(db) && PatchTx(db, id, expected, key, f, payload).Ok?
    ensures EventsFenced(PatchTx(db, id, expected, key, f, payload).value)
    ensures Advances(db, PatchTx(db, id, expected, key, f, payload).value)
  {
    var d := Append(db, Event(id, expected, key, "patch", payload)).value;
    AppendKeepsLog(db, Event(id, expected, key, "patch", payload));
    RaiseKeepsLog(d, id, WithFields(db.cells[id], f));
  }

  lemma TransactKeepsLog(db: Db, op: Op)
    requires EventsFenced(db) && Transact(db, op).Ok?
    ensures EventsFenced(Transact(db, op).value) && Advances(db, Transact(db, op).value)
  {
    match op
    case Ensure(id) => RaiseKeepsLog(db, id, Enrolled(db, id).cells[id]);
    case Activate(id, actor) => ActivateKeepsLog(db, id, actor);
    case TakeEpoch(id, expected, actor) => TakeEpochKeepsLog(db, id, expected, actor);
    case Patch(id, expected, key, f, payload) => PatchKeepsLog(db, id, expected, key, f, payload);
    case Record(e) => AppendKeepsLog(db, e);
  }

  /** A committed activation puts a key into the log that was not there, at the Cell's new epoch. */
  lemma ActivationIsNew(db: Db, id: CellId, actor: string)
    requires EventsFenced(db) && ActivateTx(db, id, actor).Ok?
    ensures var d := ActivateTx(db, id, actor).value;
            && !HasKey(db.events, id, Activation(d.cells[id].epoch))
            && HasKey(d.events, id, Activation(d.cells[id].epoch))
            && d.cells[id].state == "dispatching"
  {
    var d := ActivateTx(db, id, actor).value;
    assert d.events[|d.events| - 1].key == Activation(d.cells[id].epoch);
  }

  lemma HasKeyStays(events: seq<Event>, events': seq<Event>, c: CellId, k: OpKey)
    requires events <= events' && HasKey(events, c, k)
    ensures HasKey(events', c, k)
  {
    var i :| 0 <= i < |events| && events[i].cell == c && events[i].key == k;
    assert events'[i] == events[i];
  }

  /** The recorded activations stay recorded in a log and under epochs that only grow. */
  lemma ActivationsStay(s: Sys, s': Sys)
    requires ActivationsIncrease(s) && Advances(s.db, s'.db) && s'.activations == s.activations
    ensures ActivationsIncrease(s')
  {
    forall i | 0 <= i < |s.activations|
      ensures HasKey(s'.db.events, s.activations[i].0, Activation(s.activations[i].1))
    {
      HasKeyStays(s.db.events, s'.db.events, s.activations[i].0, Activation(s.activations[i].1));
    }
  }

  /** One more activation, under a key that was not in the log before: its epoch is above all earlier ones. */
  lemma ActivationAppended(s: Sys, s': Sys, id: CellId, epoch: nat)
    requires EventsFenced(s.db) && ActivationsIncrease(s)
    requires ActivationsIncrease(Sys(s'.db, s.activations)) && s'.activations == s.activations + [(id, epoch)]
    requires Current(s'.db, id, epoch) && HasKey(s'.db.events, id, Activation(epoch))
    requires !HasKey(s.db.events, id, Activation(epoch))
    ensures ActivationsIncrease(s')
  {
    var t := Sys(s'.db, s.activations);
    forall i | 0 <= i < |s.activations| && s.activations[i].0 == id ensures s.activations[i].1 < epoch {
      assert HasKey(s.db.events, s.activations[i].0, Activation(s.activations[i].1));
      assert t.activations[i].1 <= t.db.cells[id].epoch;
    }
  }

  lemma StepKeepsInv(s: Sys, s': Sys)
    requires Inv(s) && Next(s, s')
    ensures Inv(s') && LogKept(s, s')
  {
    var op :| StepOp(s, op, s');
    if Transact(s.db, op).Ok? {
      TransactKeepsLog(s.db, op);
      ActivationsStay(s, Sys(s'.db, s.activations));
      if op.Activate? {
        ActivationIsNew(s.db, op.id, op.actor);
        ActivationAppended(s, s', op.id, s'.db.cells[op.id].epoch);
      }
    }
  }

  /**
   In every state of every interleaving: the epochs of a Cell's events never decrease and never exceed the Cell's
   current epoch, operation keys are unique per Cell, and committed activations have strictly increasing epochs.
   */
  lemma LogIsFencedInEveryRun(run: seq<Sys>, i: nat)
    requires Runs.IsRun(Init, Next, run) && i < |run|
    ensures EventsFenced(run[i].db) && ActivationsIncrease(run[i])
  {
    forall s, s' | Inv(s) && Next(s, s') ensures Inv(s') { StepKeepsInv(s, s'); }
    Runs.InvariantHolds(Init, Next, Inv, run, i);
  }

  /** Between any two moments of a run no epoch falls and nothing already logged changes. */
  lemma HistoryOnlyGrows(run: seq<Sys>, i: nat, j: nat)
    requires Runs.IsRun(Init, Next, run) && i <= j < |run|
    ensures LogKept(run[i], run[j])
  {
    forall s, s' | Inv(s) && Next(s, s') ensures Inv(s') && LogKept(s, s') { StepKeepsInv(s, s'); }
    Runs.StepsCompose(Init, Next, Inv, LogKept, run, i, j);
  }

  /**
   Every event was appended while its epoch was the Cell's current one: for each event in the log of a run's
   last state there is a step of the run that appended it, in whose result its epoch is current.
   */
  lemma EveryEventHadAuthority(run: seq<Sys>, k: nat)
    requires Runs.IsRun(Init, Next, run)
    requires k < |run[|run| - 1].db.events|
    ensures exists i :: 0 < i < |run| && AppendedWithAuthority(run[i - 1], run[i], k, run[|run| - 1].db.events[k])
  {
    var i := AppendingStep(run, |run| - 1, k);
  }

  lemma {:induction false} AppendingStep(run: seq<Sys>, n: nat, k: nat) returns (i: nat)
    requires Runs.IsRun(Init, Next, run) && n < |run| && k < |run[n].db.events|
    ensures 0 < i <= n && AppendedWithAuthority(run[i - 1], run[i], k, run[n].db.events[k])
  {
    assert Init(run[0]);
    StepAdvances(run, n - 1);
    if k < |run[n - 1].db.events| {
      i := AppendingStep(run, n - 1, k);
    } else {
      i := n;
    }
  }

  /** The step from s to s' appended e as event number k, and e's epoch is the current one in s'. */
  predicate AppendedWithAuthority(s: Sys, s': Sys, k: nat, e: Event) {
    |s.db.events| <= k < |s'.db.events| && s'.db.events[k] == e && Current(s'.db, e.cell, e.epoch)
  }

  lemma StepAdvances(run: seq<Sys>, i: nat)
    requires Runs.IsRun(Init, Next, run) && i + 1 < |run|
    ensures Advances(run[i].db, run[i + 1].db)
  {
    LogIsFencedInEveryRun(run, i);
    assert Next(run[i], run[i + 1]);
    var op :| StepOp(run[i], op, run[i + 1]);
    if Transact(run[i].db, op).Ok? { TransactKeepsLog(run[i].db, op); }
  }

  // ---- the store object ----

  /** `CellStore`: its tables are fields, and a failing transaction puts them back as they were. */
  class CellStore {
    var cells: map<CellId, Cell>
    var events: seq<Event>
    /** Calls made to `on_authority_revoked`, oldest first; the callback's own store keeps them on a rollback. */
    var revoked: seq<(CellId, nat)>

    ghost function State(): Db reads this { Db(cells, events) }

    constructor ()
      ensures State() == Db(map[], []) && revoked == []
    {
      cells, events, revoked := map[], [], [];
    }

    method InsertIdentity(id: CellId)
      modifies this`cells
      ensures State() == Enrolled(old(State()), id)
    {
      if id !in cells { cells := cells[id := NEW_CELL]; }
    }

    method AppendEvent(e: Event) returns (r: Result<(), CellError>)
      modifies this`events
      ensures match Append(old(State()), e)
              case Ok(d) => r == Ok(()) && State() == d
              case Err(x) => r == Err(x) && State() == old(State())
    {
      if e.cell !in cells || cells[e.cell].epoch != e.epoch { return Err(StaleEpoch); }
      for i := 0 to |events|
        invariant forall k :: 0 <= k < i ==> !(events[k].cell == e.cell && events[k].key == e.key)
      {
        if events[i].cell == e.cell && events[i].key == e.key { return Err(DuplicateOperation); }
      }
      events := events + [e];
      r := Ok(());
    }

    method ActivateCell(id: CellId, actor: string) returns (r: Result<Cell, CellError>)
      modifies this
      ensures match ActivateTx(old(State()), id, actor)
              case Ok(d) => State() == d && r == Ok(d.cells[id])
              case Err(x) => State() == old(State()) && r == Err(x)
      // the old epoch's authority is revoked before the new epoch is stored, and stays revoked on a rollback
      ensures var d := Enrolled(old(State()), id);
              revoked == old(revoked)
                + if !Fresh(d.cells[id]) && d.cells[id].state in TERMINAL_STATES then [(id, d.cells[id].epoch)] else []
    {
      var savedCells, savedEvents := cells, events;
      InsertIdentity(id);
      var current := cells[id];
      var isFresh := current.state == "created" && current.airflow == None;
      if !isFresh && current.state !in TERMINAL_STATES {
        cells, events := savedCells, savedEvents;
        return Err(CellBusy);
      }
      var nextEpoch := if isFresh then current.epoch else current.epoch + 1;
      if nextEpoch != current.epoch { revoked := revoked + [(id, current.epoch)]; }
      cells := cells[id := Cell(nextEpoch, "dispatching", None, None, current.columns - {"compute", "cleanup"})];
      var appended := AppendEvent(Event(id, nextEpoch, Activation(nextEpoch), "activated", actor));
      if appended.Err? {
        cells, events := savedCells, savedEvents;
        return Err(appended.error);
      }
      r := Ok(cells[id]);
    }

    method TakeCellEpoch(id: CellId, expected: nat, actor: string) returns (r: Result<nat, CellError>)
      modifies this
      ensures match TakeEpochTx(old(State()), id, expected, actor)
              case Ok(d) => State() == d && r == Ok(expected + 1)
              case Err(x) => State() == old(State()) && r == Err(x)
      ensures revoked == old(revoked) + [(id, expected)]
    {
      var savedCells, savedEvents := cells, events;
      revoked := revoked + [(id, expected)];
      if id !in cells || cells[id].epoch != expected { return Err(StaleEpoch); }
      cells := cells[id := cells[id].(epoch := expected + 1, policy := None)];
      var appended := AppendEvent(Event(id, expected + 1, EpochAdvance(expected + 1), "epoch_advanced", actor));
      if appended.Err? {
        cells, events := savedCells, savedEvents;
        return Err(appended.error);
      }
      r := Ok(expected + 1);
    }

    method PatchCell(id: CellId, expected: nat, key: OpKey, f: Fields, payload: string) returns (r: Result<Cell, CellError>)
      modifies this
      ensures match PatchTx(old(State()), id, expected, key, f, payload)
              case Ok(d) => State() == d && r == Ok(d.cells[id])
              case Err(x) => State() == old(State()) && r == Err(x)
      ensures revoked == old(revoked)
                + if Current(old(State()), id, expected) && f.state.Some? && f.state.value in TERMINAL_STATES
                  then [(id, expected)] else []
    {
      if id !in cells { return Err(UnknownCell); }
      if cells[id].epoch != expected { return Err(StaleEpoch); }
      if f.state.Some? && f.state.value in TERMINAL_STATES { revoked := revoked + [(id, expected)]; }
      var appended := AppendEvent(Event(id, expected, key, "patch", payload));
      if appended.Err? { return Err(appended.error); }
      cells := cells[id := WithFields(cells[id], f)];
      r := Ok(cells[id]);
    }
  }
}
