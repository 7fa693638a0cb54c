/**
 The Cell store and the credential broker running together. Any number of threads mint and redeem; the steps
 inside `mint` and `redeem` interleave freely. An epoch advance, and a patch that ends its Cell, holds the store's lock
 from its start to its commit, calls back into the broker first, and the broker's epoch reader waits for that lock.
 */
module FenceProtocol {
  import opened Prelude
  import opened Cells
  import opened CredentialLease
  import Runs

  /** Where a thread stands inside `mint` or `redeem`. */
  datatype Thread =
    | Idle
    | MintChecked(b: Binding, capability: string, purpose: string, expiresAt: real)
    | EpochRead(h: Handle, b: Binding, nonce: string, epoch: nat, now: real)

  /** The store's lock. `told` is set once the callback has run; `late` are the leases inserted since then. */
  datatype Holder = Free | Advancing(op: Op, told: bool, late: set<string>)

  /** A credential that was handed out, and the Cell's committed epoch at that moment. */
  datatype Grant = Grant(leaseId: string, nonce: string, b: Binding, epochThen: nat)

  datatype Sys = Sys(db: Db, store: Store, holder: Holder, threads: map<nat, Thread>, grants: seq<Grant>)

  datatype Action =
    | Begin(op: Op)
    | Tell
    | Commit
    | Abort
    | Other(op: Op)
    | RevokeScope(scope: Scope, reason: string)
    | MintRead(t: nat, b: Binding, capability: string, purpose: string, ttl: real, now: real)
    | MintInsert(t: nat, drawn: Handle)
    | RedeemRead(t: nat, h: Handle, b: Binding, nonce: string, now: real)
    | RedeemBody(t: nat, provided: map<string, string>)
    | Crash(t: nat)

  /** The Cell and epoch whose authority this advance withdraws. A first activation withdraws none. */
  function Superseded(db: Db, op: Op): Option<(CellId, nat)> {
    match op
    case TakeEpoch(id, expected, _) => Some((id, expected))
    case Activate(id, _) =>
      if id in db.cells && !Fresh(db.cells[id]) && db.cells[id].state in TERMINAL_STATES
      then Some((id, db.cells[id].epoch)) else None
    case _ => None
  }

  /** The Cell and epoch whose authority a patch withdraws: that of a current Cell which it ends. */
  function Ended(db: Db, op: Op): Option<(CellId, nat)> {
    if op.Patch? && Current(db, op.id, op.expected) && Ending(op) then Some((op.id, op.expected)) else None
  }

  predicate Ending(op: Op) { op.Patch? && op.fields.state.Some? && op.fields.state.value in TERMINAL_STATES }

  /** What the callback of an operation that holds the store's lock withdraws. */
  function Withdrawn(db: Db, op: Op): Option<(CellId, nat)> { if op.Patch? then Ended(db, op) else Superseded(db, op) }

  function WhyWithdrawn(op: Op): string { if Ending(op) then "cell_" + op.fields.state.value else "epoch_advanced" }

  /** No thread already holds the drawn identifier: it is a fresh 128-bit random value. */
  ghost predicate Drawn(s: Sys, id: string) {
    && id !in s.store.leases
    && forall t :: t in s.threads && s.threads[t].EpochRead? ==> s.threads[t].h.leaseId != id
  }

  ghost predicate AdvanceStep(s: Sys, a: Action, s': Sys) {
    match a
    case Begin(op) =>
      && s.holder.Free? && (op.Activate? || op.TakeEpoch? || Ended(s.db, op).Some?)
      && s' == s.(holder := Advancing(op, false, {}))
    case Tell =>
      && s.holder.Advancing? && !s.holder.told
      && s' == s.(holder := s.holder.(told := true),
                  store := match Withdrawn(s.db, s.holder.op)
                           case Some((c, e)) => RevokeTx(s.store, WholeEpoch(c, e), WhyWithdrawn(s.holder.op))
                           case None => s.store)
    case Commit =>
      && s.holder.Advancing? && s.holder.told
      && s' == s.(holder := Free,
                  db := match Transact(s.db, s.holder.op) case Ok(d) => d case Err(_) => s.db)
    case Abort =>
      && s.holder.Advancing?
      && s' == s.(holder := Free)
    case _ => false
  }

  /** Other writers of the Cell store; while an activation holds SQLite's write lock they wait. */
  ghost predicate OtherStep(s: Sys, op: Op, s': Sys) {
    && (op.Ensure? || op.Patch? || op.Record?) && !Ending(op)
    && !(s.holder.Advancing? && s.holder.op.Activate?)
    && s' == s.(db := match Transact(s.db, op) case Ok(d) => d case Err(_) => s.db)
  }

  ghost predicate BrokerStep(s: Sys, a: Action, s': Sys) {
    match a
    case RevokeScope(scope, reason) =>
      s' == s.(store := RevokeTx(s.store, scope, reason))
    case MintRead(t, b, capability, purpose, ttl, now) =>
      && s.holder.Free?
      && b.cell in s.db.cells
      && MintCheck(b, capability, purpose, ttl, {capability}, Some(s.db.cells[b.cell].epoch)) == None
      && s' == s.(threads := s.threads[t := MintChecked(b, capability, purpose, now + ttl)])
    case MintInsert(t, drawn) =>
      && t in s.threads && s.threads[t].MintChecked?
      && Drawn(s, drawn.leaseId)
      && var m := s.threads[t];
         s' == s.(store := MintTx(s.store, drawn, m.b, m.capability, m.purpose, m.expiresAt),
                  holder := if s.holder.Advancing? && s.holder.told
                            then s.holder.(late := s.holder.late + {drawn.leaseId}) else s.holder,
                  threads := s.threads[t := Idle])
    case RedeemRead(t, h, b, nonce, now) =>
      && s.holder.Free?
      && b.cell in s.db.cells
      && s' == s.(threads := s.threads[t := EpochRead(h, b, nonce, s.db.cells[b.cell].epoch, now)])
    case RedeemBody(t, provided) =>
      && t in s.threads && s.threads[t].EpochRead?
      && s.threads[t].b.cell in s.db.cells
      && var r := s.threads[t];
         var (store, answer) := RedeemTx(s.store, r.h, r.b, r.nonce, Some(r.epoch), r.now, provided);
         s' == s.(store := store,
                  threads := s.threads[t := Idle],
                  grants := if answer.Credential?
                            then s.grants + [Grant(r.h.leaseId, r.nonce, r.b, s.db.cells[r.b.cell].epoch)]
                            else s.grants)
    case Crash(t) =>
      s' == s.(threads := s.threads[t := Idle])
    case _ => false
  }

  ghost predicate StepAction(s: Sys, a: Action, s': Sys) {
    || AdvanceStep(s, a, s')
    || (a.Other? && OtherStep(s, a.op, s'))
    || BrokerStep(s, a, s')
  }

  ghost predicate Init(s: Sys) {
    s == Sys.Sys(Db(map[], []), Store(map[], []), Free, map[], [])
  }

  ghost predicate Next(s: Sys, s': Sys) { exists a :: StepAction(s, a, s') }

  // ---- the invariant over half-finished redeems ----

  ghost predicate BeingWithdrawn(s: Sys, c: CellId, e: nat) {
    s.holder.Advancing? && s.holder.told && Withdrawn(s.db, s.holder.op) == Some((c, e))
  }

  /** A redeem that has read its epoch: if its lease could still be honoured, the epoch it read is the committed
      one and nobody has told the broker to withdraw it. */
  ghost predicate ReadIsSafe(s: Sys, r: Thread)
    requires r.EpochRead?
  {
    && r.b.cell in s.db.cells
    && r.epoch <= s.db.cells[r.b.cell].epoch
    && (r.h.leaseId in s.store.leases
        && s.store.leases[r.h.leaseId].binding == r.b
        && s.store.leases[r.h.leaseId].revoked.None?
        && r.epoch == r.b.epoch
        ==> s.db.cells[r.b.cell].epoch == r.b.epoch && !BeingWithdrawn(s, r.b.cell, r.b.epoch))
  }

  ghost predicate ReadsSafe(s: Sys) {
    forall t :: t in s.threads && s.threads[t].EpochRead? ==> ReadIsSafe(s, s.threads[t])
  }

  /** While an advance is between its callback and its commit, only late leases of the old epoch are live. */
  ghost predicate OnlyLateLive(s: Sys) {
    forall id :: id in s.store.leases && s.store.leases[id].revoked.None?
                 && BeingWithdrawn(s, s.store.leases[id].binding.cell, s.store.leases[id].binding.epoch)
                 ==> id in s.holder.late
  }

  ghost predicate GrantsHonest(s: Sys) {
    forall i :: 0 <= i < |s.grants| ==>
      var g := s.grants[i];
      && g.epochThen == g.b.epoch
      && g.leaseId in s.store.leases
      && s.store.leases[g.leaseId].binding == g.b
      && s.store.leases[g.leaseId].process == Some(g.nonce)
  }

  /** A patch that ends its Cell has found it current, and nothing moves the epoch while the patch holds the lock. */
  ghost predicate EndingIsCurrent(s: Sys) {
    s.holder.Advancing? && s.holder.op.Patch? ==> Ended(s.db, s.holder.op).Some?
  }

  ghost predicate Inv(s: Sys) { ReadsSafe(s) && OnlyLateLive(s) && GrantsHonest(s) && EndingIsCurrent(s) }

  /** An advance raises at most the epoch it superseded, by one; every other transaction raises none. */
  lemma OnlyTheSupersededEpochRises(db: Db, op: Op, c: CellId)
    requires Transact(db, op).Ok? && c in db.cells
    ensures var d := Transact(db, op).value;
            && c in d.cells
            && (d.cells[c].epoch == db.cells[c].epoch
                || (d.cells[c].epoch == db.cells[c].epoch + 1 && Superseded(db, op) == Some((c, db.cells[c].epoch))))
  {
  }

  lemma AdvanceKeepsInv(s: Sys, a: Action, s': Sys)
    requires Inv(s) && AdvanceStep(s, a, s')
    ensures Inv(s')
  {
    if a.Commit? && Transact(s.db, s.holder.op).Ok? {
      forall t | t in s'.threads && s'.threads[t].EpochRead? ensures ReadIsSafe(s', s'.threads[t]) {
        OnlyTheSupersededEpochRises(s.db, s.holder.op, s.threads[t].b.cell);
        assert ReadIsSafe(s, s.threads[t]);
      }
    } else if a.Tell? && Withdrawn(s.db, s.holder.op).Some? {
      var (c, e) := Withdrawn(s.db, s.holder.op).value;
      RevocationIsExact(s.store, WholeEpoch(c, e), WhyWithdrawn(s.holder.op));
    }
  }

  lemma OtherKeepsInv(s: Sys, op: Op, s': Sys)
    requires Inv(s) && OtherStep(s, op, s')
    ensures Inv(s')
  {
    if s.holder.Advancing? && s.holder.op.Patch? && Transact(s.db, op).Ok? {
      OnlyTheSupersededEpochRises(s.db, op, s.holder.op.id);
    }
    forall t | t in s'.threads && s'.threads[t].EpochRead? ensures ReadIsSafe(s', s'.threads[t]) {
      assert ReadIsSafe(s, s.threads[t]);
      if Transact(s.db, op).Ok? { OnlyTheSupersededEpochRises(s.db, op, s.threads[t].b.cell); }
    }
  }

  lemma RedeemKeepsInv(s: Sys, t: nat, provided: map<string, string>, s': Sys)
    requires Inv(s) && BrokerStep(s, RedeemBody(t, provided), s')
    ensures Inv(s')
  {
    var r := s.threads[t];
    assert ReadIsSafe(s, r);
    CredentialOnlyForALiveLease(s.store, r.h, r.b, r.nonce, Some(r.epoch), r.now, provided);
    RedeemLeavesBehind(s.store, r.h, r.b, r.nonce, Some(r.epoch), r.now, provided);
    forall i | 0 <= i < |s'.grants|
      ensures var g := s'.grants[i];
        && g.epochThen == g.b.epoch
        && g.leaseId in s'.store.leases
        && s'.store.leases[g.leaseId].binding == g.b
        && s'.store.leases[g.leaseId].process == Some(g.nonce)
    {
      if i < |s.grants| { assert s'.grants[i] == s.grants[i]; }
    }
  }

  lemma BrokerKeepsInv(s: Sys, a: Action, s': Sys)
    requires Inv(s) && BrokerStep(s, a, s') && !a.RedeemBody?
    ensures Inv(s')
  {
    if a.RevokeScope? { RevocationIsExact(s.store, a.scope, a.reason); }
  }

  lemma StepKeepsInv(s: Sys, s': Sys)
    requires Inv(s) && Next(s, s')
    ensures Inv(s')
  {
    var a :| StepAction(s, a, s');
    if AdvanceStep(s, a, s') { AdvanceKeepsInv(s, a, s'); }
    else if a.Other? { OtherKeepsInv(s, a.op, s'); }
    else if a.RedeemBody? { RedeemKeepsInv(s, a.t, a.provided, s'); }
    else { BrokerKeepsInv(s, a, s'); }
  }

  lemma InvHolds(run: seq<Sys>, i: nat)
    requires Runs.IsRun(Init, Next, run) && i < |run|
    ensures Inv(run[i])
  {
    forall s, s' | Inv(s) && Next(s, s') ensures Inv(s') { StepKeepsInv(s, s'); }
    Runs.InvariantHolds(Init, Next, Inv, run, i);
  }

  /**
   The fence: in every interleaving, whenever the body of a redeem hands out a credential, the epoch it is bound to
   is the Cell's committed epoch at that moment. So no body that runs after an advance committed honours the old one.
   */
  lemma NoCredentialForASupersededEpoch(run: seq<Sys>, i: nat, t: nat, provided: map<string, string>)
    requires Runs.IsRun(Init, Next, run) && i < |run|
    requires t in run[i].threads && run[i].threads[t].EpochRead?
    ensures var r := run[i].threads[t];
            RedeemTx(run[i].store, r.h, r.b, r.nonce, Some(r.epoch), r.now, provided).1.Credential?
            ==> Current(run[i].db, r.b.cell, r.b.epoch) && !BeingWithdrawn(run[i], r.b.cell, r.b.epoch)
  {
    InvHolds(run, i);
    var r := run[i].threads[t];
    assert ReadIsSafe(run[i], r);
    CredentialOnlyForALiveLease(run[i].store, r.h, r.b, r.nonce, Some(r.epoch), r.now, provided);
  }

  /** This epoch of this Cell has come. */
  predicate Reached(db: Db, b: Binding) { b.cell in db.cells && b.epoch <= db.cells[b.cell].epoch }

  /** Leases, and mints that have passed their check, are for epochs that have come. */
  ghost predicate MintsReached(s: Sys) {
    && (forall id :: id in s.store.leases ==> Reached(s.db, s.store.leases[id].binding))
    && (forall t :: t in s.threads && s.threads[t].MintChecked? ==> Reached(s.db, s.threads[t].b))
  }

  lemma EpochsStayReached(db: Db, op: Op, b: Binding)
    requires Transact(db, op).Ok? && Reached(db, b)
    ensures Reached(Transact(db, op).value, b)
  {
    OnlyTheSupersededEpochRises(db, op, b.cell);
  }

  lemma CommitKeepsReached(s: Sys, op: Op, s': Sys)
    requires MintsReached(s) && s'.store == s.store && s'.threads == s.threads
    requires s'.db == match Transact(s.db, op) case Ok(d) => d case Err(_) => s.db
    ensures MintsReached(s')
  {
    if Transact(s.db, op).Ok? {
      forall id | id in s.store.leases ensures Reached(s'.db, s.store.leases[id].binding) {
        EpochsStayReached(s.db, op, s.store.leases[id].binding);
      }
      forall t | t in s.threads && s.threads[t].MintChecked? ensures Reached(s'.db, s.threads[t].b) {
        EpochsStayReached(s.db, op, s.threads[t].b);
      }
    }
  }

  lemma BrokerKeepsReached(s: Sys, a: Action, s': Sys)
    requires MintsReached(s) && BrokerStep(s, a, s')
    ensures MintsReached(s')
  {
    if a.RedeemBody? {
      var r := s.threads[a.t];
      RedeemLeavesBehind(s.store, r.h, r.b, r.nonce, Some(r.epoch), r.now, a.provided);
    }
  }

  lemma StepKeepsReached(s: Sys, s': Sys)
    requires MintsReached(s) && Next(s, s')
    ensures MintsReached(s')
  {
    var a :| StepAction(s, a, s');
    if a.Commit? { CommitKeepsReached(s, s.holder.op, s'); }
    else if a.Other? { CommitKeepsReached(s, a.op, s'); }
    else if !AdvanceStep(s, a, s') { BrokerKeepsReached(s, a, s'); }
  }

  /** No lease waits for an epoch to come: in every interleaving each lease is for an epoch its Cell has reached, so a
      lease that is not current now never becomes current again. */
  lemma NoLeaseForAFutureEpoch(run: seq<Sys>, i: nat, id: string)
    requires Runs.IsRun(Init, Next, run) && i < |run| && id in run[i].store.leases
    ensures var b := run[i].store.leases[id].binding;
            b.cell in run[i].db.cells && b.epoch <= run[i].db.cells[b.cell].epoch
  {
    forall s, s' | MintsReached(s) && Next(s, s') ensures MintsReached(s') { StepKeepsReached(s, s'); }
    Runs.InvariantHolds(Init, Next, MintsReached, run, i);
  }

  /** Over a whole run: every credential ever handed out was for the epoch committed at that time, and all
      credentials of one lease went to one process and one binding. */
  lemma EveryGrantWasCurrent(run: seq<Sys>, i: nat, j: nat, k: nat)
    requires Runs.IsRun(Init, Next, run) && i < |run| && j < |run[i].grants| && k < |run[i].grants|
    ensures run[i].grants[j].epochThen == run[i].grants[j].b.epoch
    ensures run[i].grants[j].leaseId == run[i].grants[k].leaseId ==>
              && run[i].grants[j].nonce == run[i].grants[k].nonce
              && run[i].grants[j].b == run[i].grants[k].b
  {
    InvHolds(run, i);
  }

  ghost predicate LiveLease(s: Sys, id: string, c: CellId, e: nat) {
    && id in s.store.leases
    && s.store.leases[id].binding.cell == c && s.store.leases[id].binding.epoch == e
    && s.store.leases[id].revoked.None?
  }

  /** When an advance is about to commit, every live lease of the epoch it withdraws was inserted after the callback. */
  lemma OnlyLateLeasesOutliveTheCallback(run: seq<Sys>, i: nat, c: CellId, e: nat)
    requires Runs.IsRun(Init, Next, run) && i < |run|
    requires BeingWithdrawn(run[i], c, e)
    ensures forall id :: LiveLease(run[i], id, c, e) ==> id in run[i].holder.late
  {
    InvHolds(run, i);
  }

  ghost predicate TakeOverLeftALiveLease(s: Sys) {
    s.holder.Free? && exists id, c :: LiveLease(s, id, c, 1) && Current(s.db, c, 2)
  }

  const LATE_CELL := CellId("repo", "target", "issue")
  const LATE_BINDING := Binding("run", "dag", "task", "stage", "box", 1, LATE_CELL, 1, "op", "policy:p")
  const LATE_HANDLE := Handle("lease", "bearer")
  const LATE_TAKE := TakeEpoch(LATE_CELL, 1, "operator")

  /** A mint whose epoch check runs before a take-over and whose insert runs inside it, action by action. */
  ghost function LateMintAction(k: nat): Action {
    match k
    case 0 => Other(Ensure(LATE_CELL))
    case 1 => MintRead(0, LATE_BINDING, "git.push", "publish", 1.0, 0.0)
    case 2 => Begin(LATE_TAKE)
    case 3 => Tell
    case 4 => MintInsert(0, LATE_HANDLE)
    case _ => Action.Commit
  }

  ghost function LateMint(k: nat): Sys {
    match k
    case 0 => Sys.Sys(Db(map[], []), Store(map[], []), Free, map[], [])
    case 1 => LateMint(0).(db := Enrolled(LateMint(0).db, LATE_CELL))
    case 2 => LateMint(1).(threads := map[][0 := MintChecked(LATE_BINDING, "git.push", "publish", 1.0)])
    case 3 => LateMint(2).(holder := Advancing(LATE_TAKE, false, {}))
    case 4 => LateMint(3).(holder := Advancing(LATE_TAKE, true, {}),
                           store := RevokeTx(LateMint(3).store, WholeEpoch(LATE_CELL, 1), "epoch_advanced"))
    case 5 => LateMint(4).(store := MintTx(LateMint(4).store, LATE_HANDLE, LATE_BINDING, "git.push", "publish", 1.0),
                           holder := Advancing(LATE_TAKE, true, {} + {LATE_HANDLE.leaseId}),
                           threads := LateMint(4).threads[0 := Idle])
    case _ => LateMint(5).(holder := Free, db := match Transact(LateMint(5).db, LATE_TAKE)
                                                 case Ok(d) => d case Err(_) => LateMint(5).db)
  }

  lemma LateBindingIsWellFormed()
    ensures LATE_BINDING.WellFormed()
  {
    var b := LATE_BINDING;
    assert b.factoryRunId[0] == 'r' && b.dagRunId[0] == 'd' && b.taskInstanceId[0] == 't' && b.stageId[0] == 's';
    assert b.sandboxId[0] == 'b' && b.operationKey[0] == 'o' && b.policyDigest[0] == 'p';
  }

  lemma LateMintSteps(k: nat)
    requires k < 6
    ensures StepAction(LateMint(k), LateMintAction(k), LateMint(k + 1))
  {
    match k
    case 0 =>
    case 1 =>
      LateBindingIsWellFormed();
      assert LateMint(1).db == Enrolled(LateMint(0).db, LATE_CELL);
      assert "git.push"[3] == '.';
    case 2 =>
    case 3 => assert LateMint(3).holder == Advancing(LATE_TAKE, false, {});
    case 4 =>
      assert LateMint(4).threads == LateMint(2).threads;
      assert LateMint(4).store.leases.Keys == {};
    case 5 =>
  }

  /**
   The store's own comment promises that a take-over never returns while a prior lease remains live. A mint whose
   epoch check ran before the take-over and whose insert ran during it breaks that: this run ends with a live
   lease of epoch 1 under a Cell at epoch 2. No redeem can use it, by `NoCredentialForASupersededEpoch`.
   */
  lemma TakeOverCanReturnBesideALiveLease()
    ensures exists run: seq<Sys> :: Runs.IsRun(Init, Next, run) && TakeOverLeftALiveLease(run[|run| - 1])
  {
    var run := seq(7, k requires 0 <= k < 7 => LateMint(k));
    forall i | 0 <= i < |run| - 1 ensures Next(run[i], run[i + 1]) { LateMintSteps(i); }
    assert Init(run[0]);
    LateMintEnd();
  }

  lemma LateMintEnd()
    ensures TakeOverLeftALiveLease(LateMint(6))
  {
    assert LateMint(5).db == Enrolled(LateMint(0).db, LATE_CELL);
    assert LiveLease(LateMint(6), LATE_HANDLE.leaseId, LATE_CELL, 1);
    assert Current(LateMint(6).db, LATE_CELL, 2);
  }
}
