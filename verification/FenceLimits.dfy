/**
 How far the credential fence reaches, stated exactly: when a take-over returns beside a live lease of the epoch it
 withdrew, and which Cells a credential can still be drawn for.
 */
module FenceLimits {
  import opened Prelude
  import C = Cells
  import opened CredentialLease
  import opened FenceProtocol
  import Runs
  import FreshStrings

  // ---- take-overs and the leases they leave ----

  /** Some thread has passed the epoch check of a mint for this Cell and epoch, and has not inserted its lease yet. */
  ghost predicate MintUnderWay(s: Sys, c: C.CellId, e: nat) {
    exists t :: Minting(s, t, c, e)
  }

  predicate Minting(s: Sys, t: nat, c: C.CellId, e: nat) { t in s.threads && MintsFor(s.threads[t], c, e) }

  predicate MintsFor(th: Thread, c: C.CellId, e: nat) { th.MintChecked? && th.b.cell == c && th.b.epoch == e }

  ghost predicate LeaseLives(s: Sys, c: C.CellId, e: nat) { exists id :: LiveLease(s, id, c, e) }

  /** One advance from its start to its return: begun in the first state, committed by the last step. */
  ghost predicate IsAdvance(seg: seq<Sys>, op: C.Op) {
    && |seg| >= 3
    && StepAction(seg[0], Begin(op), seg[1])
    && (forall k :: 1 <= k < |seg| - 1 ==> seg[k].holder.Advancing?)
    && (forall k :: 1 <= k < |seg| - 2 ==> Next(seg[k], seg[k + 1]))
    && C.Transact(seg[|seg| - 2].db, op).Ok?
    && StepAction(seg[|seg| - 2], Action.Commit, seg[|seg| - 1])
  }

  /** Inside an advance that no mint had overtaken: it still withdraws (c, e), and once it has told the broker no lease
      of (c, e) is live. */
  ghost predicate Undisturbed(s: Sys, op: C.Op, c: C.CellId, e: nat) {
    && s.holder.Advancing? && s.holder.op == op && Withdrawn(s.db, op) == Some((c, e))
    && !MintUnderWay(s, c, e)
    && (s.holder.told ==> !LeaseLives(s, c, e))
  }

  lemma SameMints(s: Sys, s': Sys, c: C.CellId, e: nat)
    requires s'.threads == s.threads
    ensures MintUnderWay(s, c, e) <==> MintUnderWay(s', c, e)
  {
    assert forall t :: Minting(s', t, c, e) <==> Minting(s, t, c, e);
  }

  lemma NoLeaseAfterRevoking(s: Store, s': Store, c: C.CellId, e: nat, reason: string)
    requires s' == RevokeTx(s, WholeEpoch(c, e), reason)
    ensures forall id :: id in s'.leases && s'.leases[id].binding.cell == c && s'.leases[id].binding.epoch == e ==>
              s'.leases[id].revoked.Some?
  {
    RevocationIsExact(s, WholeEpoch(c, e), reason);
  }

  lemma RevokingAddsNoLease(s: Sys, s': Sys, c: C.CellId, e: nat, scope: Scope, reason: string)
    requires s'.store == RevokeTx(s.store, scope, reason)
    ensures LeaseLives(s', c, e) ==> LeaseLives(s, c, e)
  {
    if id :| LiveLease(s', id, c, e) {
      RevocationIsExact(s.store, scope, reason);
      assert LiveLease(s, id, c, e);
    }
  }

  lemma AdvanceStaysUndisturbed(s: Sys, a: Action, s': Sys, op: C.Op, c: C.CellId, e: nat)
    requires Undisturbed(s, op, c, e) && AdvanceStep(s, a, s') && s'.holder.Advancing?
    ensures Undisturbed(s', op, c, e)
  {
    assert a.Tell?;
    SameMints(s, s', c, e);
    NoLeaseAfterRevoking(s.store, s'.store, c, e, WhyWithdrawn(op));
  }

  lemma OtherStaysUndisturbed(s: Sys, other: C.Op, s': Sys, op: C.Op, c: C.CellId, e: nat)
    requires Undisturbed(s, op, c, e) && OtherStep(s, other, s')
    ensures Undisturbed(s', op, c, e)
  {
    SameMints(s, s', c, e);
    if C.Transact(s.db, other).Ok? && op.Patch? { OnlyTheSupersededEpochRises(s.db, other, c); }
    assert LeaseLives(s', c, e) ==> LeaseLives(s, c, e) by {
      if id :| LiveLease(s', id, c, e) { assert LiveLease(s, id, c, e); }
    }
  }

  lemma BrokerStaysUndisturbed(s: Sys, a: Action, s': Sys, op: C.Op, c: C.CellId, e: nat)
    requires Undisturbed(s, op, c, e) && BrokerStep(s, a, s')
    ensures Undisturbed(s', op, c, e)
  {
    BrokerStartsNoMint(s, a, s', c, e);
    if a.RevokeScope? {
      RevokingAddsNoLease(s, s', c, e, a.scope, a.reason);
    } else if LeaseLives(s', c, e) {
      var id :| LiveLease(s', id, c, e);
      BrokerAddsNoLease(s, a, s', c, e, id);
      assert LiveLease(s, id, c, e);
    }
  }

  /** While the store's lock is held no mint can pass its epoch check. */
  lemma BrokerStartsNoMint(s: Sys, a: Action, s': Sys, c: C.CellId, e: nat)
    requires s.holder.Advancing? && BrokerStep(s, a, s') && !MintUnderWay(s, c, e)
    ensures !MintUnderWay(s', c, e)
  {
    assert forall t :: Minting(s', t, c, e) ==> Minting(s, t, c, e);
  }

  lemma BrokerAddsNoLease(s: Sys, a: Action, s': Sys, c: C.CellId, e: nat, id: string)
    requires s.holder.Advancing? && BrokerStep(s, a, s') && !a.RevokeScope? && !MintUnderWay(s, c, e)
    requires LiveLease(s', id, c, e)
    ensures LiveLease(s, id, c, e)
  {
    if a.MintInsert? {
      assert !Minting(s, a.t, c, e);
    } else if a.RedeemBody? {
      var r := s.threads[a.t];
      RedeemLeavesBehind(s.store, r.h, r.b, r.nonce, Some(r.epoch), r.now, a.provided);
    }
  }

  lemma StepStaysUndisturbed(s: Sys, s': Sys, op: C.Op, c: C.CellId, e: nat)
    requires Undisturbed(s, op, c, e) && Next(s, s') && s'.holder.Advancing?
    ensures Undisturbed(s', op, c, e)
  {
    var a :| StepAction(s, a, s');
    if AdvanceStep(s, a, s') { AdvanceStaysUndisturbed(s, a, s', op, c, e); }
    else if a.Other? { OtherStaysUndisturbed(s, a.op, s', op, c, e); }
    else { BrokerStaysUndisturbed(s, a, s', op, c, e); }
  }

  lemma {:induction false} AdvanceUndisturbed(seg: seq<Sys>, op: C.Op, c: C.CellId, e: nat, k: nat)
    requires IsAdvance(seg, op) && Withdrawn(seg[0].db, op) == Some((c, e)) && !MintUnderWay(seg[0], c, e)
    requires 1 <= k < |seg| - 1
    ensures Undisturbed(seg[k], op, c, e)
  {
    if k == 1 {
      SameMints(seg[0], seg[1], c, e);
    } else {
      AdvanceUndisturbed(seg, op, c, e, k - 1);
      assert Next(seg[k - 1], seg[k - 1 + 1]);
      StepStaysUndisturbed(seg[k - 1], seg[k], op, c, e);
    }
  }

  /** Without a mint under way when it begins, an advance returns with no live lease of the epoch it withdrew. */
  lemma NoMintNoLease(seg: seq<Sys>, op: C.Op, c: C.CellId, e: nat)
    requires IsAdvance(seg, op) && Withdrawn(seg[0].db, op) == Some((c, e)) && !MintUnderWay(seg[0], c, e)
    ensures !LeaseLives(seg[|seg| - 1], c, e)
  {
    var n := |seg| - 1;
    AdvanceUndisturbed(seg, op, c, e, n - 1);
    if id :| LiveLease(seg[n], id, c, e) { assert LiveLease(seg[n - 1], id, c, e); }
  }

  lemma DrawFresh(s: Sys) returns (id: string)
    ensures Drawn(s, id)
  {
    id := FreshStrings.FreshString(
      s.store.leases.Keys + set t | t in s.threads && s.threads[t].EpochRead? :: s.threads[t].h.leaseId);
  }

  /** The advance during which the waiting mint inserts its lease, after the callback and before the commit. */
  lemma LateInsert(s: Sys, op: C.Op, c: C.CellId, e: nat, t: nat) returns (seg: seq<Sys>)
    requires s.holder.Free? && (op.Activate? || op.TakeEpoch? || op.Patch?) && Withdrawn(s.db, op) == Some((c, e))
    requires C.Transact(s.db, op).Ok? && t in s.threads && MintsFor(s.threads[t], c, e)
    ensures IsAdvance(seg, op) && seg[0] == s && LeaseLives(seg[|seg| - 1], c, e)
  {
    var m := s.threads[t];
    var id := DrawFresh(s);
    var begun := s.(holder := Advancing(op, false, {}));
    var told := begun.(holder := Advancing(op, true, {}), store := RevokeTx(s.store, WholeEpoch(c, e), WhyWithdrawn(op)));
    var handle := Handle(id, "");
    var minted := told.(store := MintTx(told.store, handle, m.b, m.capability, m.purpose, m.expiresAt),
                        holder := Advancing(op, true, {} + {id}), threads := s.threads[t := Idle]);
    var done := minted.(holder := Free, db := C.Transact(s.db, op).value);
    assert StepAction(begun, Tell, told);
    assert StepAction(told, MintInsert(t, handle), minted);
    assert StepAction(minted, Action.Commit, done);
    assert LiveLease(done, id, c, e);
    seg := [s, begun, told, minted, done];
  }

  /**
   Whatever state an activation, a take-over or an ending patch starts from: if it commits, it can return beside a live
   lease of the epoch it withdraws exactly when a mint for that Cell and epoch is under way at its start. The epoch
   check of such a mint has passed, and nothing makes its insert wait.
   */
  lemma TakeOverLeavesALeaseExactlyWhenAMintIsUnderWay(s: Sys, op: C.Op, c: C.CellId, e: nat)
    requires s.holder.Free? && (op.Activate? || op.TakeEpoch? || op.Patch?)
    requires Withdrawn(s.db, op) == Some((c, e)) && C.Transact(s.db, op).Ok?
    ensures (exists seg :: IsAdvance(seg, op) && seg[0] == s && LeaseLives(seg[|seg| - 1], c, e)) <==> MintUnderWay(s, c, e)
  {
    if MintUnderWay(s, c, e) {
      var t :| Minting(s, t, c, e);
      var seg := LateInsert(s, op, c, e, t);
    }
    if seg :| IsAdvance(seg, op) && seg[0] == s && LeaseLives(seg[|seg| - 1], c, e) {
      if !MintUnderWay(s, c, e) { NoMintNoLease(seg, op, c, e); }
    }
  }

  // ---- ended Cells ----

  /** A patch that ends its Cell returns with no live lease of the Cell's epoch, unless a mint was under way. */
  lemma EndingPatchWithdraws(seg: seq<Sys>, op: C.Op, c: C.CellId, e: nat)
    requires IsAdvance(seg, op) && Ended(seg[0].db, op) == Some((c, e)) && !MintUnderWay(seg[0], c, e)
    ensures !LeaseLives(seg[|seg| - 1], c, e)
    ensures C.Current(seg[|seg| - 1].db, c, e) && seg[|seg| - 1].db.cells[c].state in C.TERMINAL_STATES
  {
    NoMintNoLease(seg, op, c, e);
    AdvanceUndisturbed(seg, op, c, e, |seg| - 2);
  }

  ghost predicate BrokerNext(s: Sys, s': Sys) { exists a :: BrokerStep(s, a, s') }

  /** Steps of mints, redeems and revocations only, with a grant for this binding among the new ones. */
  ghost predicate GrantsBy(seg: seq<Sys>, b: Binding) {
    && seg != []
    && (forall k :: 0 <= k < |seg| - 1 ==> BrokerNext(seg[k], seg[k + 1]))
    && GrantedSince(seg[0], seg[|seg| - 1], b)
  }

  ghost predicate GrantedSince(s: Sys, s': Sys, b: Binding) {
    exists k :: |s.grants| <= k < |s'.grants| && s'.grants[k].b == b
  }

  lemma {:induction false} BrokerGrantsAreCurrent(seg: seq<Sys>, n: nat)
    requires seg != [] && Inv(seg[0]) && n < |seg|
    requires forall k :: 0 <= k < |seg| - 1 ==> BrokerNext(seg[k], seg[k + 1])
    ensures Inv(seg[n]) && seg[n].db == seg[0].db && |seg[0].grants| <= |seg[n].grants|
    ensures forall k :: |seg[0].grants| <= k < |seg[n].grants| ==>
              C.Current(seg[0].db, seg[n].grants[k].b.cell, seg[n].grants[k].b.epoch)
  {
    if n > 0 {
      BrokerGrantsAreCurrent(seg, n - 1);
      assert BrokerNext(seg[n - 1], seg[n - 1 + 1]);
      var a :| BrokerStep(seg[n - 1], a, seg[n]);
      BrokerGrantIsCurrent(seg[n - 1], a, seg[n]);
    }
  }

  /** A step of the broker changes no Cell, and grants at most once, for a current epoch. */
  lemma BrokerGrantIsCurrent(s: Sys, a: Action, s': Sys)
    requires Inv(s) && BrokerStep(s, a, s')
    ensures Inv(s') && s'.db == s.db && s.grants <= s'.grants && |s'.grants| <= |s.grants| + 1
    ensures |s'.grants| > |s.grants| ==>
              C.Current(s.db, s'.grants[|s.grants|].b.cell, s'.grants[|s.grants|].b.epoch)
  {
    assert StepAction(s, a, s');
    StepKeepsInv(s, s');
  }

  const NONCE := "0123456789abcdef"

  /** A mint and a redeem, one after the other, for a well-formed binding of a current Cell. */
  lemma MintAndRedeem(s: Sys, b: Binding) returns (seg: seq<Sys>)
    requires s.holder.Free? && b.WellFormed() && C.Current(s.db, b.cell, b.epoch)
    ensures GrantsBy(seg, b) && seg[0] == s
  {
    var id := DrawFresh(s);
    var h := Handle(id, "");
    assert "git.push"[3] == '.';
    var checked := s.(threads := s.threads[0 := MintChecked(b, "git.push", "publish", 1.0)]);
    assert BrokerStep(s, MintRead(0, b, "git.push", "publish", 1.0, 0.0), checked);
    var minted := checked.(store := MintTx(s.store, h, b, "git.push", "publish", 1.0), threads := checked.threads[0 := Idle]);
    assert BrokerStep(checked, MintInsert(0, h), minted);
    var read := minted.(threads := minted.threads[0 := EpochRead(h, b, NONCE, b.epoch, 0.0)]);
    assert BrokerStep(minted, RedeemRead(0, h, b, NONCE, 0.0), read);
    var provided := map["git.push" := "credential"];
    CredentialOnlyForALiveLease(read.store, h, b, NONCE, Some(b.epoch), 0.0, provided);
    var (store, answer) := RedeemTx(read.store, h, b, NONCE, Some(b.epoch), 0.0, provided);
    var granted := read.(store := store, threads := read.threads[0 := Idle],
                         grants := read.grants + [Grant(id, NONCE, b, b.epoch)]);
    assert BrokerStep(read, RedeemBody(0, provided), granted);
    seg := [s, checked, minted, read, granted];
    assert granted.grants[|s.grants|].b == b;
  }

  /**
   In every reachable state in which no advance is running, a credential can still be minted and redeemed for a
   well-formed binding exactly when the binding's epoch is the Cell's current one. The Cell's lifecycle state plays no
   part: an ended Cell keeps its epoch until it is activated again or taken over.
   */
  lemma CredentialsFollowTheEpochAlone(run: seq<Sys>, b: Binding)
    requires Runs.IsRun(Init, Next, run) && run[|run| - 1].holder.Free? && b.WellFormed()
    ensures (exists seg :: GrantsBy(seg, b) && seg[0] == run[|run| - 1]) <==> C.Current(run[|run| - 1].db, b.cell, b.epoch)
  {
    var s := run[|run| - 1];
    if C.Current(s.db, b.cell, b.epoch) {
      var seg := MintAndRedeem(s, b);
    }
    if seg :| GrantsBy(seg, b) && seg[0] == s {
      InvHolds(run, |run| - 1);
      BrokerGrantsAreCurrent(seg, |seg| - 1);
    }
  }

  /** A Cell is enrolled and then cancelled. */
  lemma Cancelled() returns (run: seq<Sys>)
    ensures |run| == 5 && Runs.IsRun(Init, Next, run) && run[4].holder.Free?
    ensures C.Current(run[4].db, LATE_CELL, 1) && run[4].db.cells[LATE_CELL].state == "cancelled"
  {
    var s0 := Sys.Sys(C.Db(map[], []), Store(map[], []), Free, map[], []);
    var s1 := s0.(db := C.Enrolled(s0.db, LATE_CELL));
    var cancel := C.Patch(LATE_CELL, 1, C.Named("cancel"), C.Fields(Some("cancelled"), None, None, map[]), "");
    var s2 := s1.(holder := Advancing(cancel, false, {}));
    var s3 := s2.(holder := Advancing(cancel, true, {}),
                  store := RevokeTx(s2.store, WholeEpoch(LATE_CELL, 1), "cell_cancelled"));
    var s4 := s3.(holder := Free, db := C.Transact(s3.db, cancel).value);
    assert StepAction(s0, Other(C.Ensure(LATE_CELL)), s1);
    assert StepAction(s1, Begin(cancel), s2);
    assert StepAction(s2, Tell, s3);
    assert StepAction(s3, Action.Commit, s4);
    run := [s0, s1, s2, s3, s4];
  }

  lemma ContinuedByBroker(run: seq<Sys>, seg: seq<Sys>)
    requires Runs.IsRun(Init, Next, run) && seg != [] && seg[0] == run[|run| - 1]
    requires forall k :: 0 <= k < |seg| - 1 ==> BrokerNext(seg[k], seg[k + 1])
    ensures Runs.IsRun(Init, Next, run + seg[1..])
  {
    var all := run + seg[1..];
    forall k | 0 <= k < |all| - 1 ensures Next(all[k], all[k + 1]) {
      var n := k - (|run| - 1);
      if n >= 0 {
        assert all[k] == seg[n] && all[k + 1] == seg[n + 1];
        assert BrokerNext(seg[n], seg[n + 1]);
        var a :| BrokerStep(seg[n], a, seg[n + 1]);
        assert StepAction(all[k], a, all[k + 1]);
      } else {
        assert Next(run[k], run[k + 1]);
      }
    }
  }

  /** Cancelling a Cell withdraws its leases; yet a run can go on with a mint and end with a credential for it. */
  lemma ACancelledCellCanStillDrawACredential()
    ensures exists run :: Runs.IsRun(Init, Next, run) && DrewForACancelledCell(run[|run| - 1])
  {
    var start := Cancelled();
    LateBindingIsWellFormed();
    var seg := MintAndRedeem(start[4], LATE_BINDING);
    ContinuedByBroker(start, seg);
    BrokerStepsKeepTheCells(seg, |seg| - 1);
    var run := start + seg[1..];
    assert run[|run| - 1] == seg[|seg| - 1];
    assert DrewForACancelledCell(run[|run| - 1]);
  }

  lemma {:induction false} BrokerStepsKeepTheCells(seg: seq<Sys>, n: nat)
    requires n < |seg| && forall k :: 0 <= k < |seg| - 1 ==> BrokerNext(seg[k], seg[k + 1])
    ensures seg[n].db == seg[0].db
  {
    if n > 0 {
      BrokerStepsKeepTheCells(seg, n - 1);
      assert BrokerNext(seg[n - 1], seg[n - 1 + 1]);
    }
  }

  ghost predicate DrewForACancelledCell(s: Sys) {
    exists k :: 0 <= k < |s.grants| && s.grants[k].b.cell in s.db.cells
                && s.db.cells[s.grants[k].b.cell].state == "cancelled"
  }
}
