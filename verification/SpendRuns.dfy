/**
 A run's journal beside the provider that bills it. A process may die between any two steps, so every state of a
 run is a state some later process may have to start from.
 */
module SpendRuns {
  import opened Prelude
  import opened CallLedger
  import Runs

  /** `reserved` holds every call id ever drawn, `billed` what the provider charged for each, `closed` the calls the
      provider will not charge again, `bill` the sum of all its charges. */
  datatype Sys = Sys(rows: seq<Row>, reserved: map<string, nat>, billed: map<string, nat>, closed: set<string>, bill: nat)

  datatype Action =
    | Reserve(id: string, usd: nat)
    | Bill(id: string, usd: nat)
    | Close(id: string)
    | Settle(id: string, receipt: string)
    | MarkUnknown(id: string)
    | Reconcile(id: string, o: Outcome)
    | AdoptFloor(usd: nat)

  /** What an observation must be for the charges to stay right: a committed bill is the final bill, and an absent
      call was never billed. Other observations may say anything. */
  ghost predicate Truthful(s: Sys, id: string, o: Outcome) {
    && (o.status == Committed ==> id in s.closed && id in s.billed && UsageOf(o) == Some(s.billed[id]))
    && (o.status == DefinitelyAbsent ==> id in s.closed && id in s.billed && s.billed[id] == 0)
  }

  ghost predicate StepAction(s: Sys, a: Action, s': Sys) {
    match a
    case Reserve(id, usd) =>
      && id !in s.reserved
      && s' == s.(rows := s.rows + [ReservedRow(Attempt(id, usd))], reserved := s.reserved[id := usd],
                  billed := s.billed[id := 0])
    case Bill(id, usd) =>
      // the provider never bills a call above the ceiling it was given
      && id in s.billed && id in s.reserved && id !in s.closed && s.billed[id] + usd <= s.reserved[id]
      && s' == s.(billed := s.billed[id := s.billed[id] + usd], bill := s.bill + usd)
    case Close(id) => s' == s.(closed := s.closed + {id})
    case Settle(id, receipt) =>
      && id in s.closed && id in s.billed && id in s.reserved
      && s' == s.(rows := s.rows + [SettledRow(Attempt(id, s.reserved[id]), s.billed[id], receipt)])
    case MarkUnknown(id) =>
      && id in s.reserved
      && s' == s.(rows := s.rows + [UnknownRow(Attempt(id, s.reserved[id]))])
    case Reconcile(id, o) =>
      && Truthful(s, id, o)
      && s' == (match ReconcileRow(s.rows, id, o)
                case Ok(row) => s.(rows := s.rows + [row])
                case Err(_) => s)
    case AdoptFloor(usd) =>
      s' == if FloorOf(s.rows).Some? then s else s.(rows := s.rows + [Floor(usd)])
  }

  ghost predicate Init(s: Sys) { s == Sys.Sys([], map[], map[], {}, 0) }

  ghost predicate Next(s: Sys, s': Sys) { exists a :: StepAction(s, a, s') }

  // ---- the invariant ----

  ghost predicate Covered(s: Sys, r: Record) {
    && r.callId in s.reserved && r.callId in s.billed
    && r.reserved == s.reserved[r.callId]
    && s.billed[r.callId] <= r.reserved
    && (r.settled.Some? ==> r.callId in s.closed && r.settled.value == s.billed[r.callId])
  }

  /** What the provider billed for the calls of these records. */
  ghost function BillOf(recs: seq<Record>, billed: map<string, nat>): nat {
    if recs == [] then 0
    else (if recs[0].callId in billed then billed[recs[0].callId] else 0) + BillOf(recs[1..], billed)
  }

  ghost predicate Inv(s: Sys) {
    && s.billed.Keys == s.reserved.Keys
    && (forall id :: id in s.reserved ==> IndexOf(Fold(s.rows), id).Some?)
    && (forall i :: 0 <= i < |Fold(s.rows)| ==> Covered(s, Fold(s.rows)[i]))
    && BillOf(Fold(s.rows), s.billed) == s.bill
  }

  lemma {:induction false} ChargesCoverBills(s: Sys, recs: seq<Record>)
    requires forall i :: 0 <= i < |recs| ==> Covered(s, recs[i])
    ensures BillOf(recs, s.billed) <= Total(recs)
  {
    if recs != [] {
      assert Covered(s, recs[0]);
      ChargesCoverBills(s, recs[1..]);
    }
  }

  lemma {:induction false} BillOfChange(recs: seq<Record>, billed: map<string, nat>, i: nat, r: Record)
    requires i < |recs| && recs[i].callId == r.callId
    ensures BillOf(recs[i := r], billed) == BillOf(recs, billed)
  {
    if i == 0 {
      assert recs[i := r][1..] == recs[1..];
    } else {
      assert recs[i := r][1..] == recs[1..][i - 1 := r];
      BillOfChange(recs[1..], billed, i - 1, r);
    }
  }

  lemma {:induction false} BillOfMore(recs: seq<Record>, billed: map<string, nat>, r: Record)
    ensures BillOf(recs + [r], billed) == BillOf(recs, billed) + if r.callId in billed then billed[r.callId] else 0
  {
    if recs == [] {
      assert recs + [r] == [r];
    } else {
      assert (recs + [r])[1..] == recs[1..] + [r];
      BillOfMore(recs[1..], billed, r);
    }
  }

  lemma {:induction false} BillOfAnother(recs: seq<Record>, billed: map<string, nat>, id: string, usd: nat)
    requires forall i :: 0 <= i < |recs| ==> recs[i].callId != id
    ensures BillOf(recs, billed[id := usd]) == BillOf(recs, billed)
  {
    if recs != [] { BillOfAnother(recs[1..], billed, id, usd); }
  }

  lemma {:induction false} BillOfCharge(recs: seq<Record>, billed: map<string, nat>, id: string, usd: nat)
    requires DistinctCalls(recs) && IndexOf(recs, id).Some? && id in billed
    ensures BillOf(recs, billed[id := billed[id] + usd]) == BillOf(recs, billed) + usd
  {
    if recs[0].callId == id {
      BillOfAnother(recs[1..], billed, id, billed[id] + usd);
    } else {
      BillOfCharge(recs[1..], billed, id, usd);
    }
  }

  lemma {:induction false} IndexStays(recs: seq<Record>, row: Row, id: string)
    requires IndexOf(recs, id).Some? || (row.Call? && row.callId == id)
    ensures IndexOf(Absorb(recs, row), id).Some?
  {
    var more := Absorb(recs, row);
    if IndexOf(recs, id).Some? {
      assert more[IndexOf(recs, id).value].callId == id;
    } else {
      assert more[|more| - 1].callId == id;
    }
  }

  /** Appending a row that is covered keeps every record covered and the provider's bill unchanged. */
  lemma RowKeepsInv(s: Sys, row: Row, s': Sys)
    requires Inv(s) && s' == s.(rows := s.rows + [row])
    requires row.Call? ==> row.callId in s.reserved && Covered(s, Latest(row, None))
    ensures Inv(s')
  {
    var recs := Fold(s.rows);
    FoldAppend(s.rows, row);
    if row.Call? {
      var i := IndexOf(recs, row.callId).value;
      BillOfChange(recs, s.billed, i, Latest(row, Some(recs[i])));
      forall j | 0 <= j < |Fold(s'.rows)| ensures Covered(s', Fold(s'.rows)[j]) { assert Covered(s, recs[j]); }
      forall id | id in s'.reserved ensures IndexOf(Fold(s'.rows), id).Some? { IndexStays(recs, row, id); }
    } else {
      forall j | 0 <= j < |Fold(s'.rows)| ensures Covered(s', Fold(s'.rows)[j]) { assert Covered(s, recs[j]); }
    }
  }

  lemma ReserveKeepsInv(s: Sys, id: string, usd: nat, s': Sys)
    requires Inv(s) && StepAction(s, Reserve(id, usd), s')
    ensures Inv(s')
  {
    var recs, row := Fold(s.rows), ReservedRow(Attempt(id, usd));
    FoldAppend(s.rows, row);
    forall i | 0 <= i < |recs| ensures recs[i].callId != id { assert Covered(s, recs[i]); }
    assert Fold(s'.rows) == recs + [Latest(row, None)];
    BillOfAnother(recs, s.billed, id, 0);
    BillOfMore(recs, s'.billed, Latest(row, None));
    forall i | 0 <= i < |Fold(s'.rows)| ensures Covered(s', Fold(s'.rows)[i]) {
      if i < |recs| { assert Covered(s, recs[i]); }
    }
    forall x | x in s'.reserved ensures IndexOf(Fold(s'.rows), x).Some? { IndexStays(recs, row, x); }
  }

  lemma BilledMore(s: Sys, id: string, usd: nat, s': Sys)
    requires Inv(s) && StepAction(s, Bill(id, usd), s')
    ensures BillOf(Fold(s'.rows), s'.billed) == BillOf(Fold(s.rows), s.billed) + usd
  {
    FoldIsDistinct(s.rows);
    BilledIsReserved(s, id, usd, s');
    BillOfCharge(Fold(s.rows), s.billed, id, usd);
  }

  lemma BilledIsReserved(s: Sys, id: string, usd: nat, s': Sys)
    requires Inv(s) && StepAction(s, Bill(id, usd), s')
    ensures IndexOf(Fold(s.rows), id).Some? && id in s.billed
    ensures s'.rows == s.rows && s'.billed == s.billed[id := s.billed[id] + usd]
  {
  }

  lemma BillKeepsInv(s: Sys, id: string, usd: nat, s': Sys)
    requires Inv(s) && StepAction(s, Bill(id, usd), s')
    ensures Inv(s')
  {
    BilledMore(s, id, usd, s');
    forall i | 0 <= i < |Fold(s'.rows)| ensures Covered(s', Fold(s'.rows)[i]) { assert Covered(s, Fold(s.rows)[i]); }
  }

  lemma CloseKeepsInv(s: Sys, id: string, s': Sys)
    requires Inv(s) && StepAction(s, Close(id), s')
    ensures Inv(s')
  {
    forall i | 0 <= i < |Fold(s'.rows)| ensures Covered(s', Fold(s'.rows)[i]) { assert Covered(s, Fold(s.rows)[i]); }
  }

  /** The rows the ledger appends on its own account: each is covered, whichever operation writes it. */
  lemma AppendedRow(s: Sys, a: Action, s': Sys)
    requires Inv(s) && StepAction(s, a, s') && !a.Reserve? && !a.Bill? && !a.Close? && s'.rows != s.rows
    ensures s' == s.(rows := s.rows + [s'.rows[|s.rows|]])
    ensures var row := s'.rows[|s.rows|];
            row.Call? ==> row.callId in s.reserved && Covered(s, Latest(row, None))
  {
    if !a.AdoptFloor? {
      if IndexOf(Fold(s.rows), a.id).Some? { assert Covered(s, Fold(s.rows)[IndexOf(Fold(s.rows), a.id).value]); }
    }
  }

  lemma StepKeepsInv(s: Sys, s': Sys)
    requires Inv(s) && Next(s, s')
    ensures Inv(s')
  {
    var a :| StepAction(s, a, s');
    if a.Reserve? { ReserveKeepsInv(s, a.id, a.usd, s'); }
    else if a.Bill? { BillKeepsInv(s, a.id, a.usd, s'); }
    else if a.Close? { CloseKeepsInv(s, a.id, s'); }
    else if s'.rows != s.rows {
      AppendedRow(s, a, s');
      RowKeepsInv(s, s'.rows[|s.rows|], s');
    }
  }

  lemma InvHolds(run: seq<Sys>, i: nat)
    requires Runs.IsRun(Init, Next, run) && i < |run|
    ensures Inv(run[i])
  {
    forall s, s' | Inv(s) && Next(s, s') ensures Inv(s') { StepKeepsInv(s, s'); }
    Runs.InvariantHolds(Init, Next, Inv, run, i);
  }

  /** The ledger never under-charges: whenever a process dies, what the journal charges is at least what the
      provider has billed by then. */
  lemma NeverUnderCharged(run: seq<Sys>, i: nat)
    requires Runs.IsRun(Init, Next, run) && i < |run|
    ensures run[i].bill <= Charged(run[i].rows)
  {
    InvHolds(run, i);
    ChargesCoverBills(run[i], Fold(run[i].rows));
  }

  /** Once nothing is unsettled, the journal charges exactly what the provider billed. */
  lemma ExactOnceEverythingIsSettled(run: seq<Sys>, i: nat)
    requires Runs.IsRun(Init, Next, run) && i < |run|
    requires forall k :: 0 <= k < |Fold(run[i].rows)| ==> Fold(run[i].rows)[k].settled.Some?
    ensures Charged(run[i].rows) == run[i].bill
  {
    InvHolds(run, i);
    SettledSum(run[i], Fold(run[i].rows));
  }

  lemma {:induction false} SettledSum(s: Sys, recs: seq<Record>)
    requires forall i :: 0 <= i < |recs| ==> Covered(s, recs[i]) && recs[i].settled.Some?
    ensures Total(recs) == BillOf(recs, s.billed)
  {
    if recs != [] {
      assert Covered(s, recs[0]);
      SettledSum(s, recs[1..]);
    }
  }

  // ---- nothing stays in doubt for ever ----

  ghost predicate Path(path: seq<Sys>) { path != [] && forall k :: 0 <= k < |path| - 1 ==> Next(path[k], path[k + 1]) }

  ghost predicate Leads(s: Sys, t: Sys) { exists path :: Path(path) && path[0] == s && path[|path| - 1] == t }

  lemma StepLeads(s: Sys, a: Action, u: Sys, t: Sys)
    requires StepAction(s, a, u) && Leads(u, t)
    ensures Leads(s, t)
  {
    var path :| Path(path) && path[0] == u && path[|path| - 1] == t;
    var all := [s] + path;
    assert Next(s, u);
    forall k | 0 <= k < |all| - 1 ensures Next(all[k], all[k + 1]) {
      if k > 0 { assert all[k] == path[k - 1] && all[k + 1] == path[k]; }
    }
    assert Path(all);
  }

  function Unsettled(recs: seq<Record>): nat {
    if recs == [] then 0 else (if recs[0].settled.None? then 1 else 0) + Unsettled(recs[1..])
  }

  lemma {:induction false} OneLessUnsettled(recs: seq<Record>, i: nat, r: Record)
    requires i < |recs| && recs[i].settled.None? && r.settled.Some?
    ensures Unsettled(recs[i := r]) == Unsettled(recs) - 1
  {
    if i == 0 {
      assert recs[i := r][1..] == recs[1..];
    } else {
      assert recs[i := r][1..] == recs[1..][i - 1 := r];
      OneLessUnsettled(recs[1..], i - 1, r);
    }
  }

  /** Closing an open call and settling it at its bill. */
  lemma OneMoreSettled(s: Sys, i: nat) returns (closed: Sys, settled: Sys)
    requires Inv(s) && i < |Fold(s.rows)| && Fold(s.rows)[i].settled.None?
    ensures StepAction(s, Close(Fold(s.rows)[i].callId), closed)
    ensures StepAction(closed, Settle(Fold(s.rows)[i].callId, "receipt"), settled)
    ensures Inv(settled) && settled.bill == s.bill && Unsettled(Fold(settled.rows)) == Unsettled(Fold(s.rows)) - 1
  {
    var recs, id := Fold(s.rows), Fold(s.rows)[i].callId;
    assert Covered(s, recs[i]);
    var row := SettledRow(Attempt(id, s.reserved[id]), s.billed[id], "receipt");
    closed := s.(closed := s.closed + {id});
    settled := closed.(rows := s.rows + [row]);
    CloseKeepsInv(s, id, closed);
    assert StepAction(closed, Settle(id, "receipt"), settled);
    assert Next(closed, settled);
    StepKeepsInv(closed, settled);
    FoldAppend(s.rows, row);
    FoldIsDistinct(s.rows);
    IndexIsFirst(recs, i);
    OneLessUnsettled(recs, i, Latest(row, Some(recs[i])));
  }

  lemma {:induction false} EverythingSettles(s: Sys) returns (t: Sys)
    requires Inv(s)
    ensures Leads(s, t) && t.bill == s.bill && Charged(t.rows) == t.bill
    decreases Unsettled(Fold(s.rows))
  {
    var recs := Fold(s.rows);
    if i :| 0 <= i < |recs| && recs[i].settled.None? {
      var closed, settled := OneMoreSettled(s, i);
      t := EverythingSettles(settled);
      StepLeads(closed, Settle(recs[i].callId, "receipt"), settled, t);
      StepLeads(s, Close(recs[i].callId), closed, t);
    } else {
      t := s;
      assert Path([s]);
      forall k | 0 <= k < |recs| ensures Covered(s, recs[k]) && recs[k].settled.Some? { }
      SettledSum(s, recs);
    }
  }

  /** No reservation is held for ever: from every moment of a run, settling what is open at its bill leads to a journal
      that charges exactly what was billed. */
  lemma EveryReservationCanBeSettled(run: seq<Sys>, i: nat)
    requires Runs.IsRun(Init, Next, run) && i < |run|
    ensures exists t :: Leads(run[i], t) && t.bill == run[i].bill && Charged(t.rows) == t.bill
  {
    InvHolds(run, i);
    var t := EverythingSettles(run[i]);
  }

  /** Money comes back only by settlement: a step that lowers the charge appended a row that settles a call. */
  lemma ChargeFallsOnlyBySettling(run: seq<Sys>, i: nat)
    requires Runs.IsRun(Init, Next, run) && i + 1 < |run|
    requires Charged(run[i + 1].rows) < Charged(run[i].rows)
    ensures |run[i + 1].rows| == |run[i].rows| + 1
    ensures var row := run[i + 1].rows[|run[i].rows|]; row.Call? && row.cost.Some?
  {
    InvHolds(run, i);
    var s, s' := run[i], run[i + 1];
    assert Next(s, s');
    var a :| StepAction(s, a, s');
    if a.Reserve? {
      ChargedAfter(s.rows, s'.rows[|s.rows|]);
    } else {
      AppendedRow(s, a, s');
      CoveredRowLowersOnlyBySettling(s, s'.rows[|s.rows|]);
    }
  }

  lemma CoveredRowLowersOnlyBySettling(s: Sys, row: Row)
    requires Inv(s) && (row.Call? ==> row.callId in s.reserved && Covered(s, Latest(row, None)))
    requires Charged(s.rows + [row]) < Charged(s.rows)
    ensures row.Call? && row.cost.Some?
  {
    ChargedAfter(s.rows, row);
    if row.Call? { assert Covered(s, Fold(s.rows)[IndexOf(Fold(s.rows), row.callId).value]); }
  }
}
