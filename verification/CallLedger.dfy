/**
 Per-call spend: an append-only journal and the fold that turns it into charges. Money is counted in micro-dollars,
 since the code rounds every total to six decimal places.
 */
module CallLedger {
  import opened Prelude

  datatype CallState = Intent | InDoubt | Reconciling | Settled | RefusedOutcome

  datatype Status = Committed | DefinitelyAbsent | Ambiguous | Divergent | Refused

  /** The evidence kept with an observation: which file it came from, and who imported it and why. */
  datatype Evidence = Evidence(file: string, actor: string, reason: string)

  datatype Seen = Seen(status: Status, evidence: Evidence)

  datatype Outcome = Outcome(status: Status, result: Option<int>, evidenceCost: Option<int>, evidence: Evidence)

  /** A journal row: the adopted pre-ledger floor, or one event of one call. */
  datatype Row =
    | Floor(usd: nat)
    | Call(callId: string, state: CallState, reserved: nat, cost: Option<nat>, receipt: Option<string>, seen: Option<Seen>)

  datatype Record = Record(
    callId: string, state: CallState, reserved: nat, settled: Option<nat>, receipt: Option<string>, seen: Option<Seen>)
  {
    /** What the call takes out of the ceiling: its bill once known, its whole reservation until then. */
    function Charge(): nat { if settled.Some? then settled.value else reserved }
  }

  datatype Attempt = Attempt(callId: string, reserved: nat)

  datatype LedgerError = Negative | UnknownCall | AlreadySettled(usd: nat) | NoUsage

  // ---- the fold ----

  function IndexOf(recs: seq<Record>, id: string): (r: Option<nat>)
    ensures r.Some? ==> r.value < |recs| && recs[r.value].callId == id
    ensures r.None? ==> forall i :: 0 <= i < |recs| ==> recs[i].callId != id
  {
    if recs == [] then None
    else if recs[0].callId == id then Some(0)
    else match IndexOf(recs[1..], id) case Some(i) => Some(i + 1) case None => None
  }

  /** The record after one more row of its call. An empty receipt counts as none. */
  function Latest(row: Row, prior: Option<Record>): Record
    requires row.Call?
  {
    Record(row.callId, row.state, row.reserved, row.cost,
           if row.receipt.Some? && row.receipt.value != "" then row.receipt
           else if prior.Some? then prior.value.receipt else None,
           if row.seen.Some? || prior.None? then row.seen else prior.value.seen)
  }

  function Absorb(recs: seq<Record>, row: Row): seq<Record> {
    if row.Floor? then recs
    else match IndexOf(recs, row.callId)
         case Some(i) => recs[i := Latest(row, Some(recs[i]))]
         case None => recs + [Latest(row, None)]
  }

  function Fold(rows: seq<Row>): seq<Record> {
    if rows == [] then [] else Absorb(Fold(rows[..|rows| - 1]), rows[|rows| - 1])
  }

  function RecordOf(rows: seq<Row>, id: string): Option<Record> {
    match IndexOf(Fold(rows), id) case Some(i) => Some(Fold(rows)[i]) case None => None
  }

  function Total(recs: seq<Record>): nat {
    if recs == [] then 0 else recs[0].Charge() + Total(recs[1..])
  }

  function Charged(rows: seq<Row>): nat { Total(Fold(rows)) }

  function FloorOf(rows: seq<Row>): Option<nat> {
    if rows == [] then None else if rows[0].Floor? then Some(rows[0].usd) else FloorOf(rows[1..])
  }

  // ---- the operations as appended rows ----

  function ReservedRow(a: Attempt): Row { Call(a.callId, Intent, a.reserved, None, None, None) }

  function SettledRow(a: Attempt, cost: nat, receipt: string): Row {
    Call(a.callId, Settled, a.reserved, Some(cost), Some(receipt), None)
  }

  function UnknownRow(a: Attempt): Row { Call(a.callId, InDoubt, a.reserved, None, None, None) }

  /** The provider's own number, from the result first and the evidence second. */
  function UsageOf(o: Outcome): Option<nat> {
    if o.result.Some? && o.result.value >= 0 then Some(o.result.value)
    else if o.evidenceCost.Some? && o.evidenceCost.value >= 0 then Some(o.evidenceCost.value)
    else None
  }

  /** What a reconciliation appends, or why it refuses. */
  function ReconcileRow(rows: seq<Row>, id: string, o: Outcome): Result<Row, LedgerError> {
    match IndexOf(Fold(rows), id)
    case None => Err(UnknownCall)
    case Some(i) =>
      var r := Fold(rows)[i];
      if r.settled.Some? then Err(AlreadySettled(r.settled.value))
      else
        var releases := o.status == Committed || o.status == DefinitelyAbsent;
        var usage := if o.status == DefinitelyAbsent then Some(0) else UsageOf(o);
        if releases && usage.None? then Err(NoUsage)
        else
          var cost := if releases then usage else None;
          var state := if cost.Some? then Settled else if o.status == Refused then RefusedOutcome else Reconciling;
          Ok(Call(id, state, r.reserved, cost, None, Some(Seen(o.status, o.evidence))))
  }

  // ---- facts about the fold ----

  ghost predicate DistinctCalls(recs: seq<Record>) {
    forall i, j :: 0 <= i < j < |recs| ==> recs[i].callId != recs[j].callId
  }

  lemma FoldAppend(rows: seq<Row>, row: Row)
    ensures Fold(rows + [row]) == Absorb(Fold(rows), row)
  {
    assert (rows + [row])[..|rows + [row]| - 1] == rows;
  }

  lemma {:induction false} FoldIsDistinct(rows: seq<Row>)
    ensures DistinctCalls(Fold(rows))
  {
    if rows != [] { FoldIsDistinct(rows[..|rows| - 1]); }
  }

  lemma {:induction false} TotalOfChange(recs: seq<Record>, i: nat, r: Record)
    requires i < |recs|
    ensures Total(recs[i := r]) == Total(recs) - recs[i].Charge() + r.Charge()
  {
    if i == 0 {
      assert recs[i := r][1..] == recs[1..];
    } else {
      assert recs[i := r][1..] == recs[1..][i - 1 := r];
      TotalOfChange(recs[1..], i - 1, r);
    }
  }

  lemma {:induction false} TotalOfMore(recs: seq<Record>, r: Record)
    ensures Total(recs + [r]) == Total(recs) + r.Charge()
  {
    if recs == [] {
      assert recs + [r] == [r];
    } else {
      assert (recs + [r])[1..] == recs[1..] + [r];
      TotalOfMore(recs[1..], r);
    }
  }

  /** One more row changes the total by the change of its own call's charge, and by nothing else. */
  lemma ChargedAfter(rows: seq<Row>, row: Row)
    ensures Charged(rows + [row]) ==
              match row
              case Floor(_) => Charged(rows)
              case Call(_, _, _, _, _, _) =>
                Charged(rows) + Latest(row, None).Charge()
                - (match IndexOf(Fold(rows), row.callId) case Some(i) => Fold(rows)[i].Charge() case None => 0)
  {
    FoldAppend(rows, row);
    var recs := Fold(rows);
    if row.Call? {
      match IndexOf(recs, row.callId)
      case Some(i) =>
        TotalOfChange(recs, i, Latest(row, Some(recs[i])));
      case None =>
        TotalOfMore(recs, Latest(row, None));
    }
  }

  /** A row of a call repeats the reservation the call was opened with. */
  ghost predicate Repeats(rows: seq<Row>, row: Row) {
    row.Call? && IndexOf(Fold(rows), row.callId).Some?
    ==> row.reserved == Fold(rows)[IndexOf(Fold(rows), row.callId).value].reserved
  }

  /** The total falls only on a row that settles a call, or that withdraws an earlier settlement of the same call. */
  lemma OnlySettlementLowersTheCharge(rows: seq<Row>, row: Row)
    requires Repeats(rows, row) && Charged(rows + [row]) < Charged(rows)
    ensures row.Call? && IndexOf(Fold(rows), row.callId).Some?
    ensures var was := Fold(rows)[IndexOf(Fold(rows), row.callId).value];
            if row.cost.Some? then row.cost.value < was.Charge()
            else was.settled.Some? && was.settled.value > was.reserved
  {
    ChargedAfter(rows, row);
  }

  lemma {:induction false} IndexIsFirst(recs: seq<Record>, i: nat)
    requires i < |recs| && DistinctCalls(recs)
    ensures IndexOf(recs, recs[i].callId) == Some(i)
  {
    if i > 0 { IndexIsFirst(recs[1..], i - 1); }
  }

  /** A row replaces the record of its own call and no other. */
  lemma RecordAfter(rows: seq<Row>, row: Row, id: string)
    ensures RecordOf(rows + [row], id) ==
            if row.Call? && row.callId == id then Some(Latest(row, RecordOf(rows, id))) else RecordOf(rows, id)
  {
    FoldAppend(rows, row);
    FoldIsDistinct(rows);
    FoldIsDistinct(rows + [row]);
    var recs, more := Fold(rows), Fold(rows + [row]);
    if row.Call? && row.callId == id {
      match IndexOf(recs, id)
      case Some(i) => IndexIsFirst(more, i);
      case None => IndexIsFirst(more, |recs|);
    } else {
      match IndexOf(recs, id)
      case Some(i) =>
        assert more[i] == recs[i];
        IndexIsFirst(more, i);
      case None => assert forall j :: 0 <= j < |more| ==> more[j].callId != id;
    }
  }

  /**
   What the journal says of a call after one more row of it: the row's own state, reservation and cost; its receipt and
   its observation, or else those from before. Rows of other calls, and floors, say nothing of it.
   */
  lemma RecordFollowsTheLastRow(rows: seq<Row>, row: Row, id: string)
    ensures var (was, now) := (RecordOf(rows, id), RecordOf(rows + [row], id));
            if row.Call? && row.callId == id then
              && now.Some? && now.value.callId == id
              && now.value.state == row.state && now.value.reserved == row.reserved && now.value.settled == row.cost
              && (row.receipt.Some? && row.receipt.value != "" ==> now.value.receipt == row.receipt)
              && (row.receipt in {None, Some("")} ==> now.value.receipt == if was.Some? then was.value.receipt else None)
              && (row.seen.Some? ==> now.value.seen == row.seen)
              && (row.seen.None? ==> now.value.seen == if was.Some? then was.value.seen else None)
            else now == was
  {
    RecordAfter(rows, row, id);
  }

  /** A number that can be a charge. */
  predicate Billable(n: Option<int>) { n.Some? && n.value >= 0 }

  /**
   A reconciliation settles exactly when it saw the provider's own number or proof that nothing happened; the number is
   that of the result, or else that of the evidence. An unknown or settled call, and a charge without a number, is
   refused, and nothing else is; the row it appends keeps the reservation and the observation.
   */
  lemma ReconcileSettlesOnlyOnProof(rows: seq<Row>, id: string, o: Outcome)
    ensures var (r, rec) := (ReconcileRow(rows, id, o), RecordOf(rows, id));
            && (r == Err(UnknownCall) <==> rec.None?)
            && (r.Err? && r.error.AlreadySettled? <==> rec.Some? && rec.value.settled.Some?)
            && (r.Err? && r.error.AlreadySettled? ==> rec.value.settled == Some(r.error.usd))
            && (r == Err(NoUsage) <==>
                  rec.Some? && rec.value.settled.None? && o.status == Committed
                  && !Billable(o.result) && !Billable(o.evidenceCost))
            && (r.Err? ==> r.error.UnknownCall? || r.error.AlreadySettled? || r.error.NoUsage?)
            && (r.Ok? ==>
                  && r.value.callId == id && Repeats(rows, r.value) && rec.Some? && r.value.reserved == rec.value.reserved
                  && r.value.seen == Some(Seen(o.status, o.evidence)) && r.value.receipt.None?
                  && (r.value.cost.Some? <==> o.status in {Committed, DefinitelyAbsent})
                  && (o.status == DefinitelyAbsent ==> r.value.cost == Some(0))
                  && (o.status == Committed ==>
                        r.value.cost == Some(if Billable(o.result) then o.result.value else o.evidenceCost.value))
                  && r.value.state == (if r.value.cost.Some? then Settled
                                       else if o.status == Refused then RefusedOutcome else Reconciling)
                  && (o.status !in {Committed, DefinitelyAbsent} ==> Charged(rows + [r.value]) == Charged(rows)))
  {
    var r := ReconcileRow(rows, id, o);
    if r.Ok? { ChargedAfter(rows, r.value); }
  }

  /**
   An unknown outcome leaves a reserved call open at its whole reservation: the total stays what it was, unless the
   call had been settled, whose bill then gives way to the reservation again.
   */
  lemma UnknownKeepsTheReservationCharged(rows: seq<Row>, a: Attempt)
    requires IndexOf(Fold(rows), a.callId).Some? && Repeats(rows, UnknownRow(a))
    ensures var r := Fold(rows)[IndexOf(Fold(rows), a.callId).value];
            Charged(rows + [UnknownRow(a)]) == Charged(rows) - r.Charge() + a.reserved
            && (r.settled.None? ==> Charged(rows + [UnknownRow(a)]) == Charged(rows))
  {
    ChargedAfter(rows, UnknownRow(a));
  }

  lemma {:induction false} FloorOfAppend(rows: seq<Row>, row: Row)
    ensures FloorOf(rows + [row]) ==
              if FloorOf(rows).Some? then FloorOf(rows) else if row.Floor? then Some(row.usd) else None
  {
    if rows != [] {
      assert (rows + [row])[1..] == rows[1..] + [row];
      FloorOfAppend(rows[1..], row);
    }
  }

  /** The first adopted floor wins for good, whatever is appended later. */
  lemma {:induction false} FloorIsAdoptedOnce(rows: seq<Row>, more: seq<Row>)
    requires FloorOf(rows).Some?
    ensures FloorOf(rows + more) == FloorOf(rows)
  {
    if more == [] {
      assert rows + more == rows;
    } else {
      FloorIsAdoptedOnce(rows, more[..|more| - 1]);
      assert rows + more == rows + more[..|more| - 1] + [more[|more| - 1]];
      FloorOfAppend(rows + more[..|more| - 1], more[|more| - 1]);
    }
  }

  // ---- the ledger object ----

  class Ledger {
    var rows: seq<Row>

    constructor ()
      ensures rows == []
    {
      rows := [];
    }

    /** `fresh` is the call id drawn by the call; a retry is a new call. */
    method Reserve(drawn: string, usd: int) returns (r: Result<Attempt, LedgerError>)
      modifies this
      ensures usd < 0 ==> r == Err(Negative) && rows == old(rows)
      ensures usd >= 0 ==> r == Ok(Attempt(drawn, usd)) && rows == old(rows) + [ReservedRow(Attempt(drawn, usd))]
    {
      if usd < 0 { return Err(Negative); }
      rows := rows + [Call(drawn, Intent, usd, None, None, None)];
      r := Ok(Attempt(drawn, usd));
    }

    method Settle(a: Attempt, cost: int, receipt: string) returns (r: Result<(), LedgerError>)
      modifies this
      ensures cost < 0 ==> r == Err(Negative) && rows == old(rows)
      ensures cost >= 0 ==> r == Ok(()) && rows == old(rows) + [SettledRow(a, cost, receipt)]
    {
      if cost < 0 { return Err(Negative); }
      rows := rows + [Call(a.callId, Settled, a.reserved, Some(cost), Some(receipt), None)];
      r := Ok(());
    }

    method MarkUnknown(a: Attempt)
      modifies this
      ensures rows == old(rows) + [UnknownRow(a)]
      ensures IndexOf(Fold(old(rows)), a.callId).Some? && Repeats(old(rows), UnknownRow(a))
              && Fold(old(rows))[IndexOf(Fold(old(rows)), a.callId).value].settled.None? ==>
                Charged(rows) == Charged(old(rows))
    {
      ChargedAfter(rows, UnknownRow(a));
      rows := rows + [Call(a.callId, InDoubt, a.reserved, None, None, None)];
    }

    method Records() returns (recs: seq<Record>)
      ensures recs == Fold(rows)
    {
      recs := [];
      for n := 0 to |rows|
        invariant recs == Fold(rows[..n])
      {
        var row := rows[n];
        assert rows[..n + 1][..|rows[..n + 1]| - 1] == rows[..n];
        if row.Call? {
          var at := IndexOf(recs, row.callId);
          if at.Some? {
            recs := recs[at.value := Latest(row, Some(recs[at.value]))];
          } else {
            recs := recs + [Latest(row, None)];
          }
        }
      }
      assert rows[..|rows|] == rows;
    }

    method ChargedUsd() returns (usd: nat)
      ensures usd == Charged(rows)
    {
      var recs := Records();
      usd := 0;
      for i := 0 to |recs|
        invariant usd == Total(recs[..i])
      {
        TotalOfMore(recs[..i], recs[i]);
        assert recs[..i + 1] == recs[..i] + [recs[i]];
        usd := usd + recs[i].Charge();
      }
      assert recs[..|recs|] == recs;
    }

    method FloorUsd() returns (usd: Option<nat>)
      ensures usd == FloorOf(rows)
    {
      for i := 0 to |rows|
        invariant FloorOf(rows) == FloorOf(rows[i..])
      {
        if rows[i].Floor? { return Some(rows[i].usd); }
      }
      usd := None;
    }

    method AdoptFloor(usd: int) returns (adopted: nat)
      modifies this
      ensures FloorOf(rows) == Some(adopted)
      ensures if FloorOf(old(rows)).Some? then rows == old(rows)
              else rows == old(rows) + [Floor(Max(usd, 0))]
    {
      var existing := FloorUsd();
      if existing.Some? { return existing.value; }
      FloorOfAppend(rows, Floor(Max(usd, 0)));
      rows := rows + [Floor(Max(usd, 0))];
      adopted := Max(usd, 0);
    }

    method Reconcile(id: string, o: Outcome) returns (r: Result<Record, LedgerError>)
      modifies this
      ensures match ReconcileRow(old(rows), id, o)
              case Err(e) => r == Err(e) && rows == old(rows)
              case Ok(row) =>
                && rows == old(rows) + [row]
                && r.Ok? && r.value in Fold(rows) && r.value.callId == id && r.value.settled == row.cost
    {
      var recs := Records();
      var at := IndexOf(recs, id);
      if at.None? { return Err(UnknownCall); }
      var record := recs[at.value];
      if record.settled.Some? { return Err(AlreadySettled(record.settled.value)); }
      var usage: Option<nat> := None;
      if o.status == Committed || o.status == DefinitelyAbsent {
        usage := if o.status == DefinitelyAbsent then Some(0) else UsageOf(o);
        if usage.None? { return Err(NoUsage); }
      }
      var state := if usage.Some? then Settled else if o.status == Refused then RefusedOutcome else Reconciling;
      var row := Call(id, state, record.reserved, usage, None, Some(Seen(o.status, o.evidence)));
      FoldAppend(rows, row);
      rows := rows + [row];
      var after := Latest(row, Some(record));
      assert Fold(rows)[at.value] == after;
      r := Ok(after);
    }
  }
}
