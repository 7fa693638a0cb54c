/**
 The operation journal: one row per operation key, written before the provider is called and again after. Each write
 is one transaction, and the process may die before any of them. A key that has a committed row answers from the row;
 any other earlier attempt has to be observed at the provider before the provider may be called again.
 */
module OperationJournal {
  import opened Prelude
  import opened Cells

  datatype State = Intent | InDoubt | Reconciling | Committed | Exhausted | Refused

  datatype Status = SeenCommitted | DefinitelyAbsent | Ambiguous | Divergent | SeenRefused

  datatype Outcome = Outcome(status: Status, result: string)

  /** What the provider callback does when it is called; one that raises may have taken effect all the same. */
  datatype Answer = Receipt(result: string) | Raises(tookEffect: bool)
  {
    predicate TakesEffect() { Receipt? || tookEffect }
  }

  datatype Ref = Ref(cell: CellId, epoch: nat, kind: string, key: OpKey)

  datatype Row = Row(
    cell: CellId, epoch: nat, kind: string, state: State, result: string, attempts: nat,
    intent: string, replaySafe: Option<bool>, maxAttempts: nat, owned: bool)

  /**
   The rows; the provider calls made, those that took effect, and the definite absences observed so far, by key; and
   how many more write transactions the process will start before it dies.
   */
  datatype Journal = Journal(
    rows: map<OpKey, Row>, calls: seq<OpKey>, effects: seq<OpKey>, absences: seq<OpKey>, power: nat)

  datatype JournalError = IdentityConflict | OperationInDoubt | RetryBudgetExhausted | CallbackRaised | ProcessDied

  /** What the caller passes, what the provider would answer, and whether an earlier attempt's lease is still live. */
  datatype Attempt = Attempt(
    intent: string, replaySafe: Option<bool>, budget: Option<nat>, observeFirst: bool,
    answer: Answer, reconcile: Option<Outcome>, leaseLive: bool)

  function DefaultBudget(kind: string): nat {
    if kind == "airflow_dispatch" then 3
    else if kind == "github_publish" || kind == "github_issue" then 4
    else if kind == "sandbox_cleanup" then 5
    else 3
  }

  function Died(j: Journal): (Journal, Result<string, JournalError>) { (j, Err(ProcessDied)) }

  /** One write transaction that stores a row. */
  function Write(j: Journal, key: OpKey, row: Row): Journal
    requires j.power > 0
  {
    j.(rows := j.rows[key := row], power := j.power - 1)
  }

  predicate SameIdentity(ref: Ref, row: Row) { row.cell == ref.cell && row.epoch == ref.epoch && row.kind == ref.kind }

  predicate Conflicts(ref: Ref, row: Row, a: Attempt) {
    || !SameIdentity(ref, row)
    || row.intent != a.intent
    || (a.replaySafe.Some? && row.replaySafe.Some? && row.replaySafe != a.replaySafe)
    || (a.budget.Some? && row.maxAttempts != a.budget.value)
  }

  /** The row `begin` leaves: a new intent, or the old row with the recovery policy filled in. */
  function Begun(j: Journal, ref: Ref, a: Attempt): Row {
    if ref.key in j.rows then
      var row := j.rows[ref.key];
      if row.replaySafe.None? then row.(replaySafe := a.replaySafe) else row
    else
      Row(ref.cell, ref.epoch, ref.kind, Intent, "", 0, a.intent, a.replaySafe,
          if a.budget.Some? then a.budget.value else DefaultBudget(ref.kind), false)
  }

  /** Store what the provider callback returned, or that it raised. */
  function Answered(called: Journal, key: OpKey, answer: Answer): (Journal, Result<string, JournalError>)
    requires key in called.rows
  {
    var row := called.rows[key];
    if called.power == 0 then Died(called)
    else match answer
      case Raises(_) => (Write(called, key, row.(state := InDoubt, owned := false)), Err(CallbackRaised))
      case Receipt(x) => (Write(called, key, row.(state := Committed, result := x, owned := false)), Ok(x))
  }

  function Claimed(row: Row): Row { row.(state := Intent, attempts := row.attempts + 1, owned := true) }

  /** The call is made; whether it takes effect is up to the provider. */
  function Called(j: Journal, key: OpKey, answer: Answer): Journal
    requires j.power > 0
  {
    j.(calls := j.calls + [key], effects := if answer.TakesEffect() then j.effects + [key] else j.effects, power := j.power - 1)
  }

  function CallClaimed(claimed: Journal, key: OpKey, answer: Answer): (Journal, Result<string, JournalError>)
    requires key in claimed.rows
  {
    if claimed.power == 0 then Died(claimed)
    else Answered(Called(claimed, key, answer), key, answer)
  }

  /** Claim the one live attempt, call the provider, and store what came back. */
  function CallProvider(j: Journal, key: OpKey, answer: Answer): (Journal, Result<string, JournalError>)
    requires key in j.rows
  {
    var row := j.rows[key];
    if j.power == 0 then Died(j)
    else if row.attempts >= row.maxAttempts then (Write(j, key, row.(state := Exhausted)), Err(RetryBudgetExhausted))
    else
      CallClaimed(Write(j, key, Claimed(row)), key, answer)
  }

  /** Adopt a committed outcome, retry after a definite absence, refuse everything else. */
  function ActOn(j: Journal, key: OpKey, o: Outcome, safe: bool, answer: Answer): (Journal, Result<string, JournalError>)
    requires key in j.rows
  {
    if o.status == SeenCommitted then
      if j.power == 0 then Died(j)
      else (Write(j, key, j.rows[key].(state := Committed, result := o.result, owned := false)), Ok(o.result))
    else if o.status != DefinitelyAbsent || !safe then (j, Err(OperationInDoubt))
    else CallProvider(j, key, answer)
  }

  /** Observe the provider, write down what was seen, and act on it. */
  function ObserveThenCall(j: Journal, key: OpKey, safe: bool, a: Attempt): (Journal, Result<string, JournalError>)
    requires key in j.rows
  {
    if a.reconcile.None? then (j, Err(OperationInDoubt))
    else
      var o := a.reconcile.value;
      var seen := if o.status == DefinitelyAbsent then j.(absences := j.absences + [key]) else j;
      if seen.power == 0 then Died(seen)
      else
        var marked := Write(seen, key, seen.rows[key].(state := if o.status == SeenRefused then Refused else Reconciling));
        ActOn(marked, key, o, safe, a.answer)
  }

  function Execute(j: Journal, ref: Ref, a: Attempt): (Journal, Result<string, JournalError>) {
    var existed := ref.key in j.rows;
    if existed && (!SameIdentity(ref, j.rows[ref.key]) || j.rows[ref.key].intent != a.intent) then
      (j, Err(IdentityConflict))
    else if j.power == 0 then Died(j)
    else if (a.budget.Some? && a.budget.value < 1) || (existed && Conflicts(ref, j.rows[ref.key], a)) then
      (j, Err(IdentityConflict))
    else
      var row := Begun(j, ref, a);
      var begun := Write(j, ref.key, row);
      var safe := row.replaySafe == Some(true);
      if row.state == Committed then (begun, Ok(row.result))
      else if row.owned && a.leaseLive then (begun, Err(OperationInDoubt))
      else if row.owned && begun.power == 0 then Died(begun)
      else
        var ready := if row.owned then Write(begun, ref.key, row.(state := InDoubt, owned := false)) else begun;
        if existed || a.observeFirst then ObserveThenCall(ready, ref.key, safe, a)
        else CallProvider(ready, ref.key, a.answer)
  }

  // ---- what the journal guarantees ----

  function Count(log: seq<OpKey>, key: OpKey): nat { multiset(log)[key] }

  ghost predicate RowInv(j: Journal, key: OpKey)
    requires key in j.rows
  {
    var row := j.rows[key];
    && Count(j.calls, key) <= row.attempts <= row.maxAttempts
    && row.attempts <= 1 + Count(j.absences, key)
    && (row.state == Committed ==> !row.owned)
  }

  ghost predicate Inv(j: Journal) {
    && (forall key :: key in j.rows ==> RowInv(j, key))
    && (forall key :: key in j.calls ==> key in j.rows)
    && (forall key :: key in j.effects ==> key in j.calls)
  }

  predicate SameIntent(row: Row, row': Row) {
    row.cell == row'.cell && row.epoch == row'.epoch && row.kind == row'.kind && row.intent == row'.intent
  }

  /** Identity and intent of a row are fixed, and a committed row keeps its result for ever. */
  ghost predicate Kept(j: Journal, j': Journal) {
    && (forall key :: key in j.rows ==>
          && key in j'.rows
          && var (row, row') := (j.rows[key], j'.rows[key]);
             && SameIntent(row, row')
             && (row.state == Committed ==> row'.state == Committed && row'.result == row.result))
    && j.calls <= j'.calls
  }

  ghost predicate OnlyKey(j: Journal, j': Journal, key: OpKey) {
    && (forall k :: k != key ==> (k in j.rows <==> k in j'.rows) && (k in j.rows ==> j'.rows[k] == j.rows[k]))
    && (forall k :: k != key ==> Count(j'.calls, k) == Count(j.calls, k) && Count(j.absences, k) <= Count(j'.absences, k))
    && Count(j.absences, key) <= Count(j'.absences, key)
  }

  lemma CountAppend(log: seq<OpKey>, key: OpKey)
    ensures forall k :: Count(log + [key], k) == Count(log, k) + if k == key then 1 else 0
  {
  }

  /** Storing a row with the same identity is safe when its attempts stay covered by calls and absences. */
  lemma WriteKeeps(j: Journal, key: OpKey, row: Row, j': Journal)
    requires Inv(j) && key in j.rows && j.power > 0 && j' == Write(j, key, row)
    requires var was := j.rows[key];
             && SameIntent(was, row)
             && was.attempts <= row.attempts <= row.maxAttempts
             && row.attempts <= 1 + Count(j.absences, key)
             && (was.state == Committed ==> row.state == Committed && row.result == was.result)
             && (row.state == Committed ==> !row.owned)
    ensures Inv(j') && Kept(j, j') && OnlyKey(j, j', key)
  {
    assert RowInv(j, key);
    forall k | k in j'.rows ensures RowInv(j', k) {
      if k != key { assert RowInv(j, k); }
    }
  }

  /** Calling the provider uses up an attempt that has been claimed and not yet used. */
  lemma CallKeeps(j: Journal, key: OpKey, answer: Answer, j': Journal)
    requires Inv(j) && key in j.rows && j.power > 0 && Count(j.calls, key) < j.rows[key].attempts
    requires j' == Called(j, key, answer)
    ensures Inv(j') && Kept(j, j') && OnlyKey(j, j', key)
  {
    CountAppend(j.calls, key);
    forall k | k in j'.rows ensures RowInv(j', k) { assert RowInv(j, k); }
  }

  lemma ObservedKeeps(j: Journal, key: OpKey, j': Journal)
    requires Inv(j) && key in j.rows && j' == j.(absences := j.absences + [key])
    ensures Inv(j') && Kept(j, j') && OnlyKey(j, j', key)
    ensures j.rows[key].attempts <= Count(j'.absences, key)
  {
    CountAppend(j.absences, key);
    forall k | k in j'.rows ensures RowInv(j', k) { assert RowInv(j, k); }
    assert RowInv(j, key);
  }

  lemma AnsweredKeeps(j: Journal, key: OpKey, answer: Answer, j': Journal)
    requires Inv(j) && key in j.rows && j.rows[key].state != Committed
    requires j' == Answered(j, key, answer).0
    ensures Inv(j') && Kept(j, j') && OnlyKey(j, j', key)
  {
    assert RowInv(j, key);
    if j.power > 0 { WriteKeeps(j, key, j'.rows[key], j'); }
  }

  lemma CallClaimedKeeps(j: Journal, key: OpKey, answer: Answer, j': Journal)
    requires Inv(j) && key in j.rows && j.rows[key].state != Committed && Count(j.calls, key) < j.rows[key].attempts
    requires j' == CallClaimed(j, key, answer).0
    ensures Inv(j') && Kept(j, j') && OnlyKey(j, j', key)
  {
    if j.power > 0 {
      var called := Called(j, key, answer);
      CallKeeps(j, key, answer, called);
      AnsweredKeeps(called, key, answer, j');
      KeptTransitive(j, called, j', key);
    }
  }

  /** Claiming one more attempt is covered when the attempts so far do not exceed the absences. */
  lemma ClaimKeeps(j: Journal, key: OpKey, claimed: Journal)
    requires Inv(j) && key in j.rows && j.rows[key].state != Committed && j.power > 0
    requires j.rows[key].attempts <= Count(j.absences, key) && j.rows[key].attempts < j.rows[key].maxAttempts
    requires claimed == Write(j, key, Claimed(j.rows[key]))
    ensures Inv(claimed) && Kept(j, claimed) && OnlyKey(j, claimed, key)
    ensures Count(claimed.calls, key) < claimed.rows[key].attempts
  {
    assert RowInv(j, key);
    WriteKeeps(j, key, claimed.rows[key], claimed);
  }

  lemma ClaimAndCallKeeps(j: Journal, key: OpKey, claimed: Journal, answer: Answer, j': Journal)
    requires Inv(j) && key in j.rows && j.rows[key].state != Committed && j.power > 0
    requires j.rows[key].attempts <= Count(j.absences, key) && j.rows[key].attempts < j.rows[key].maxAttempts
    requires claimed == Write(j, key, Claimed(j.rows[key])) && j' == CallClaimed(claimed, key, answer).0
    ensures Inv(j') && Kept(j, j') && OnlyKey(j, j', key)
  {
    ClaimKeeps(j, key, claimed);
    CallClaimedKeeps(claimed, key, answer, j');
    KeptTransitive(j, claimed, j', key);
  }

  lemma ExhaustedKeeps(j: Journal, key: OpKey, j': Journal)
    requires Inv(j) && key in j.rows && j.rows[key].state != Committed && j.power > 0
    requires j' == Write(j, key, j.rows[key].(state := Exhausted))
    ensures Inv(j') && Kept(j, j') && OnlyKey(j, j', key)
  {
    assert RowInv(j, key);
    WriteKeeps(j, key, j.rows[key].(state := Exhausted), j');
  }

  /** The provider may be called for the first time, or after one more absence than the attempts so far. */
  lemma CallProviderKeeps(j: Journal, key: OpKey, answer: Answer, j': Journal)
    requires Inv(j) && key in j.rows && j.rows[key].state != Committed
    requires j.rows[key].attempts <= Count(j.absences, key)
    requires j' == CallProvider(j, key, answer).0
    ensures Inv(j') && Kept(j, j') && OnlyKey(j, j', key)
  {
    if j.power > 0 {
      if j.rows[key].attempts >= j.rows[key].maxAttempts {
        ExhaustedKeeps(j, key, j');
      } else {
        ClaimAndCallKeeps(j, key, Write(j, key, Claimed(j.rows[key])), answer, j');
      }
    }
  }

  lemma CallProviderCommits(j: Journal, key: OpKey, answer: Answer, j': Journal, x: string)
    requires key in j.rows && CallProvider(j, key, answer) == (j', Ok(x))
    ensures key in j'.rows && j'.rows[key].state == Committed && j'.rows[key].result == x
    ensures SameIntent(j.rows[key], j'.rows[key])
  {
  }

  lemma ActOnKeeps(j: Journal, key: OpKey, o: Outcome, safe: bool, answer: Answer, j': Journal)
    requires Inv(j) && key in j.rows && j.rows[key].state != Committed && !j.rows[key].owned
    requires o.status == DefinitelyAbsent ==> j.rows[key].attempts <= Count(j.absences, key)
    requires j' == ActOn(j, key, o, safe, answer).0
    ensures Inv(j') && Kept(j, j') && OnlyKey(j, j', key)
  {
    if o.status == SeenCommitted {
      assert RowInv(j, key);
      if j.power > 0 { WriteKeeps(j, key, j'.rows[key], j'); }
    } else if o.status == DefinitelyAbsent && safe {
      CallProviderKeeps(j, key, answer, j');
    }
  }

  lemma ObserveKeeps(j: Journal, key: OpKey, safe: bool, a: Attempt, j': Journal)
    requires Inv(j) && key in j.rows && j.rows[key].state != Committed && !j.rows[key].owned
    requires j' == ObserveThenCall(j, key, safe, a).0
    ensures Inv(j') && Kept(j, j') && OnlyKey(j, j', key)
  {
    if a.reconcile.Some? {
      var o := a.reconcile.value;
      var seen := if o.status == DefinitelyAbsent then j.(absences := j.absences + [key]) else j;
      if o.status == DefinitelyAbsent { ObservedKeeps(j, key, seen); }
      if seen.power > 0 {
        var row := seen.rows[key].(state := if o.status == SeenRefused then Refused else Reconciling);
        var marked := Write(seen, key, row);
        assert RowInv(seen, key);
        WriteKeeps(seen, key, row, marked);
        KeptTransitive(j, seen, marked, key);
        ActOnKeeps(marked, key, o, safe, a.answer, j');
        KeptTransitive(j, marked, j', key);
      }
    }
  }

  lemma ObserveCommits(j: Journal, key: OpKey, safe: bool, a: Attempt, j': Journal, x: string)
    requires key in j.rows && ObserveThenCall(j, key, safe, a) == (j', Ok(x))
    ensures key in j'.rows && j'.rows[key].state == Committed && j'.rows[key].result == x
    ensures SameIntent(j.rows[key], j'.rows[key])
  {
  }

  lemma BeginKeeps(j: Journal, ref: Ref, a: Attempt, begun: Journal)
    requires Inv(j) && j.power > 0 && begun == Write(j, ref.key, Begun(j, ref, a))
    ensures Inv(begun) && Kept(j, begun) && OnlyKey(j, begun, ref.key)
    ensures ref.key !in j.rows ==> begun.rows[ref.key].attempts == 0
  {
    if ref.key in j.rows {
      assert RowInv(j, ref.key);
      WriteKeeps(j, ref.key, Begun(j, ref, a), begun);
    } else {
      assert Count(j.calls, ref.key) == 0;
      forall k | k in begun.rows ensures RowInv(begun, k) {
        if k != ref.key { assert RowInv(j, k); }
      }
    }
  }

  lemma KeptTransitive(j: Journal, k: Journal, l: Journal, key: OpKey)
    requires Kept(j, k) && Kept(k, l) && OnlyKey(j, k, key) && OnlyKey(k, l, key)
    ensures Kept(j, l) && OnlyKey(j, l, key)
  {
  }

  lemma ExecuteKeeps(j: Journal, ref: Ref, a: Attempt, j': Journal)
    requires Inv(j) && j' == Execute(j, ref, a).0
    ensures Inv(j') && Kept(j, j') && OnlyKey(j, j', ref.key)
  {
    var key, existed := ref.key, ref.key in j.rows;
    if j' != j {
      var row := Begun(j, ref, a);
      var begun := Write(j, key, row);
      BeginKeeps(j, ref, a, begun);
      if row.state != Committed && !(row.owned && (a.leaseLive || begun.power == 0)) {
        assert RowInv(begun, key);
        var ready := if row.owned then Write(begun, key, row.(state := InDoubt, owned := false)) else begun;
        if row.owned { WriteKeeps(begun, key, row.(state := InDoubt, owned := false), ready); }
        KeptTransitive(j, begun, ready, key);
        if existed || a.observeFirst {
          ObserveKeeps(ready, key, row.replaySafe == Some(true), a, j');
        } else {
          CallProviderKeeps(ready, key, a.answer, j');
        }
        KeptTransitive(j, ready, j', key);
      }
    }
  }

  /** A result is returned exactly from a committed row of the same identity and intent. */
  lemma ResultsAreCommitted(j: Journal, ref: Ref, a: Attempt, j': Journal, x: string)
    requires Execute(j, ref, a) == (j', Ok(x))
    ensures ref.key in j'.rows && j'.rows[ref.key].state == Committed && j'.rows[ref.key].result == x
    ensures SameIdentity(ref, j'.rows[ref.key]) && j'.rows[ref.key].intent == a.intent
  {
    var key, row := ref.key, Begun(j, ref, a);
    var begun := Write(j, key, row);
    if row.state != Committed {
      var ready := if row.owned then Write(begun, key, row.(state := InDoubt, owned := false)) else begun;
      if key in j.rows || a.observeFirst {
        ObserveCommits(ready, key, row.replaySafe == Some(true), a, j', x);
      } else {
        CallProviderCommits(ready, key, a.answer, j', x);
      }
    }
  }

  /** A committed key answers from its row: no call, and one write that changes at most the recovery policy. */
  lemma CommittedKeyReplays(j: Journal, ref: Ref, a: Attempt)
    requires j.power > 0 && ref.key in j.rows && j.rows[ref.key].state == Committed
    requires !Conflicts(ref, j.rows[ref.key], a) && (a.budget.Some? ==> a.budget.value >= 1)
    ensures Execute(j, ref, a).1 == Ok(j.rows[ref.key].result)
    ensures Execute(j, ref, a).0.calls == j.calls && Execute(j, ref, a).0.power == j.power - 1
  {
  }

  /** After a call the key's row, if there is one, has the caller's identity and intent or is the row from before. */
  lemma RowBelongsToItsCaller(j: Journal, ref: Ref, a: Attempt, j': Journal)
    requires Inv(j) && j' == Execute(j, ref, a).0 && ref.key in j'.rows
    requires ref.key in j.rows ==> SameIdentity(ref, j.rows[ref.key]) && j.rows[ref.key].intent == a.intent
    ensures SameIdentity(ref, j'.rows[ref.key]) && j'.rows[ref.key].intent == a.intent
  {
    ExecuteKeeps(j, ref, a, j');
    if ref.key !in j.rows { FirstRowIsTheCallers(j, ref, a, j'); }
  }

  lemma FirstRowIsTheCallers(j: Journal, ref: Ref, a: Attempt, j': Journal)
    requires Inv(j) && ref.key !in j.rows && j' == Execute(j, ref, a).0 && ref.key in j'.rows
    ensures SameIdentity(ref, j'.rows[ref.key]) && j'.rows[ref.key].intent == a.intent
  {
    var begun := Write(j, ref.key, Begun(j, ref, a));
    BeginKeeps(j, ref, a, begun);
    assert RowInv(begun, ref.key);
    if a.observeFirst {
      ObserveKeeps(begun, ref.key, Begun(j, ref, a).replaySafe == Some(true), a, j');
    } else {
      CallProviderKeeps(begun, ref.key, a.answer, j');
    }
  }

  /** A call that conflicts with nothing stored under its key and meets no live attempt there. */
  predicate Unopposed(j: Journal, ref: Ref, a: Attempt) {
    && (a.budget.Some? ==> a.budget.value >= 1)
    && (ref.key in j.rows ==> !Conflicts(ref, j.rows[ref.key], a) && !(j.rows[ref.key].owned && a.leaseLive))
  }

  /** Whether the effect may be repeated: as stored with the row, or as the call says where nothing is stored. */
  predicate ReplaySafe(j: Journal, ref: Ref, a: Attempt) {
    if ref.key in j.rows && j.rows[ref.key].replaySafe.Some? then j.rows[ref.key].replaySafe.value
    else a.replaySafe == Some(true)
  }

  function AttemptsMade(j: Journal, key: OpKey): nat { if key in j.rows then j.rows[key].attempts else 0 }

  function AttemptsAllowed(j: Journal, ref: Ref, a: Attempt): nat {
    if ref.key in j.rows then j.rows[ref.key].maxAttempts
    else if a.budget.Some? then a.budget.value else DefaultBudget(ref.kind)
  }

  predicate SeenAbsent(a: Attempt) { a.reconcile.Some? && a.reconcile.value.status == DefinitelyAbsent }

  /** The provider holds nothing, the effect may be repeated, and the budget is not spent. */
  predicate MayCallAgain(j: Journal, ref: Ref, a: Attempt) {
    SeenAbsent(a) && ReplaySafe(j, ref, a) && AttemptsMade(j, ref.key) < AttemptsAllowed(j, ref, a)
  }

  /** One more call of the provider, one more attempt on the row, and what came of it. */
  ghost predicate CalledOnce(j: Journal, ref: Ref, a: Attempt, j': Journal, r: Result<string, JournalError>) {
    && j'.calls == j.calls + [ref.key]
    && j'.effects == j.effects + (if a.answer.TakesEffect() then [ref.key] else [])
    && ref.key in j'.rows
    && var row := j'.rows[ref.key];
       && row.attempts == AttemptsMade(j, ref.key) + 1 && row.maxAttempts == AttemptsAllowed(j, ref, a) && !row.owned
       && match a.answer
          case Receipt(x) => r == Ok(x) && row.state == Committed && row.result == x
          case Raises(_) => r == Err(CallbackRaised) && row.state == InDoubt
  }

  ghost predicate NotCalled(j: Journal, ref: Ref, j': Journal) {
    && j'.calls == j.calls && j'.effects == j.effects
    && ref.key in j'.rows && j'.rows[ref.key].attempts == AttemptsMade(j, ref.key)
  }

  /** The first call for a key, with power for its four transactions, calls the provider once and stores what it said. */
  lemma FirstCallCallsOnce(j: Journal, ref: Ref, a: Attempt)
    requires ref.key !in j.rows && !a.observeFirst && Unopposed(j, ref, a) && j.power >= 4
    ensures CalledOnce(j, ref, a, Execute(j, ref, a).0, Execute(j, ref, a).1)
    ensures Execute(j, ref, a).0.rows[ref.key].replaySafe == a.replaySafe
  {
  }

  /** The claim and the call alone: one more attempt, if there is one. */
  lemma ClaimDecides(j: Journal, ref: Ref, a: Attempt, row: Row)
    requires ref.key in j.rows && j.rows[ref.key] == row && !row.owned && j.power >= 3
    ensures var (j', r) := CallProvider(j, ref.key, a.answer);
            if row.attempts < row.maxAttempts then
              CalledOnce(j, ref, a, j', r)
            else r == Err(RetryBudgetExhausted) && NotCalled(j, ref, j')
  {
  }

  ghost predicate LookDecided(j: Journal, ref: Ref, a: Attempt, safe: bool, j': Journal, r: Result<string, JournalError>)
    requires ref.key in j.rows
  {
    if SeenAbsent(a) && safe && j.rows[ref.key].attempts < j.rows[ref.key].maxAttempts then CalledOnce(j, ref, a, j', r)
    else
      && NotCalled(j, ref, j')
      && (r.Ok? <==> a.reconcile.Some? && a.reconcile.value.status == SeenCommitted)
      && (r.Ok? ==> r.value == a.reconcile.value.result && j'.rows[ref.key].state == Committed)
      && (r == Err(RetryBudgetExhausted) <==> SeenAbsent(a) && safe)
      && (r.Err? && r != Err(RetryBudgetExhausted) ==> r == Err(OperationInDoubt))
  }

  lemma ObservationDecides(j: Journal, ref: Ref, a: Attempt, safe: bool)
    requires ref.key in j.rows && !j.rows[ref.key].owned && j.power >= 4
    ensures LookDecided(j, ref, a, safe, ObserveThenCall(j, ref.key, safe, a).0, ObserveThenCall(j, ref.key, safe, a).1)
  {
    if SeenAbsent(a) && safe {
      var seen := j.(absences := j.absences + [ref.key]);
      var row := j.rows[ref.key].(state := Reconciling);
      var marked := Write(seen, ref.key, row);
      ClaimDecides(marked, ref, a, row);
      assert ObserveThenCall(j, ref.key, safe, a) == CallProvider(marked, ref.key, a.answer);
    }
  }

  /**
   A call that has to look first, for a key that is not committed, with power for its six transactions: what it sees
   decides. It adopts a committed outcome; after a definite absence, and only then, it calls the provider once more, if
   the effect may be repeated and an attempt is left; with the budget spent it says so; everything else stays in doubt.
   */
  lemma LookDecides(j: Journal, ref: Ref, a: Attempt)
    requires ref.key in j.rows || a.observeFirst
    requires ref.key in j.rows ==> j.rows[ref.key].state != Committed
    requires Unopposed(j, ref, a) && j.power >= 6
    ensures var (j', r) := Execute(j, ref, a);
            if MayCallAgain(j, ref, a) then CalledOnce(j, ref, a, j', r)
            else
              && NotCalled(j, ref, j')
              && (r.Ok? <==> a.reconcile.Some? && a.reconcile.value.status == SeenCommitted)
              && (r.Ok? ==> r.value == a.reconcile.value.result && j'.rows[ref.key].state == Committed)
              && (r == Err(RetryBudgetExhausted) <==> SeenAbsent(a) && ReplaySafe(j, ref, a))
              && (r.Err? && r != Err(RetryBudgetExhausted) ==> r == Err(OperationInDoubt))
  {
    var row := Begun(j, ref, a);
    var begun := Write(j, ref.key, row);
    var ready := if row.owned then Write(begun, ref.key, row.(state := InDoubt, owned := false)) else begun;
    ObservationDecides(ready, ref, a, row.replaySafe == Some(true));
    assert Execute(j, ref, a) == ObserveThenCall(ready, ref.key, row.replaySafe == Some(true), a);
    assert (row.replaySafe == Some(true)) == ReplaySafe(j, ref, a);
  }

  /**
   A call conflicts with its key's row exactly if it is for another Cell, epoch, kind or intent, disagrees on whether the
   effect may be repeated, or asks for another budget. It is then refused and writes nothing. A call that meets a live
   attempt of an open row is in doubt.
   */
  lemma OpposedCallsAreRefused(j: Journal, ref: Ref, a: Attempt)
    requires ref.key in j.rows && j.power >= 1 && (a.budget.Some? ==> a.budget.value >= 1)
    ensures var (row, (j', r)) := (j.rows[ref.key], Execute(j, ref, a));
            var conflict :=
              || (row.cell, row.epoch, row.kind, row.intent) != (ref.cell, ref.epoch, ref.kind, a.intent)
              || (row.replaySafe.Some? && a.replaySafe.Some? && row.replaySafe.value != a.replaySafe.value)
              || (a.budget.Some? && a.budget.value != row.maxAttempts);
            && (r == Err(IdentityConflict) <==> conflict)
            && (conflict ==> j' == j)
            && (!conflict && row.state != Committed && row.owned && a.leaseLive ==>
                  r == Err(OperationInDoubt) && NotCalled(j, ref, j'))
  {
  }

  /** The provider's receipt is known: stored here, given on a first call, found by observing, or given when the provider
      is called again after it was observed to hold nothing. */
  predicate ReceiptKnown(j: Journal, ref: Ref, a: Attempt, x: string) {
    if ref.key in j.rows && j.rows[ref.key].state == Committed then x == j.rows[ref.key].result
    else if ref.key in j.rows || a.observeFirst then
      a.reconcile == Some(Outcome(SeenCommitted, x)) || (MayCallAgain(j, ref, a) && a.answer == Receipt(x))
    else a.answer == Receipt(x)
  }

  /** The transactions a call may need: two more if the provider is called after a look. */
  function Effort(a: Attempt): nat { if SeenAbsent(a) then 6 else 4 }

  lemma SeenReceiptIsReturned(j: Journal, ref: Ref, a: Attempt, x: string)
    requires ref.key in j.rows || a.observeFirst
    requires ref.key in j.rows ==> j.rows[ref.key].state != Committed
    requires Unopposed(j, ref, a) && a.reconcile == Some(Outcome(SeenCommitted, x)) && j.power >= 4
    ensures Execute(j, ref, a).1 == Ok(x) && Execute(j, ref, a).0.power >= j.power - 4
  {
  }

  lemma CallSpendsThree(j: Journal, key: OpKey, answer: Answer)
    requires key in j.rows && j.power >= 3
    ensures CallProvider(j, key, answer).0.power >= j.power - 3
  {
  }

  lemma RetriedReceiptIsReturned(j: Journal, ref: Ref, a: Attempt, x: string)
    requires ref.key in j.rows || a.observeFirst
    requires ref.key in j.rows ==> j.rows[ref.key].state != Committed
    requires Unopposed(j, ref, a) && MayCallAgain(j, ref, a) && a.answer == Receipt(x) && j.power >= 6
    ensures Execute(j, ref, a).1 == Ok(x) && Execute(j, ref, a).0.power >= j.power - 6
  {
    LookDecides(j, ref, a);
    var row := Begun(j, ref, a);
    var begun := Write(j, ref.key, row);
    var ready := if row.owned then Write(begun, ref.key, row.(state := InDoubt, owned := false)) else begun;
    var seen := ready.(absences := ready.absences + [ref.key]);
    var marked := Write(seen, ref.key, ready.rows[ref.key].(state := Reconciling));
    CallSpendsThree(marked, ref.key, a.answer);
    assert Execute(j, ref, a) == CallProvider(marked, ref.key, a.answer);
  }

  /** Then a call that conflicts with nothing, meets no live attempt and is not cut short returns that receipt. */
  lemma KnownReceiptIsReturned(j: Journal, ref: Ref, a: Attempt, x: string)
    requires Inv(j) && Unopposed(j, ref, a) && ReceiptKnown(j, ref, a, x) && j.power >= Effort(a)
    ensures Execute(j, ref, a).1 == Ok(x) && Execute(j, ref, a).0.power >= j.power - Effort(a)
  {
    if ref.key in j.rows && j.rows[ref.key].state == Committed {
      assert RowInv(j, ref.key);
      CommittedKeyReplays(j, ref, a);
    } else if ref.key in j.rows || a.observeFirst {
      if a.reconcile == Some(Outcome(SeenCommitted, x)) { SeenReceiptIsReturned(j, ref, a, x); }
      else { RetriedReceiptIsReturned(j, ref, a, x); }
    } else {
      FirstCallCallsOnce(j, ref, a);
      CallSpendsThree(Write(j, ref.key, Begun(j, ref, a)), ref.key, a.answer);
    }
  }

  // ---- at most one effect ----

  /** An absence is only reported while the provider holds no effect for the key. */
  predicate Truthful(j: Journal, key: OpKey, a: Attempt) {
    a.reconcile.Some? && a.reconcile.value.status == DefinitelyAbsent ==> key !in j.effects
  }

  ghost predicate OneEffectEach(j: Journal) { forall key :: Count(j.effects, key) <= 1 }

  /** The effects after a call: those before, and one more for the key only if there was none. */
  ghost predicate OneMoreAtMost(j: Journal, j': Journal, key: OpKey) {
    j'.effects == j.effects || (key !in j.effects && j'.effects == j.effects + [key])
  }

  lemma CallProviderEffects(j: Journal, key: OpKey, answer: Answer, j': Journal)
    requires key in j.rows && key !in j.effects && j' == CallProvider(j, key, answer).0
    ensures OneMoreAtMost(j, j', key)
  {
    if j.power > 0 && j.rows[key].attempts < j.rows[key].maxAttempts {
      var claimed := Write(j, key, Claimed(j.rows[key]));
      if claimed.power > 0 { assert j'.effects == Called(claimed, key, answer).effects; }
    }
  }

  lemma ObserveEffects(j: Journal, key: OpKey, safe: bool, a: Attempt, j': Journal)
    requires key in j.rows && Truthful(j, key, a) && j' == ObserveThenCall(j, key, safe, a).0
    ensures OneMoreAtMost(j, j', key)
  {
    if a.reconcile.Some? {
      var o := a.reconcile.value;
      var seen := if o.status == DefinitelyAbsent then j.(absences := j.absences + [key]) else j;
      if seen.power > 0 && o.status == DefinitelyAbsent && safe {
        var marked := Write(seen, key, seen.rows[key].(state := Reconciling));
        CallProviderEffects(marked, key, a.answer, j');
      }
    }
  }

  /** If absences are reported truthfully, no key ever takes effect twice. */
  lemma ExecuteTakesEffectOnce(j: Journal, ref: Ref, a: Attempt, j': Journal)
    requires Inv(j) && Truthful(j, ref.key, a) && OneEffectEach(j) && j' == Execute(j, ref, a).0
    ensures OneEffectEach(j')
  {
    var key, existed := ref.key, ref.key in j.rows;
    var row := Begun(j, ref, a);
    if j' != j && row.state != Committed {
      var begun := Write(j, key, row);
      if !(row.owned && (a.leaseLive || begun.power == 0)) {
        var ready := if row.owned then Write(begun, key, row.(state := InDoubt, owned := false)) else begun;
        if existed || a.observeFirst {
          ObserveEffects(ready, key, row.replaySafe == Some(true), a, j');
        } else {
          CallProviderEffects(ready, key, a.answer, j');
        }
      }
    }
    CountAppend(j.effects, key);
  }
}
