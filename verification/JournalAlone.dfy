/**
 One caller alone: the journal's `Execute`, which runs a call in one piece with a crash anywhere, is a path of the steps
 that callers share, and no step of it overlaps.
 */
module JournalAlone {
  import opened Prelude
  import opened J = OperationJournal
  import opened R = JournalRuns
  import C = Cells

  /** The journal's row and counts for one key, while no call is running. */
  ghost predicate Shows(s: Sys, j: Journal, key: C.OpKey) {
    && (s.row.Some? <==> key in j.rows)
    && (s.row.Some? ==> SameRow(s.row.value, j.rows[key]))
    && s.calls == Count(j.calls, key) && s.effects == Count(j.effects, key) && s.absences == Count(j.absences, key)
  }

  predicate SameRow(e: Entry, row: Row) {
    e.state == row.state && e.attempts == row.attempts && (e.owner.Some? <==> row.owned) && e.result == row.result
  }

  /** Only caller 0 is there. */
  predicate Alone(s: Sys) { forall p :: p in s.callers ==> p == 0 }

  ghost predicate AloneNext(c: Config, s: Sys, s': Sys) { TruthfulNext(c, s, s') && Alone(s) && Alone(s') }

  lemma AloneIsApart(c: Config, s: Sys, s': Sys)
    requires AloneNext(c, s, s')
    ensures ApartNext(c, s, s')
  {
    var a :| StepAction(c, s, a, s') && R.Truthful(s, a);
    assert !Overlaps(c, s, a, s');
  }

  ghost predicate Path(c: Config, seg: seq<Sys>) {
    seg != [] && forall k :: 0 <= k < |seg| - 1 ==> AloneNext(c, seg[k], seg[k + 1])
  }

  /** Steps of one caller that nobody joins lead from s to t. */
  ghost predicate Reaches(c: Config, s: Sys, t: Sys) { exists seg :: Path(c, seg) && seg[0] == s && seg[|seg| - 1] == t }

  lemma StepReaches(c: Config, s: Sys, a: Action, s': Sys, t: Sys)
    requires StepAction(c, s, a, s') && R.Truthful(s, a) && Alone(s) && Alone(s') && Reaches(c, s', t)
    ensures Reaches(c, s, t)
  {
    var seg :| Path(c, seg) && seg[0] == s' && seg[|seg| - 1] == t;
    var all := [s] + seg;
    assert TruthfulNext(c, s, s');
    forall k | 0 <= k < |all| - 1 ensures AloneNext(c, all[k], all[k + 1]) {
      if k > 0 { assert all[k] == seg[k - 1] && all[k + 1] == seg[k]; }
    }
    assert Path(c, all);
  }

  lemma ActReaches(c: Config, s: Sys, a: Action, s': Sys, t: Sys)
    requires ActStep(c, s, a, s') && Alone(s) && Alone(s') && Reaches(c, s', t)
    ensures Reaches(c, s, t)
  {
    StepReaches(c, s, a, s', t);
  }

  lemma LookReaches(c: Config, s: Sys, a: Action, s': Sys, t: Sys)
    requires LookStep(s, a, s') && R.Truthful(s, a) && Alone(s) && Alone(s') && Reaches(c, s', t)
    ensures Reaches(c, s, t)
  {
    StepReaches(c, s, a, s', t);
  }

  lemma StayReaches(c: Config, s: Sys)
    ensures Reaches(c, s, s)
  {
    assert Path(c, [s]);
  }

  /** The last step of a call. */
  lemma LastStep(c: Config, s: Sys, a: Action, t: Sys)
    requires StepAction(c, s, a, t) && R.Truthful(s, a) && Alone(s) && Alone(t)
    ensures Reaches(c, s, t)
  {
    StayReaches(c, t);
    StepReaches(c, s, a, t, t);
  }

  /** The one caller stands at this phase, and the rest of the state is the journal's. */
  ghost predicate Stands(s: Sys, phase: Phase, j: Journal, key: C.OpKey) {
    s.callers == map[0 := phase] && Shows(s, j, key) && s.row.Some?
  }

  lemma DiesAlone(c: Config, s: Sys, phase: Phase, j: Journal, key: C.OpKey) returns (t: Sys)
    requires Stands(s, phase, j, key)
    ensures Reaches(c, s, t) && t.callers == map[] && Shows(t, j, key)
  {
    t := Without(s, 0);
    LastStep(c, s, Die(0), t);
  }

  lemma AnsweredAlone(c: Config, s: Sys, token: nat, j: Journal, key: C.OpKey, answer: Answer, j': Journal) returns (t: Sys)
    requires Stands(s, Phase.Called(token, answer), j, key) && s.row.value.owner == Some(token)
    requires s.row.value.state != Committed && j' == Answered(j, key, answer).0
    ensures Reaches(c, s, t) && t.callers == map[] && Shows(t, j', key)
  {
    if j.power == 0 {
      t := DiesAlone(c, s, Phase.Called(token, answer), j, key);
    } else {
      t := Without(s, 0).(row := Some(match answer
             case Raises(_) => s.row.value.(state := InDoubt, owner := None)
             case Receipt(x) => s.row.value.(state := Committed, result := x, owner := None)));
      LastStep(c, s, Finish(0), t);
    }
  }

  lemma Calls(c: Config, s: Sys, token: nat, j: Journal, key: C.OpKey, answer: Answer) returns (u: Sys)
    requires Stands(s, Phase.Claimed(token), j, key) && j.power > 0
    ensures ActStep(c, s, Call(0, answer), u) && u.row == s.row
    ensures Stands(u, Phase.Called(token, answer), J.Called(j, key, answer), key)
  {
    u := With(s, 0, Phase.Called(token, answer))
         .(calls := s.calls + 1, effects := if answer.TakesEffect() then s.effects + 1 else s.effects);
    CountAppend(j.calls, key);
    CountAppend(j.effects, key);
    assert u.callers == map[0 := Phase.Called(token, answer)];
  }

  lemma CallAlone(c: Config, s: Sys, token: nat, j: Journal, key: C.OpKey, answer: Answer, j': Journal) returns (t: Sys)
    requires Stands(s, Phase.Claimed(token), j, key) && s.row.value.owner == Some(token)
    requires s.row.value.state != Committed && j' == CallClaimed(j, key, answer).0
    ensures Reaches(c, s, t) && t.callers == map[] && Shows(t, j', key)
  {
    if j.power == 0 {
      t := DiesAlone(c, s, Phase.Claimed(token), j, key);
    } else {
      var u := Calls(c, s, token, j, key, answer);
      t := AnsweredAlone(c, u, token, J.Called(j, key, answer), key, answer, j');
      ActReaches(c, s, Call(0, answer), u, t);
    }
  }

  lemma Claims(c: Config, s: Sys, blind: bool, j: Journal, key: C.OpKey) returns (u: Sys, token: nat)
    requires Stands(s, ToClaim(blind), j, key) && s.row.value.owner.None? && s.row.value.state != Committed
    requires j.power > 0 && j.rows[key].attempts < c.budget
    ensures ActStep(c, s, Claim(0, false), u) && Stands(u, Phase.Claimed(token), Write(j, key, J.Claimed(j.rows[key])), key)
    ensures u.row.value.owner == Some(token) && u.row.value.state == Intent
  {
    var e := s.row.value;
    token := s.lastToken + 1;
    u := With(s, 0, Phase.Claimed(token))
         .(row := Some(e.(state := Intent, attempts := e.attempts + 1, owner := Some(token))),
           lastToken := token, blindClaims := if blind then s.blindClaims + 1 else s.blindClaims);
    assert u.callers == map[0 := Phase.Claimed(token)];
  }

  lemma Exhausts(c: Config, s: Sys, blind: bool, j: Journal, key: C.OpKey) returns (t: Sys)
    requires Stands(s, ToClaim(blind), j, key) && s.row.value.owner.None? && s.row.value.state != Committed
    requires j.power > 0 && j.rows[key].attempts >= c.budget
    ensures ActStep(c, s, Claim(0, false), t) && t.callers == map[]
    ensures Shows(t, Write(j, key, j.rows[key].(state := Exhausted)), key)
  {
    t := Without(s, 0).(row := Some(s.row.value.(state := Exhausted)));
  }

  lemma ClaimAlone(c: Config, s: Sys, blind: bool, j: Journal, key: C.OpKey, answer: Answer, j': Journal) returns (t: Sys)
    requires Stands(s, ToClaim(blind), j, key) && s.row.value.owner.None? && s.row.value.state != Committed
    requires j.rows[key].maxAttempts == c.budget && j' == CallProvider(j, key, answer).0
    ensures Reaches(c, s, t) && t.callers == map[] && Shows(t, j', key)
  {
    if j.power == 0 {
      t := DiesAlone(c, s, ToClaim(blind), j, key);
    } else if j.rows[key].attempts >= c.budget {
      t := Exhausts(c, s, blind, j, key);
      StayReaches(c, t);
      ActReaches(c, s, Claim(0, false), t, t);
    } else {
      var u, token := Claims(c, s, blind, j, key);
      t := CallAlone(c, u, token, Write(j, key, J.Claimed(j.rows[key])), key, answer, j');
      ActReaches(c, s, Claim(0, false), u, t);
    }
  }

  lemma ActAlone(c: Config, s: Sys, j: Journal, key: C.OpKey, o: Outcome, answer: Answer, j': Journal) returns (t: Sys)
    requires s.row.Some? && s.row.value.owner.None? && s.row.value.state != Committed && Shows(s, j, key)
    requires s.callers == (if o.status == SeenCommitted then map[0 := ToCommit(o.result)]
                           else if o.status == DefinitelyAbsent && c.safe then map[0 := ToClaim(false)] else map[])
    requires j.rows[key].maxAttempts == c.budget && j' == ActOn(j, key, o, c.safe, answer).0
    ensures Reaches(c, s, t) && t.callers == map[] && Shows(t, j', key)
  {
    if o.status == SeenCommitted {
      if j.power == 0 {
        t := DiesAlone(c, s, ToCommit(o.result), j, key);
      } else {
        t := Without(s, 0).(row := Some(s.row.value.(state := Committed, result := o.result, owner := None)));
        LastStep(c, s, CommitSeen(0), t);
      }
    } else if o.status == DefinitelyAbsent && c.safe {
      t := ClaimAlone(c, s, false, j, key, answer, j');
    } else {
      t := s;
      StayReaches(c, s);
    }
  }

  /** The provider has been asked; an absence is counted. */
  function Seen(j: Journal, key: C.OpKey, o: Outcome): Journal {
    if o.status == DefinitelyAbsent then j.(absences := j.absences + [key]) else j
  }

  lemma Observes(c: Config, s: Sys, j: Journal, key: C.OpKey, o: Outcome) returns (u: Sys)
    requires Stands(s, ToObserve, j, key) && (o.status == DefinitelyAbsent ==> key !in j.effects)
    ensures LookStep(s, Observe(0, o), u) && R.Truthful(s, Observe(0, o)) && u.row == s.row
    ensures Stands(u, Saw(o), Seen(j, key, o), key)
  {
    u := With(s, 0, Saw(o)).(absences := if o.status == DefinitelyAbsent then s.absences + 1 else s.absences);
    CountAppend(j.absences, key);
    assert u.callers == map[0 := Saw(o)];
    assert o.status == DefinitelyAbsent ==> Count(j.effects, key) == 0;
  }

  lemma ObserveAlone(c: Config, s: Sys, j: Journal, key: C.OpKey, a: Attempt, j': Journal) returns (t: Sys)
    requires Stands(s, ToObserve, j, key) && s.row.value.owner.None? && s.row.value.state != Committed
    requires j.rows[key].maxAttempts == c.budget && J.Truthful(j, key, a) && j' == ObserveThenCall(j, key, c.safe, a).0
    ensures Reaches(c, s, t) && t.callers == map[] && Shows(t, j', key)
  {
    if a.reconcile.None? {
      t := DiesAlone(c, s, ToObserve, j, key);
    } else {
      var o := a.reconcile.value;
      var u := Observes(c, s, j, key, o);
      if j.power == 0 {
        t := DiesAlone(c, u, Saw(o), Seen(j, key, o), key);
      } else {
        t := MarkAlone(c, u, Seen(j, key, o), key, o, a.answer, j');
      }
      LookReaches(c, s, Observe(0, o), u, t);
    }
  }

  function MarkedRow(row: Row, o: Outcome): Row { row.(state := if o.status == SeenRefused then Refused else Reconciling) }

  lemma Marks(c: Config, s: Sys, j: Journal, key: C.OpKey, o: Outcome) returns (u: Sys)
    requires Stands(s, Saw(o), j, key) && s.row.value.owner.None? && s.row.value.state != Committed && j.power > 0
    ensures ActStep(c, s, Mark(0), u) && Shows(u, Write(j, key, MarkedRow(j.rows[key], o)), key)
    ensures u.row.Some? && u.row.value.owner.None? && u.row.value.state != Committed
    ensures u.callers == (if o.status == SeenCommitted then map[0 := ToCommit(o.result)]
                          else if o.status == DefinitelyAbsent && c.safe then map[0 := ToClaim(false)] else map[])
  {
    var marked := s.(row := Some(s.row.value.(state := MarkedRow(j.rows[key], o).state)));
    u := if o.status == SeenCommitted then With(marked, 0, ToCommit(o.result))
         else if o.status == DefinitelyAbsent && c.safe then With(marked, 0, ToClaim(false))
         else Without(marked, 0);
  }

  lemma MarkAlone(c: Config, s: Sys, j: Journal, key: C.OpKey, o: Outcome, answer: Answer, j': Journal) returns (t: Sys)
    requires Stands(s, Saw(o), j, key) && s.row.value.owner.None? && s.row.value.state != Committed && j.power > 0
    requires j.rows[key].maxAttempts == c.budget
    requires j' == ActOn(Write(j, key, MarkedRow(j.rows[key], o)), key, o, c.safe, answer).0
    ensures Reaches(c, s, t) && t.callers == map[] && Shows(t, j', key)
  {
    var u := Marks(c, s, j, key, o);
    t := ActAlone(c, u, Write(j, key, MarkedRow(j.rows[key], o)), key, o, answer, j');
    ActReaches(c, s, Mark(0), u, t);
  }

  /** What the second read decides for a caller of a row that is not committed. */
  lemma Rereads(s: Sys, existed: bool, observeFirst: bool, j: Journal, key: C.OpKey) returns (u: Sys, phase: Phase)
    requires Stands(s, Phase.Begun(existed, observeFirst), j, key) && j.rows[key].state != Committed
    ensures LookStep(s, Reread(0, false), u) && Stands(u, phase, j, key) && u.row == s.row
    ensures phase == if s.row.value.owner.Some? then SawExpired(s.row.value.owner.value)
                     else if existed || observeFirst then ToObserve else ToClaim(true)
  {
    phase := if s.row.value.owner.Some? then SawExpired(s.row.value.owner.value)
             else if existed || observeFirst then ToObserve else ToClaim(true);
    u := With(s, 0, phase);
    assert u.callers == map[0 := phase];
  }

  /** The journal after the row has been freed of an expired owner. */
  function Cleared(j: Journal, key: C.OpKey): Journal
    requires key in j.rows && j.power > 0
  {
    Write(j, key, j.rows[key].(state := InDoubt, owned := false))
  }

  lemma Clears(s: Sys, owner: nat, j: Journal, key: C.OpKey) returns (u: Sys)
    requires Stands(s, SawExpired(owner), j, key) && s.row.value.owner == Some(owner)
    requires s.row.value.state != Committed && j.power > 0
    ensures LookStep(s, Clear(0), u) && Stands(u, ToObserve, Cleared(j, key), key)
    ensures u.row.value.owner.None? && u.row.value.state != Committed
  {
    u := With(s, 0, ToObserve).(row := Some(s.row.value.(state := InDoubt, owner := None)));
    assert u.callers == map[0 := ToObserve];
  }

  lemma ExpiredAlone(c: Config, s: Sys, owner: nat, j: Journal, key: C.OpKey, a: Attempt, j': Journal) returns (t: Sys)
    requires Stands(s, SawExpired(owner), j, key) && s.row.value.owner == Some(owner) && s.row.value.state != Committed
    requires j.rows[key].maxAttempts == c.budget && J.Truthful(j, key, a)
    requires j' == if j.power == 0 then j else ObserveThenCall(Cleared(j, key), key, c.safe, a).0
    ensures Reaches(c, s, t) && t.callers == map[] && Shows(t, j', key)
  {
    if j.power == 0 {
      t := DiesAlone(c, s, SawExpired(owner), j, key);
    } else {
      var u := Clears(s, owner, j, key);
      t := ObserveAlone(c, u, Cleared(j, key), key, a, j');
      LookReaches(c, s, Clear(0), u, t);
    }
  }

  /** What `Execute` does once the intent is stored. */
  function AfterBegin(c: Config, begun: Journal, key: C.OpKey, existed: bool, a: Attempt): Journal
    requires key in begun.rows
  {
    var row := begun.rows[key];
    if row.state == Committed || (row.owned && a.leaseLive) then begun
    else if row.owned then
      if begun.power == 0 then begun else ObserveThenCall(Cleared(begun, key), key, c.safe, a).0
    else if existed || a.observeFirst then ObserveThenCall(begun, key, c.safe, a).0
    else CallProvider(begun, key, a.answer).0
  }

  /** The second read ends the call on a committed row or a live attempt. */
  lemma Stops(s: Sys, existed: bool, observeFirst: bool, j: Journal, key: C.OpKey, leaseLive: bool) returns (t: Sys)
    requires Stands(s, Phase.Begun(existed, observeFirst), j, key)
    requires j.rows[key].state == Committed || (j.rows[key].owned && leaseLive)
    ensures LookStep(s, Reread(0, leaseLive), t) && t.callers == map[] && Shows(t, j, key)
  {
    t := Without(s, 0);
  }

  lemma BegunAlone(c: Config, s: Sys, existed: bool, begun: Journal, key: C.OpKey, a: Attempt, j': Journal) returns (t: Sys)
    requires Stands(s, Phase.Begun(existed, a.observeFirst), begun, key) && begun.rows[key].maxAttempts == c.budget
    requires J.Truthful(begun, key, a) && j' == AfterBegin(c, begun, key, existed, a)
    ensures Reaches(c, s, t) && t.callers == map[] && Shows(t, j', key)
  {
    if begun.rows[key].state == Committed || (begun.rows[key].owned && a.leaseLive) {
      t := Stops(s, existed, a.observeFirst, begun, key, a.leaseLive);
      StayReaches(c, t);
      LookReaches(c, s, Reread(0, a.leaseLive), t, t);
    } else {
      var u, phase := Rereads(s, existed, a.observeFirst, begun, key);
      match phase {
        case SawExpired(owner) => t := ExpiredAlone(c, u, owner, begun, key, a, j');
        case ToObserve => t := ObserveAlone(c, u, begun, key, a, j');
        case ToClaim(_) => t := ClaimAlone(c, u, true, begun, key, a.answer, j');
      }
      LookReaches(c, s, Reread(0, false), u, t);
    }
  }

  /** The first read, and the stored intent. */
  lemma Begins(s: Sys, j: Journal, ref: Ref, a: Attempt) returns (looked: Sys, u: Sys)
    requires s.callers == map[] && Shows(s, j, ref.key) && j.power > 0
    ensures LookStep(s, Look(0, a.observeFirst), looked) && LookStep(looked, Action.Begin(0), u) && Alone(looked)
    ensures Stands(u, Phase.Begun(ref.key in j.rows, a.observeFirst), Write(j, ref.key, J.Begun(j, ref, a)), ref.key)
  {
    var existed := ref.key in j.rows;
    looked := With(s, 0, Looked(existed, a.observeFirst));
    u := With(looked, 0, Phase.Begun(existed, a.observeFirst))
         .(row := if s.row.Some? then s.row else Some(Entry(Intent, 0, None, "")));
    assert u.callers == map[0 := Phase.Begun(existed, a.observeFirst)];
  }

  /** `Execute` is either refused or cut short before it writes anything, or it begins and goes on. */
  lemma ExecuteSplits(c: Config, j: Journal, ref: Ref, a: Attempt)
    requires (J.Begun(j, ref, a).replaySafe == Some(true)) == c.safe
    ensures var j' := Execute(j, ref, a).0;
            j' == j || (j.power > 0 && j' == AfterBegin(c, Write(j, ref.key, J.Begun(j, ref, a)), ref.key, ref.key in j.rows, a))
  {
  }

  /**
   A call that nobody joins, as the journal runs it in one piece, is a path of these steps, none of which overlaps: what
   holds of all callers together holds of calls that come one after another.
   */
  lemma ExecuteIsAPath(c: Config, s: Sys, j: Journal, ref: Ref, a: Attempt) returns (t: Sys)
    requires s.callers == map[] && Shows(s, j, ref.key) && J.Truthful(j, ref.key, a)
    requires J.Begun(j, ref, a).maxAttempts == c.budget && (J.Begun(j, ref, a).replaySafe == Some(true)) == c.safe
    ensures Reaches(c, s, t) && t.callers == map[] && Shows(t, Execute(j, ref, a).0, ref.key)
  {
    var j' := Execute(j, ref, a).0;
    ExecuteSplits(c, j, ref, a);
    if j' == j {
      t := s;
      StayReaches(c, s);
    } else {
      var looked, u := Begins(s, j, ref, a);
      t := BegunAlone(c, u, ref.key in j.rows, Write(j, ref.key, J.Begun(j, ref, a)), ref.key, a, j');
      LookReaches(c, looked, Action.Begin(0), u, t);
      LookReaches(c, s, Look(0, a.observeFirst), looked, t);
    }
  }
}
