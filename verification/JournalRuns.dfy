/**
 One operation key under any number of callers at once. `execute` takes no lock of its own: it looks for the row, begins,
 reads the row again, observes, claims, calls the provider and stores what came back, and each of these is a step that
 others may come between. A caller may die at any step. Callers whose request conflicts with the row are refused without
 a write and play no part; the others agree on the retry budget and on whether a retry is safe.
 */
module JournalRuns {
  import opened Prelude
  import opened J = OperationJournal
  import Runs

  datatype Config = Config(budget: nat, safe: bool)

  /** What decides the course of a call: the state, the attempts so far, and who holds the one live attempt. */
  datatype Entry = Entry(state: State, attempts: nat, owner: Option<nat>, result: string)

  /** Where a caller stands. */
  datatype Phase =
    | Looked(existed: bool, observeFirst: bool)   // the first read found a row or none
    | Begun(existed: bool, observeFirst: bool)    // the intent is stored
    | SawExpired(owner: nat)                      // the row has an owner whose lease is over
    | ToObserve
    | Saw(outcome: Outcome)                       // the provider has been observed
    | ToCommit(result: string)
    | ToClaim(blind: bool)                        // free to claim; blind if it found no row and never observed
    | Claimed(token: nat)                         // owns the attempt, and has not called the provider yet
    | Called(token: nat, answer: Answer)

  /**
   The row, the callers, and what has happened: provider calls, effects, observed absences, claims made blindly. The
   last token drawn keeps tokens apart.
   */
  datatype Sys = Sys(
    row: Option<Entry>, callers: map<nat, Phase>, calls: nat, effects: nat, absences: nat, blindClaims: nat, lastToken: nat)

  datatype Action =
    | Look(p: nat, observeFirst: bool)
    | Begin(p: nat)
    | Reread(p: nat, leaseLive: bool)
    | Clear(p: nat)
    | Observe(p: nat, outcome: Outcome)
    | Mark(p: nat)
    | CommitSeen(p: nat)
    | Claim(p: nat, leaseLive: bool)
    | Call(p: nat, answer: Answer)
    | Finish(p: nat)
    | Die(p: nat)

  ghost predicate Init(s: Sys) { s == Sys(None, map[], 0, 0, 0, 0, 0) }

  function With(s: Sys, p: nat, phase: Phase): Sys { s.(callers := s.callers[p := phase]) }

  function Without(s: Sys, p: nat): Sys { s.(callers := s.callers - {p}) }

  /** A write that a committed row refuses. */
  function Unless(e: Entry, e': Entry): Entry { if e.state == Committed then e else e' }

  predicate At(s: Sys, p: nat) { p in s.callers }

  ghost predicate LookStep(s: Sys, a: Action, s': Sys) {
    match a
    case Look(p, observeFirst) => !At(s, p) && s' == With(s, p, Looked(s.row.Some?, observeFirst))
    case Begin(p) =>
      && At(s, p) && s.callers[p].Looked?
      && s' == With(s, p, Begun(s.callers[p].existed, s.callers[p].observeFirst))
               .(row := if s.row.Some? then s.row else Some(Entry(Intent, 0, None, "")))
    case Reread(p, leaseLive) =>
      && At(s, p) && s.callers[p].Begun? && s.row.Some?
      && s' == (if s.row.value.state == Committed then Without(s, p)
                else if s.row.value.owner.Some? then
                  if leaseLive then Without(s, p) else With(s, p, SawExpired(s.row.value.owner.value))
                else if s.callers[p].existed || s.callers[p].observeFirst then With(s, p, ToObserve)
                else With(s, p, ToClaim(true)))
    case Clear(p) =>
      && At(s, p) && s.callers[p].SawExpired? && s.row.Some?
      && s' == With(s, p, ToObserve)
               .(row := Some(if s.row.value.owner == Some(s.callers[p].owner)
                             then Unless(s.row.value, s.row.value.(state := InDoubt, owner := None)) else s.row.value))
    case Observe(p, outcome) =>
      && At(s, p) && s.callers[p].ToObserve?
      && s' == With(s, p, Saw(outcome))
               .(absences := if outcome.status == DefinitelyAbsent then s.absences + 1 else s.absences)
    case Die(p) => s' == Without(s, p)
    case _ => false
  }

  ghost predicate ActStep(c: Config, s: Sys, a: Action, s': Sys) {
    match a
    case Mark(p) =>
      && At(s, p) && s.callers[p].Saw? && s.row.Some?
      && var o := s.callers[p].outcome;
         var marked := s.(row := Some(Unless(s.row.value, s.row.value.(
                            state := if o.status == SeenRefused then Refused else Reconciling))));
         s' == (if o.status == SeenCommitted then With(marked, p, ToCommit(o.result))
                else if o.status == DefinitelyAbsent && c.safe then With(marked, p, ToClaim(false))
                else Without(marked, p))
    case CommitSeen(p) =>
      && At(s, p) && s.callers[p].ToCommit? && s.row.Some?
      && s' == Without(s, p).(row := Some(Unless(s.row.value,
                 s.row.value.(state := Committed, result := s.callers[p].result, owner := None))))
    case Claim(p, leaseLive) =>
      && At(s, p) && s.callers[p].ToClaim? && s.row.Some?
      && var e := s.row.value;
         s' == (if e.state == Committed then Without(s, p)
                else if e.owner.Some? then
                  Without(s, p).(row := Some(if leaseLive then e else e.(state := InDoubt)))
                else if e.attempts >= c.budget then Without(s, p).(row := Some(e.(state := Exhausted)))
                else With(s, p, Claimed(s.lastToken + 1))
                     .(row := Some(e.(state := Intent, attempts := e.attempts + 1, owner := Some(s.lastToken + 1))),
                       lastToken := s.lastToken + 1,
                       blindClaims := if s.callers[p].blind then s.blindClaims + 1 else s.blindClaims))
    case Call(p, answer) =>
      && At(s, p) && s.callers[p].Claimed?
      && s' == With(s, p, Called(s.callers[p].token, answer))
               .(calls := s.calls + 1, effects := if answer.TakesEffect() then s.effects + 1 else s.effects)
    case Finish(p) =>
      && At(s, p) && s.callers[p].Called? && s.row.Some?
      && var mine := s.row.value.owner == Some(s.callers[p].token);
         s' == Without(s, p).(row := Some(
                 if !mine then s.row.value
                 else match s.callers[p].answer
                      case Raises(_) => Unless(s.row.value, s.row.value.(state := InDoubt, owner := None))
                      case Receipt(x) => Unless(s.row.value, s.row.value.(state := Committed, result := x, owner := None))))
    case _ => false
  }

  ghost predicate StepAction(c: Config, s: Sys, a: Action, s': Sys) { LookStep(s, a, s') || ActStep(c, s, a, s') }

  /** An absence is reported only while the provider holds no effect. */
  predicate Truthful(s: Sys, a: Action) { a.Observe? && a.outcome.status == DefinitelyAbsent ==> s.effects == 0 }

  // ---- which callers can still reach the provider ----

  /** The caller's last look told it that the provider holds nothing: it found no row, or it observed an absence. */
  predicate PastItsLook(c: Config, phase: Phase) {
    match phase
    case Looked(existed, observeFirst) => !existed && !observeFirst
    case Begun(existed, observeFirst) => !existed && !observeFirst
    case Saw(outcome) => outcome.status == DefinitelyAbsent && c.safe
    case ToClaim(_) => true
    case _ => false
  }

  predicate CanStillClaim(c: Config, s: Sys) {
    s.row.None? || (s.row.value.state != Committed && s.row.value.attempts < c.budget)
  }

  predicate Ready(c: Config, s: Sys, p: nat) { At(s, p) && PastItsLook(c, s.callers[p]) && CanStillClaim(c, s) }

  /** The caller has claimed, and has not called the provider yet. */
  predicate InFlight(s: Sys, p: nat) { At(s, p) && s.callers[p].Claimed? }

  predicate Armed(c: Config, s: Sys, p: nat) { Ready(c, s, p) || InFlight(s, p) }

  ghost predicate AnotherInFlight(s: Sys, q: nat) { exists p :: p != q && InFlight(s, p) }

  /** Some caller can still call the provider on a look that is overtaken, or that a call in flight may overtake. */
  ghost predicate Dangerous(c: Config, s: Sys) {
    exists q :: Armed(c, s, q) && (s.effects > 0 || AnotherInFlight(s, q))
  }

  /** Without a row nothing has happened, and callers have only looked. */
  ghost predicate WellFormed(c: Config, s: Sys) {
    && c.budget >= 1
    && (s.row.None? ==> s.effects == 0 && forall p :: p in s.callers ==> s.callers[p].Looked?)
  }

  lemma StepKeepsWellFormed(c: Config, s: Sys, a: Action, s': Sys)
    requires WellFormed(c, s) && StepAction(c, s, a, s')
    ensures WellFormed(c, s')
  {
  }

  // ---- how danger comes about ----

  /** A claim succeeds while another caller is past its look and can still claim. */
  ghost predicate ClaimOverlaps(c: Config, s: Sys, a: Action, s': Sys) {
    a.Claim? && InFlight(s', a.p) && exists q :: q != a.p && Ready(c, s', q)
  }

  /** A caller observes an absence on which it may claim, while another caller's provider call is still to come. */
  ghost predicate LookOverlaps(c: Config, s: Sys, a: Action, s': Sys) {
    a.Observe? && Ready(c, s', a.p) && AnotherInFlight(s', a.p)
  }

  ghost predicate Overlaps(c: Config, s: Sys, a: Action, s': Sys) {
    ClaimOverlaps(c, s, a, s') || LookOverlaps(c, s, a, s')
  }

  /** A caller that is armed after a step was armed before it, unless the step is its own look. */
  lemma ArmedBefore(c: Config, s: Sys, a: Action, s': Sys, q: nat)
    requires WellFormed(c, s) && StepAction(c, s, a, s') && Armed(c, s', q)
    ensures Armed(c, s, q) || ((a.Look? || a.Observe?) && a.p == q)
  {
  }

  lemma FlightBefore(c: Config, s: Sys, a: Action, s': Sys, p: nat)
    requires StepAction(c, s, a, s') && InFlight(s', p)
    ensures InFlight(s, p) || (a.Claim? && a.p == p)
  {
  }

  /** Claims are made by callers that were ready. */
  lemma ClaimerWasReady(c: Config, s: Sys, a: Action, s': Sys)
    requires StepAction(c, s, a, s') && a.Claim? && InFlight(s', a.p)
    ensures Ready(c, s, a.p) && s'.effects == s.effects && s'.callers == s.callers[a.p := s'.callers[a.p]]
  {
  }

  lemma OverlapIsDanger(c: Config, s: Sys, a: Action, s': Sys)
    requires StepAction(c, s, a, s') && Overlaps(c, s, a, s')
    ensures Dangerous(c, s')
  {
    if ClaimOverlaps(c, s, a, s') {
      var q :| q != a.p && Ready(c, s', q);
      assert Armed(c, s', q) && AnotherInFlight(s', q);
    } else {
      assert Armed(c, s', a.p);
    }
  }

  lemma DangerIsOverlap(c: Config, s: Sys, a: Action, s': Sys)
    requires WellFormed(c, s) && StepAction(c, s, a, s') && Truthful(s, a)
    requires !Dangerous(c, s) && Dangerous(c, s')
    ensures Overlaps(c, s, a, s')
  {
    var q :| Armed(c, s', q) && (s'.effects > 0 || AnotherInFlight(s', q));
    ArmedBefore(c, s, a, s', q);
    if AnotherInFlight(s', q) {
      var p :| p != q && InFlight(s', p);
      FlightBefore(c, s, a, s', p);
      DangerFromFlight(c, s, a, s', q, p);
    } else {
      NoDangerFromEffectAlone(c, s, a, s', q);
    }
  }

  lemma DangerFromFlight(c: Config, s: Sys, a: Action, s': Sys, q: nat, p: nat)
    requires WellFormed(c, s) && StepAction(c, s, a, s') && !Dangerous(c, s)
    requires Armed(c, s', q) && p != q && InFlight(s', p)
    requires Armed(c, s, q) || ((a.Look? || a.Observe?) && a.p == q)
    requires InFlight(s, p) || (a.Claim? && a.p == p)
    ensures Overlaps(c, s, a, s')
  {
    assert AnotherInFlight(s', q);
    if InFlight(s, p) {
      assert AnotherInFlight(s, q);
      assert !Armed(c, s, q);
    } else {
      ClaimerWasReady(c, s, a, s');
      assert Armed(c, s, p);
      if InFlight(s', q) {
        assert InFlight(s, q) && AnotherInFlight(s, p);
        assert false;
      }
    }
  }

  /** With truthful looks an effect alone endangers nobody: whoever is armed beside it was in flight with another. */
  lemma NoDangerFromEffectAlone(c: Config, s: Sys, a: Action, s': Sys, q: nat)
    requires WellFormed(c, s) && StepAction(c, s, a, s') && Truthful(s, a) && !Dangerous(c, s)
    requires Armed(c, s', q) ==> Armed(c, s, q) || ((a.Look? || a.Observe?) && a.p == q)
    ensures !(Armed(c, s', q) && s'.effects > 0)
  {
    assert Armed(c, s, q) ==> s.effects == 0;
    assert Armed(c, s, q) && a.Call? && a.p != q ==> InFlight(s, a.p) && AnotherInFlight(s, q);
  }

  /** Danger arises exactly at an overlapping claim or an overlapping look. */
  lemma DangerArisesExactlyByOverlap(c: Config, s: Sys, a: Action, s': Sys)
    requires WellFormed(c, s) && StepAction(c, s, a, s') && Truthful(s, a) && !Dangerous(c, s)
    ensures Dangerous(c, s') <==> Overlaps(c, s, a, s')
  {
    if Overlaps(c, s, a, s') { OverlapIsDanger(c, s, a, s'); }
    if Dangerous(c, s') { DangerIsOverlap(c, s, a, s'); }
  }

  // ---- at most one effect ----

  ghost predicate TruthfulNext(c: Config, s: Sys, s': Sys) { exists a :: StepAction(c, s, a, s') && Truthful(s, a) }

  /** Truthful steps that do not overlap. */
  ghost predicate ApartNext(c: Config, s: Sys, s': Sys) {
    exists a :: StepAction(c, s, a, s') && Truthful(s, a) && !Overlaps(c, s, a, s')
  }

  ghost predicate Once(c: Config, s: Sys) { WellFormed(c, s) && !Dangerous(c, s) && s.effects <= 1 }

  lemma StepKeepsOnce(c: Config, s: Sys, a: Action, s': Sys)
    requires Once(c, s) && StepAction(c, s, a, s') && Truthful(s, a)
    ensures s'.effects <= 1 && (Once(c, s') <==> !Overlaps(c, s, a, s'))
  {
    StepKeepsWellFormed(c, s, a, s');
    DangerArisesExactlyByOverlap(c, s, a, s');
    if a.Call? { assert Armed(c, s, a.p); }
  }

  /** In every run whose claims and looks do not overlap, the key takes effect at most once. */
  lemma NoOverlapNoSecondEffect(c: Config, run: seq<Sys>, i: nat)
    requires c.budget >= 1 && Runs.IsRun(Init, (s, s') => ApartNext(c, s, s'), run) && i < |run|
    ensures Once(c, run[i])
  {
    var next, inv := (s, s') => ApartNext(c, s, s'), s => Once(c, s);
    forall s, s' | inv(s) && next(s, s') ensures inv(s') {
      var a :| StepAction(c, s, a, s') && Truthful(s, a) && !Overlaps(c, s, a, s');
      StepKeepsOnce(c, s, a, s');
    }
    Runs.InvariantHolds(Init, next, inv, run, i);
  }

  // ---- what an overlap leads to ----

  /** A truthful continuation that brings no danger where there was none. */
  ghost predicate Continues(c: Config, more: seq<Sys>) {
    && more != []
    && forall k :: 0 <= k < |more| - 1 ==> QuietNext(c, more[k], more[k + 1])
  }

  ghost predicate QuietNext(c: Config, s: Sys, s': Sys) {
    TruthfulNext(c, s, s') && (Dangerous(c, s') ==> Dangerous(c, s))
  }

  lemma {:induction false} QuietContinuationsStayOnce(c: Config, more: seq<Sys>, k: nat)
    requires Continues(c, more) && Once(c, more[0]) && k < |more|
    ensures Once(c, more[k])
  {
    if k > 0 {
      QuietContinuationsStayOnce(c, more, k - 1);
      assert QuietNext(c, more[k - 1], more[k - 1 + 1]);
      var a :| StepAction(c, more[k - 1], a, more[k]) && Truthful(more[k - 1], a);
      StepKeepsOnce(c, more[k - 1], a, more[k]);
    }
  }

  /** A continuation can be followed by another. */
  lemma Follow(c: Config, first: seq<Sys>, then_: seq<Sys>)
    requires Continues(c, first) && Continues(c, then_) && first[|first| - 1] == then_[0]
    ensures Continues(c, first + then_[1..]) && (first + then_[1..])[0] == first[0]
    ensures (first + then_[1..])[|first + then_[1..]| - 1] == then_[|then_| - 1]
  {
    var all, n := first + then_[1..], |first| - 1;
    forall k | 0 <= k < |all| - 1 ensures QuietNext(c, all[k], all[k + 1]) {
      if k >= n {
        assert all[k] == then_[k - n] && all[k + 1] == then_[k - n + 1];
      } else {
        assert all[k] == first[k] && all[k + 1] == first[k + 1];
      }
    }
  }

  lemma OneStep(c: Config, s: Sys, a: Action, s': Sys)
    requires StepAction(c, s, a, s') && Truthful(s, a) && Dangerous(c, s)
    ensures Continues(c, [s, s'])
  {
    assert TruthfulNext(c, s, s');
  }

  /** One more step at the end of a continuation that is dangerous so far. */
  lemma Then(c: Config, more: seq<Sys>, a: Action, s': Sys) returns (longer: seq<Sys>)
    requires Continues(c, more) && Dangerous(c, more[|more| - 1])
    requires StepAction(c, more[|more| - 1], a, s') && Truthful(more[|more| - 1], a)
    ensures Continues(c, longer) && longer[0] == more[0] && longer[|longer| - 1] == s'
  {
    OneStep(c, more[|more| - 1], a, s');
    Follow(c, more, [more[|more| - 1], s']);
    longer := more + [more[|more| - 1], s'][1..];
  }

  function Raising(): Answer { Raises(true) }

  /** A caller in flight calls, and the call takes effect. */
  function AfterCall(s: Sys, p: nat): Sys
    requires InFlight(s, p)
  {
    With(s, p, Called(s.callers[p].token, Raising())).(calls := s.calls + 1, effects := s.effects + 1)
  }

  lemma CallTakesEffect(c: Config, more: seq<Sys>, p: nat) returns (longer: seq<Sys>)
    requires Continues(c, more) && Dangerous(c, more[|more| - 1]) && InFlight(more[|more| - 1], p)
    ensures Continues(c, longer) && longer[0] == more[0] && longer[|longer| - 1] == AfterCall(more[|more| - 1], p)
  {
    longer := Then(c, more, Call(p, Raising()), AfterCall(more[|more| - 1], p));
  }

  lemma {:induction false} FreshCaller(callers: map<nat, Phase>) returns (p: nat)
    ensures forall q :: q in callers ==> q < p
  {
    p := 0;
    if callers != map[] {
      var q :| q in callers;
      var rest := FreshCaller(callers - {q});
      p := if rest > q then rest else q + 1;
      forall x | x in callers ensures x < p {
        if x != q { assert x in callers - {q}; }
      }
    }
  }

  /** What keeps q dangerous while others work: it can still claim, and an effect is there. */
  predicate Overtaken(c: Config, s: Sys, q: nat) { Ready(c, s, q) && s.effects > 0 }

  lemma OvertakenIsDangerous(c: Config, s: Sys, q: nat)
    requires Overtaken(c, s, q)
    ensures Dangerous(c, s)
  {
    assert Armed(c, s, q);
  }

  /** If some attempt still owns the row, a new caller finds its lease over and clears it. */
  lemma OwnerIsCleared(c: Config, s: Sys, q: nat) returns (more: seq<Sys>)
    requires WellFormed(c, s) && Overtaken(c, s, q)
    ensures Continues(c, more) && more[0] == s
    ensures var t := more[|more| - 1];
            WellFormed(c, t) && Overtaken(c, t, q) && t.callers[q] == s.callers[q] && t.row.value.owner.None?
            && t.effects == s.effects
  {
    OvertakenIsDangerous(c, s, q);
    more := [s];
    if s.row.value.owner.Some? {
      var r := FreshCaller(s.callers);
      var looked := With(s, r, Looked(true, false));
      var begun := With(looked, r, Begun(true, false));
      var read := With(begun, r, SawExpired(s.row.value.owner.value));
      var cleared := With(read, r, ToObserve).(row := Some(s.row.value.(state := InDoubt, owner := None)));
      more := Then(c, more, Look(r, false), looked);
      OvertakenIsDangerous(c, looked, q);
      assert begun.row == s.row;
      more := Then(c, more, Begin(r), begun);
      OvertakenIsDangerous(c, begun, q);
      more := Then(c, more, Reread(r, false), read);
      OvertakenIsDangerous(c, read, q);
      more := Then(c, more, Clear(r), cleared);
    }
  }

  /** With no owner in the way, a caller past its look goes on to its claim. */
  lemma ReadyReachesItsClaim(c: Config, s: Sys, q: nat) returns (more: seq<Sys>)
    requires WellFormed(c, s) && Overtaken(c, s, q) && s.row.value.owner.None?
    ensures Continues(c, more) && more[0] == s
    ensures var t := more[|more| - 1];
            WellFormed(c, t) && Overtaken(c, t, q) && t.callers[q].ToClaim? && t.row.value.owner.None?
            && t.effects == s.effects
  {
    OvertakenIsDangerous(c, s, q);
    more := [s];
    match s.callers[q] {
      case Looked(_, _) =>
        var begun := With(s, q, Begun(false, false));
        assert begun.row == s.row;
        more := Then(c, more, Begin(q), begun);
        OvertakenIsDangerous(c, begun, q);
        more := Then(c, more, Reread(q, false), With(begun, q, ToClaim(true)));
      case Begun(_, _) => more := Then(c, more, Reread(q, false), With(s, q, ToClaim(true)));
      case Saw(_) =>
        more := Then(c, more, Mark(q), With(s.(row := Some(s.row.value.(state := Reconciling))), q, ToClaim(false)));
      case _ =>
    }
  }

  /** A caller that can still claim after an effect claims, calls, and takes a second one. */
  lemma OvertakenTakesEffect(c: Config, s: Sys, q: nat) returns (more: seq<Sys>)
    requires WellFormed(c, s) && Overtaken(c, s, q)
    ensures Continues(c, more) && more[0] == s && more[|more| - 1].effects == s.effects + 1
  {
    var first := OwnerIsCleared(c, s, q);
    var t := first[|first| - 1];
    var second := ReadyReachesItsClaim(c, t, q);
    Follow(c, first, second);
    more := first + second[1..];
    var u := second[|second| - 1];
    OvertakenIsDangerous(c, u, q);
    var e := u.row.value;
    var claimed := With(u, q, Claimed(u.lastToken + 1))
                   .(row := Some(e.(state := Intent, attempts := e.attempts + 1, owner := Some(u.lastToken + 1))),
                     lastToken := u.lastToken + 1,
                     blindClaims := if u.callers[q].blind then u.blindClaims + 1 else u.blindClaims);
    more := Then(c, more, Claim(q, false), claimed);
    assert Armed(c, claimed, q) && claimed.effects > 0;
    more := CallTakesEffect(c, more, q);
  }

  /** From danger a second effect follows. */
  lemma DangerTakesTwo(c: Config, s: Sys) returns (more: seq<Sys>)
    requires WellFormed(c, s) && Dangerous(c, s)
    ensures Continues(c, more) && more[0] == s && more[|more| - 1].effects >= 2
  {
    var q :| Armed(c, s, q) && (s.effects > 0 || AnotherInFlight(s, q));
    more := [s];
    var t := s;
    if s.effects == 0 {
      var p :| p != q && InFlight(s, p);
      more := CallTakesEffect(c, more, p);
      t := AfterCall(s, p);
    }
    assert Armed(c, t, q) && t.effects > 0 && WellFormed(c, t);
    if InFlight(t, q) {
      more := CallTakesEffect(c, more, q);
    } else {
      var last := OvertakenTakesEffect(c, t, q);
      Follow(c, more, last);
      more := more + last[1..];
    }
  }

  /**
   A second effect comes exactly from an overlap. Take any state in which nothing is endangered and the key has taken
   effect at most once, and any truthful step from it. Some continuation that brings no new danger leads to a second
   effect if and only if the step is a claim while another caller is past its look and can still claim, or an observed
   absence on which its caller may claim while another caller's provider call is still to come.
   */
  lemma SecondEffectExactlyAfterOverlap(c: Config, s: Sys, a: Action, s': Sys)
    requires Once(c, s) && StepAction(c, s, a, s') && Truthful(s, a)
    ensures (exists more: seq<Sys> :: Continues(c, more) && more[0] == s' && more[|more| - 1].effects >= 2) <==> Overlaps(c, s, a, s')
  {
    StepKeepsOnce(c, s, a, s');
    StepKeepsWellFormed(c, s, a, s');
    DangerArisesExactlyByOverlap(c, s, a, s');
    if Overlaps(c, s, a, s') { var more := DangerTakesTwo(c, s'); }
    if more: seq<Sys> :| Continues(c, more) && more[0] == s' && more[|more| - 1].effects >= 2 {
      if !Overlaps(c, s, a, s') { QuietContinuationsStayOnce(c, more, |more| - 1); }
    }
  }

  // ---- how often the provider is called ----

  function Flights(s: Sys): set<nat> { set p | p in s.callers && s.callers[p].Claimed? }

  /** Callers whose last look was an observed absence. */
  predicate SawAbsence(s: Sys, p: nat) {
    At(s, p) && (s.callers[p] == ToClaim(false)
                 || (s.callers[p].Saw? && s.callers[p].outcome.status == DefinitelyAbsent))
  }

  function Absent(s: Sys): set<nat> { set p | p in s.callers && SawAbsence(s, p) }

  function AttemptsOf(s: Sys): nat { if s.row.Some? then s.row.value.attempts else 0 }

  /** Every call uses up a claim, every claim an attempt of the budget, and every claim that is not blind an absence. */
  ghost predicate Counted(c: Config, s: Sys) {
    && s.lastToken == AttemptsOf(s) <= c.budget
    && s.calls + |Flights(s)| <= s.lastToken
    && s.lastToken + |Absent(s)| <= s.blindClaims + s.absences
  }

  /** A step moves one caller only. */
  lemma OthersStand(c: Config, s: Sys, a: Action, s': Sys, q: nat)
    requires StepAction(c, s, a, s') && q != a.p
    ensures At(s', q) <==> At(s, q)
    ensures At(s, q) ==> s'.callers[q] == s.callers[q]
  {
  }

  lemma SetsMoveByOne(c: Config, s: Sys, a: Action, s': Sys)
    requires StepAction(c, s, a, s')
    ensures Flights(s') <= Flights(s) + {a.p} && Flights(s') - {a.p} == Flights(s) - {a.p}
    ensures Absent(s') <= Absent(s) + {a.p} && Absent(s') - {a.p} == Absent(s) - {a.p}
  {
    forall q | q != a.p ensures (q in Flights(s') <==> q in Flights(s)) && (q in Absent(s') <==> q in Absent(s)) {
      OthersStand(c, s, a, s', q);
    }
  }

  lemma SetSizes(a: set<nat>, b: set<nat>, p: nat)
    requires a - {p} == b - {p}
    ensures |b| == |a| + (if p in b then 1 else 0) - (if p in a then 1 else 0)
  {
    assert |a - {p}| == |a| - if p in a then 1 else 0;
    assert |b - {p}| == |b| - if p in b then 1 else 0;
  }

  lemma AttemptsCounted(c: Config, s: Sys, a: Action, s': Sys)
    requires s.lastToken == AttemptsOf(s) <= c.budget && StepAction(c, s, a, s')
    ensures s'.lastToken == AttemptsOf(s') <= c.budget
    ensures s'.lastToken == s.lastToken + if a.Claim? && InFlight(s', a.p) then 1 else 0
  {
  }

  lemma LookMovesFlights(s: Sys, a: Action, s': Sys)
    requires LookStep(s, a, s')
    ensures One(InFlight(s', a.p)) <= One(InFlight(s, a.p)) && s'.calls == s.calls && !(a.Claim? && InFlight(s', a.p))
  {
  }

  lemma ActMovesFlights(c: Config, s: Sys, a: Action, s': Sys)
    requires ActStep(c, s, a, s')
    ensures One(InFlight(s', a.p)) + s'.calls <= One(InFlight(s, a.p)) + s.calls + One(a.Claim? && InFlight(s', a.p))
  {
  }

  /** A claim puts its caller in flight, a call takes it out again. */
  lemma CallsCounted(c: Config, s: Sys, a: Action, s': Sys)
    requires StepAction(c, s, a, s')
    ensures s'.calls + |Flights(s')| <= s.calls + |Flights(s)| + One(a.Claim? && InFlight(s', a.p))
  {
    SetsMoveByOne(c, s, a, s');
    SetSizes(Flights(s), Flights(s'), a.p);
    assert (a.p in Flights(s) <==> InFlight(s, a.p)) && (a.p in Flights(s') <==> InFlight(s', a.p));
    if LookStep(s, a, s') { LookMovesFlights(s, a, s'); } else { ActMovesFlights(c, s, a, s'); }
  }

  function One(b: bool): nat { if b then 1 else 0 }

  lemma LookMovesAbsence(s: Sys, a: Action, s': Sys)
    requires LookStep(s, a, s')
    ensures One(SawAbsence(s', a.p)) + s.absences <= One(SawAbsence(s, a.p)) + s'.absences
    ensures s'.blindClaims == s.blindClaims && !(a.Claim? && InFlight(s', a.p))
  {
  }

  lemma ActMovesAbsence(c: Config, s: Sys, a: Action, s': Sys)
    requires ActStep(c, s, a, s')
    ensures One(a.Claim? && InFlight(s', a.p)) + One(SawAbsence(s', a.p)) + s.blindClaims
         <= One(SawAbsence(s, a.p)) + s'.blindClaims
    ensures s'.absences == s.absences
  {
  }

  /** An observed absence lets its caller claim once. */
  lemma AbsencesCounted(c: Config, s: Sys, a: Action, s': Sys)
    requires StepAction(c, s, a, s')
    ensures One(a.Claim? && InFlight(s', a.p)) + |Absent(s')| + s.blindClaims + s.absences
         <= |Absent(s)| + s'.blindClaims + s'.absences
  {
    SetsMoveByOne(c, s, a, s');
    SetSizes(Absent(s), Absent(s'), a.p);
    assert (a.p in Absent(s) <==> SawAbsence(s, a.p)) && (a.p in Absent(s') <==> SawAbsence(s', a.p));
    if LookStep(s, a, s') { LookMovesAbsence(s, a, s'); } else { ActMovesAbsence(c, s, a, s'); }
  }

  lemma StepKeepsCounted(c: Config, s: Sys, a: Action, s': Sys)
    requires Counted(c, s) && StepAction(c, s, a, s')
    ensures Counted(c, s')
  {
    AttemptsCounted(c, s, a, s');
    CallsCounted(c, s, a, s');
    AbsencesCounted(c, s, a, s');
  }

  ghost predicate Next(c: Config, s: Sys, s': Sys) { exists a :: StepAction(c, s, a, s') }

  /**
   In every run, however callers interleave: the provider is called at most as often as the budget allows, and at most
   once for every absence observed and every claim by a caller that found no row.
   */
  lemma CallsAreCovered(c: Config, run: seq<Sys>, i: nat)
    requires Runs.IsRun(Init, (s, s') => Next(c, s, s'), run) && i < |run|
    ensures run[i].calls <= c.budget && run[i].calls <= run[i].blindClaims + run[i].absences
  {
    var next, inv := (s, s') => Next(c, s, s'), s => Counted(c, s);
    forall s, s' | inv(s) && next(s, s') ensures inv(s') {
      var a :| StepAction(c, s, a, s');
      StepKeepsCounted(c, s, a, s');
    }
    Runs.InvariantHolds(Init, next, inv, run, i);
  }

  /** A caller that found no row and will not observe. */
  predicate Blind(s: Sys, p: nat) {
    At(s, p) && match s.callers[p]
                case Looked(existed, observeFirst) => !existed && !observeFirst
                case Begun(existed, observeFirst) => !existed && !observeFirst
                case ToClaim(blind) => blind
                case _ => false
  }

  /** At most one claim was blind; after it no blind caller can claim any more. */
  ghost predicate OneBlind(c: Config, s: Sys) {
    && s.blindClaims <= 1
    && (s.blindClaims == 1 ==> s.row.Some? && forall p :: Blind(s, p) ==> !CanStillClaim(c, s))
  }

  lemma StepKeepsOneBlind(c: Config, s: Sys, a: Action, s': Sys)
    requires OneBlind(c, s) && WellFormed(c, s) && StepAction(c, s, a, s') && !Overlaps(c, s, a, s')
    ensures OneBlind(c, s')
  {
    assert s'.blindClaims > s.blindClaims ==> Blind(s, a.p) && CanStillClaim(c, s) && s'.blindClaims == s.blindClaims + 1;
    if s'.blindClaims == 1 {
      forall p | Blind(s', p) ensures !CanStillClaim(c, s') {
        if s.blindClaims == 1 {
          BlindBefore(c, s, a, s', p);
        } else {
          assert a.Claim? && InFlight(s', a.p);
          assert p != a.p && !Ready(c, s', p);
        }
      }
    }
  }

  lemma BlindBefore(c: Config, s: Sys, a: Action, s': Sys, p: nat)
    requires StepAction(c, s, a, s') && s.row.Some? && Blind(s', p)
    ensures Blind(s, p) && (CanStillClaim(c, s') ==> CanStillClaim(c, s))
  {
  }

  /** In runs without overlap a provider call is the first one, or follows an observed absence of its own. */
  lemma CallsFollowAbsences(c: Config, run: seq<Sys>, i: nat)
    requires c.budget >= 1 && Runs.IsRun(Init, (s, s') => ApartNext(c, s, s'), run) && i < |run|
    ensures run[i].calls <= c.budget && run[i].calls <= 1 + run[i].absences
  {
    var next := (s, s') => ApartNext(c, s, s');
    var inv := s => Counted(c, s) && WellFormed(c, s) && OneBlind(c, s);
    forall s, s' | inv(s) && next(s, s') ensures inv(s') {
      var a :| StepAction(c, s, a, s') && Truthful(s, a) && !Overlaps(c, s, a, s');
      StepKeepsCounted(c, s, a, s');
      StepKeepsWellFormed(c, s, a, s');
      StepKeepsOneBlind(c, s, a, s');
    }
    Runs.InvariantHolds(Init, next, inv, run, i);
  }

  // ---- committed receipts ----

  predicate CommittedStays(s: Sys, s': Sys) {
    s.row.Some? && s.row.value.state == Committed ==>
      s'.row.Some? && s'.row.value.state == Committed && s'.row.value.result == s.row.value.result
  }

  lemma StepKeepsCommitted(c: Config, s: Sys, a: Action, s': Sys)
    requires StepAction(c, s, a, s')
    ensures CommittedStays(s, s')
  {
  }

  /** Whoever commits first: a committed receipt is never replaced, however callers interleave. */
  lemma CommittedReceiptIsFinal(c: Config, run: seq<Sys>, i: nat, j: nat)
    requires Runs.IsRun(Init, (s, s') => Next(c, s, s'), run) && i <= j < |run|
    ensures CommittedStays(run[i], run[j])
  {
    var next, inv := (s, s') => Next(c, s, s'), s => true;
    forall s, s' | inv(s) && next(s, s') ensures inv(s') && CommittedStays(s, s') {
      var a :| StepAction(c, s, a, s');
      StepKeepsCommitted(c, s, a, s');
    }
    Runs.StepsCompose(Init, next, inv, CommittedStays, run, i, j);
  }

  // ---- runs that fail ----

  const TWICE := Config(3, true)

  /** Two callers find no row; the first claims, takes effect and raises; the second claims without having looked again. */
  function TwoFirstCallers(k: nat): Sys {
    var stored := Entry(Intent, 0, None, "");
    match k
    case 0 => Sys(None, map[], 0, 0, 0, 0, 0)
    case 1 => Sys(None, map[0 := Looked(false, false)], 0, 0, 0, 0, 0)
    case 2 => Sys(None, map[0 := Looked(false, false), 1 := Looked(false, false)], 0, 0, 0, 0, 0)
    case 3 => Sys(Some(stored), map[0 := Begun(false, false), 1 := Looked(false, false)], 0, 0, 0, 0, 0)
    case 4 => Sys(Some(stored), map[0 := Begun(false, false), 1 := Begun(false, false)], 0, 0, 0, 0, 0)
    case 5 => Sys(Some(stored), map[0 := Begun(false, false), 1 := ToClaim(true)], 0, 0, 0, 0, 0)
    case 6 => Sys(Some(stored), map[0 := ToClaim(true), 1 := ToClaim(true)], 0, 0, 0, 0, 0)
    case 7 => Sys(Some(Entry(Intent, 1, Some(1), "")), map[0 := Claimed(1), 1 := ToClaim(true)], 0, 0, 0, 1, 1)
    case 8 => Sys(Some(Entry(Intent, 1, Some(1), "")), map[0 := Called(1, Raising()), 1 := ToClaim(true)], 1, 1, 0, 1, 1)
    case 9 => Sys(Some(Entry(InDoubt, 1, None, "")), map[1 := ToClaim(true)], 1, 1, 0, 1, 1)
    case 10 => Sys(Some(Entry(Intent, 2, Some(2), "")), map[1 := Claimed(2)], 1, 1, 0, 2, 2)
    case _ => Sys(Some(Entry(Intent, 2, Some(2), "")), map[1 := Called(2, Raising())], 2, 2, 0, 2, 2)
  }

  function TwoFirstCallersAction(k: nat): Action {
    match k
    case 0 => Look(0, false)
    case 1 => Look(1, false)
    case 2 => Begin(0)
    case 3 => Begin(1)
    case 4 => Reread(1, false)
    case 5 => Reread(0, false)
    case 6 => Claim(0, false)
    case 7 => Call(0, Raising())
    case 8 => Finish(0)
    case 9 => Claim(1, false)
    case _ => Call(1, Raising())
  }

  lemma TwoFirstCallersSteps(k: nat)
    requires k < 11
    ensures StepAction(TWICE, TwoFirstCallers(k), TwoFirstCallersAction(k), TwoFirstCallers(k + 1))
  {
    var s, s' := TwoFirstCallers(k), TwoFirstCallers(k + 1);
    match k
    case 0 => assert s'.callers == s.callers[0 := Looked(false, false)];
    case 1 => assert s'.callers == s.callers[1 := Looked(false, false)];
    case 2 => assert s'.callers == s.callers[0 := Begun(false, false)];
    case 3 => assert s'.callers == s.callers[1 := Begun(false, false)];
    case 4 => assert s'.callers == s.callers[1 := ToClaim(true)];
    case 5 => assert s'.callers == s.callers[0 := ToClaim(true)];
    case 6 => assert s'.callers == s.callers[0 := Claimed(1)];
    case 7 => assert s'.callers == s.callers[0 := Called(1, Raising())];
    case 8 => assert s'.callers == s.callers - {0};
    case 9 => assert s'.callers == s.callers[1 := Claimed(2)];
    case _ => assert s'.callers == s.callers[1 := Called(2, Raising())];
  }

  /** Two first callers can both take effect, without a single observation. */
  lemma TwoFirstCallersCanBothTakeEffect()
    ensures exists run: seq<Sys> :: && Runs.IsRun(Init, (s, s') => TruthfulNext(TWICE, s, s'), run)
                                    && TookEffectTwice(run[|run| - 1])
  {
    var run := seq(12, k requires 0 <= k < 12 => TwoFirstCallers(k));
    var next := (s, s') => TruthfulNext(TWICE, s, s');
    forall k | 0 <= k < |run| - 1 ensures next(run[k], run[k + 1]) {
      TwoFirstCallersSteps(k);
      assert run[k] == TwoFirstCallers(k) && run[k + 1] == TwoFirstCallers(k + 1);
      assert Truthful(run[k], TwoFirstCallersAction(k));
    }
    assert Init(run[0]) && run[11].effects == 2;
  }

  predicate TookEffectTwice(s: Sys) { s.effects >= 2 }

  /** A claim is made and its caller is slow; its lease runs out, and another caller observes, truthfully, an absence. */
  function SlowClaim(k: nat): Sys {
    var stored, claimed := Entry(Intent, 0, None, ""), Entry(Intent, 1, Some(1), "");
    match k
    case 0 => Sys(None, map[], 0, 0, 0, 0, 0)
    case 1 => Sys(None, map[0 := Looked(false, false)], 0, 0, 0, 0, 0)
    case 2 => Sys(Some(stored), map[0 := Begun(false, false)], 0, 0, 0, 0, 0)
    case 3 => Sys(Some(stored), map[0 := ToClaim(true)], 0, 0, 0, 0, 0)
    case 4 => Sys(Some(claimed), map[0 := Claimed(1)], 0, 0, 0, 1, 1)
    case 5 => Sys(Some(claimed), map[0 := Claimed(1), 1 := Looked(true, false)], 0, 0, 0, 1, 1)
    case 6 => Sys(Some(claimed), map[0 := Claimed(1), 1 := Begun(true, false)], 0, 0, 0, 1, 1)
    case 7 => Sys(Some(claimed), map[0 := Claimed(1), 1 := SawExpired(1)], 0, 0, 0, 1, 1)
    case 8 => Sys(Some(Entry(InDoubt, 1, None, "")), map[0 := Claimed(1), 1 := ToObserve], 0, 0, 0, 1, 1)
    case _ => Sys(Some(Entry(InDoubt, 1, None, "")), map[0 := Claimed(1), 1 := Saw(Outcome(DefinitelyAbsent, ""))], 0, 0, 1, 1, 1)
  }

  function SlowClaimAction(k: nat): Action {
    match k
    case 0 => Look(0, false)
    case 1 => Begin(0)
    case 2 => Reread(0, false)
    case 3 => Claim(0, false)
    case 4 => Look(1, false)
    case 5 => Begin(1)
    case 6 => Reread(1, false)
    case 7 => Clear(1)
    case _ => Observe(1, Outcome(DefinitelyAbsent, ""))
  }

  lemma SlowClaimSteps(k: nat)
    requires k < 9
    ensures StepAction(TWICE, SlowClaim(k), SlowClaimAction(k), SlowClaim(k + 1))
    ensures Truthful(SlowClaim(k), SlowClaimAction(k))
  {
    var s, s' := SlowClaim(k), SlowClaim(k + 1);
    match k
    case 0 => assert s'.callers == s.callers[0 := Looked(false, false)];
    case 1 => assert s'.callers == s.callers[0 := Begun(false, false)];
    case 2 => assert s'.callers == s.callers[0 := ToClaim(true)];
    case 3 => assert s'.callers == s.callers[0 := Claimed(1)];
    case 4 => assert s'.callers == s.callers[1 := Looked(true, false)];
    case 5 => assert s'.callers == s.callers[1 := Begun(true, false)];
    case 6 => assert s'.callers == s.callers[1 := SawExpired(1)];
    case 7 => assert s'.callers == s.callers[1 := ToObserve];
    case _ => assert s'.callers == s.callers[1 := Saw(Outcome(DefinitelyAbsent, ""))];
  }

  /** A call that outlives its lease can take effect after the next caller has looked, and that caller's call as well. */
  lemma ASlowCallCanBeDoubled()
    ensures exists run: seq<Sys> :: && Runs.IsRun(Init, (s, s') => TruthfulNext(TWICE, s, s'), run)
                                    && TookEffectTwice(run[|run| - 1])
  {
    var start := seq(10, k requires 0 <= k < 10 => SlowClaim(k));
    var next := (s, s') => TruthfulNext(TWICE, s, s');
    var s := SlowClaim(9);
    assert InFlight(s, 0) && Armed(TWICE, s, 1) && AnotherInFlight(s, 1);
    var more := DangerTakesTwo(TWICE, s);
    var run := start + more[1..];
    forall k | 0 <= k < |run| - 1 ensures next(run[k], run[k + 1]) {
      if k < 9 {
        SlowClaimSteps(k);
        assert run[k] == SlowClaim(k) && run[k + 1] == SlowClaim(k + 1);
      } else {
        assert run[k] == more[k - 9] && run[k + 1] == more[k - 9 + 1];
        assert QuietNext(TWICE, more[k - 9], more[k - 9 + 1]);
      }
    }
    assert Init(run[0]) && run[|run| - 1] == more[|more| - 1];
  }
}
