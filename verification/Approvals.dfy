/**
 Accepted inputs and gate approvals: which inputs a run is pinned to, how a gate's answer becomes an approval, how it
 is stamped when it is recorded, and how it is checked again before anything is published. Digests are injective, so a
 digest stands for the inputs it was computed from.
 */
module Approvals {
  import opened Prelude
  import Runs
  import opened Texts

  datatype GateMode = HumanGate | AutoGate | PolicyGate

  datatype Mode = ByHuman | ByAuto | ByReplay | ByPolicy

  datatype Decision = Approve | Reject

  datatype Approval = Approval(
    gate: string, decision: Decision, actor: string, mode: Mode, respondedAt: Option<int>,
    artifact: Option<string>, cell: Option<string>, epoch: Option<nat>, inputs: Option<string>)

  /** A stored gate response: nothing, not an object, or an object with its single option, identity and answer time. */
  datatype Response = Missing | Malformed | Answer(chosen: Option<Decision>, user: Option<string>, at: Option<int>)

  datatype Entry = Entry(decision: Option<Decision>, actor: Option<string>)

  datatype Fixture = NoFixture | Unreadable | Entries(byGate: map<string, (Decision, string)>)

  datatype Refusal =
    | PolicyGateElsewhere | FixtureUnreadable | FixtureRefused | NobodyAnswered | MalformedResponse | NoSingleOption
    | NoIdentity | ReservedActor | NoAnswerTime
    | OtherGate | OtherInputs | OtherCell | NotAPolicyDecision | StalePolicyAuthority | AutomaticOnHumanGate
    | ReplayOnManaged | HumanUnderReservedName
    | OtherArtifact | AnsweredTooEarly | NoAcceptedInputs | OtherSchema | Drifted | NoActorOrReason | ManagedCell

  const AUTO_ACTOR := "auto"
  const REPLAY_PREFIX := "replay:"

  /** Case folding replaces each character by a string of characters. */
  function Fold(fold: char -> string, s: string): string { if s == "" then "" else fold(s[0]) + Fold(fold, s[1..]) }

  lemma {:induction false} FoldKeepsPrefix(fold: char -> string, p: string, s: string)
    requires p <= s
    ensures Fold(fold, p) <= Fold(fold, s)
  {
    if p != "" { FoldKeepsPrefix(fold, p[1..], s[1..]); }
  }

  predicate Reserved(fold: char -> string, actor: string) {
    var folded := Fold(fold, actor);
    folded == Fold(fold, AUTO_ACTOR) || Fold(fold, REPLAY_PREFIX) <= folded || "policy:" <= folded
  }

  function Unstamped(gate: string, d: Decision, actor: string, mode: Mode, at: Option<int>): Approval {
    Approval(gate, d, actor, mode, at, None, None, None, None)
  }

  // ---- answering a gate ----

  /** The loop over the fixture's entries: one bad entry spoils the whole fixture. */
  method LoadFixture(raw: seq<(string, Entry)>) returns (r: Fixture)
    requires forall i, j :: 0 <= i < j < |raw| ==> raw[i].0 != raw[j].0
    ensures r.Unreadable? || r.Entries?
    ensures r.Entries? <==> forall i :: 0 <= i < |raw| ==> raw[i].1.decision.Some? && raw[i].1.actor.Some?
    ensures r.Entries? ==> forall gate, d, who ::
              gate in r.byGate && r.byGate[gate] == (d, who) <==> (gate, Entry(Some(d), Some(who))) in raw
  {
    var byGate: map<string, (Decision, string)> := map[];
    for i := 0 to |raw|
      invariant forall k :: 0 <= k < i ==> raw[k].1.decision.Some? && raw[k].1.actor.Some?
      invariant forall gate, d, who ::
                  gate in byGate && byGate[gate] == (d, who) <==> (gate, Entry(Some(d), Some(who))) in raw[..i]
    {
      var (gate, entry) := raw[i];
      if entry.decision.None? || entry.actor.None? { return Unreadable; }
      assert raw[..i + 1] == raw[..i] + [raw[i]];
      assert forall d, who :: (gate, Entry(Some(d), Some(who))) !in raw[..i];
      byGate := byGate[gate := (entry.decision.value, entry.actor.value)];
    }
    assert raw[..|raw|] == raw;
    r := Entries(byGate);
  }

  function ReplayApproval(gate: string, fixture: Fixture, managed: bool, scmIsLocal: bool): Result<Option<Approval>, Refusal> {
    match fixture
    case NoFixture => Ok(None)
    case Unreadable => Err(FixtureUnreadable)
    case Entries(byGate) =>
      if managed || !scmIsLocal then Err(FixtureRefused)
      else if gate !in byGate then Ok(None)
      else Ok(Some(Unstamped(gate, byGate[gate].0, REPLAY_PREFIX + byGate[gate].1, ByReplay, None)))
  }

  function FromResponse(
      fold: char -> string, gate: string, gateMode: GateMode, response: Response, fixture: Fixture, managed: bool,
      scmIsLocal: bool): Result<Approval, Refusal>
  {
    if gateMode == PolicyGate then Err(PolicyGateElsewhere)
    else match response
      case Missing =>
        (match ReplayApproval(gate, fixture, managed, scmIsLocal)
         case Err(e) => Err(e)
         case Ok(None) => Err(NobodyAnswered)
         case Ok(Some(a)) => Ok(a))
      case Malformed => Err(MalformedResponse)
      case Answer(chosen, user, at) =>
        if chosen.None? then Err(NoSingleOption)
        else if user.None? then
          if gateMode != AutoGate then Err(NoIdentity) else Ok(Unstamped(gate, chosen.value, AUTO_ACTOR, ByAuto, None))
        else if Reserved(fold, user.value) then Err(ReservedActor)
        else if at.None? then Err(NoAnswerTime)
        else Ok(Unstamped(gate, chosen.value, user.value, ByHuman, at))
  }

  // ---- checking a recorded approval ----

  function CheckRecorded(
      gate: string, gateMode: GateMode, a: Approval, managed: bool, cell: Option<string>, epoch: Option<nat>,
      inputs: Option<string>, revision: string): Result<(), Refusal>
  {
    if a.gate != gate then Err(OtherGate)
    else if a.inputs != inputs then Err(OtherInputs)
    else if a.cell != cell || a.epoch != epoch then Err(OtherCell)
    else if gateMode == PolicyGate && (a.mode != ByPolicy || !("policy:" <= a.actor)) then Err(NotAPolicyDecision)
    else if a.mode == ByPolicy && (!managed || gateMode != PolicyGate || a.actor != "policy:" + revision) then
      Err(StalePolicyAuthority)
    else if gateMode == HumanGate && (a.mode == ByAuto || a.mode == ByPolicy) then Err(AutomaticOnHumanGate)
    else if a.mode == ByReplay && managed then Err(ReplayOnManaged)
    else if a.mode == ByHuman && (a.actor == AUTO_ACTOR || REPLAY_PREFIX <= a.actor) then Err(HumanUnderReservedName)
    else Ok(())
  }

  function Stamp(a: Approval, artifact: string, cell: Option<string>, epoch: Option<nat>, inputs: Option<string>): Approval {
    a.(artifact := Some(artifact), cell := cell, epoch := epoch, inputs := inputs)
  }

  /** Whoever is allowed to answer is believed later: what the response rules accept, the re-check accepts. */
  lemma EveryBuiltApprovalPasses(
      fold: char -> string, gate: string, gateMode: GateMode, response: Response, fixture: Fixture, managed: bool,
      scmIsLocal: bool, a: Approval, artifact: string, cell: Option<string>, epoch: Option<nat>, inputs: Option<string>,
      revision: string)
    requires FromResponse(fold, gate, gateMode, response, fixture, managed, scmIsLocal) == Ok(a)
    ensures CheckRecorded(gate, gateMode, Stamp(a, artifact, cell, epoch, inputs), managed, cell, epoch, inputs, revision)
         == Ok(())
  {
    if REPLAY_PREFIX <= a.actor { FoldKeepsPrefix(fold, REPLAY_PREFIX, a.actor); }
  }

  /** Whose decision can stand for a gate of this mode. */
  predicate MayDecide(gateMode: GateMode, a: Approval, managed: bool, revision: string) {
    match a.mode
    case ByPolicy => gateMode == PolicyGate && managed && a.actor == "policy:" + revision
    case ByAuto => gateMode == AutoGate
    case ByReplay => gateMode != PolicyGate && !managed
    case ByHuman => gateMode != PolicyGate && a.actor != AUTO_ACTOR && !(REPLAY_PREFIX <= a.actor)
  }

  /**
   What passing means, in both directions: the approval is for this gate, these inputs and this Cell epoch, and whoever
   decided may decide. So on managed work a human gate is passed only by a person under a name of their own.
   */
  lemma PassingNamesItsAuthority(
      gate: string, gateMode: GateMode, a: Approval, managed: bool, cell: Option<string>, epoch: Option<nat>,
      inputs: Option<string>, revision: string)
    ensures CheckRecorded(gate, gateMode, a, managed, cell, epoch, inputs, revision) == Ok(()) <==>
              && (a.gate, a.inputs, a.cell, a.epoch) == (gate, inputs, cell, epoch)
              && MayDecide(gateMode, a, managed, revision)
    ensures managed && gateMode == HumanGate && MayDecide(gateMode, a, managed, revision) ==> a.mode == ByHuman
  {
  }

  predicate Answered(
      fold: char -> string, gate: string, gateMode: GateMode, response: Response, fixture: Fixture, managed: bool,
      scmIsLocal: bool)
  {
    && gateMode != PolicyGate
    && (match response
        case Missing => fixture.Entries? && !managed && scmIsLocal && gate in fixture.byGate
        case Malformed => false
        case Answer(chosen, user, at) =>
          chosen.Some? && if user.None? then gateMode == AutoGate else !Reserved(fold, user.value) && at.Some?)
  }

  /**
   Which answers become approvals: a person's, named, unreserved and dated; the declared default of an automatic gate;
   or, where nobody answered, a replay on local unmanaged work. The decision is always the one that was given.
   */
  lemma WhoMayAnswer(
      fold: char -> string, gate: string, gateMode: GateMode, response: Response, fixture: Fixture, managed: bool,
      scmIsLocal: bool)
    ensures var r := FromResponse(fold, gate, gateMode, response, fixture, managed, scmIsLocal);
            && (r.Ok? <==> Answered(fold, gate, gateMode, response, fixture, managed, scmIsLocal))
            && (r.Ok? ==> r.value.gate == gate && r.value.inputs.None? && r.value.cell.None? && r.value.epoch.None?)
            && (r.Ok? && response.Missing? ==> r.value.mode == ByReplay && r.value.decision == fixture.byGate[gate].0)
            && (r.Ok? && response.Answer? ==> r.value.decision == response.chosen.value)
            && (r.Ok? && r.value.mode == ByHuman ==>
                  response.user == Some(r.value.actor) && r.value.respondedAt == response.at && response.at.Some?)
  {
  }

  // ---- accepted inputs ----

  datatype Inputs = Inputs(schema: nat, digest: string)

  datatype Entered = Accepted(digest: string) | Superseded(actor: string, digest: string)

  /** The run's control files. */
  datatype Files = Files(pin: Option<Inputs>, digest: Option<string>, admittedAt: Option<int>, history: seq<Entered>)

  function AdmitTx(f: Files, current: Inputs, now: int): (Files, Result<Inputs, Refusal>) {
    match f.pin
    case None =>
      (Files(Some(current), Some(current.digest), Some(now), f.history + [Accepted(current.digest)]), Ok(current))
    case Some(accepted) =>
      if accepted.schema != current.schema then (f, Err(OtherSchema))
      else if accepted.digest != current.digest then (f, Err(Drifted))
      else (f, Ok(accepted))
  }

  function ReacceptTx(f: Files, managed: bool, actor: string, reason: string): (Files, Result<Inputs, Refusal>) {
    if Trim(actor) == "" || Trim(reason) == "" then (f, Err(NoActorOrReason))
    else if managed then (f, Err(ManagedCell))
    else match f.pin
      case None => (f, Err(NoAcceptedInputs))
      case Some(accepted) => (Files(None, None, None, f.history + [Superseded(Trim(actor), accepted.digest)]), Ok(accepted))
  }

  predicate AnsweredBeforeAdmission(f: Files, at: Option<int>) {
    f.admittedAt.Some? && at.Some? && at.value < f.admittedAt.value
  }

  /** Recording an answer: what it already names is checked, what it does not name is stamped. */
  function RecordTx(
      f: Files, approvals: map<string, Approval>, a: Approval, artifact: string, cell: Option<string>, epoch: Option<nat>)
    : Result<map<string, Approval>, Refusal>
  {
    if f.pin.None? then Err(NoAcceptedInputs)
    else if (a.cell.Some? && a.cell != cell) || (a.epoch.Some? && a.epoch != epoch) then Err(OtherCell)
    else if a.artifact.Some? && a.artifact.value != artifact then Err(OtherArtifact)
    else if a.respondedAt.Some? && AnsweredBeforeAdmission(f, a.respondedAt) then Err(AnsweredTooEarly)
    else if a.inputs.Some? && a.inputs.value != f.pin.value.digest then Err(OtherInputs)
    else Ok(approvals[a.gate := Stamp(a, artifact, cell, epoch, Some(f.pin.value.digest))])
  }

  /** Admission pins the first inputs it meets, lets the same inputs in again, and says why it refuses others. */
  lemma AdmittedExactlyWhenUnchanged(f: Files, current: Inputs, now: int)
    ensures var (f', r) := AdmitTx(f, current, now);
            && (r.Ok? <==> f.pin.None? || f.pin == Some(current))
            && (r.Ok? ==> r.value == current && f'.pin == Some(current))
            && (r == Err(OtherSchema) <==> f.pin.Some? && f.pin.value.schema != current.schema)
            && (r == Err(Drifted) <==>
                  f.pin.Some? && f.pin.value.schema == current.schema && f.pin.value.digest != current.digest)
            && (f.pin.Some? ==> f' == f)
            && (f.pin.None? ==>
                  && f'.digest == Some(current.digest) && f'.admittedAt == Some(now)
                  && f'.history == f.history + [Accepted(current.digest)])
  {
  }

  /** A re-acceptance needs somebody, a reason, a pin, and work that no backend manages; it retires the pin on record. */
  lemma ReopenedExactlyWhen(f: Files, managed: bool, actor: string, reason: string)
    ensures var (f', r) := ReacceptTx(f, managed, actor, reason);
            && (r.Ok? <==> !Blank(actor) && !Blank(reason) && !managed && f.pin.Some?)
            && (r.Err? ==> f' == f)
            && (r.Ok? ==>
                  && Some(r.value) == f.pin && f'.pin.None? && f'.digest.None? && f'.admittedAt.None?
                  && f'.history == f.history + [Superseded(Trim(actor), f.pin.value.digest)])
  {
  }

  /** An answer is recorded exactly when it contradicts nothing: the Cell, the artifact, the inputs pinned now and the time
      they were admitted. What is recorded is the answer given, stamped with all of these. */
  lemma RecordedExactlyWhenConsistent(
      f: Files, approvals: map<string, Approval>, a: Approval, artifact: string, cell: Option<string>, epoch: Option<nat>)
    ensures var r := RecordTx(f, approvals, a, artifact, cell, epoch);
            && (r.Ok? <==>
                  && f.pin.Some?
                  && a.cell in {None, cell} && a.epoch in {None, epoch} && a.artifact in {None, Some(artifact)}
                  && a.inputs in {None, Some(f.pin.value.digest)}
                  && (a.respondedAt.Some? && f.admittedAt.Some? ==> f.admittedAt.value <= a.respondedAt.value))
            && (r.Ok? ==>
                  && r.value.Keys == approvals.Keys + {a.gate}
                  && (forall g :: g in approvals && g != a.gate ==> r.value[g] == approvals[g])
                  && var done := r.value[a.gate];
                     && (done.gate, done.decision, done.actor) == (a.gate, a.decision, a.actor)
                     && (done.mode, done.respondedAt) == (a.mode, a.respondedAt)
                     && (done.artifact, done.inputs) == (Some(artifact), Some(f.pin.value.digest))
                     && (done.cell, done.epoch) == (cell, epoch))
  {
  }

  /**
   From the answer to publication: an answer that becomes an approval is recorded unless it came before the inputs were
   admitted, and what is recorded passes the check before publication for as long as these inputs stay pinned.
   */
  lemma AnAnswerOpensItsGate(
      fold: char -> string, gate: string, gateMode: GateMode, response: Response, fixture: Fixture, managed: bool,
      scmIsLocal: bool, a: Approval, f: Files, approvals: map<string, Approval>, artifact: string, cell: Option<string>,
      epoch: Option<nat>, revision: string)
    requires FromResponse(fold, gate, gateMode, response, fixture, managed, scmIsLocal) == Ok(a) && f.pin.Some?
    ensures var r := RecordTx(f, approvals, a, artifact, cell, epoch);
            && (r.Ok? <==> !(a.respondedAt.Some? && f.admittedAt.Some? && a.respondedAt.value < f.admittedAt.value))
            && (r.Ok? ==>
                  && gate in r.value && r.value[gate].decision == a.decision
                  && CheckRecorded(gate, gateMode, r.value[gate], managed, cell, epoch, Some(f.pin.value.digest), revision)
                     == Ok(()))
  {
    EveryBuiltApprovalPasses(fold, gate, gateMode, response, fixture, managed, scmIsLocal, a, artifact, cell, epoch,
                             Some(f.pin.value.digest), revision);
  }

  lemma {:induction false} UnfoldedText(s: string)
    ensures Fold(c => [c], s) == s
  {
    if s != "" { UnfoldedText(s[1..]); }
  }

  /** Which names no person may use, where case does not matter: the automatic actor's, a replay's, a policy's. */
  lemma ReservedNamesAreThese(actor: string)
    ensures Reserved(c => [c], actor) <==> actor == "auto" || "replay:" <= actor || "policy:" <= actor
  {
    UnfoldedText(actor);
    UnfoldedText(AUTO_ACTOR);
    UnfoldedText(REPLAY_PREFIX);
  }

  // ---- runs ----

  datatype Event = Task(digest: string) | Reopened

  /** `tasks` is the history of tasks that were let in and of re-acceptances; `admissions` of inputs that were pinned. */
  datatype Sys = Sys(files: Files, approvals: map<string, Approval>, tasks: seq<Event>, admissions: seq<(string, int)>)

  datatype Action =
    | Admit(current: Inputs, now: int)
    | Reaccept(managed: bool, actor: string, reason: string)
    | Record(a: Approval, artifact: string, cell: Option<string>, epoch: Option<nat>)

  ghost predicate Init(s: Sys) { s == Sys(Files(None, None, None, []), map[], [], []) }

  ghost predicate StepAction(s: Sys, x: Action, s': Sys) {
    match x
    case Admit(current, now) =>
      var (f, r) := AdmitTx(s.files, current, now);
      s' == s.(files := f,
               tasks := if r.Ok? then s.tasks + [Task(current.digest)] else s.tasks,
               admissions := if s.files.pin.None? then s.admissions + [(current.digest, now)] else s.admissions)
    case Reaccept(managed, actor, reason) =>
      var (f, r) := ReacceptTx(s.files, managed, actor, reason);
      s' == s.(files := f, tasks := if r.Ok? then s.tasks + [Reopened] else s.tasks)
    case Record(a, artifact, cell, epoch) =>
      match RecordTx(s.files, s.approvals, a, artifact, cell, epoch)
      case Err(_) => s' == s
      case Ok(approvals) => s' == s.(approvals := approvals)
  }

  ghost predicate Next(s: Sys, s': Sys) { exists x :: StepAction(s, x, s') }

  predicate NoReopening(tasks: seq<Event>, i: nat, j: nat) {
    i <= j < |tasks| && forall k :: i < k < j ==> tasks[k] != Reopened
  }

  ghost predicate OneDigest(tasks: seq<Event>) {
    forall i, j :: 0 <= i <= j < |tasks| && NoReopening(tasks, i, j) && tasks[i].Task? && tasks[j].Task? ==>
      tasks[i] == tasks[j]
  }

  /** The last task since the last re-acceptance, if there was one, ran on what is pinned. */
  ghost predicate LastIsPinned(s: Sys) {
    forall i :: 0 <= i < |s.tasks| && s.tasks[i].Task? && (forall k :: i < k < |s.tasks| ==> s.tasks[k] != Reopened) ==>
      s.files.pin.Some? && s.tasks[i] == Task(s.files.pin.value.digest)
  }

  ghost predicate Dated(s: Sys, a: Approval) {
    a.inputs.Some? && (a.respondedAt.Some? ==> AdmittedBy(s.admissions, a.inputs.value, a.respondedAt.value))
  }

  predicate AdmittedBy(admissions: seq<(string, int)>, digest: string, time: int) {
    exists i :: 0 <= i < |admissions| && admissions[i].0 == digest && admissions[i].1 <= time
  }

  ghost predicate Inv(s: Sys) {
    && OneDigest(s.tasks)
    && LastIsPinned(s)
    && (s.files.pin.Some? ==>
          && s.files.digest == Some(s.files.pin.value.digest) && s.files.admittedAt.Some?
          && (s.files.pin.value.digest, s.files.admittedAt.value) in s.admissions)
    && (s.files.pin.None? ==> s.files.digest.None? && s.files.admittedAt.None?)
    && (forall gate :: gate in s.approvals ==> s.approvals[gate].gate == gate && Dated(s, s.approvals[gate]))
  }

  lemma TaskAppended(tasks: seq<Event>, e: Event)
    requires OneDigest(tasks)
    requires e.Task? ==> forall i ::
               0 <= i < |tasks| && tasks[i].Task? && (forall k :: i < k < |tasks| ==> tasks[k] != Reopened) ==> tasks[i] == e
    ensures OneDigest(tasks + [e])
  {
    var more := tasks + [e];
    forall i, j | 0 <= i <= j < |more| && NoReopening(more, i, j) && more[i].Task? && more[j].Task?
      ensures more[i] == more[j]
    {
      assert forall k :: 0 <= k < |tasks| ==> more[k] == tasks[k];
      if j < |tasks| { assert NoReopening(tasks, i, j); }
    }
  }

  lemma AdmitKeepsInv(s: Sys, current: Inputs, now: int, s': Sys)
    requires Inv(s) && StepAction(s, Admit(current, now), s')
    ensures Inv(s')
  {
    if AdmitTx(s.files, current, now).1.Ok? {
      TaskAppended(s.tasks, Task(current.digest));
      assert forall k :: 0 <= k < |s.tasks| ==> s'.tasks[k] == s.tasks[k];
    }
    assert s.admissions <= s'.admissions;
    if s.files.pin.None? { assert s'.admissions[|s.admissions|] == (current.digest, now); }
    forall gate | gate in s'.approvals ensures Dated(s', s'.approvals[gate]) {
      AdmissionsStay(s.admissions, s'.admissions, s.approvals[gate]);
      assert Dated(s, s.approvals[gate]);
    }
  }

  lemma AdmissionsStay(admissions: seq<(string, int)>, more: seq<(string, int)>, a: Approval)
    requires admissions <= more
    ensures a.inputs.Some? && a.respondedAt.Some? && AdmittedBy(admissions, a.inputs.value, a.respondedAt.value) ==>
              AdmittedBy(more, a.inputs.value, a.respondedAt.value)
  {
    if a.inputs.Some? && a.respondedAt.Some? && AdmittedBy(admissions, a.inputs.value, a.respondedAt.value) {
      var i :| 0 <= i < |admissions| && admissions[i].0 == a.inputs.value && admissions[i].1 <= a.respondedAt.value;
      assert more[i] == admissions[i];
    }
  }

  lemma ReacceptKeepsInv(s: Sys, managed: bool, actor: string, reason: string, s': Sys)
    requires Inv(s) && StepAction(s, Reaccept(managed, actor, reason), s')
    ensures Inv(s')
  {
    if ReacceptTx(s.files, managed, actor, reason).1.Ok? {
      TaskAppended(s.tasks, Reopened);
      assert s'.tasks[|s.tasks|] == Reopened;
    }
    forall gate | gate in s'.approvals ensures Dated(s', s'.approvals[gate]) { assert Dated(s, s.approvals[gate]); }
  }

  lemma RecordKeepsInv(s: Sys, x: Action, s': Sys)
    requires Inv(s) && x.Record? && StepAction(s, x, s')
    ensures Inv(s')
  {
    if s' != s {
      var i :| 0 <= i < |s.admissions| && s.admissions[i] == (s.files.pin.value.digest, s.files.admittedAt.value);
      forall gate | gate in s'.approvals ensures s'.approvals[gate].gate == gate && Dated(s', s'.approvals[gate]) {
        if gate != x.a.gate { assert Dated(s, s.approvals[gate]); }
      }
    }
  }

  lemma InvHolds(run: seq<Sys>, i: nat)
    requires Runs.IsRun(Init, Next, run) && i < |run|
    ensures Inv(run[i])
  {
    forall s, s' | Inv(s) && Next(s, s') ensures Inv(s') {
      var x :| StepAction(s, x, s');
      match x
      case Admit(current, now) => AdmitKeepsInv(s, current, now, s');
      case Reaccept(managed, actor, reason) => ReacceptKeepsInv(s, managed, actor, reason, s');
      case Record(_, _, _, _) => RecordKeepsInv(s, x, s');
    }
    Runs.InvariantHolds(Init, Next, Inv, run, i);
  }

  /** All tasks let in between two re-acceptances ran on the same inputs. */
  lemma OneDigestBetweenReacceptances(run: seq<Sys>, n: nat, i: nat, j: nat)
    requires Runs.IsRun(Init, Next, run) && n < |run|
    requires NoReopening(run[n].tasks, i, j) && run[n].tasks[i].Task? && run[n].tasks[j].Task?
    ensures run[n].tasks[i] == run[n].tasks[j]
  {
    InvHolds(run, n);
  }

  /**
   An approval that passes before publication, and that carries an answer time, was answered after the very inputs
   now pinned had been admitted: no older answer can be recorded again in its place.
   */
  lemma PublishedAnswersWereGivenForTheseInputs(
      run: seq<Sys>, n: nat, gate: string, gateMode: GateMode, managed: bool, cell: Option<string>, epoch: Option<nat>,
      revision: string)
    requires Runs.IsRun(Init, Next, run) && n < |run| && gate in run[n].approvals && run[n].files.pin.Some?
    requires CheckRecorded(gate, gateMode, run[n].approvals[gate], managed, cell, epoch,
                           Some(run[n].files.pin.value.digest), revision) == Ok(())
    ensures var a := run[n].approvals[gate];
            a.respondedAt.Some? ==> AdmittedBy(run[n].admissions, run[n].files.pin.value.digest, a.respondedAt.value)
  {
    InvHolds(run, n);
    assert Dated(run[n], run[n].approvals[gate]);
  }

  /**
   After a re-acceptance, an approval that passed before passes again exactly when the inputs admitted next have the
   digest it was given for. So re-admitting unchanged inputs does not make the gates be answered again.
   */
  lemma ReopeningVoidsOnlyChangedInputs(
      f: Files, managed: bool, actor: string, reason: string, next: Inputs, now: int, gate: string, gateMode: GateMode,
      a: Approval, cell: Option<string>, epoch: Option<nat>, revision: string)
    requires f.pin.Some? && ReacceptTx(f, managed, actor, reason).1.Ok?
    requires CheckRecorded(gate, gateMode, a, managed, cell, epoch, Some(f.pin.value.digest), revision) == Ok(())
    ensures var reopened := AdmitTx(ReacceptTx(f, managed, actor, reason).0, next, now).0;
            && reopened.pin == Some(next)
            && (CheckRecorded(gate, gateMode, a, managed, cell, epoch, Some(reopened.pin.value.digest), revision) == Ok(())
                <==> next.digest == f.pin.value.digest)
  {
  }

  /** Re-accepted, and admitted again with the same inputs: the approval given before the re-acceptance passes. */
  lemma UnchangedInputsKeepTheirApproval()
    ensures var inputs := Inputs(2, "sha256:a");
            var admitted := AdmitTx(Files(None, None, None, []), inputs, 0).0;
            var reopened := ReacceptTx(admitted, false, "alice", "typo").0;
            var again := AdmitTx(reopened, inputs, 9).0;
            var a := Stamp(Unstamped("plan", Approve, "bob", ByHuman, Some(5)), "artifact", None, None, Some("sha256:a"));
            && reopened.pin == None && again.pin == Some(inputs)
            && CheckRecorded("plan", HumanGate, a, false, None, None, Some(again.pin.value.digest), "revision") == Ok(())
            && AnsweredBeforeAdmission(again, a.respondedAt)
  {
    assert !IsBlank("alice"[0]) && !IsBlank("typo"[0]);
    assert "bob" != AUTO_ACTOR && !(REPLAY_PREFIX <= "bob");
  }

  // ---- the control files of one run ----

  class RunControl {
    var pin: Option<Inputs>
    var digest: Option<string>
    var admittedAt: Option<int>
    var history: seq<Entered>

    function State(): Files reads this { Files(pin, digest, admittedAt, history) }

    constructor ()
      ensures State() == Files(None, None, None, [])
    {
      pin, digest, admittedAt, history := None, None, None, [];
    }

    method AdmitInputs(current: Inputs, now: int) returns (r: Result<Inputs, Refusal>)
      modifies this
      ensures (State(), r) == AdmitTx(old(State()), current, now)
    {
      if pin.None? {
        pin := Some(current);
        digest := Some(current.digest);
        admittedAt := Some(now);
        history := history + [Accepted(current.digest)];
        return Ok(current);
      }
      var accepted := pin.value;
      if accepted.schema != current.schema { return Err(OtherSchema); }
      if accepted.digest != current.digest { return Err(Drifted); }
      r := Ok(accepted);
    }

    method ReacceptInputs(managed: bool, actor: string, reason: string) returns (r: Result<Inputs, Refusal>)
      modifies this
      ensures (State(), r) == ReacceptTx(old(State()), managed, actor, reason)
    {
      if Trim(actor) == "" || Trim(reason) == "" { return Err(NoActorOrReason); }
      if managed { return Err(ManagedCell); }
      if pin.None? { return Err(NoAcceptedInputs); }
      var accepted := pin.value;
      history := history + [Superseded(Trim(actor), accepted.digest)];
      pin := None;
      digest := None;
      admittedAt := None;
      r := Ok(accepted);
    }
  }
}
