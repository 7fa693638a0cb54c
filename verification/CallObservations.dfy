/**
 Importing operator attestations of external bills. An observation file is identified by the digest of its bytes;
 the digest is taken to be injective, so the bytes stand for it. Parsing is a fixed function of the bytes.
 */
module CallObservations {
  import opened Prelude
  import opened CallLedger
  import Runs

  datatype Doc = Doc(
    runId: string, callId: string, inputs: string, profile: string,
    status: Status, final: bool, cost: Option<nat>, observedAt: real)

  /** The cross-field rules of an observation document. */
  predicate DocValid(d: Doc) {
    match d.status
    case Committed => d.final && d.cost.Some?
    case DefinitelyAbsent => d.final && d.cost.None?
    case Ambiguous => !d.final && d.cost.None?
    case _ => false
  }

  /** A final document states a charge, or that there was none; one that cannot tell is not final and states nothing. */
  lemma DocumentsThatCount(d: Doc)
    ensures DocValid(d) <==>
              (d.status, d.final, d.cost.Some?) in
                {(Committed, true, true), (DefinitelyAbsent, true, false), (Ambiguous, false, false)}
  {
  }

  /** What the factory wrote before launch, and when its own journal saw the container cleaned up. */
  datatype Descriptor = Descriptor(runId: string, inputs: string, profile: string, cleanedAt: Option<real>)

  datatype Archived = Archived(evidence: Evidence, doc: Doc)

  type Archive = map<(string, string), Archived>

  datatype Refusal = UnknownRecord | NoDescriptor | Malformed | Mismatch | Immutable | NotCleanedUp | TooEarly | ArchiveConflict

  datatype Answer =
    | AlreadyApplied(usd: nat)
    | Imported(settled: Option<nat>)
    | RefusedImport(why: Refusal)
    | Died

  datatype State = State(rows: seq<Row>, archive: Archive)

  function OutcomeFor(d: Doc, e: Evidence): Outcome {
    Outcome(d.status, if d.cost.Some? then Some(d.cost.value) else None, None, e)
  }

  /** The checks made before anything is written. */
  function Gate(rows: seq<Row>, runId: string, id: string, file: string, parsed: Option<Doc>,
                descriptor: Option<Descriptor>): Option<Answer>
  {
    match RecordOf(rows, id)
    case None => Some(RefusedImport(UnknownRecord))
    case Some(record) =>
      if descriptor.None? then Some(RefusedImport(NoDescriptor))
      else if parsed.None? || !DocValid(parsed.value) then Some(RefusedImport(Malformed))
      else
        var doc, d := parsed.value, descriptor.value;
        if doc.runId != runId || d.runId != runId || doc.callId != id || doc.inputs != d.inputs || doc.profile != d.profile
        then Some(RefusedImport(Mismatch))
        else if record.settled.Some? then
          if record.seen.Some? && record.seen.value.evidence.file == file
          then Some(AlreadyApplied(record.settled.value)) else Some(RefusedImport(Immutable))
        else if doc.status != Ambiguous && d.cleanedAt.None? then Some(RefusedImport(NotCleanedUp))
        else if doc.status != Ambiguous && doc.observedAt < d.cleanedAt.value then Some(RefusedImport(TooEarly))
        else None
  }

  /** One import. `dies` is a crash between writing the archive and appending to the ledger. */
  function ImportTx(s: State, runId: string, id: string, file: string, parsed: Option<Doc>,
                    descriptor: Option<Descriptor>, actor: string, reason: string, dies: bool): (State, Answer)
  {
    match Gate(s.rows, runId, id, file, parsed, descriptor)
    case Some(answer) => (s, answer)
    case None =>
      var doc := parsed.value;
      var key := (id, file);
      if key in s.archive && (s.archive[key].evidence.file != file || s.archive[key].doc != doc)
      then (s, RefusedImport(ArchiveConflict))
      else
        var evidence := if key in s.archive then s.archive[key].evidence else Evidence(file, actor, reason);
        var kept := s.(archive := if key in s.archive then s.archive else s.archive[key := Archived(evidence, doc)]);
        if dies then (kept, Died)
        else match ReconcileRow(s.rows, id, OutcomeFor(doc, evidence))
             case Ok(row) => (kept.(rows := s.rows + [row]), Imported(row.cost))
             case Err(_) => (kept, RefusedImport(Immutable))
  }

  // ---- the import against the ledger object ----

  /** `reconcile_call`, on the run's ledger and its archive of control files. */
  class Importer {
    const ledger: Ledger
    var archive: Archive

    constructor (ledger: Ledger)
      ensures this.ledger == ledger && archive == map[]
    {
      this.ledger := ledger;
      archive := map[];
    }

    method ReconcileCall(runId: string, id: string, file: string, parsed: Option<Doc>, descriptor: Option<Descriptor>,
                         actor: string, reason: string) returns (answer: Answer)
      modifies this, ledger
      ensures (State(ledger.rows, archive), answer)
              == ImportTx(State(old(ledger.rows), old(archive)), runId, id, file, parsed, descriptor, actor, reason, false)
    {
      var recs := ledger.Records();
      var at := IndexOf(recs, id);
      if at.None? { return RefusedImport(UnknownRecord); }
      var record := recs[at.value];
      if descriptor.None? { return RefusedImport(NoDescriptor); }
      if parsed.None? || !DocValid(parsed.value) { return RefusedImport(Malformed); }
      var doc, d := parsed.value, descriptor.value;
      if doc.runId != runId || d.runId != runId || doc.callId != id || doc.inputs != d.inputs || doc.profile != d.profile {
        return RefusedImport(Mismatch);
      }
      if record.settled.Some? {
        if record.seen.None? || record.seen.value.evidence.file != file { return RefusedImport(Immutable); }
        return AlreadyApplied(record.settled.value);
      }
      if doc.status != Ambiguous {
        if d.cleanedAt.None? { return RefusedImport(NotCleanedUp); }
        if doc.observedAt < d.cleanedAt.value { return RefusedImport(TooEarly); }
      }
      var evidence := Evidence(file, actor, reason);
      var key := (id, file);
      if key in archive {
        var retained := archive[key];
        if retained.evidence.file != file || retained.doc != doc { return RefusedImport(ArchiveConflict); }
        evidence := retained.evidence;
      } else {
        archive := archive[key := Archived(evidence, doc)];
      }
      var settled := ledger.Reconcile(id, OutcomeFor(doc, evidence));
      answer := if settled.Ok? then Imported(settled.value.settled) else RefusedImport(Immutable);
    }
  }

  // ---- runs of imports ----

  /** `live` are the attempts of a running stage; its lock keeps imports out. `settledBy` names, for each call an
      import settled, the file and the value. */
  datatype Sys = Sys(s: State, live: set<string>, drawn: set<string>, settledBy: map<string, (string, nat)>)

  /** What stays fixed through a run: its id, the parser, and the factory's own descriptors. */
  datatype World = World(runId: string, parse: string -> Option<Doc>, descriptors: map<string, Descriptor>)

  function DescriptorOf(w: World, id: string): Option<Descriptor> {
    if id in w.descriptors then Some(w.descriptors[id]) else None
  }

  datatype Action =
    | Reserve(id: string, usd: nat)
    | Settle(id: string, usd: nat, receipt: string)
    | MarkUnknown(id: string)
    | StageEnds
    | Import(id: string, file: string, actor: string, reason: string, dies: bool)

  function Import1(w: World, s: State, a: Action): (State, Answer)
    requires a.Import?
  {
    ImportTx(s, w.runId, a.id, a.file, w.parse(a.file), DescriptorOf(w, a.id), a.actor, a.reason, a.dies)
  }

  ghost predicate StepAction(w: World, x: Sys, a: Action, x': Sys) {
    match a
    case Reserve(id, usd) =>
      && id !in x.drawn
      && x' == x.(s := x.s.(rows := x.s.rows + [ReservedRow(Attempt(id, usd))]), live := x.live + {id}, drawn := x.drawn + {id})
    case Settle(id, usd, receipt) =>
      && id in x.live && RecordOf(x.s.rows, id).Some?
      && x' == x.(s := x.s.(rows := x.s.rows + [SettledRow(Attempt(id, RecordOf(x.s.rows, id).value.reserved), usd, receipt)]))
    case MarkUnknown(id) =>
      && id in x.live && RecordOf(x.s.rows, id).Some?
      && x' == x.(s := x.s.(rows := x.s.rows + [UnknownRow(Attempt(id, RecordOf(x.s.rows, id).value.reserved))]))
    case StageEnds => x' == x.(live := {})
    case Import(id, file, _, _, _) =>
      && x.live == {}
      && var (s', answer) := Import1(w, x.s, a);
         x' == x.(s := s', settledBy := if answer.Imported? && answer.settled.Some?
                                        then x.settledBy[id := (file, answer.settled.value)] else x.settledBy)
  }

  ghost predicate Init(x: Sys) { x == Sys.Sys(State([], map[]), {}, {}, map[]) }

  ghost predicate Next(w: World, x: Sys, x': Sys) { exists a :: StepAction(w, x, a, x') }

  /** The value a final observation settles at. */
  ghost predicate FinalValue(d: Doc, usd: nat) {
    && DocValid(d) && d.final
    && usd == if d.status == Committed then d.cost.value else 0
  }

  /** The file names this run, this call and the inputs and profile the factory pinned before launch. */
  predicate Matches(w: World, id: string, file: string) {
    && id in w.descriptors && w.parse(file).Some?
    && var doc, d := w.parse(file).value, w.descriptors[id];
       DocValid(doc) && doc.runId == w.runId == d.runId && doc.callId == id && doc.inputs == d.inputs && doc.profile == d.profile
  }

  /** The file observes the call after the factory saw its container cleaned up. */
  predicate AfterCleanup(w: World, id: string, file: string)
    requires id in w.descriptors && w.parse(file).Some?
  {
    w.descriptors[id].cleanedAt.Some? && w.descriptors[id].cleanedAt.value <= w.parse(file).value.observedAt
  }

  ghost predicate SettledRightly(w: World, x: Sys, id: string)
    requires id in x.settledBy
  {
    var (file, usd) := x.settledBy[id];
    && id !in x.live && id in x.drawn
    && RecordOf(x.s.rows, id).Some?
    && (id, file) in x.s.archive
    && var r := RecordOf(x.s.rows, id).value;
       && r.settled == Some(usd)
       && r.seen.Some? && r.seen.value.evidence == x.s.archive[(id, file)].evidence
       && Matches(w, id, file) && FinalValue(w.parse(file).value, usd)
  }

  ghost predicate ArchiveHonest(w: World, a: Archive) {
    forall k :: k in a ==> a[k].evidence.file == k.1 && w.parse(k.1) == Some(a[k].doc)
  }

  /** A call whose settled record carries an observation was settled by an import; a live call carries none yet. */
  ghost predicate RecordOrdinary(x: Sys, id: string) {
    RecordOf(x.s.rows, id).Some? ==>
      && id in x.drawn
      && (id in x.live ==> RecordOf(x.s.rows, id).value.seen.None?)
      && (RecordOf(x.s.rows, id).value.settled.Some? && RecordOf(x.s.rows, id).value.seen.Some? ==> id in x.settledBy)
  }

  ghost predicate Inv(w: World, x: Sys) {
    && (forall id :: id in x.settledBy ==> SettledRightly(w, x, id))
    && ArchiveHonest(w, x.s.archive)
    && (forall id :: RecordOrdinary(x, id))
    && x.live <= x.drawn
  }

  /** A settlement by import and an archived observation, with the first importer's name on it, are there for good. */
  ghost predicate Lasting(x: Sys, x': Sys) {
    && (forall id :: id in x.settledBy ==> id in x'.settledBy && x'.settledBy[id] == x.settledBy[id])
    && (forall k :: k in x.s.archive ==> k in x'.s.archive && x'.s.archive[k] == x.s.archive[k])
  }

  /** A row of a call that no import settled leaves every imported settlement alone. */
  lemma AgentRowKeepsInv(w: World, x: Sys, row: Row, x': Sys)
    requires Inv(w, x) && row.Call? && row.callId !in x.settledBy && row.seen.None?
    requires RecordOf(x.s.rows, row.callId).Some? ==> row.callId in x.live
    requires x' == x.(s := x.s.(rows := x.s.rows + [row]), live := x.live + {row.callId}, drawn := x.drawn + {row.callId})
    ensures Inv(w, x') && Lasting(x, x')
  {
    forall id | id in x'.settledBy ensures SettledRightly(w, x', id) {
      assert SettledRightly(w, x, id);
      RecordAfter(x.s.rows, row, id);
    }
    forall id ensures RecordOrdinary(x', id) {
      assert RecordOrdinary(x, id);
      RecordAfter(x.s.rows, row, id);
    }
  }

  lemma NotImportedWhileLive(w: World, x: Sys, id: string)
    requires Inv(w, x) && (id in x.live || id !in x.drawn)
    ensures id !in x.settledBy && (id !in x.drawn ==> RecordOf(x.s.rows, id).None?)
  {
    assert id in x.settledBy ==> SettledRightly(w, x, id);
    assert RecordOrdinary(x, id);
  }

  lemma AgentKeepsInv(w: World, x: Sys, a: Action, x': Sys)
    requires Inv(w, x) && (a.Reserve? || a.Settle? || a.MarkUnknown?) && StepAction(w, x, a, x')
    ensures Inv(w, x') && Lasting(x, x')
  {
    NotImportedWhileLive(w, x, a.id);
    var row := x'.s.rows[|x.s.rows|];
    assert x'.s.rows == x.s.rows + [row];
    assert a.id in x'.live && x'.live == x.live + {a.id} && x'.drawn == x.drawn + {a.id};
    AgentRowKeepsInv(w, x, row, x');
  }

  lemma StageEndKeepsInv(w: World, x: Sys, x': Sys)
    requires Inv(w, x) && x' == x.(live := {})
    ensures Inv(w, x') && Lasting(x, x')
  {
    forall id | id in x'.settledBy ensures SettledRightly(w, x', id) { assert SettledRightly(w, x, id); }
    forall id ensures RecordOrdinary(x', id) { assert RecordOrdinary(x, id); }
  }

  /** What an import that goes past the checks does: at most one archive entry, at most one row. */
  lemma ImportShape(w: World, x: Sys, a: Action)
    requires Inv(w, x) && a.Import? && x.live == {}
    ensures var (s', answer) := Import1(w, x.s, a);
            && (forall k :: k in x.s.archive ==> k in s'.archive && s'.archive[k] == x.s.archive[k])
            && ArchiveHonest(w, s'.archive)
            && (answer.Imported? ==>
                  && Matches(w, a.id, a.file)
                  && (a.id, a.file) in s'.archive
                  && RecordOf(x.s.rows, a.id).Some? && RecordOf(x.s.rows, a.id).value.settled.None?
                  && |s'.rows| == |x.s.rows| + 1 && s'.rows == x.s.rows + [s'.rows[|x.s.rows|]]
                  && var row := s'.rows[|x.s.rows|];
                     && row.Call? && row.callId == a.id && row.cost == answer.settled
                     && row.seen == Some(Seen(w.parse(a.file).value.status, s'.archive[(a.id, a.file)].evidence))
                     && (row.cost.Some? ==> FinalValue(w.parse(a.file).value, row.cost.value))
                     && (row.cost.Some? ==> AfterCleanup(w, a.id, a.file)))
            && (!answer.Imported? ==> s'.rows == x.s.rows)
  {
    var gate := Gate(x.s.rows, w.runId, a.id, a.file, w.parse(a.file), DescriptorOf(w, a.id));
    if gate.None? {
      var doc := w.parse(a.file).value;
      var key := (a.id, a.file);
      var evidence := if key in x.s.archive then x.s.archive[key].evidence else Evidence(a.file, a.actor, a.reason);
      ReconcileSettlesOnlyOnProof(x.s.rows, a.id, OutcomeFor(doc, evidence));
    }
  }

  /**
   When an import goes through: the call is recorded and not settled, the file matches it, and a final file observes it
   after its cleanup; then an ambiguous file settles nothing and a final one settles at its value. A settled call answers
   the file that settled it. A final file from before the cleanup, or without one, is refused as such; and the archive
   never holds anything else under the file's key.
   */
  lemma ImportGoesThroughExactlyWhen(w: World, x: Sys, a: Action)
    requires Inv(w, x) && a.Import?
    ensures var (answer, rec) := (Import1(w, x.s, a).1, RecordOf(x.s.rows, a.id));
            var due := rec.Some? && Matches(w, a.id, a.file) && rec.value.settled.None?;
            && (answer.Imported? || answer.Died? <==>
                  due && (w.parse(a.file).value.status == Ambiguous || AfterCleanup(w, a.id, a.file)))
            && (answer.Died? ==> a.dies) && (answer.Imported? ==> !a.dies)
            && (answer.Imported? ==>
                  if w.parse(a.file).value.final then
                    answer.settled.Some? && FinalValue(w.parse(a.file).value, answer.settled.value)
                  else answer.settled.None?)
            && (answer == RefusedImport(NotCleanedUp) <==>
                  due && w.parse(a.file).value.final && w.descriptors[a.id].cleanedAt.None?)
            && (answer == RefusedImport(TooEarly) <==>
                  due && w.parse(a.file).value.final && w.descriptors[a.id].cleanedAt.Some?
                  && w.parse(a.file).value.observedAt < w.descriptors[a.id].cleanedAt.value)
            && answer != RefusedImport(ArchiveConflict)
            && (answer.AlreadyApplied? <==>
                  && rec.Some? && Matches(w, a.id, a.file) && rec.value.settled.Some?
                  && rec.value.seen.Some? && rec.value.seen.value.evidence.file == a.file)
            && (answer.AlreadyApplied? ==> rec.value.settled == Some(answer.usd))
  {
    if Gate(x.s.rows, w.runId, a.id, a.file, w.parse(a.file), DescriptorOf(w, a.id)).None? {
      var (doc, key) := (w.parse(a.file).value, (a.id, a.file));
      assert key in x.s.archive ==> x.s.archive[key].evidence.file == a.file && x.s.archive[key].doc == doc;
      var evidence := if key in x.s.archive then x.s.archive[key].evidence else Evidence(a.file, a.actor, a.reason);
      ReconcileSettlesOnlyOnProof(x.s.rows, a.id, OutcomeFor(doc, evidence));
    }
  }

  lemma ImportedKeepsInv(w: World, x: Sys, a: Action, x': Sys)
    requires Inv(w, x) && a.Import? && StepAction(w, x, a, x') && Import1(w, x.s, a).1.Imported?
    ensures Inv(w, x') && Lasting(x, x')
  {
    assert a.id in x.settledBy ==> SettledRightly(w, x, a.id);
    ImportShape(w, x, a);
    var row := x'.s.rows[|x.s.rows|];
    RecordAfter(x.s.rows, row, a.id);
    assert RecordOrdinary(x, a.id);
    forall id | id in x'.settledBy ensures SettledRightly(w, x', id) {
      if id != a.id {
        assert SettledRightly(w, x, id);
        RecordAfter(x.s.rows, row, id);
      }
    }
    forall id ensures RecordOrdinary(x', id) {
      assert RecordOrdinary(x, id);
      RecordAfter(x.s.rows, row, id);
    }
  }

  lemma ImportKeepsInv(w: World, x: Sys, a: Action, x': Sys)
    requires Inv(w, x) && a.Import? && StepAction(w, x, a, x')
    ensures Inv(w, x') && Lasting(x, x')
  {
    if Import1(w, x.s, a).1.Imported? {
      ImportedKeepsInv(w, x, a, x');
    } else {
      ImportShape(w, x, a);
      forall id | id in x'.settledBy ensures SettledRightly(w, x', id) { assert SettledRightly(w, x, id); }
      forall id ensures RecordOrdinary(x', id) { assert RecordOrdinary(x, id); }
    }
  }

  lemma StepKeepsInv(w: World, x: Sys, x': Sys)
    requires Inv(w, x) && Next(w, x, x')
    ensures Inv(w, x') && Lasting(x, x')
  {
    var a :| StepAction(w, x, a, x');
    if a.Import? { ImportKeepsInv(w, x, a, x'); }
    else if a.StageEnds? { StageEndKeepsInv(w, x, x'); }
    else { AgentKeepsInv(w, x, a, x'); }
  }

  ghost predicate IsRun(w: World, run: seq<Sys>) { Runs.IsRun(Init, (x, y) => Next(w, x, y), run) }

  lemma RunFacts(w: World, run: seq<Sys>, i: nat, j: nat)
    requires IsRun(w, run) && i <= j < |run|
    ensures Inv(w, run[i]) && Inv(w, run[j]) && Lasting(run[i], run[j])
  {
    var next := (x, y) => Next(w, x, y);
    var inv := x => Inv(w, x);
    forall x, y | inv(x) && next(x, y) ensures inv(y) && Lasting(x, y) { StepKeepsInv(w, x, y); }
    Runs.InvariantHolds(Init, next, inv, run, i);
    Runs.InvariantHolds(Init, next, inv, run, j);
    Runs.StepsCompose(Init, next, inv, Lasting, run, i, j);
  }

  /**
   A call settles by import at most once: in any order of imports, repeats and crashes, once an import has settled
   a call the ledger shows that file's final value at every later moment, under the name of whoever imported the file
   first; importing the file again answers the same value, and importing any other file is refused.
   */
  lemma ImportSettlesOnce(w: World, run: seq<Sys>, i: nat, j: nat, id: string, a: Action)
    requires IsRun(w, run) && i <= j < |run| && id in run[i].settledBy
    requires a.Import? && a.id == id && run[j].live == {}
    ensures var (file, usd) := run[i].settledBy[id];
            && w.parse(file).Some? && FinalValue(w.parse(file).value, usd)
            && RecordOf(run[j].s.rows, id).Some? && RecordOf(run[j].s.rows, id).value.settled == Some(usd)
            && RecordOf(run[j].s.rows, id).value.seen.Some?
            && (id, file) in run[i].s.archive
            && RecordOf(run[j].s.rows, id).value.seen.value.evidence == run[i].s.archive[(id, file)].evidence
            && Import1(w, run[j].s, a).0 == run[j].s
            && (a.file == file ==> Import1(w, run[j].s, a).1 == AlreadyApplied(usd))
            && (a.file != file ==> Import1(w, run[j].s, a).1.RefusedImport?)
  {
    RunFacts(w, run, i, j);
    assert SettledRightly(w, run[i], id);
    ReplayAnswers(w, run[j], a);
  }

  lemma ReplayAnswers(w: World, x: Sys, a: Action)
    requires Inv(w, x) && a.Import? && a.id in x.settledBy
    ensures var (file, usd) := x.settledBy[a.id];
            && RecordOf(x.s.rows, a.id).Some? && RecordOf(x.s.rows, a.id).value.settled == Some(usd)
            && RecordOf(x.s.rows, a.id).value.seen.Some?
            && (a.id, file) in x.s.archive
            && RecordOf(x.s.rows, a.id).value.seen.value.evidence == x.s.archive[(a.id, file)].evidence
            && Import1(w, x.s, a).0 == x.s
            && (a.file == file ==> Import1(w, x.s, a).1 == AlreadyApplied(usd))
            && (a.file != file ==> Import1(w, x.s, a).1.RefusedImport?)
  {
    assert SettledRightly(w, x, a.id);
    var file := x.settledBy[a.id].0;
    assert x.s.archive[(a.id, file)].evidence.file == file;
  }

  /** A crash between archive and ledger loses nothing: repeating the import settles with the archived evidence. */
  lemma RepeatedImportCompletes(w: World, x: Sys, a: Action)
    requires Inv(w, x) && a.Import? && x.live == {} && a.dies && Import1(w, x.s, a).1 == Died
    ensures var x' := x.(s := Import1(w, x.s, a).0);
            forall actor, reason :: var again := Import(a.id, a.file, actor, reason, false);
              && Import1(w, x'.s, again).1.Imported?
              && (w.parse(a.file).value.final ==> Import1(w, x'.s, again).1.settled.Some?)
              && Import1(w, x'.s, again).0.archive == x'.s.archive
  {
  }
}
