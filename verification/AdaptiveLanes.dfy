/**
 Measuring the lanes of a population: tasks are grouped by lane, receipts are counted, and how alike the answers are is
 computed from their signatures. What is counted is always consistent, so every report with a manifest gets a decision.
 */
module AdaptiveLanes {
  import opened Prelude
  import Products
  import Seqs
  import opened AdaptiveBudget

  datatype Task = Task(id: string, lane: nat, role: Role, tier: Tier, verification: bool)

  datatype Receipt = Receipt(taskId: string, answered: bool, candidate: Option<string>, evidence: Option<string>,
                             signature: set<string>)

  datatype Refusal = InconsistentLane

  // ---- how alike the answers are ----

  function Similarity(a: set<string>, b: set<string>): real {
    if a == {} && b == {} then 1.0
    else if a == {} || b == {} then 0.0
    else |a * b| as real / |a + b| as real
  }

  lemma SimilarityIsFraction(a: set<string>, b: set<string>)
    ensures 0.0 <= Similarity(a, b) <= 1.0 && Similarity(a, b) == Similarity(b, a)
  {
    assert a * b == b * a && a + b == b + a;
    if a != {} && b != {} {
      Seqs.SubsetSize(a * b, a + b);
      Seqs.SubsetSize(a, a + b);
      OverKeepsOrder(0.0, |a * b| as real, |a + b| as real);
      OverKeepsOrder(|a * b| as real, |a + b| as real, |a + b| as real);
    }
  }

  lemma Quotients(n: nat, d: nat)
    requires 0 < d
    ensures n as real / d as real == 1.0 <==> n == d
    ensures n as real / d as real == 0.0 <==> n == 0
  {
    var q := n as real / d as real;
    assert q * d as real == n as real;
  }

  /** Signatures are fully alike exactly when they are equal, and not at all exactly when they share nothing. */
  lemma SimilarityEnds(a: set<string>, b: set<string>)
    ensures Similarity(a, b) == 1.0 <==> a == b
    ensures Similarity(a, b) == 0.0 <==> a != b && a !! b
  {
    if a != {} && b != {} {
      Seqs.SubsetSize(a, a + b);
      Quotients(|a * b|, |a + b|);
      if a * b < a + b { Seqs.ProperSubsetSize(a * b, a + b); }
      if a * b == a + b { assert forall x :: x in a <==> x in b; }
      assert a * b == {} <==> a !! b;
    }
  }

  /** The similarities of one set with each of the others, summed. */
  function RowSum(left: set<string>, rights: seq<set<string>>): real {
    if rights == [] then 0.0 else RowSum(left, rights[..|rights| - 1]) + Similarity(left, rights[|rights| - 1])
  }

  function PairSum(sets: seq<set<string>>): real {
    if sets == [] then 0.0 else RowSum(sets[0], sets[1..]) + PairSum(sets[1..])
  }

  function PairCount(n: nat): nat { if n == 0 then 0 else n - 1 + PairCount(n - 1) }

  function MeanCorrelation(sets: seq<set<string>>): real {
    if |sets| < 2 then 0.0 else PairSum(sets) / PairCount(|sets|) as real
  }

  lemma {:induction false} RowSumBounds(left: set<string>, rights: seq<set<string>>)
    ensures 0.0 <= RowSum(left, rights) <= |rights| as real
  {
    if rights != [] {
      RowSumBounds(left, rights[..|rights| - 1]);
      SimilarityIsFraction(left, rights[|rights| - 1]);
    }
  }

  lemma {:induction false} PairSumBounds(sets: seq<set<string>>)
    ensures 0.0 <= PairSum(sets) <= PairCount(|sets|) as real
    ensures |sets| >= 2 ==> PairCount(|sets|) >= 1
  {
    if sets != [] {
      RowSumBounds(sets[0], sets[1..]);
      PairSumBounds(sets[1..]);
    }
  }

  lemma MeanIsFraction(sets: seq<set<string>>)
    ensures 0.0 <= MeanCorrelation(sets) <= 1.0
  {
    if |sets| >= 2 {
      PairSumBounds(sets);
      OverKeepsOrder(0.0, PairSum(sets), PairCount(|sets|) as real);
      OverKeepsOrder(PairSum(sets), PairCount(|sets|) as real, PairCount(|sets|) as real);
    }
  }

  /** The two loops over all pairs. */
  method MeanPairwise(sets: seq<set<string>>) returns (mean: real)
    ensures mean == MeanCorrelation(sets)
  {
    if |sets| < 2 { return 0.0; }
    var total, count := 0.0, 0;
    for i := 0 to |sets|
      invariant total + PairSum(sets[i..]) == PairSum(sets)
      invariant count + PairCount(|sets| - i) == PairCount(|sets|)
    {
      var rights := sets[i + 1..];
      var row := 0.0;
      for j := 0 to |rights|
        invariant row == RowSum(sets[i], rights[..j])
      {
        assert rights[..j + 1][..j] == rights[..j];
        row := row + Similarity(sets[i], rights[j]);
      }
      assert rights[..|rights|] == rights && sets[i..][1..] == rights;
      total := total + row;
      count := count + |rights|;
    }
    PairSumBounds(sets);
    mean := total / count as real;
  }

  lemma PartOf(k: real, fraction: real)
    requires k >= 0.0 && 0.0 <= fraction <= 1.0
    ensures 0.0 <= k * fraction <= k
  {
    Products.TimesKeepsOrder(0.0, fraction, k);
    Products.TimesKeepsOrder(0.0, 1.0 - fraction, k);
    assert k * (1.0 - fraction) == k - k * fraction;
  }

  /** How many independent answers n answers of this mean correlation are worth. */
  function Discounted(n: nat, mean: real): real
    requires n >= 1 && 0.0 <= mean <= 1.0
  {
    DiscountBounds(n as real - 1.0, mean);
    Quotient(n as real, Discount(n as real - 1.0, mean))
  }

  function EffectiveSearch(sets: seq<set<string>>): real {
    if sets == [] then 0.0
    else if |sets| == 1 then 1.0
    else
      MeanIsFraction(sets);
      Discounted(|sets|, MeanCorrelation(sets))
  }

  predicate AllAlike(sets: seq<set<string>>) { forall i, j :: 0 <= i < j < |sets| ==> sets[i] == sets[j] }

  predicate AllApart(sets: seq<set<string>>) { forall i, j :: 0 <= i < j < |sets| ==> sets[i] != sets[j] && sets[i] !! sets[j] }

  lemma {:induction false} RowSumEnds(left: set<string>, rights: seq<set<string>>)
    ensures (forall i :: 0 <= i < |rights| ==> rights[i] == left) ==> RowSum(left, rights) == |rights| as real
    ensures (forall i :: 0 <= i < |rights| ==> left != rights[i] && left !! rights[i]) ==> RowSum(left, rights) == 0.0
  {
    if rights != [] {
      var front := rights[..|rights| - 1];
      RowSumEnds(left, front);
      SimilarityEnds(left, rights[|rights| - 1]);
      assert forall i :: 0 <= i < |front| ==> front[i] == rights[i];
    }
  }

  lemma {:induction false} PairSumEnds(sets: seq<set<string>>)
    ensures AllAlike(sets) ==> PairSum(sets) == PairCount(|sets|) as real
    ensures AllApart(sets) ==> PairSum(sets) == 0.0
  {
    if sets != [] {
      RowSumEnds(sets[0], sets[1..]);
      PairSumEnds(sets[1..]);
    }
  }

  lemma MeanEnds(sets: seq<set<string>>)
    requires |sets| >= 2
    ensures AllAlike(sets) ==> MeanCorrelation(sets) == 1.0
    ensures AllApart(sets) ==> MeanCorrelation(sets) == 0.0
  {
    PairSumEnds(sets);
    PairSumBounds(sets);
    Quotients(PairCount(|sets|), PairCount(|sets|));
  }

  lemma DiscountedEnds(n: nat)
    requires n >= 1
    ensures Discounted(n, 1.0) == 1.0 && Discounted(n, 0.0) == n as real
  {
    Quotients(n, n);
  }

  /** Answers that are all alike are worth one, however many; answers that share nothing are worth their number. */
  lemma AlikeAnswersCountOnce(sets: seq<set<string>>)
    requires sets != []
    ensures AllAlike(sets) ==> EffectiveSearch(sets) == 1.0
    ensures AllApart(sets) ==> EffectiveSearch(sets) == |sets| as real
  {
    if |sets| >= 2 {
      MeanIsFraction(sets);
      MeanEnds(sets);
      DiscountedEnds(|sets|);
    }
  }

  lemma {:induction false} PairsTwice(n: nat)
    ensures 2.0 * PairCount(n) as real == n as real * (n as real - 1.0)
  {
    if n > 0 {
      var m := n as real - 1.0;
      PairsTwice(n - 1);
      assert (m + 1.0) * m == 2.0 * m + m * (m - 1.0);
    }
  }

  lemma DiscountedTimes(n: nat, mean: real)
    requires n >= 1 && 0.0 <= mean <= 1.0
    ensures Discounted(n, mean) * Discount(n as real - 1.0, mean) == n as real
  {
    DiscountBounds(n as real - 1.0, mean);
  }

  /** n times the discount is the sum of the whole similarity matrix: n on its diagonal, and each pair twice. */
  lemma DiscountIsTheMatrix(n: real, pairs: real, sum: real, mean: real)
    requires 2.0 * pairs == n * (n - 1.0) && mean * pairs == sum
    ensures n * Discount(n - 1.0, mean) == n + 2.0 * sum
  {
    calc {
      n * Discount(n - 1.0, mean);
      n + n * ((n - 1.0) * mean);
      n + (n * (n - 1.0)) * mean;
      n + (2.0 * pairs) * mean;
      n + 2.0 * sum;
    }
  }

  lemma SquareOver(worth: real, discount: real, n: real, matrix: real)
    requires worth * discount == n && n * discount == matrix
    ensures worth * matrix == n * n
  {
    assert worth * (n * discount) == (worth * discount) * n;
  }

  lemma OverTimes(a: real, d: real)
    requires d != 0.0
    ensures a / d * d == a
  {
  }

  lemma {:induction false} MeanTimesPairs(sets: seq<set<string>>, sum: real, pairs: real)
    requires |sets| >= 2 && sum == PairSum(sets) && pairs == PairCount(|sets|) as real
    ensures MeanCorrelation(sets) * pairs == sum
  {
    PairSumBounds(sets);
    assert MeanCorrelation(sets) == sum / pairs;
    OverTimes(sum, pairs);
  }

  lemma DiscountedIsTheRatio(n: nat, mean: real, pairs: real, sum: real)
    requires n >= 1 && 0.0 <= mean <= 1.0
    requires 2.0 * pairs == n as real * (n as real - 1.0) && mean * pairs == sum
    ensures Discounted(n, mean) * (n as real + 2.0 * sum) == n as real * n as real
  {
    DiscountIsTheMatrix(n as real, pairs, sum, mean);
    DiscountedTimes(n, mean);
    SquareOver(Discounted(n, mean), Discount(n as real - 1.0, mean), n as real, n as real + 2.0 * sum);
  }

  lemma {:induction false} ManyAreWorthTheRatio(sets: seq<set<string>>, n: nat, sum: real)
    requires |sets| == n >= 2 && sum == PairSum(sets)
    ensures EffectiveSearch(sets) * (n as real + 2.0 * sum) == n as real * n as real
  {
    MeanIsFraction(sets);
    MeanTimesPairs(sets, sum, PairCount(n) as real);
    PairsTwice(n);
    DiscountedIsTheRatio(n, MeanCorrelation(sets), PairCount(n) as real, sum);
  }

  /** What answers are worth together is the square of their number over the sum of all their similarities, where each is
      compared with each, itself included. */
  lemma {:induction false} WorthIsTheParticipationRatio(sets: seq<set<string>>)
    requires sets != []
    ensures EffectiveSearch(sets) * (|sets| as real + 2.0 * PairSum(sets)) == |sets| as real * |sets| as real
  {
    if |sets| == 1 {
      assert PairSum(sets) == RowSum(sets[0], sets[1..]) + PairSum(sets[1..]);
    } else {
      ManyAreWorthTheRatio(sets, |sets|, PairSum(sets));
    }
  }

  /** The more the answers correlate, the less they are worth together. */
  lemma WorthFallsWithCorrelation(n: nat, mean: real, more: real)
    requires n >= 1 && 0.0 <= mean <= more <= 1.0
    ensures Discounted(n, more) <= Discounted(n, mean)
  {
    DiscountBounds(n as real - 1.0, mean);
    DiscountBounds(n as real - 1.0, more);
    Products.TimesKeepsOrder(mean, more, n as real - 1.0);
    OverMore(n as real, Discount(n as real - 1.0, mean), Discount(n as real - 1.0, more));
  }

  /** Some answers are worth at least one independent answer and at most their number. */
  lemma EffectiveSearchBounds(sets: seq<set<string>>)
    requires sets != []
    ensures 1.0 <= EffectiveSearch(sets) <= |sets| as real
  {
    if |sets| >= 2 {
      MeanIsFraction(sets);
      DiscountedBounds(|sets|, MeanCorrelation(sets));
    }
  }

  lemma DiscountedBounds(n: nat, mean: real)
    requires n >= 1 && 0.0 <= mean <= 1.0
    ensures 1.0 <= Discounted(n, mean) <= n as real
  {
    DiscountBounds(n as real - 1.0, mean);
    QuotientBounds(n as real, Discount(n as real - 1.0, mean));
  }

  function Discount(others: real, mean: real): real { 1.0 + others * mean }

  lemma DiscountBounds(others: real, mean: real)
    requires others >= 0.0 && 0.0 <= mean <= 1.0
    ensures 1.0 <= Discount(others, mean) <= 1.0 + others
  {
    PartOf(others, mean);
  }

  function Quotient(a: real, d: real): real
    requires d > 0.0
  {
    a / d
  }

  lemma QuotientBounds(a: real, d: real)
    requires 1.0 <= d <= a
    ensures 1.0 <= Quotient(a, d) <= a
  {
    var q := a / d;
    assert q * d == a;
    assert q < 1.0 ==> q * d < d;
    assert q >= 0.0 && q * d >= q;
  }

  // ---- counting one lane ----

  function LaneReceipts(tasks: seq<Task>, receipts: map<string, Receipt>): (r: seq<Receipt>)
    ensures |r| <= |tasks|
  {
    if tasks == [] then []
    else
      var rest := LaneReceipts(tasks[..|tasks| - 1], receipts);
      var id := tasks[|tasks| - 1].id;
      if id in receipts then rest + [receipts[id]] else rest
  }

  function AnsweredOf(receipts: seq<Receipt>): (r: seq<Receipt>)
    ensures |r| <= |receipts|
  {
    if receipts == [] then []
    else
      var rest := AnsweredOf(receipts[..|receipts| - 1]);
      if receipts[|receipts| - 1].answered then rest + [receipts[|receipts| - 1]] else rest
  }

  function Candidates(answered: seq<Receipt>): set<string> {
    set i | 0 <= i < |answered| && answered[i].candidate.Some? :: answered[i].candidate.value
  }

  lemma {:induction false} CandidatesAreFew(answered: seq<Receipt>)
    ensures |Candidates(answered)| <= |answered|
  {
    if answered != [] {
      var front, last := answered[..|answered| - 1], answered[|answered| - 1];
      CandidatesAreFew(front);
      var one := if last.candidate.Some? then {last.candidate.value} else {};
      assert Candidates(answered) <= Candidates(front) + one;
      Seqs.SubsetSize(Candidates(answered), Candidates(front) + one);
    }
  }

  function EvidenceCount(answered: seq<Receipt>): (n: nat)
    ensures n <= |answered|
  {
    if answered == [] then 0
    else EvidenceCount(answered[..|answered| - 1]) + if answered[|answered| - 1].evidence.Some? then 1 else 0
  }

  predicate Verifies(tasks: seq<Task>) { exists i :: 0 <= i < |tasks| && tasks[i].verification }

  function Signatures(answered: seq<Receipt>): seq<set<string>> {
    seq(|answered|, i requires 0 <= i < |answered| => answered[i].signature)
  }

  function MeasureOf(lane: nat, tasks: seq<Task>, receipts: map<string, Receipt>): Measured
    requires tasks != []
  {
    var seen := LaneReceipts(tasks, receipts);
    var answered := AnsweredOf(seen);
    Measured(lane, tasks[0].role, tasks[0].tier, Verifies(tasks), |tasks|, |seen|, |answered|, |Candidates(answered)|,
             EvidenceCount(answered), MeanCorrelation(Signatures(answered)))
  }

  /** Whatever tasks and receipts there are, the counts of a lane fit together. */
  lemma MeasuringIsConsistent(lane: nat, tasks: seq<Task>, receipts: map<string, Receipt>)
    requires tasks != []
    ensures MeasureOf(lane, tasks, receipts).Consistent() && MeasureOf(lane, tasks, receipts).index == lane
  {
    var answered := AnsweredOf(LaneReceipts(tasks, receipts));
    CandidatesAreFew(answered);
    MeanIsFraction(Signatures(answered));
  }

  predicate HasReceipt(tasks: seq<Task>, receipts: map<string, Receipt>, i: nat)
    requires i < |tasks|
  {
    tasks[i].id in receipts
  }

  predicate HasAnswer(tasks: seq<Task>, receipts: map<string, Receipt>, i: nat)
    requires i < |tasks|
  {
    tasks[i].id in receipts && receipts[tasks[i].id].answered
  }

  /** The receipts of the answered tasks, in the tasks' order. */
  function AnswersOf(tasks: seq<Task>, receipts: map<string, Receipt>): seq<Receipt> {
    if tasks == [] then []
    else
      var rest := AnswersOf(tasks[..|tasks| - 1], receipts);
      if HasAnswer(tasks, receipts, |tasks| - 1) then rest + [receipts[tasks[|tasks| - 1].id]] else rest
  }

  lemma {:induction false} AnsweredAreTheAnswers(tasks: seq<Task>, receipts: map<string, Receipt>)
    ensures AnsweredOf(LaneReceipts(tasks, receipts)) == AnswersOf(tasks, receipts)
  {
    if tasks != [] {
      var front, last := tasks[..|tasks| - 1], tasks[|tasks| - 1];
      AnsweredAreTheAnswers(front, receipts);
      if last.id in receipts {
        var rest := LaneReceipts(front, receipts);
        assert (rest + [receipts[last.id]])[..|rest|] == rest;
      }
    }
  }

  lemma {:induction false} ReceiptsCounted(tasks: seq<Task>, receipts: map<string, Receipt>)
    ensures |LaneReceipts(tasks, receipts)| == |set i: nat | i < |tasks| && HasReceipt(tasks, receipts, i)|
  {
    if tasks != [] {
      var n, front := |tasks| - 1, tasks[..|tasks| - 1];
      ReceiptsCounted(front, receipts);
      var had := set i: nat | i < |front| && HasReceipt(front, receipts, i);
      var all := set i: nat | i < |tasks| && HasReceipt(tasks, receipts, i);
      assert forall i: nat :: i < n ==> (i in had <==> i in all);
      assert all == had + if HasReceipt(tasks, receipts, n) then {n} else {};
    }
  }

  lemma {:induction false} AnswersCounted(tasks: seq<Task>, receipts: map<string, Receipt>)
    ensures |AnswersOf(tasks, receipts)| == |set i: nat | i < |tasks| && HasAnswer(tasks, receipts, i)|
  {
    if tasks != [] {
      var n, front := |tasks| - 1, tasks[..|tasks| - 1];
      AnswersCounted(front, receipts);
      var had := set i: nat | i < |front| && HasAnswer(front, receipts, i);
      var all := set i: nat | i < |tasks| && HasAnswer(tasks, receipts, i);
      assert forall i: nat :: i < n ==> (i in had <==> i in all);
      assert all == had + if HasAnswer(tasks, receipts, n) then {n} else {};
    }
  }

  predicate HasEvidence(tasks: seq<Task>, receipts: map<string, Receipt>, i: nat)
    requires i < |tasks|
  {
    HasAnswer(tasks, receipts, i) && receipts[tasks[i].id].evidence.Some?
  }

  lemma {:induction false} EvidenceCounted(tasks: seq<Task>, receipts: map<string, Receipt>)
    ensures EvidenceCount(AnswersOf(tasks, receipts)) == |set i: nat | i < |tasks| && HasEvidence(tasks, receipts, i)|
  {
    if tasks != [] {
      var n, front := |tasks| - 1, tasks[..|tasks| - 1];
      EvidenceCounted(front, receipts);
      var had := set i: nat | i < |front| && HasEvidence(front, receipts, i);
      var all := set i: nat | i < |tasks| && HasEvidence(tasks, receipts, i);
      assert forall i: nat :: i < n ==> (i in had <==> i in all);
      assert all == had + if HasEvidence(tasks, receipts, n) then {n} else {};
      var rest := AnswersOf(front, receipts);
      if HasAnswer(tasks, receipts, n) { assert (rest + [receipts[tasks[n].id]])[..|rest|] == rest; }
    }
  }

  predicate Proposes(tasks: seq<Task>, receipts: map<string, Receipt>, i: nat, candidate: string)
    requires i < |tasks|
  {
    HasAnswer(tasks, receipts, i) && receipts[tasks[i].id].candidate == Some(candidate)
  }

  lemma {:induction false} AnswersAreTheTasks(tasks: seq<Task>, receipts: map<string, Receipt>, r: Receipt)
    ensures r in AnswersOf(tasks, receipts) <==>
              exists i :: 0 <= i < |tasks| && HasAnswer(tasks, receipts, i) && receipts[tasks[i].id] == r
  {
    if tasks != [] {
      var n, front := |tasks| - 1, tasks[..|tasks| - 1];
      AnswersAreTheTasks(front, receipts, r);
      if i :| 0 <= i < n && HasAnswer(tasks, receipts, i) && receipts[tasks[i].id] == r {
        assert HasAnswer(front, receipts, i) && front[i] == tasks[i];
      }
      if i :| 0 <= i < n && HasAnswer(front, receipts, i) && receipts[front[i].id] == r {
        assert HasAnswer(tasks, receipts, i) && front[i] == tasks[i];
      }
    }
  }

  lemma CandidatesAreTheProposals(tasks: seq<Task>, receipts: map<string, Receipt>, candidate: string)
    ensures candidate in Candidates(AnswersOf(tasks, receipts)) <==>
              exists i :: 0 <= i < |tasks| && Proposes(tasks, receipts, i, candidate)
  {
    var answers := AnswersOf(tasks, receipts);
    if candidate in Candidates(answers) {
      var k :| 0 <= k < |answers| && answers[k].candidate == Some(candidate);
      AnswersAreTheTasks(tasks, receipts, answers[k]);
      var i :| 0 <= i < |tasks| && HasAnswer(tasks, receipts, i) && receipts[tasks[i].id] == answers[k];
      assert Proposes(tasks, receipts, i, candidate);
    }
    if i :| 0 <= i < |tasks| && Proposes(tasks, receipts, i, candidate) {
      AnswersAreTheTasks(tasks, receipts, receipts[tasks[i].id]);
      var k :| 0 <= k < |answers| && answers[k] == receipts[tasks[i].id];
      assert answers[k].candidate.Some?;
    }
  }

  /**
   What a lane's counts are: its tasks, those with a receipt, those answered, those answered with evidence, the different
   candidates proposed, and whether any task verifies; and the correlation is that of the answered receipts.
   */
  lemma MeasureCounts(lane: nat, tasks: seq<Task>, receipts: map<string, Receipt>)
    requires tasks != []
    ensures var m := MeasureOf(lane, tasks, receipts);
            && m.index == lane && m.role == tasks[0].role && m.tier == tasks[0].tier && m.tasks == |tasks|
            && m.receipts == |set i: nat | i < |tasks| && HasReceipt(tasks, receipts, i)|
            && m.answered == |set i: nat | i < |tasks| && HasAnswer(tasks, receipts, i)|
            && m.evidence == |set i: nat | i < |tasks| && HasEvidence(tasks, receipts, i)|
            && (m.verifier <==> exists i :: 0 <= i < |tasks| && tasks[i].verification)
            && m.correlation == MeanCorrelation(Signatures(AnswersOf(tasks, receipts)))
            && exists candidates: set<string> ::
                 && m.unique == |candidates|
                 && forall c :: c in candidates <==> exists i :: 0 <= i < |tasks| && Proposes(tasks, receipts, i, c)
  {
    AnsweredAreTheAnswers(tasks, receipts);
    ReceiptsCounted(tasks, receipts);
    AnswersCounted(tasks, receipts);
    EvidenceCounted(tasks, receipts);
    var candidates := Candidates(AnswersOf(tasks, receipts));
    forall c ensures c in candidates <==> exists i :: 0 <= i < |tasks| && Proposes(tasks, receipts, i, c) {
      CandidatesAreTheProposals(tasks, receipts, c);
    }
  }

  predicate SameKind(tasks: seq<Task>) {
    forall i :: 0 <= i < |tasks| ==> tasks[i].role == tasks[0].role && tasks[i].tier == tasks[0].tier
  }

  // ---- all lanes ----

  function InLane(tasks: seq<Task>, lane: nat): seq<Task> {
    if tasks == [] then []
    else
      var rest := InLane(tasks[..|tasks| - 1], lane);
      if tasks[|tasks| - 1].lane == lane then rest + [tasks[|tasks| - 1]] else rest
  }

  /** The tasks of each lane, in the manifest's order. */
  method GroupByLane(tasks: seq<Task>) returns (grouped: map<nat, seq<Task>>)
    ensures forall lane :: lane in grouped <==> InLane(tasks, lane) != []
    ensures forall lane :: lane in grouped ==> grouped[lane] == InLane(tasks, lane)
  {
    grouped := map[];
    for i := 0 to |tasks|
      invariant forall lane :: lane in grouped <==> InLane(tasks[..i], lane) != []
      invariant forall lane :: lane in grouped ==> grouped[lane] == InLane(tasks[..i], lane)
    {
      var task := tasks[i];
      assert tasks[..i + 1][..i] == tasks[..i];
      grouped := grouped[task.lane := (if task.lane in grouped then grouped[task.lane] else []) + [task]];
    }
    assert tasks[..|tasks|] == tasks;
  }

  lemma {:induction false} LeastExists(keys: set<nat>) returns (least: nat)
    requires keys != {}
    ensures least in keys && forall k :: k in keys ==> least <= k
  {
    var x :| x in keys;
    if keys == {x} {
      least := x;
    } else {
      assert keys - {x} != {};
      var rest := LeastExists(keys - {x});
      least := if x <= rest then x else rest;
      forall k | k in keys ensures least <= k {
        if k != x { assert k in keys - {x}; }
      }
    }
  }

  method LeastOf(keys: set<nat>) returns (lane: nat)
    requires keys != {}
    ensures lane in keys && forall k :: k in keys ==> lane <= k
  {
    ghost var least := LeastExists(keys);
    lane :| lane in keys && forall k :: k in keys ==> lane <= k;
  }

  /** Lanes in ascending order, each measured from the tasks that carry its number. */
  ghost predicate MeasuresAll(tasks: seq<Task>, receipts: map<string, Receipt>, measured: seq<Measured>) {
    && (forall i :: 0 <= i < |measured| ==> MeasuresLane(tasks, receipts, measured[i]))
    && (forall i, j :: 0 <= i < j < |measured| ==> measured[i].index < measured[j].index)
  }

  ghost predicate MeasuresLane(tasks: seq<Task>, receipts: map<string, Receipt>, m: Measured) {
    && InLane(tasks, m.index) != [] && SameKind(InLane(tasks, m.index))
    && m == MeasureOf(m.index, InLane(tasks, m.index), receipts)
  }

  /** The tasks of the lane, if it has any, agree on role and tier. */
  predicate Uniform(tasks: seq<Task>, lane: nat) { InLane(tasks, lane) != [] ==> SameKind(InLane(tasks, lane)) }

  lemma OneMoreLane(tasks: seq<Task>, receipts: map<string, Receipt>, measured: seq<Measured>, lane: nat)
    requires MeasuresAll(tasks, receipts, measured) && InLane(tasks, lane) != [] && Uniform(tasks, lane)
    requires AllBelow(measured, lane)
    ensures MeasuresAll(tasks, receipts, measured + [MeasureOf(lane, InLane(tasks, lane), receipts)])
    ensures var more := measured + [MeasureOf(lane, InLane(tasks, lane), receipts)];
            && Covers(more, lane) && (forall l :: Covers(measured, l) ==> Covers(more, l))
            && (forall k :: AllBelow(measured, k) && lane < k ==> AllBelow(more, k))
  {
    var more := measured + [MeasureOf(lane, InLane(tasks, lane), receipts)];
    assert more[|measured|].index == lane;
    forall l | Covers(measured, l) ensures Covers(more, l) {
      var i :| 0 <= i < |measured| && measured[i].index == l;
      assert more[i].index == l;
    }
  }

  predicate AllBelow(measured: seq<Measured>, lane: nat) { forall i :: 0 <= i < |measured| ==> measured[i].index < lane }

  predicate Covers(measured: seq<Measured>, lane: nat) { exists i :: 0 <= i < |measured| && measured[i].index == lane }

  /** The loop over the sorted lanes; a lane whose tasks differ in role or tier refuses the whole report. */
  method MeasureLanes(tasks: seq<Task>, receipts: map<string, Receipt>) returns (r: Result<seq<Measured>, Refusal>)
    ensures r.Ok? <==> forall lane :: Uniform(tasks, lane)
    ensures r.Ok? ==> MeasuresAll(tasks, receipts, r.value)
    ensures r.Ok? ==> forall lane :: InLane(tasks, lane) != [] ==> Covers(r.value, lane)
  {
    var grouped := GroupByLane(tasks);
    var keys := grouped.Keys;
    var measured: seq<Measured> := [];
    while keys != {}
      invariant keys <= grouped.Keys && MeasuresAll(tasks, receipts, measured)
      invariant forall k :: k in keys ==> AllBelow(measured, k)
      invariant forall lane :: lane in grouped && lane !in keys ==> Covers(measured, lane) && Uniform(tasks, lane)
      decreases |keys|
    {
      var lane := LeastOf(keys);
      if !SameKind(grouped[lane]) {
        assert !Uniform(tasks, lane);
        return Err(InconsistentLane);
      }
      OneMoreLane(tasks, receipts, measured, lane);
      measured := measured + [MeasureOf(lane, grouped[lane], receipts)];
      keys := keys - {lane};
    }
    forall lane ensures Uniform(tasks, lane) {
      if InLane(tasks, lane) != [] { assert lane in grouped; }
    }
    r := Ok(measured);
  }

  /**
   The reducer with a manifest, from its tasks and receipts: unless some lane mixes roles or tiers there is a decision,
   it validates, and it has one lane for each lane of the manifest, none of them wider than its tasks.
   */
  method EvaluateManifest(base: Budget, tasks: seq<Task>, receipts: map<string, Receipt>, t: Telemetry, p: Policy,
                          cancelled: bool)
    returns (r: Result<Decision, Refusal>)
    requires base.Valid() && p.Valid()
    ensures r.Ok? <==> cancelled || forall lane :: Uniform(tasks, lane)
    ensures r.Ok? ==> r.value.Valid() && r.value.base == base
    ensures r.Ok? && !cancelled ==> forall i :: 0 <= i < |r.value.lanes| ==> LaneFits(tasks, r.value.lanes[i])
    ensures r.Ok? && !cancelled ==>
              forall lane :: InLane(tasks, lane) != [] ==> exists i :: 0 <= i < |r.value.lanes| && r.value.lanes[i].index == lane
  {
    var measured: seq<Measured> := [];
    if !cancelled {
      var lanes := MeasureLanes(tasks, receipts);
      if lanes.Err? { return Err(InconsistentLane); }
      measured := lanes.value;
    }
    forall i | 0 <= i < |measured| ensures measured[i].Consistent() {
      assert MeasuresLane(tasks, receipts, measured[i]);
      MeasuringIsConsistent(measured[i].index, InLane(tasks, measured[i].index), receipts);
    }
    var d := Evaluate(base, measured, t, p, cancelled);
    if !cancelled {
      forall i | 0 <= i < |d.lanes| ensures LaneFits(tasks, d.lanes[i]) {
        assert MeasuresLane(tasks, receipts, measured[i]) && d.lanes[i].Valid();
      }
      forall lane | InLane(tasks, lane) != [] ensures exists i :: 0 <= i < |d.lanes| && d.lanes[i].index == lane {
        assert Covers(measured, lane);
        var i :| 0 <= i < |measured| && measured[i].index == lane;
        assert d.lanes[i].index == lane;
      }
    }
    r := Ok(d);
  }

  predicate LaneFits(tasks: seq<Task>, lane: Lane) {
    lane.tasks == |InLane(tasks, lane.index)| && lane.recommended <= |InLane(tasks, lane.index)|
  }
}
