/**
 Workers sharing one inbox: claim, submit to the far side, then complete or fail, with a crash allowed between any
 two, leases that expire, redeliveries and operator retries, all interleaved.
 */
module DispatchRuns {
  import opened Prelude
  import opened Dispatch
  import Runs
  import Seqs

  /** What a worker has in hand. `Answered` follows a submission; `ok` says whether it saw the acceptance. */
  datatype Worker =
    | Free
    | Claimed(id: string, held: Delivery)
    | Answered(id: string, held: Delivery, ok: bool, retryable: bool)

  /** `issued` names the worker each token was drawn for; it, `claims`, `retries` and `submissions` record the past;
      `accepted` is the far side. */
  datatype Sys = Sys(
    rows: Table, workers: map<nat, Worker>, issued: map<nat, nat>, accepted: set<Sha256>,
    submissions: seq<(string, Sha256)>, claims: multiset<string>, retries: multiset<string>)

  datatype Limits = Limits(maxPending: nat, maxAttempts: nat)

  datatype Action =
    | Enqueue(id: string, event: string, body: string, repository: string, dagId: string, conf: string, now: real)
    | ClaimBy(w: nat, now: real, lease: real, token: nat, claimed: Option<string>)
    | Submit(w: nat, taken: bool, ok: bool, retryable: bool)
    | CompleteBy(w: nat, workOrder: Option<string>, admission: Option<string>, now: real)
    | FailBy(w: nat, error: string, retryAfter: real, seed: nat, now: real)
    | OperatorRetry(id: string, now: real)
    | Crash(w: nat)

  ghost predicate IntakeStep(lim: Limits, s: Sys, a: Action, s': Sys) {
    match a
    case Enqueue(id, event, body, repository, dagId, conf, now) =>
      s' == (match EnqueueTx(s.rows, lim.maxPending, id, event, body, repository, dagId, conf, now)
             case Ok((rows, _)) => s.(rows := rows)
             case Err(_) => s)
    case OperatorRetry(id, now) =>
      s' == (match RetryTx(s.rows, id, now)
             case Ok(rows) => s.(rows := rows, retries := s.retries + multiset{id})
             case Err(_) => s)
    case _ => false
  }

  ghost predicate ClaimStep(lim: Limits, s: Sys, a: Action, s': Sys)
    requires a.ClaimBy?
  {
    && a.token !in s.issued
    && ClaimTx(s.rows, a.now, a.lease, lim.maxAttempts, a.token, s'.rows, a.claimed)
    && s' == match a.claimed
             case None => s.(rows := s'.rows)
             case Some(id) =>
               if id in s'.rows
               then s.(rows := s'.rows, issued := s.issued[a.token := a.w], claims := s.claims + multiset{id},
                       workers := s.workers[a.w := Claimed(id, s'.rows[id])])
               else s.(rows := s'.rows)
  }

  /** The far side may take the run and its answer may still be lost; a positive answer means it took it. */
  ghost predicate WorkerStep(lim: Limits, s: Sys, a: Action, s': Sys) {
    match a
    case Submit(w, taken, ok, retryable) =>
      && w in s.workers && s.workers[w].Claimed? && (ok ==> taken)
      && var c := s.workers[w];
         s' == s.(workers := s.workers[w := Answered(c.id, c.held, ok, retryable)],
                  accepted := if taken then s.accepted + {c.held.runId} else s.accepted,
                  submissions := s.submissions + [(c.id, c.held.runId)])
    case CompleteBy(w, workOrder, admission, now) =>
      && w in s.workers && s.workers[w].Answered? && s.workers[w].ok
      && var c := s.workers[w];
         s' == s.(workers := s.workers[w := Free],
                  rows := CompleteTx(s.rows, c.id, c.held.token, workOrder, admission, now))
    case FailBy(w, error, retryAfter, seed, now) =>
      && w in s.workers && s.workers[w].Answered? && !s.workers[w].ok && 1 <= s.workers[w].held.attempts
      && var c := s.workers[w];
         s' == s.(workers := s.workers[w := Free],
                  rows := FailTx(s.rows, c.id, c.held.attempts, c.held.token, error, c.retryable, lim.maxAttempts,
                                 retryAfter, seed, now))
    case Crash(w) => s' == s.(workers := s.workers[w := Free])
    case _ => false
  }

  ghost predicate StepAction(lim: Limits, s: Sys, a: Action, s': Sys) {
    || IntakeStep(lim, s, a, s')
    || (a.ClaimBy? && ClaimStep(lim, s, a, s'))
    || WorkerStep(lim, s, a, s')
  }

  ghost predicate Init(s: Sys) { s == Sys.Sys(map[], map[], map[], {}, [], multiset{}, multiset{}) }

  ghost predicate Next(lim: Limits, s: Sys, s': Sys) { exists a :: StepAction(lim, s, a, s') }

  // ---- invariants ----

  /** `rounds` rounds of at most `n` claims each. */
  ghost function Allowance(n: nat, rounds: nat): nat { if rounds == 0 then 0 else n + Allowance(n, rounds - 1) }

  lemma {:induction false} AllowanceIsProduct(n: nat, rounds: nat)
    ensures Allowance(n, rounds) == n * rounds
  {
    if rounds > 0 { AllowanceIsProduct(n, rounds - 1); }
  }

  ghost predicate RowOk(lim: Limits, s: Sys, id: string)
    requires id in s.rows
  {
    var d := s.rows[id];
    && (d.token.Some? <==> d.state == Dispatching)
    && (d.token.Some? ==> d.token.value in s.issued && 1 <= d.attempts)
    && (d.state == Dispatched ==> d.runId in s.accepted)
    && d.attempts <= lim.maxAttempts
    && d.totalAttempts == s.claims[id]
    && d.totalAttempts <= Allowance(lim.maxAttempts, s.retries[id]) + d.attempts
  }

  ghost predicate RowsOk(lim: Limits, s: Sys) {
    && (forall id :: id in s.rows ==> RowOk(lim, s, id))
    && (forall id :: id !in s.rows ==> s.claims[id] == 0 && s.retries[id] == 0)
  }

  /** A worker's copy agrees with the row on everything a claim never changes, and with the attempt count as long as
      the row still carries the worker's token. */
  ghost predicate HandleOk(s: Sys, me: nat, w: Worker)
    requires !w.Free?
  {
    && w.id in s.rows
    && w.held.token.Some? && w.held.token.value in s.issued && s.issued[w.held.token.value] == me
    && 1 <= w.held.attempts
    && w.held.runId == s.rows[w.id].runId
    && (s.rows[w.id].token == w.held.token ==> s.rows[w.id].attempts == w.held.attempts)
    && (w.Answered? && w.ok ==> w.held.runId in s.accepted)
  }

  ghost predicate WorkersOk(s: Sys) {
    forall w :: w in s.workers && !s.workers[w].Free? ==> HandleOk(s, w, s.workers[w])
  }

  ghost predicate Named(rows: Table, id: string)
    requires id in rows
  {
    ValidId(id) && rows[id].runId == RunIdOf(rows[id].repository, id)
  }

  ghost predicate PastOk(lim: Limits, s: Sys) {
    && |Open(s.rows)| <= lim.maxPending
    && (forall id :: id in s.rows ==> Named(s.rows, id))
    && forall i :: 0 <= i < |s.submissions| ==>
         s.submissions[i].0 in s.rows && s.submissions[i].1 == s.rows[s.submissions[i].0].runId
  }

  ghost predicate Inv(lim: Limits, s: Sys) { RowsOk(lim, s) && WorkersOk(s) && PastOk(lim, s) }

  ghost predicate SameIdentity(d: Delivery, d': Delivery) {
    && d'.repository == d.repository && d'.event == d.event && d'.payload == d.payload
    && d'.dagId == d.dagId && d'.runId == d.runId && d'.conf == d.conf && d'.createdAt == d.createdAt
  }

  /** What no step ever undoes: identity, a finished handover, the record of the past, and the loss of a lease. */
  ghost predicate Lasting(s: Sys, s': Sys) {
    && (forall tok :: tok in s.issued ==> tok in s'.issued && s'.issued[tok] == s.issued[tok])
    && s.accepted <= s'.accepted && s.submissions <= s'.submissions
    && forall id :: id in s.rows ==>
         && id in s'.rows
         && SameIdentity(s.rows[id], s'.rows[id])
         && s.rows[id].totalAttempts <= s'.rows[id].totalAttempts
         && (s.rows[id].state == Dispatched ==> s'.rows[id] == s.rows[id])
         && (forall tok :: tok in s.issued && s.rows[id].token != Some(tok) ==> s'.rows[id].token != Some(tok))
         && (s.rows[id].token.Some? && s.rows[id].token.value in s.issued && s'.rows[id].token == s.rows[id].token
             ==> s'.rows[id].attempts == s.rows[id].attempts)
  }

  /** Changing one row, or the fields a claim sweep changes, leaves the set of open rows no larger. */
  lemma OpenShrinks(rows: Table, rows': Table, maxPending: nat)
    requires |Open(rows)| <= maxPending
    requires forall id :: id in rows' ==> id in rows && (rows[id].state == Dispatched ==> rows'[id].state == Dispatched)
    ensures |Open(rows')| <= maxPending
  {
    assert Open(rows') <= Open(rows);
    Seqs.SubsetSize(Open(rows'), Open(rows));
  }

  lemma LastingChains(s: Sys, t: Sys, u: Sys)
    requires Lasting(s, t) && Lasting(t, u)
    ensures Lasting(s, u)
  {
    forall id | id in s.rows && s.rows[id].token.Some? && s.rows[id].token.value in s.issued
                && u.rows[id].token == s.rows[id].token
      ensures u.rows[id].attempts == s.rows[id].attempts
    {
      assert t.rows[id].token == Some(s.rows[id].token.value);
    }
  }

  /** Workers that keep what they hold, or drop it, stay consistent across any lasting change of the table. */
  lemma WorkersFollow(s: Sys, s': Sys)
    requires WorkersOk(s) && Lasting(s, s')
    requires forall w :: w in s'.workers && !s'.workers[w].Free? ==>
               && w in s.workers && !s.workers[w].Free?
               && s'.workers[w].id == s.workers[w].id && s'.workers[w].held == s.workers[w].held
               && (s'.workers[w].Answered? && s'.workers[w].ok ==>
                     (s.workers[w].Answered? && s.workers[w].ok) || s.workers[w].held.runId in s'.accepted)
    ensures WorkersOk(s')
  {
    forall w | w in s'.workers && !s'.workers[w].Free? ensures HandleOk(s', w, s'.workers[w]) {
      assert HandleOk(s, w, s.workers[w]);
    }
  }

  lemma PastFollows(lim: Limits, s: Sys, s': Sys)
    requires PastOk(lim, s) && Lasting(s, s') && s'.rows.Keys == s.rows.Keys && s'.submissions == s.submissions
    ensures PastOk(lim, s')
  {
    OpenShrinks(s.rows, s'.rows, lim.maxPending);
    forall id | id in s'.rows ensures Named(s'.rows, id) { assert Named(s.rows, id); }
  }

  lemma EnqueuedRows(lim: Limits, s: Sys, id: string, d: Delivery, s': Sys)
    requires RowsOk(lim, s) && id !in s.rows && s' == s.(rows := s.rows[id := d])
    requires d.state == Pending && d.token == None && d.attempts == d.totalAttempts == 0
    ensures RowsOk(lim, s') && Lasting(s, s')
  {
    forall x | x in s'.rows && x != id ensures RowOk(lim, s', x) { assert RowOk(lim, s, x); }
  }

  lemma EnqueuedPast(lim: Limits, s: Sys, id: string, d: Delivery, s': Sys)
    requires PastOk(lim, s) && id !in s.rows && s' == s.(rows := s.rows[id := d])
    requires |Open(s.rows)| < lim.maxPending && Named(s'.rows, id)
    ensures PastOk(lim, s')
  {
    assert Open(s'.rows) <= Open(s.rows) + {id};
    Seqs.SubsetSize(Open(s'.rows), Open(s.rows) + {id});
    forall x | x in s'.rows && x != id ensures Named(s'.rows, x) { assert Named(s.rows, x); }
  }

  lemma EnqueueKeepsInv(lim: Limits, s: Sys, a: Action, s': Sys)
    requires Inv(lim, s) && a.Enqueue? && IntakeStep(lim, s, a, s')
    ensures Inv(lim, s') && Lasting(s, s')
  {
    if s' != s && a.id !in s.rows {
      EnqueuedRows(lim, s, a.id, s'.rows[a.id], s');
      EnqueuedPast(lim, s, a.id, s'.rows[a.id], s');
      WorkersFollow(s, s');
    }
  }

  lemma RetriedIsLasting(lim: Limits, s: Sys, id: string, now: real, s': Sys)
    requires RowsOk(lim, s) && RetryTx(s.rows, id, now).Ok?
    requires s' == s.(rows := RetryTx(s.rows, id, now).value, retries := s.retries + multiset{id})
    ensures Lasting(s, s')
  {
    assert RowOk(lim, s, id);
  }

  lemma RetriedRow(lim: Limits, s: Sys, id: string, now: real, s': Sys)
    requires RowsOk(lim, s) && RetryTx(s.rows, id, now).Ok?
    requires s' == s.(rows := RetryTx(s.rows, id, now).value, retries := s.retries + multiset{id})
    ensures RowOk(lim, s', id)
  {
    assert RowOk(lim, s, id);
  }

  lemma RetriedRows(lim: Limits, s: Sys, id: string, now: real, s': Sys)
    requires RowsOk(lim, s) && RetryTx(s.rows, id, now).Ok?
    requires s' == s.(rows := RetryTx(s.rows, id, now).value, retries := s.retries + multiset{id})
    ensures RowsOk(lim, s')
  {
    RetriedRow(lim, s, id, now, s');
    forall x | x in s'.rows && x != id ensures RowOk(lim, s', x) { assert RowOk(lim, s, x); }
  }

  lemma RetriedKeepsInv(lim: Limits, s: Sys, id: string, now: real, s': Sys)
    requires Inv(lim, s) && RetryTx(s.rows, id, now).Ok?
    requires s' == s.(rows := RetryTx(s.rows, id, now).value, retries := s.retries + multiset{id})
    ensures Inv(lim, s') && Lasting(s, s')
  {
    RetriedRows(lim, s, id, now, s');
    RetriedIsLasting(lim, s, id, now, s');
    WorkersFollow(s, s');
    PastFollows(lim, s, s');
  }

  lemma RetryKeepsInv(lim: Limits, s: Sys, a: Action, s': Sys)
    requires Inv(lim, s) && a.OperatorRetry? && IntakeStep(lim, s, a, s')
    ensures Inv(lim, s') && Lasting(s, s')
  {
    if s' != s { RetriedKeepsInv(lim, s, a.id, a.now, s'); }
  }

  lemma BuriedRows(lim: Limits, s: Sys, now: real, s': Sys)
    requires RowsOk(lim, s) && s' == s.(rows := Buried(s.rows, now, lim.maxAttempts))
    ensures RowsOk(lim, s')
  {
    forall x | x in s'.rows ensures RowOk(lim, s', x) { assert RowOk(lim, s, x); }
  }

  lemma BuriedLasts(lim: Limits, s: Sys, now: real, s': Sys)
    requires s' == s.(rows := Buried(s.rows, now, lim.maxAttempts))
    ensures Lasting(s, s')
  {
  }

  /** The sweep of exhausted rows on its own: what it keeps, before any row is leased. */
  lemma BuryingKeepsInv(lim: Limits, s: Sys, now: real, s': Sys)
    requires Inv(lim, s) && s' == s.(rows := Buried(s.rows, now, lim.maxAttempts))
    ensures Inv(lim, s') && Lasting(s, s')
  {
    BuriedRows(lim, s, now, s');
    BuriedLasts(lim, s, now, s');
    WorkersFollow(s, s');
    PastFollows(lim, s, s');
  }

  ghost predicate LeaseStep(lim: Limits, s: Sys, w: nat, id: string, token: nat, until: real, now: real, s': Sys) {
    && id in s.rows && token !in s.issued
    && Due(s.rows[id], now) && s.rows[id].attempts < lim.maxAttempts
    && var rows := s.rows[id := Leased(s.rows[id], token, until, now)];
       s' == s.(rows := rows, issued := s.issued[token := w], claims := s.claims + multiset{id},
                workers := s.workers[w := Claimed(id, rows[id])])
  }

  lemma LeasedRow(lim: Limits, s: Sys, w: nat, id: string, token: nat, until: real, now: real, s': Sys)
    requires RowsOk(lim, s) && LeaseStep(lim, s, w, id, token, until, now, s')
    ensures RowOk(lim, s', id) && Lasting(s, s')
  {
    assert RowOk(lim, s, id);
  }

  lemma LeasedRows(lim: Limits, s: Sys, w: nat, id: string, token: nat, until: real, now: real, s': Sys)
    requires RowsOk(lim, s) && LeaseStep(lim, s, w, id, token, until, now, s')
    ensures RowsOk(lim, s')
  {
    LeasedRow(lim, s, w, id, token, until, now, s');
    forall x | x in s'.rows && x != id ensures RowOk(lim, s', x) { assert RowOk(lim, s, x); }
  }

  lemma LeasedWorkers(lim: Limits, s: Sys, w: nat, id: string, token: nat, until: real, now: real, s': Sys)
    requires WorkersOk(s) && Lasting(s, s') && LeaseStep(lim, s, w, id, token, until, now, s')
    ensures WorkersOk(s')
  {
    forall v | v in s'.workers && !s'.workers[v].Free? ensures HandleOk(s', v, s'.workers[v]) {
      if v != w { assert HandleOk(s, v, s.workers[v]); }
    }
  }

  /** A sweep followed by a lease of one due row. */
  lemma LeasingKeepsInv(lim: Limits, s: Sys, swept: Sys, w: nat, id: string, token: nat, until: real, now: real, s': Sys)
    requires Inv(lim, s) && swept == s.(rows := Buried(s.rows, now, lim.maxAttempts))
    requires LeaseStep(lim, swept, w, id, token, until, now, s')
    ensures Inv(lim, s') && Lasting(s, s')
  {
    BuryingKeepsInv(lim, s, now, swept);
    LeasedRow(lim, swept, w, id, token, until, now, s');
    LeasedRows(lim, swept, w, id, token, until, now, s');
    LeasedWorkers(lim, swept, w, id, token, until, now, s');
    PastFollows(lim, swept, s');
    LastingChains(s, swept, s');
  }

  /** A claim is the sweep followed, if a row is due, by a lease of that row. */
  lemma ClaimSplits(lim: Limits, s: Sys, a: Action, swept: Sys, s': Sys)
    requires RowsOk(lim, s) && a.ClaimBy? && ClaimStep(lim, s, a, s')
    requires swept == s.(rows := Buried(s.rows, a.now, lim.maxAttempts))
    ensures a.claimed.None? ==> s' == swept
    ensures a.claimed.Some? ==> LeaseStep(lim, swept, a.w, a.claimed.value, a.token, a.now + a.lease, a.now, s')
  {
    if a.claimed.Some? { assert RowOk(lim, s, a.claimed.value); }
  }

  lemma SweepThenLeaseKeepsInv(lim: Limits, s: Sys, a: Action, swept: Sys, s': Sys)
    requires Inv(lim, s) && a.ClaimBy? && swept == s.(rows := Buried(s.rows, a.now, lim.maxAttempts))
    requires a.claimed.None? ==> s' == swept
    requires a.claimed.Some? ==> LeaseStep(lim, swept, a.w, a.claimed.value, a.token, a.now + a.lease, a.now, s')
    ensures Inv(lim, s') && Lasting(s, s')
  {
    if a.claimed.Some? {
      LeasingKeepsInv(lim, s, swept, a.w, a.claimed.value, a.token, a.now + a.lease, a.now, s');
    } else {
      BuryingKeepsInv(lim, s, a.now, swept);
    }
  }

  lemma ClaimKeepsInv(lim: Limits, s: Sys, a: Action, s': Sys)
    requires Inv(lim, s) && a.ClaimBy? && ClaimStep(lim, s, a, s')
    ensures Inv(lim, s') && Lasting(s, s')
  {
    var swept := s.(rows := Buried(s.rows, a.now, lim.maxAttempts));
    ClaimSplits(lim, s, a, swept, s');
    SweepThenLeaseKeepsInv(lim, s, a, swept, s');
  }

  lemma SubmittedRows(lim: Limits, s: Sys, s': Sys)
    requires RowsOk(lim, s) && s.accepted <= s'.accepted && s.submissions <= s'.submissions
    requires s'.rows == s.rows && s'.issued == s.issued && s'.claims == s.claims && s'.retries == s.retries
    ensures RowsOk(lim, s') && Lasting(s, s')
  {
    forall x | x in s'.rows ensures RowOk(lim, s', x) { assert RowOk(lim, s, x); }
  }

  lemma SubmittedPast(lim: Limits, s: Sys, a: Action, s': Sys)
    requires WorkersOk(s) && PastOk(lim, s) && a.Submit? && WorkerStep(lim, s, a, s')
    ensures PastOk(lim, s')
  {
    assert HandleOk(s, a.w, s.workers[a.w]);
  }

  lemma SubmitKeepsInv(lim: Limits, s: Sys, a: Action, s': Sys)
    requires Inv(lim, s) && a.Submit? && WorkerStep(lim, s, a, s')
    ensures Inv(lim, s') && Lasting(s, s')
  {
    SubmittedRows(lim, s, s');
    SubmittedPast(lim, s, a, s');
    WorkersFollow(s, s');
  }

  lemma CrashKeepsInv(lim: Limits, s: Sys, a: Action, s': Sys)
    requires Inv(lim, s) && a.Crash? && WorkerStep(lim, s, a, s')
    ensures Inv(lim, s') && Lasting(s, s')
  {
    SubmittedRows(lim, s, s');
    WorkersFollow(s, s');
  }

  lemma FinishedLasting(lim: Limits, s: Sys, a: Action, s': Sys)
    requires (a.CompleteBy? || a.FailBy?) && WorkerStep(lim, s, a, s')
    requires HandleOk(s, a.w, s.workers[a.w])
    ensures Lasting(s, s')
  {
  }

  lemma FinishedRow(lim: Limits, s: Sys, a: Action, s': Sys, x: string)
    requires x in s.rows && RowOk(lim, s, x) && (a.CompleteBy? || a.FailBy?) && WorkerStep(lim, s, a, s')
    requires HandleOk(s, a.w, s.workers[a.w])
    ensures x in s'.rows && RowOk(lim, s', x)
  {
  }

  lemma FinishedRows(lim: Limits, s: Sys, a: Action, s': Sys)
    requires RowsOk(lim, s) && (a.CompleteBy? || a.FailBy?) && WorkerStep(lim, s, a, s')
    requires HandleOk(s, a.w, s.workers[a.w]) && s'.rows.Keys == s.rows.Keys
    ensures RowsOk(lim, s')
  {
    forall x | x in s'.rows ensures RowOk(lim, s', x) { FinishedRow(lim, s, a, s', x); }
  }

  lemma FinishKeepsInv(lim: Limits, s: Sys, a: Action, s': Sys)
    requires Inv(lim, s) && (a.CompleteBy? || a.FailBy?) && WorkerStep(lim, s, a, s')
    ensures Inv(lim, s') && Lasting(s, s')
  {
    FinishedShape(lim, s, a, s');
    FinishedLasting(lim, s, a, s');
    FinishedRows(lim, s, a, s');
    WorkersFollow(s, s');
    PastFollows(lim, s, s');
  }

  lemma FinishedShape(lim: Limits, s: Sys, a: Action, s': Sys)
    requires WorkersOk(s) && (a.CompleteBy? || a.FailBy?) && WorkerStep(lim, s, a, s')
    ensures s'.rows.Keys == s.rows.Keys && s'.submissions == s.submissions
    ensures s'.workers == s.workers[a.w := Free]
  {
    assert HandleOk(s, a.w, s.workers[a.w]);
  }

  lemma StepKeepsInv(lim: Limits, s: Sys, s': Sys)
    requires Inv(lim, s) && Next(lim, s, s')
    ensures Inv(lim, s') && Lasting(s, s')
  {
    var a :| StepAction(lim, s, a, s');
    match a
    case Enqueue(_, _, _, _, _, _, _) => EnqueueKeepsInv(lim, s, a, s');
    case OperatorRetry(_, _) => RetryKeepsInv(lim, s, a, s');
    case ClaimBy(_, _, _, _, _) => ClaimKeepsInv(lim, s, a, s');
    case Submit(_, _, _, _) => SubmitKeepsInv(lim, s, a, s');
    case Crash(_) => CrashKeepsInv(lim, s, a, s');
    case CompleteBy(_, _, _, _) => FinishKeepsInv(lim, s, a, s');
    case FailBy(_, _, _, _, _) => FinishKeepsInv(lim, s, a, s');
  }

  // ---- over whole runs ----

  ghost predicate IsRun(lim: Limits, run: seq<Sys>) { Runs.IsRun(Init, (s, s') => Next(lim, s, s'), run) }

  lemma InvHolds(lim: Limits, run: seq<Sys>, i: nat)
    requires IsRun(lim, run) && i < |run|
    ensures Inv(lim, run[i])
  {
    var next := (s, s') => Next(lim, s, s');
    var inv := s => Inv(lim, s);
    forall s, s' | inv(s) && next(s, s') ensures inv(s') { StepKeepsInv(lim, s, s'); }
    Runs.InvariantHolds(Init, next, inv, run, i);
  }

  /**
   Exactly-one identity: every submission ever made carries the run id fixed for its delivery at intake, two
   submissions with the same run id are of the same delivery, and every `dispatched` receipt names a run the far
   side accepted.
   */
  lemma SubmissionsCarryTheFixedRunId(lim: Limits, run: seq<Sys>, i: nat, j: nat, k: nat)
    requires IsRun(lim, run) && i < |run| && j < |run[i].submissions| && k < |run[i].submissions|
    ensures var (id, runId) := run[i].submissions[j];
            && id in run[i].rows && runId == run[i].rows[id].runId == RunIdOf(run[i].rows[id].repository, id)
    ensures run[i].submissions[j].1 == run[i].submissions[k].1 ==> run[i].submissions[j].0 == run[i].submissions[k].0
    ensures forall id :: id in run[i].rows && run[i].rows[id].state == Dispatched
              ==> run[i].rows[id].runId in run[i].accepted
  {
    InvHolds(lim, run, i);
    var s := run[i];
    var a, b := s.submissions[j].0, s.submissions[k].0;
    assert Named(s.rows, a) && Named(s.rows, b);
    if s.submissions[j].1 == s.submissions[k].1 {
      RunIdsAreDistinct(s.rows[a].repository, a, s.rows[b].repository, b);
    }
    forall id | id in s.rows && s.rows[id].state == Dispatched ensures s.rows[id].runId in s.accepted {
      assert RowOk(lim, s, id);
    }
  }

  /** Bounded work: claims are counted exactly, an operator retry buys at most `maxAttempts` more of them, and the
      rows that are not yet handed over never exceed the inbox's size. */
  lemma ClaimsAreCountedAndBounded(lim: Limits, run: seq<Sys>, i: nat, id: string)
    requires IsRun(lim, run) && i < |run| && id in run[i].rows
    ensures run[i].rows[id].totalAttempts == run[i].claims[id]
    ensures run[i].claims[id] <= lim.maxAttempts * (1 + run[i].retries[id])
    ensures |Open(run[i].rows)| <= lim.maxPending
  {
    InvHolds(lim, run, i);
    assert RowOk(lim, run[i], id);
    AllowanceIsProduct(lim.maxAttempts, 1 + run[i].retries[id]);
  }

  /** Between any two moments: identity never changes, `dispatched` is never left, and a lease once lost stays lost. */
  lemma NothingLastingIsUndone(lim: Limits, run: seq<Sys>, i: nat, j: nat)
    requires IsRun(lim, run) && i <= j < |run|
    ensures Lasting(run[i], run[j])
  {
    var next := (s, s') => Next(lim, s, s');
    var inv := s => Inv(lim, s);
    forall s, s' | inv(s) && next(s, s') ensures inv(s') && Lasting(s, s') { StepKeepsInv(lim, s, s'); }
    forall s, t, u | Lasting(s, t) && Lasting(t, u) ensures Lasting(s, u) { LastingChains(s, t, u); }
    Runs.StepsCompose(Init, next, inv, Lasting, run, i, j);
  }

  /**
   Fencing: at every moment a delivery carries a token exactly while it is `dispatching`, at most one worker holds
   that token, and a worker whose token is not the row's own can change nothing, then or at any later time.
   */
  lemma StaleWorkersAreFenced(lim: Limits, run: seq<Sys>, i: nat, j: nat, w: nat)
    requires IsRun(lim, run) && i <= j < |run|
    requires w in run[i].workers && !run[i].workers[w].Free?
    ensures var c := run[i].workers[w];
            && c.id in run[i].rows && c.id in run[j].rows
            && (run[i].rows[c.id].token.Some? <==> run[i].rows[c.id].state == Dispatching)
            && (run[i].rows[c.id].token != c.held.token ==>
                  && (forall workOrder, admission, now ::
                        CompleteTx(run[j].rows, c.id, c.held.token, workOrder, admission, now) == run[j].rows)
                  && (forall error, retryable, retryAfter, seed, now :: 1 <= c.held.attempts ==>
                        FailTx(run[j].rows, c.id, c.held.attempts, c.held.token, error, retryable, lim.maxAttempts,
                               retryAfter, seed, now) == run[j].rows))
    ensures forall v :: v in run[i].workers && v != w && !run[i].workers[v].Free?
              ==> run[i].workers[v].held.token != run[i].workers[w].held.token
  {
    InvHolds(lim, run, i);
    NothingLastingIsUndone(lim, run, i, j);
    var c := run[i].workers[w];
    assert HandleOk(run[i], w, c);
    assert RowOk(lim, run[i], c.id);
    forall v | v in run[i].workers && v != w && !run[i].workers[v].Free?
      ensures run[i].workers[v].held.token != c.held.token
    {
      assert HandleOk(run[i], v, run[i].workers[v]);
    }
  }

  /**
   Work that is ready is handed out: whatever happened before, a claim made while some row is ready leases a row that was
   ready, and the worker that made it holds that row under the token it drew.
   */
  lemma ReadyWorkIsHandedOut(lim: Limits, run: seq<Sys>, i: nat, a: Action)
    requires IsRun(lim, run) && i + 1 < |run| && a.ClaimBy? && ClaimStep(lim, run[i], a, run[i + 1])
    requires exists id :: id in run[i].rows && Ready(run[i].rows[id], a.now, lim.maxAttempts)
    ensures a.claimed.Some?
    ensures var id := a.claimed.value;
            && id in run[i].rows && Ready(run[i].rows[id], a.now, lim.maxAttempts)
            && id in run[i + 1].rows && run[i + 1].rows[id].token == Some(a.token)
            && run[i + 1].rows[id].leaseUntil == a.now + a.lease
            && a.w in run[i + 1].workers && run[i + 1].workers[a.w] == Claimed(id, run[i + 1].rows[id])
  {
    ClaimLeasesTheFirstReadyRow(run[i].rows, a.now, a.lease, lim.maxAttempts, a.token, run[i + 1].rows, a.claimed);
  }

  /** A worker that holds its lease can bring its delivery to the end: the far side takes it, and the row says so. */
  lemma HeldWorkCanBeDispatched(lim: Limits, s: Sys, w: nat, workOrder: Option<string>, admission: Option<string>, now: real)
    requires Inv(lim, s) && w in s.workers && s.workers[w].Claimed?
    requires s.workers[w].id in s.rows && s.rows[s.workers[w].id].token == s.workers[w].held.token
    ensures exists t, u :: && StepAction(lim, s, Submit(w, true, true, false), t)
                           && StepAction(lim, t, CompleteBy(w, workOrder, admission, now), u)
                           && var id := s.workers[w].id;
                              && id in u.rows && u.rows[id].state == Dispatched && u.rows[id].runId in u.accepted
                              && u.rows[id].workOrder == workOrder && u.rows[id].admission == admission
  {
    var c := s.workers[w];
    assert HandleOk(s, w, c) && RowOk(lim, s, c.id);
    var t := s.(workers := s.workers[w := Answered(c.id, c.held, true, false)], accepted := s.accepted + {c.held.runId},
                submissions := s.submissions + [(c.id, c.held.runId)]);
    var u := t.(workers := t.workers[w := Free],
                rows := CompleteTx(t.rows, c.id, c.held.token, workOrder, admission, now));
    assert StepAction(lim, s, Submit(w, true, true, false), t);
    assert StepAction(lim, t, CompleteBy(w, workOrder, admission, now), u);
    assert u.rows[c.id].state == Dispatched;
  }

  /**
   The work of a worker that crashed is taken up again. If its row is as it was when the worker crashed, then the row is
   ready from the end of the lease on; so the next claim leases some row, and as many claims at that time as there are
   ready rows lease this one.
   */
  lemma ACrashedWorkersDeliveryIsTakenAgain(
      lim: Limits, run: seq<Sys>, k: nat, i: nat, w: nat, now: real, tables: seq<Table>, claimed: seq<Option<string>>, lease: real)
    requires IsRun(lim, run) && k < i < |run| && WorkerStep(lim, run[k], Crash(w), run[k + 1])
    requires w in run[k].workers && !run[k].workers[w].Free? && run[k].workers[w].held.attempts < lim.maxAttempts
    requires var c := run[k].workers[w];
             && c.id in run[k].rows && run[k].rows[c.id].token == c.held.token
             && c.id in run[i].rows && run[i].rows[c.id] == run[k].rows[c.id]
             && run[k].rows[c.id].leaseUntil <= now
    requires ClaimsInARow(tables, claimed, now, lease, lim.maxAttempts) && tables[0] == run[i].rows
    ensures var id := run[k].workers[w].id;
            && run[k + 1].rows == run[k].rows && run[k + 1].workers[w] == Free
            && Ready(run[i].rows[id], now, lim.maxAttempts)
            && (|claimed| > 0 ==> claimed[0].Some?)
            && (|ReadyRows(run[i].rows, now, lim.maxAttempts)| <= |claimed| ==> exists n :: 0 <= n < |claimed| && claimed[n] == Some(id))
  {
    InvHolds(lim, run, k);
    var c := run[k].workers[w];
    assert HandleOk(run[k], w, c) && RowOk(lim, run[k], c.id);
    if |claimed| > 0 {
      assert Claims(tables[0], tables[0 + 1], now, lease, lim.maxAttempts, claimed[0]);
      var token :| ClaimTx(tables[0], now, lease, lim.maxAttempts, token, tables[1], claimed[0]);
      ClaimLeasesTheFirstReadyRow(tables[0], now, lease, lim.maxAttempts, token, tables[1], claimed[0]);
    }
    if |ReadyRows(run[i].rows, now, lim.maxAttempts)| <= |claimed| {
      EveryReadyRowIsHandedOut(tables, claimed, now, lease, lim.maxAttempts, c.id);
    }
  }
}
