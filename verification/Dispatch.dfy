/**
 The durable webhook inbox. Each write is one `BEGIN IMMEDIATE` transaction, so it is one step on the table.
 SHA-256 is taken to be injective: a digest is the text it was computed from.
 */
module Dispatch {
  import opened Prelude

  datatype Sha256 = Sha256(preimage: string)

  datatype DeliveryState = Pending | Dispatching | Dispatched | Dead

  datatype Delivery = Delivery(
    repository: string, event: string, payload: Sha256, dagId: string, runId: Sha256, conf: string,
    state: DeliveryState, attempts: nat, totalAttempts: nat,
    createdAt: real, updatedAt: real, nextAttemptAt: real, leaseUntil: real,
    token: Option<nat>, lastError: Option<string>, workOrder: Option<string>, admission: Option<string>)

  type Table = map<string, Delivery>

  datatype InboxError = InvalidDeliveryId | DeliveryConflict | InboxFull | UnknownDelivery

  // ---- identity ----

  predicate IsIdChar(c: char) {
    'A' <= c <= 'Z' || 'a' <= c <= 'z' || '0' <= c <= '9' || c == '_' || c == '-'
  }

  predicate ValidId(id: string) {
    && 1 <= |id| <= 128
    && (forall i :: 0 <= i < |id| ==> IsIdChar(id[i]))
    && id[0] != '_' && id[0] != '-'
  }

  /** The identifiers that a webhook sender draws, such as 72d3162e-cc78-11e3-81ab-4c9367dc0958, are valid. */
  lemma DrawnIdsAreValid(id: string)
    requires |id| == 36 && id[0] != '-'
    requires forall i :: 0 <= i < |id| ==> '0' <= id[i] <= '9' || 'a' <= id[i] <= 'f' || id[i] == '-'
    ensures ValidId(id)
  {
  }

  /** The same letter, or the same letter of the alphabet in the other case. */
  predicate SameLetter(c: char, d: char) {
    c == d || ('A' <= c <= 'Z' && d as int == c as int + 32) || ('A' <= d <= 'Z' && c as int == d as int + 32)
  }

  function Lower(c: char): char { if 'A' <= c <= 'Z' then c + ' ' else c }

  function Casefold(s: string): string { seq(|s|, i requires 0 <= i < |s| => Lower(s[i])) }

  function Escape(s: string): string {
    if s == "" then ""
    else (if s[0] == '"' || s[0] == '\\' then ['\\', s[0]] else [s[0]]) + Escape(s[1..])
  }

  /** The JSON array of the folded repository and the delivery id, without spaces. */
  function IdentityText(repository: string, id: string): string {
    "[\"" + Escape(Casefold(repository)) + "\",\"" + id + "\"]"
  }

  function RunIdOf(repository: string, id: string): Sha256 { Sha256(IdentityText(repository, id)) }

  function ContentDigest(event: string, body: string): Sha256 { Sha256(event + "\0" + body) }

  /** In the identity text the id runs back from the closing quote to the nearest quote before it. */
  lemma IdInIdentityText(repository: string, id: string)
    requires ValidId(id)
    ensures var text := IdentityText(repository, id);
            && |text| >= |id| + 3
            && text[|text| - 2 - |id|..|text| - 2] == id
            && text[|text| - 3 - |id|] == '"'
            && forall p :: |text| - 2 - |id| <= p < |text| - 2 ==> IsIdChar(text[p])
  {
    var head := "[\"" + Escape(Casefold(repository)) + "\",\"";
    assert IdentityText(repository, id) == head + id + "\"]";
  }

  lemma {:induction false} EscapeSeparates(s: string, s': string)
    requires Escape(s) == Escape(s')
    ensures s == s'
  {
    if s != "" && s' != "" {
      var e, e' := Escape(s), Escape(s');
      assert e[0] == e'[0];
      if e[0] == '\\' {
        assert e[1] == s[0] && e'[1] == s'[0];
        assert e[2..] == Escape(s[1..]) && e'[2..] == Escape(s'[1..]);
      } else {
        assert e[1..] == Escape(s[1..]) && e'[1..] == Escape(s'[1..]);
      }
      EscapeSeparates(s[1..], s'[1..]);
    }
  }

  /** What stands between the opening bracket and the id is the escaped repository. */
  lemma RepositoryInIdentityText(repository: string, id: string)
    ensures var text := IdentityText(repository, id);
            |text| >= |id| + 7 && text[2..|text| - 5 - |id|] == Escape(Casefold(repository))
  {
    var repo, text := Escape(Casefold(repository)), IdentityText(repository, id);
    assert text == "[\"" + repo + ("\",\"" + id + "\"]");
    assert |text| == 2 + |repo| + 5 + |id|;
  }

  /** One run id belongs to one repository, up to case, and one delivery id. */
  lemma RunIdsAreDistinct(repository: string, id: string, repository': string, id': string)
    requires ValidId(id) && ValidId(id') && RunIdOf(repository, id) == RunIdOf(repository', id')
    ensures id == id' && Casefold(repository) == Casefold(repository')
    ensures |repository| == |repository'| && forall i :: 0 <= i < |repository| ==> SameLetter(repository[i], repository'[i])
  {
    IdInIdentityText(repository, id);
    IdInIdentityText(repository', id');
    RepositoryInIdentityText(repository, id);
    RepositoryInIdentityText(repository', id');
    EscapeSeparates(Casefold(repository), Casefold(repository'));
    assert |Casefold(repository)| == |Casefold(repository')|;
    forall i | 0 <= i < |repository| ensures SameLetter(repository[i], repository'[i]) {
      assert Casefold(repository)[i] == Casefold(repository')[i];
    }
  }

  lemma EventInContent(event: string, body: string)
    requires '\0' !in event
    ensures var text := event + "\0" + body;
            && text[..|event|] == event && text[|event| + 1..] == body && text[|event|] == '\0'
            && forall p :: 0 <= p < |event| ==> text[p] != '\0'
  {
    var text := event + "\0" + body;
    forall p | 0 <= p < |event| ensures text[p] != '\0' { assert text[p] == event[p]; }
  }

  /** A redelivery is compared by digest alone; that settles both the event name and the body. */
  lemma ContentDigestSeparates(event: string, body: string, event': string, body': string)
    requires '\0' !in event && '\0' !in event' && ContentDigest(event, body) == ContentDigest(event', body')
    ensures event == event' && body == body'
  {
    EventInContent(event, body);
    EventInContent(event', body');
  }

  // ---- transactions on the table ----

  function Open(rows: Table): set<string> { set id | id in rows && rows[id].state != Dispatched }

  function NewDelivery(id: string, event: string, body: string, repository: string, dagId: string, conf: string,
                       now: real): Delivery
  {
    Delivery(repository, event, ContentDigest(event, body), dagId, RunIdOf(repository, id), conf,
             Pending, 0, 0, now, now, now, 0.0, None, None, None, None)
  }

  /** The receipt and whether it is new; a redelivery answers the stored receipt and writes nothing. */
  function EnqueueTx(rows: Table, maxPending: nat, id: string, event: string, body: string, repository: string,
                     dagId: string, conf: string, now: real): Result<(Table, bool), InboxError>
  {
    if !ValidId(id) then Err(InvalidDeliveryId)
    else if id in rows then
      if rows[id].payload != ContentDigest(event, body) || rows[id].repository != repository
      then Err(DeliveryConflict) else Ok((rows, false))
    else if |Open(rows)| >= maxPending then Err(InboxFull)
    else Ok((rows[id := NewDelivery(id, event, body, repository, dagId, conf, now)], true))
  }

  predicate Exhausted(d: Delivery, now: real, maxAttempts: nat) {
    d.attempts >= maxAttempts && (d.state == Pending || (d.state == Dispatching && d.leaseUntil <= now))
  }

  function Buried(rows: Table, now: real, maxAttempts: nat): Table {
    map id | id in rows ::
      if Exhausted(rows[id], now, maxAttempts)
      then rows[id].(state := Dead, token := None, leaseUntil := 0.0, updatedAt := now,
                     lastError := Some("dispatch_attempts_exhausted"))
      else rows[id]
  }

  predicate Due(d: Delivery, now: real) {
    (d.state == Pending && d.nextAttemptAt <= now) || (d.state == Dispatching && d.leaseUntil <= now)
  }

  predicate TextBefore(a: string, b: string) {
    b != "" && (a == "" || a[0] < b[0] || (a[0] == b[0] && TextBefore(a[1..], b[1..])))
  }

  /** `ORDER BY next_attempt_at, created_at, delivery_id`. */
  predicate Before(rows: Table, a: string, b: string)
    requires a in rows && b in rows
  {
    var x, y := rows[a], rows[b];
    || x.nextAttemptAt < y.nextAttemptAt
    || (x.nextAttemptAt == y.nextAttemptAt
        && (x.createdAt < y.createdAt || (x.createdAt == y.createdAt && TextBefore(a, b))))
  }

  function Leased(d: Delivery, token: nat, until: real, now: real): Delivery {
    d.(state := Dispatching, attempts := d.attempts + 1, totalAttempts := d.totalAttempts + 1,
       token := Some(token), leaseUntil := until, updatedAt := now)
  }

  /** One claim: bury what has no attempts left, then lease the first due row, or none if none is due. */
  ghost predicate ClaimTx(rows: Table, now: real, lease: real, maxAttempts: nat, token: nat,
                          rows': Table, claimed: Option<string>)
  {
    var swept := Buried(rows, now, maxAttempts);
    match claimed
    case None => rows' == swept && forall id :: id in swept ==> !Due(swept[id], now)
    case Some(id) =>
      && id in swept && Due(swept[id], now)
      && (forall other :: other in swept && Due(swept[other], now) ==> !Before(swept, other, id))
      && rows' == swept[id := Leased(swept[id], token, now + lease, now)]
  }

  /** A worker's write reaches the row only while the row still carries the worker's token. */
  predicate HoldsLease(rows: Table, id: string, token: Option<nat>) {
    id in rows && rows[id].state == Dispatching && token.Some? && rows[id].token == token
  }

  function CompleteTx(rows: Table, id: string, token: Option<nat>, workOrder: Option<string>,
                      admission: Option<string>, now: real): Table
  {
    if !HoldsLease(rows, id, token) then rows
    else rows[id := rows[id].(state := Dispatched, token := None, leaseUntil := 0.0, lastError := None,
                              updatedAt := now, workOrder := workOrder, admission := admission)]
  }

  function Pow2(n: nat): nat { if n == 0 then 1 else 2 * Pow2(n - 1) }

  /** Seconds until the next attempt; `seed` is the number read from the first four hex digits of the digest. */
  function RetryDelay(attempts: nat, seed: nat, retryAfter: real): real
    requires 1 <= attempts
  {
    var delay := Min(300, 5 * Pow2(Min(attempts - 1, 8)));
    var jitter := seed % (Max(1, delay / 5) + 1);
    var asked := if retryAfter < 0.0 then 0.0 else if retryAfter > 3600.0 then 3600.0 else retryAfter;
    if (delay + jitter) as real >= asked then (delay + jitter) as real else asked
  }

  function FailTx(rows: Table, id: string, attempts: nat, token: Option<nat>, error: string, retryable: bool,
                  maxAttempts: nat, retryAfter: real, seed: nat, now: real): Table
    requires 1 <= attempts
  {
    if !HoldsLease(rows, id, token) then rows
    else rows[id := rows[id].(state := if retryable && attempts < maxAttempts then Pending else Dead,
                              lastError := Some(error),
                              nextAttemptAt := now + RetryDelay(attempts, seed, retryAfter),
                              updatedAt := now, token := None, leaseUntil := 0.0)]
  }

  function RetryTx(rows: Table, id: string, now: real): Result<Table, InboxError> {
    if id !in rows then Err(UnknownDelivery)
    else if rows[id].state != Dead then Err(DeliveryConflict)
    else Ok(rows[id := rows[id].(state := Pending, attempts := 0, nextAttemptAt := now, updatedAt := now,
                                 token := None, leaseUntil := 0.0)])
  }

  lemma {:induction false} PowersUpTo8(n: nat)
    requires n <= 8
    ensures Pow2(n) == [1, 2, 4, 8, 16, 32, 64, 128, 256][n]
  {
    if n > 0 { PowersUpTo8(n - 1); }
  }

  /** Every failure waits at least five seconds and at most an hour, and a Retry-After up to an hour is respected. */
  lemma RetryDelayBounds(attempts: nat, seed: nat, retryAfter: real)
    requires 1 <= attempts
    ensures 5.0 <= RetryDelay(attempts, seed, retryAfter) <= 3600.0
    ensures retryAfter <= 3600.0 ==> retryAfter <= RetryDelay(attempts, seed, retryAfter)
    ensures retryAfter <= 0.0 ==> RetryDelay(attempts, seed, retryAfter) <= 360.0
  {
    PowersUpTo8(Min(attempts - 1, 8));
    var delay := Min(300, 5 * Pow2(Min(attempts - 1, 8)));
    assert 5 <= delay <= 300;
    RemainderIsBelow(seed, Max(1, delay / 5) + 1);
  }

  /** The delays double from five seconds up to five minutes, each with a fifth more at most, and never shrink. */
  lemma RetryDelayDoubles(attempts: nat, seed: nat, retryAfter: real)
    requires 1 <= attempts
    ensures var least := if attempts <= 6 then [5, 10, 20, 40, 80, 160][attempts - 1] else 300;
            least as real <= RetryDelay(attempts, seed, 0.0) <= least as real * 1.2
    ensures RetryDelay(attempts, seed, retryAfter) <= RetryDelay(attempts + 1, seed, retryAfter)
  {
    var now, next := Min(attempts - 1, 8), Min(attempts, 8);
    PowersUpTo8(now);
    PowersUpTo8(next);
    RemainderIsBelow(seed, Max(1, Min(300, 5 * Pow2(now)) / 5) + 1);
    RemainderIsBelow(seed, Max(1, Min(300, 5 * Pow2(next)) / 5) + 1);
  }

  lemma RemainderIsBelow(n: nat, m: nat)
    requires m > 0
    ensures 0 <= n % m < m
  {
  }

  lemma {:induction false} TextBeforeChains(a: string, b: string, c: string)
    requires TextBefore(a, b) && TextBefore(b, c)
    ensures TextBefore(a, c)
  {
    if a != "" && a[0] == b[0] && b[0] == c[0] { TextBeforeChains(a[1..], b[1..], c[1..]); }
  }

  lemma BeforeChains(rows: Table, a: string, b: string, c: string)
    requires a in rows && b in rows && c in rows && Before(rows, a, b) && Before(rows, b, c)
    ensures Before(rows, a, c)
  {
    if TextBefore(a, b) && TextBefore(b, c) { TextBeforeChains(a, b, c); }
  }

  lemma {:induction false} NotBeforeItself(a: string)
    ensures !TextBefore(a, a)
  {
    if a != "" { NotBeforeItself(a[1..]); }
  }

  // ---- what becomes of a delivery ----

  /** There is work to hand out: an attempt is left, and the delay or the lease is over. */
  predicate Ready(d: Delivery, now: real, maxAttempts: nat) {
    && d.attempts < maxAttempts
    && match d.state
       case Pending => d.nextAttemptAt <= now
       case Dispatching => d.leaseUntil <= now
       case _ => false
  }

  /** No attempt is left, and nobody is at work on it any longer. */
  predicate Spent(d: Delivery, now: real, maxAttempts: nat) {
    d.attempts >= maxAttempts && (d.state == Pending || (d.state == Dispatching && d.leaseUntil <= now))
  }

  function ReadyRows(rows: Table, now: real, maxAttempts: nat): set<string> {
    set id | id in rows && Ready(rows[id], now, maxAttempts)
  }

  /** x goes before y in the order of claims: by due time, then by arrival, then by name. */
  predicate GoesFirst(rows: Table, x: string, y: string)
    requires x in rows && y in rows
  {
    var (a, b) := (rows[x], rows[y]);
    a.nextAttemptAt < b.nextAttemptAt
    || (a.nextAttemptAt == b.nextAttemptAt
        && (a.createdAt < b.createdAt || (a.createdAt == b.createdAt && TextBefore(x, y))))
  }

  lemma SweepLeavesTheReady(rows: Table, now: real, maxAttempts: nat, id: string)
    requires id in rows
    ensures var swept := Buried(rows, now, maxAttempts);
            && swept.Keys == rows.Keys
            && (Due(swept[id], now) <==> Ready(rows[id], now, maxAttempts))
            && (if Spent(rows[id], now, maxAttempts)
                then swept[id].state == Dead && swept[id].token.None?
                     && swept[id].lastError == Some("dispatch_attempts_exhausted")
                else swept[id] == rows[id])
  {
  }

  /**
   A claim hands out work exactly when some row is ready: a live lease and a delay are respected, an expired lease is
   taken over. It leases the first ready row under the drawn token, buries the rows that are spent, and touches no other.
   */
  lemma ClaimLeasesTheFirstReadyRow(rows: Table, now: real, lease: real, maxAttempts: nat, token: nat, rows': Table,
                                    claimed: Option<string>)
    requires ClaimTx(rows, now, lease, maxAttempts, token, rows', claimed)
    ensures claimed.Some? <==> exists id :: id in rows && Ready(rows[id], now, maxAttempts)
    ensures rows'.Keys == rows.Keys
    ensures forall id :: id in rows && claimed != Some(id) ==>
              if Spent(rows[id], now, maxAttempts) then rows'[id].state == Dead && rows'[id].token.None?
              else rows'[id] == rows[id]
    ensures claimed.Some? ==>
              var id := claimed.value;
              && id in rows && Ready(rows[id], now, maxAttempts)
              && (forall other :: other in rows && Ready(rows[other], now, maxAttempts) ==> !GoesFirst(rows, other, id))
              && rows'[id] == rows[id].(state := Dispatching, attempts := rows[id].attempts + 1,
                                        totalAttempts := rows[id].totalAttempts + 1, token := Some(token),
                                        leaseUntil := now + lease, updatedAt := now)
  {
    forall id | id in rows ensures Due(Buried(rows, now, maxAttempts)[id], now) <==> Ready(rows[id], now, maxAttempts) {
      SweepLeavesTheReady(rows, now, maxAttempts, id);
    }
    if claimed.Some? {
      var swept := Buried(rows, now, maxAttempts);
      forall other | other in rows && Ready(rows[other], now, maxAttempts) ensures !GoesFirst(rows, other, claimed.value) {
        SweepLeavesTheReady(rows, now, maxAttempts, other);
        SweepLeavesTheReady(rows, now, maxAttempts, claimed.value);
        assert !Before(swept, other, claimed.value);
      }
    }
  }

  /** So each claim takes one row off the ready ones. */
  lemma ClaimTakesOneReadyRow(rows: Table, now: real, lease: real, maxAttempts: nat, token: nat, rows': Table,
                              claimed: Option<string>)
    requires ClaimTx(rows, now, lease, maxAttempts, token, rows', claimed) && lease > 0.0
    ensures ReadyRows(rows', now, maxAttempts) ==
            ReadyRows(rows, now, maxAttempts) - if claimed.Some? then {claimed.value} else {}
  {
    ClaimLeasesTheFirstReadyRow(rows, now, lease, maxAttempts, token, rows', claimed);
  }

  ghost predicate Claims(rows: Table, rows': Table, now: real, lease: real, maxAttempts: nat, claimed: Option<string>) {
    exists token :: ClaimTx(rows, now, lease, maxAttempts, token, rows', claimed)
  }

  /** Claims made one after the other at the same time; `claimed[k]` is what the k-th was given. */
  ghost predicate ClaimsInARow(tables: seq<Table>, claimed: seq<Option<string>>, now: real, lease: real, maxAttempts: nat) {
    && |tables| == |claimed| + 1 && lease > 0.0
    && forall k :: 0 <= k < |claimed| ==> Claims(tables[k], tables[k + 1], now, lease, maxAttempts, claimed[k])
  }

  /** Nothing starves: as many claims as there are ready rows hand out every one of them. */
  lemma {:induction false} EveryReadyRowIsHandedOut(
      tables: seq<Table>, claimed: seq<Option<string>>, now: real, lease: real, maxAttempts: nat, id: string)
    requires ClaimsInARow(tables, claimed, now, lease, maxAttempts)
    requires id in ReadyRows(tables[0], now, maxAttempts) && |ReadyRows(tables[0], now, maxAttempts)| <= |claimed|
    ensures exists k :: 0 <= k < |claimed| && claimed[k] == Some(id)
  {
    var ready := ReadyRows(tables[0], now, maxAttempts);
    assert ready != {};
    assert Claims(tables[0], tables[0 + 1], now, lease, maxAttempts, claimed[0]);
    var token :| ClaimTx(tables[0], now, lease, maxAttempts, token, tables[1], claimed[0]);
    ClaimLeasesTheFirstReadyRow(tables[0], now, lease, maxAttempts, token, tables[1], claimed[0]);
    ClaimTakesOneReadyRow(tables[0], now, lease, maxAttempts, token, tables[1], claimed[0]);
    if claimed[0] != Some(id) {
      assert Ready(tables[0][id], now, maxAttempts);
      assert |ready - {claimed[0].value}| == |ready| - 1;
      forall k | 0 <= k < |claimed[1..]|
        ensures Claims(tables[1..][k], tables[1..][k + 1], now, lease, maxAttempts, claimed[1..][k])
      {
        assert Claims(tables[k + 1], tables[k + 1 + 1], now, lease, maxAttempts, claimed[k + 1]);
      }
      EveryReadyRowIsHandedOut(tables[1..], claimed[1..], now, lease, maxAttempts, id);
      var k :| 0 <= k < |claimed[1..]| && claimed[1..][k] == Some(id);
      assert claimed[k + 1] == Some(id);
    }
  }

  /** A new delivery can be handed out at once; the same content again is the stored receipt; anything else is refused. */
  lemma EnqueueAnswers(rows: Table, maxPending: nat, id: string, event: string, body: string, repository: string,
                       dagId: string, conf: string, now: real, later: real, maxAttempts: nat)
    requires now <= later && maxAttempts >= 1
    ensures var r := EnqueueTx(rows, maxPending, id, event, body, repository, dagId, conf, now);
            && (r == Err(InvalidDeliveryId) <==> !ValidId(id))
            && (ValidId(id) && id !in rows ==>
                  && (r == Err(InboxFull) <==> |set x | x in rows && rows[x].state != Dispatched| >= maxPending)
                  && (r.Err? ==> r.error == InboxFull)
                  && (r.Ok? ==>
                        && r.value.1 && r.value.0.Keys == rows.Keys + {id}
                        && (forall x :: x in rows ==> r.value.0[x] == rows[x])
                        && var d := r.value.0[id];
                           && Ready(d, later, maxAttempts) && d.attempts == d.totalAttempts == 0 && d.token.None?
                           && d.runId == RunIdOf(repository, id) && d.payload == ContentDigest(event, body)
                           && d.repository == repository && d.event == event && d.dagId == dagId && d.conf == conf))
            && (ValidId(id) && id in rows ==>
                  if rows[id].payload == ContentDigest(event, body) && rows[id].repository == repository
                  then r == Ok((rows, false)) else r == Err(DeliveryConflict))
  {
  }

  /** A redelivery is recognised by its content: the same event, body and repository, and nothing else, is the duplicate. */
  lemma RedeliveryIsRecognised(rows: Table, maxPending: nat, id: string, event: string, body: string, repository: string,
                               dagId: string, conf: string, now: real, event': string, body': string, repository': string,
                               conf': string, now': real)
    requires '\0' !in event && '\0' !in event'
    requires EnqueueTx(rows, maxPending, id, event, body, repository, dagId, conf, now).Ok? && id !in rows
    ensures var stored := EnqueueTx(rows, maxPending, id, event, body, repository, dagId, conf, now).value.0;
            EnqueueTx(stored, maxPending, id, event', body', repository', dagId, conf', now') ==
            if event' == event && body' == body && repository' == repository then Ok((stored, false))
            else Err(DeliveryConflict)
  {
    if ContentDigest(event, body) == ContentDigest(event', body') { ContentDigestSeparates(event, body, event', body'); }
  }

  /** A failure of the lease's holder that may be tried again waits at least five seconds and at most an hour, and no
      longer than it says; any other buries the delivery. */
  lemma FailureWaitsItsDelay(rows: Table, id: string, attempts: nat, token: Option<nat>, error: string, retryable: bool,
                             maxAttempts: nat, retryAfter: real, seed: nat, now: real, later: real)
    requires 1 <= attempts && HoldsLease(rows, id, token)
    ensures var rows' := FailTx(rows, id, attempts, token, error, retryable, maxAttempts, retryAfter, seed, now);
            && rows'.Keys == rows.Keys && (forall x :: x in rows && x != id ==> rows'[x] == rows[x])
            && rows'[id].lastError == Some(error) && rows'[id].token.None?
            && rows'[id].attempts == rows[id].attempts && rows'[id].totalAttempts == rows[id].totalAttempts
            && (rows'[id].state == Pending <==> retryable && attempts < maxAttempts)
            && (rows'[id].state != Pending ==> rows'[id].state == Dead && !Ready(rows'[id], later, maxAttempts))
            && now + 5.0 <= rows'[id].nextAttemptAt <= now + 3600.0
            && (retryAfter <= 3600.0 ==> now + retryAfter <= rows'[id].nextAttemptAt)
            && (rows'[id].state == Pending && rows[id].attempts < maxAttempts ==>
                  (Ready(rows'[id], later, maxAttempts) <==> rows'[id].nextAttemptAt <= later))
  {
    RetryDelayBounds(attempts, seed, retryAfter);
  }

  /** A completion by the lease's holder keeps what the far side said, and the delivery is never handed out again. */
  lemma CompletionIsFinal(rows: Table, id: string, token: Option<nat>, workOrder: Option<string>, admission: Option<string>,
                          now: real, later: real, maxAttempts: nat)
    requires HoldsLease(rows, id, token)
    ensures var rows' := CompleteTx(rows, id, token, workOrder, admission, now);
            && rows'.Keys == rows.Keys && (forall x :: x in rows && x != id ==> rows'[x] == rows[x])
            && rows'[id].state == Dispatched && rows'[id].token.None? && rows'[id].lastError.None?
            && rows'[id].workOrder == workOrder && rows'[id].admission == admission
            && rows'[id].runId == rows[id].runId && rows'[id].totalAttempts == rows[id].totalAttempts
            && !Ready(rows'[id], later, maxAttempts) && !Spent(rows'[id], later, maxAttempts)
  {
  }

  /** An operator's retry brings back a dead delivery, and only a dead one, with all its attempts; it can be handed out at
      once. */
  lemma RetryBringsBack(rows: Table, id: string, now: real, later: real, maxAttempts: nat)
    requires now <= later && maxAttempts >= 1
    ensures var r := RetryTx(rows, id, now);
            && (r.Ok? <==> id in rows && rows[id].state == Dead)
            && (r == Err(UnknownDelivery) <==> id !in rows)
            && (r.Err? && id in rows ==> r == Err(DeliveryConflict))
            && (r.Ok? ==>
                  && r.value.Keys == rows.Keys && (forall x :: x in rows && x != id ==> r.value[x] == rows[x])
                  && Ready(r.value[id], later, maxAttempts) && r.value[id].token.None?
                  && r.value[id].runId == rows[id].runId && r.value[id].totalAttempts == rows[id].totalAttempts)
  {
  }

  // ---- the inbox object ----

  class DeliveryInbox {
    const maxPending: nat
    var rows: Table

    constructor (maxPending: nat)
      requires 1 <= maxPending
      ensures rows == map[] && this.maxPending == maxPending
    {
      this.maxPending := maxPending;
      rows := map[];
    }

    method Enqueue(id: string, event: string, body: string, repository: string, dagId: string, conf: string, now: real)
      returns (r: Result<(Delivery, bool), InboxError>)
      modifies this`rows
      ensures match EnqueueTx(old(rows), maxPending, id, event, body, repository, dagId, conf, now)
              case Ok((t, isNew)) => rows == t && id in t && r == Ok((t[id], isNew))
              case Err(e) => rows == old(rows) && r == Err(e)
    {
      if !ValidId(id) { return Err(InvalidDeliveryId); }
      if id in rows {
        var stored := rows[id];
        if stored.payload != ContentDigest(event, body) || stored.repository != repository {
          return Err(DeliveryConflict);
        }
        return Ok((stored, false));
      }
      var count := |set x | x in rows && rows[x].state in {Pending, Dispatching, Dead}|;
      assert (set x | x in rows && rows[x].state in {Pending, Dispatching, Dead}) == Open(rows);
      if count >= maxPending { return Err(InboxFull); }
      rows := rows[id := NewDelivery(id, event, body, repository, dagId, conf, now)];
      r := Ok((rows[id], true));
    }

    /** `token` is the fresh random token the claim draws. */
    method Claim(now: real, lease: real, maxAttempts: nat, token: nat) returns (claimed: Option<(string, Delivery)>)
      requires 0.0 < lease && 1 <= maxAttempts
      modifies this`rows
      ensures ClaimTx(old(rows), now, lease, maxAttempts, token, rows,
                      if claimed.Some? then Some(claimed.value.0) else None)
      ensures claimed.Some? ==> claimed.value.0 in rows && claimed.value.1 == rows[claimed.value.0]
      // work is handed out exactly when there is some, and what is handed out was ready
      ensures claimed.Some? <==> exists id :: id in old(rows) && Ready(old(rows)[id], now, maxAttempts)
      ensures claimed.Some? ==> claimed.value.0 in old(rows) && Ready(old(rows)[claimed.value.0], now, maxAttempts)
    {
      rows := map id | id in rows ::
        if Exhausted(rows[id], now, maxAttempts)
        then rows[id].(state := Dead, token := None, leaseUntil := 0.0, updatedAt := now,
                       lastError := Some("dispatch_attempts_exhausted"))
        else rows[id];
      ghost var swept := Buried(old(rows), now, maxAttempts);
      assert rows == swept;
      var first: Option<string> := None;
      var todo := rows.Keys;
      while todo != {}
        invariant todo <= rows.Keys && rows == swept
        invariant first.Some? ==> first.value in rows && Due(rows[first.value], now)
        invariant forall id :: id in rows && id !in todo && Due(rows[id], now) ==>
                    first.Some? && !Before(rows, id, first.value)
      {
        var id :| id in todo;
        if Due(rows[id], now) && (first.None? || Before(rows, id, first.value)) {
          NotBeforeItself(id);
          forall x | first.Some? && x in rows && Before(rows, x, id) ensures Before(rows, x, first.value) {
            BeforeChains(rows, x, id, first.value);
          }
          first := Some(id);
        }
        todo := todo - {id};
      }
      if first.None? {
        ClaimLeasesTheFirstReadyRow(old(rows), now, lease, maxAttempts, token, rows, None);
        return None;
      }
      rows := rows[first.value := Leased(rows[first.value], token, now + lease, now)];
      ClaimLeasesTheFirstReadyRow(old(rows), now, lease, maxAttempts, token, rows, first);
      claimed := Some((first.value, rows[first.value]));
    }

    method Complete(id: string, held: Delivery, workOrder: Option<string>, admission: Option<string>, now: real)
      returns (changed: bool)
      modifies this`rows
      ensures rows == CompleteTx(old(rows), id, held.token, workOrder, admission, now)
      ensures changed <==> HoldsLease(old(rows), id, held.token)
    {
      changed := id in rows && rows[id].state == Dispatching && held.token.Some? && rows[id].token == held.token;
      if changed {
        rows := rows[id := rows[id].(state := Dispatched, token := None, leaseUntil := 0.0, lastError := None,
                                     updatedAt := now, workOrder := workOrder, admission := admission)];
      }
    }

    method Fail(id: string, held: Delivery, error: string, retryable: bool, maxAttempts: nat, retryAfter: real,
                seed: nat, now: real) returns (changed: bool)
      requires 1 <= held.attempts
      modifies this`rows
      ensures rows == FailTx(old(rows), id, held.attempts, held.token, error, retryable, maxAttempts, retryAfter, seed, now)
      ensures changed <==> HoldsLease(old(rows), id, held.token)
    {
      var state := if retryable && held.attempts < maxAttempts then Pending else Dead;
      var due := now + RetryDelay(held.attempts, seed, retryAfter);
      changed := id in rows && rows[id].state == Dispatching && held.token.Some? && rows[id].token == held.token;
      if changed {
        rows := rows[id := rows[id].(state := state, lastError := Some(error), nextAttemptAt := due,
                                     updatedAt := now, token := None, leaseUntil := 0.0)];
      }
    }

    method Retry(id: string, now: real) returns (r: Result<Delivery, InboxError>)
      modifies this`rows
      ensures match RetryTx(old(rows), id, now)
              case Ok(t) => rows == t && id in t && r == Ok(t[id])
              case Err(e) => rows == old(rows) && r == Err(e)
    {
      if id !in rows { return Err(UnknownDelivery); }
      if rows[id].state != Dead { return Err(DeliveryConflict); }
      rows := rows[id := rows[id].(state := Pending, attempts := 0, nextAttemptAt := now, updatedAt := now,
                                   token := None, leaseUntil := 0.0)];
      r := Ok(rows[id]);
    }
  }
}
