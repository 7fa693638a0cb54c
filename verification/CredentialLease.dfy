/**
 Attempt-bound credential leases. Bearers and bindings are kept by digest in the store; digests are taken to be
 injective, so the model keeps the values themselves. Fresh 128-bit identifiers are values not seen before.
 */
module CredentialLease {
  import opened Prelude
  import opened Cells
  import opened Texts

  datatype Binding = Binding(
    factoryRunId: string, dagRunId: string, taskInstanceId: string, stageId: string, sandboxId: string,
    attempt: nat, cell: CellId, epoch: nat, operationKey: string, policyDigest: string)
  {
    predicate WellFormed() {
      && BoundedText(factoryRunId) && BoundedText(dagRunId) && BoundedText(taskInstanceId) && BoundedText(stageId)
      && BoundedText(sandboxId) && BoundedText(operationKey) && BoundedText(policyDigest)
      && 1 <= epoch <= MAX_U64 && 1 <= attempt <= MAX_U64
      && "policy:" <= policyDigest
    }
  }

  const MAX_U64 := 0xFFFF_FFFF_FFFF_FFFF
  const MIN_NONCE_LEN := 16

  predicate BoundedText(s: string) { !Blank(s) && |s| <= 512 }

  /** Something is left without the blanks around it, and the whole is not too long. */
  predicate Says(s: string) { Trim(s) != "" && |s| <= 512 }

  /** A binding names every part of the work it is for, in a few words, an epoch and an attempt from 1 on, and a policy. */
  lemma WellFormedExactlyWhen(b: Binding)
    ensures b.WellFormed() <==>
              && Says(b.factoryRunId) && Says(b.dagRunId) && Says(b.taskInstanceId) && Says(b.stageId) && Says(b.sandboxId)
              && Says(b.operationKey) && Says(b.policyDigest) && (exists rest :: b.policyDigest == "policy:" + rest)
              && 1 <= b.epoch < 0x1_0000_0000_0000_0000 && 1 <= b.attempt < 0x1_0000_0000_0000_0000
  {
    if "policy:" <= b.policyDigest { assert b.policyDigest == "policy:" + b.policyDigest[7..]; }
    if rest :| b.policyDigest == "policy:" + rest { assert "policy:" <= b.policyDigest; }
  }

  datatype Handle = Handle(leaseId: string, bearer: string)

  datatype Lease = Lease(
    bearer: string, capability: string, purpose: string, binding: Binding,
    expiresAt: real, process: Option<string>, revoked: Option<string>)

  datatype Reason =
    | UnknownLease | InvalidBearer | AlreadyRevoked | Expired | BindingMismatch | EpochStale
    | ProcessMismatch | ProviderUnavailable

  datatype Denial = Denial(leaseId: string, reason: Reason, binding: Binding)

  datatype Store = Store(leases: map<string, Lease>, denials: seq<Denial>)

  datatype Answer = Credential(value: string) | Denied(reason: Reason) | NoCredential | Malformed

  function Deny(s: Store, h: Handle, b: Binding, reason: Reason): (Store, Answer) {
    (s.(denials := s.denials + [Denial(h.leaseId, reason, b)]), Denied(reason))
  }

  /** The checks of `redeem` that look at the lease row, in order. */
  function Refusal(s: Store, h: Handle, b: Binding, epoch: Option<nat>, now: real): Option<Reason> {
    if h.leaseId !in s.leases then Some(UnknownLease)
    else
      var l := s.leases[h.leaseId];
      if l.bearer != h.bearer then Some(InvalidBearer)
      else if l.revoked.Some? then Some(AlreadyRevoked)
      else if l.expiresAt <= now then Some(Expired)
      else if l.binding != b then Some(BindingMismatch)
      else if epoch.Some? && epoch.value != b.epoch then Some(EpochStale)
      else None
  }

  function Bound(s: Store, h: Handle, nonce: string): Store
    requires h.leaseId in s.leases
  {
    var l := s.leases[h.leaseId];
    if l.process.Some? then s else s.(leases := s.leases[h.leaseId := l.(process := Some(nonce))])
  }

  /**
   `redeem`: its two format checks and its locked body. `epoch` is what the epoch reader answered before the lock was taken, and `provided`
   is what each configured provider would return now. A denial commits, with the process binding made so far;
   a provider without a credential raises, and the transaction rolls back.
   */
  function RedeemTx(s: Store, h: Handle, b: Binding, nonce: string, epoch: Option<nat>, now: real,
                    provided: map<string, string>): (Store, Answer)
  {
    if !b.WellFormed() || |nonce| < MIN_NONCE_LEN then (s, Malformed)
    else match Refusal(s, h, b, epoch, now)
    case Some(reason) => Deny(s, h, b, reason)
    case None =>
      var bound := Bound(s, h, nonce);
      var l := bound.leases[h.leaseId];
      if l.process != Some(nonce) then Deny(bound, h, b, ProcessMismatch)
      else if l.capability !in provided then Deny(bound, h, b, ProviderUnavailable)
      else if provided[l.capability] == "" then (s, NoCredential)
      else (bound, Credential(provided[l.capability]))
  }

  /** Which leases one revocation call covers. */
  datatype Scope =
    | OneLease(leaseId: string)
    | WholeEpoch(cell: CellId, epoch: nat)
    | EarlierAttempts(cell: CellId, epoch: nat, attempt: nat)
  {
    predicate Covers(id: string, l: Lease) {
      match this
      case OneLease(x) => id == x
      case WholeEpoch(c, e) => l.binding.cell == c && l.binding.epoch == e
      case EarlierAttempts(c, e, n) => l.binding.cell == c && l.binding.epoch == e && l.binding.attempt < n
    }
  }

  function RevokeTx(s: Store, scope: Scope, reason: string): Store {
    s.(leases := map id | id in s.leases ::
      if scope.Covers(id, s.leases[id]) && s.leases[id].revoked.None?
      then s.leases[id].(revoked := Some(reason)) else s.leases[id])
  }

  datatype MintError = BadBinding | NotExplicit | NoProvider | BadPurpose | BadTtl | StaleCell

  /** The checks `mint` makes before it inserts. A capability with a dot is never one of the wildcard words. */
  function MintCheck(b: Binding, capability: string, purpose: string, ttl: real,
                     providers: set<string>, epoch: Option<nat>): Option<MintError>
  {
    if !b.WellFormed() then Some(BadBinding)
    else if '.' !in capability then Some(NotExplicit)
    else if capability !in providers then Some(NoProvider)
    else if purpose == "" || |purpose| > 128 then Some(BadPurpose)
    else if ttl <= 0.0 || ttl > 3600.0 then Some(BadTtl)
    else if epoch.Some? && epoch.value != b.epoch then Some(StaleCell)
    else None
  }

  function MintTx(s: Store, h: Handle, b: Binding, capability: string, purpose: string, expiresAt: real): Store {
    s.(leases := s.leases[h.leaseId := Lease(h.bearer, capability, purpose, b, expiresAt, None, None)])
  }

  // ---- what single transactions guarantee ----

  /** Leases are never deleted, their content never changes, a process binding is never replaced, and a
      revocation is never undone. */
  ghost predicate Hardened(s: Store, s': Store) {
    && s.denials <= s'.denials
    && forall id :: id in s.leases ==>
         && id in s'.leases
         && s'.leases[id].binding == s.leases[id].binding
         && s'.leases[id].bearer == s.leases[id].bearer
         && (s.leases[id].process.Some? ==> s'.leases[id].process == s.leases[id].process)
         && (s.leases[id].revoked.Some? ==> s'.leases[id].revoked == s.leases[id].revoked)
  }

  /** Everything that had to be true for a credential to come out, and which one it is: the one that the provider of the
      lease's own capability has. */
  lemma CredentialOnlyForALiveLease(s: Store, h: Handle, b: Binding, nonce: string, epoch: Option<nat>, now: real,
                                    provided: map<string, string>)
    ensures var (s', answer) := RedeemTx(s, h, b, nonce, epoch, now, provided);
            answer.Credential? <==>
              && b.WellFormed() && |nonce| >= MIN_NONCE_LEN
              && h.leaseId in s.leases
              && s.leases[h.leaseId].bearer == h.bearer
              && s.leases[h.leaseId].binding == b
              && s.leases[h.leaseId].revoked.None?
              && now < s.leases[h.leaseId].expiresAt
              && (epoch.None? || epoch.value == b.epoch)
              && s.leases[h.leaseId].process in {None, Some(nonce)}
              && s.leases[h.leaseId].capability in provided
              && provided[s.leases[h.leaseId].capability] != ""
    ensures var answer := RedeemTx(s, h, b, nonce, epoch, now, provided).1;
            answer.Credential? ==> answer.value == provided[s.leases[h.leaseId].capability]
  {
  }

  /** Every other answer, and exactly when it is given: the first fault decides. */
  lemma EveryRefusalNamesTheFirstFault(s: Store, h: Handle, b: Binding, nonce: string, epoch: Option<nat>, now: real,
                                       provided: map<string, string>)
    ensures var answer := RedeemTx(s, h, b, nonce, epoch, now, provided).1;
            var asked := b.WellFormed() && |nonce| >= MIN_NONCE_LEN;
            && (answer == Malformed <==> !asked)
            && (answer == Denied(UnknownLease) <==> asked && h.leaseId !in s.leases)
            && (asked && h.leaseId in s.leases ==>
                  var l := s.leases[h.leaseId];
                  var live := l.bearer == h.bearer && l.revoked.None? && now < l.expiresAt;
                  var fenced := live && l.binding == b && (epoch.None? || epoch.value == l.binding.epoch);
                  var mine := fenced && (l.process.None? || l.process == Some(nonce));
                  && (answer == Denied(InvalidBearer) <==> l.bearer != h.bearer)
                  && (answer == Denied(AlreadyRevoked) <==> l.bearer == h.bearer && l.revoked.Some?)
                  && (answer == Denied(Expired) <==> l.bearer == h.bearer && l.revoked.None? && l.expiresAt <= now)
                  && (answer == Denied(BindingMismatch) <==> live && l.binding != b)
                  && (answer == Denied(EpochStale) <==> live && l.binding == b && epoch.Some? && epoch.value != b.epoch)
                  && (answer == Denied(ProcessMismatch) <==> fenced && l.process.Some? && l.process.value != nonce)
                  && (answer == Denied(ProviderUnavailable) <==> mine && l.capability !in provided)
                  && (answer == NoCredential <==> mine && l.capability in provided && provided[l.capability] == ""))
  {
  }

  /** What a redeem leaves behind: a credential binds the lease to this process, a denial is recorded, and no
      other lease changes. */
  lemma RedeemLeavesBehind(s: Store, h: Handle, b: Binding, nonce: string, epoch: Option<nat>, now: real,
                           provided: map<string, string>)
    ensures var (s', answer) := RedeemTx(s, h, b, nonce, epoch, now, provided);
            && Hardened(s, s')
            && s'.leases.Keys == s.leases.Keys
            && (forall id :: id in s.leases ==> s'.leases[id].revoked == s.leases[id].revoked)
            && (answer.NoCredential? || answer.Malformed? ==> s' == s)
            && (answer.Denied? ==> s'.denials == s.denials + [Denial(h.leaseId, answer.reason, b)])
            && (answer.Denied? && answer.reason != ProviderUnavailable ==> s'.leases == s.leases)
            && (answer == Denied(ProviderUnavailable) ==>
                  && h.leaseId in s.leases
                  && s'.leases == s.leases[h.leaseId := s.leases[h.leaseId].(process := Some(nonce))])
            && (answer.Credential? ==>
                  && h.leaseId in s.leases
                  && s'.leases == s.leases[h.leaseId := s.leases[h.leaseId].(process := Some(nonce))]
                  && s'.denials == s.denials)
  {
    if Refusal(s, h, b, epoch, now).None? {
      BindingTheProcess(s, h, nonce);
    }
  }

  /** A denial is only audit: one entry naming lease and reason, and every later redeem is answered as without it. */
  lemma DenialIsOnlyAudit(s: Store, h: Handle, b: Binding, reason: Reason, later: Handle, b': Binding, nonce: string,
                          epoch: Option<nat>, now: real, provided: map<string, string>)
    ensures var denied := Deny(s, h, b, reason).0;
            && denied.denials == s.denials + [Denial(h.leaseId, reason, b)]
            && RedeemTx(denied, later, b', nonce, epoch, now, provided).1 == RedeemTx(s, later, b', nonce, epoch, now, provided).1
            && RedeemTx(denied, later, b', nonce, epoch, now, provided).0.leases
               == RedeemTx(s, later, b', nonce, epoch, now, provided).0.leases
  {
  }

  lemma BindingTheProcess(s: Store, h: Handle, nonce: string)
    requires h.leaseId in s.leases
    ensures Hardened(s, Bound(s, h, nonce)) && Bound(s, h, nonce).leases.Keys == s.leases.Keys
    ensures Bound(s, h, nonce).denials == s.denials
    ensures forall id :: id in s.leases ==> Bound(s, h, nonce).leases[id].revoked == s.leases[id].revoked
    ensures Bound(s, h, nonce).leases[h.leaseId].process == Some(nonce) ==>
              Bound(s, h, nonce).leases == s.leases[h.leaseId := s.leases[h.leaseId].(process := Some(nonce))]
  {
    var l := s.leases[h.leaseId];
    if l.process == Some(nonce) { assert s.leases[h.leaseId := l.(process := Some(nonce))] == s.leases; }
  }

  /** A revocation leaves nothing in its scope live, gives its reason to what was live, and touches nothing else. */
  lemma RevocationIsExact(s: Store, scope: Scope, reason: string)
    ensures var s' := RevokeTx(s, scope, reason);
            && Hardened(s, s')
            && s'.leases.Keys == s.leases.Keys && s'.denials == s.denials
            && forall id :: id in s.leases ==>
                 && (scope.Covers(id, s.leases[id]) ==> s'.leases[id].revoked.Some?)
                 && (scope.Covers(id, s.leases[id]) && s.leases[id].revoked.None? ==>
                       s'.leases[id] == s.leases[id].(revoked := Some(reason)))
                 && (!scope.Covers(id, s.leases[id]) || s.leases[id].revoked.Some? ==> s'.leases[id] == s.leases[id])
  {
  }

  /** Which live leases each of the three calls withdraws. */
  lemma WhatEachRevocationWithdraws(s: Store, id: string, x: string, c: CellId, e: nat, n: nat, reason: string)
    requires id in s.leases && s.leases[id].revoked.None?
    ensures var b := s.leases[id].binding;
            && (RevokeTx(s, OneLease(x), reason).leases[id].revoked.Some? <==> id == x)
            && (RevokeTx(s, WholeEpoch(c, e), reason).leases[id].revoked.Some? <==> b.cell == c && b.epoch == e)
            && (RevokeTx(s, EarlierAttempts(c, e, n), reason).leases[id].revoked.Some? <==>
                  b.cell == c && b.epoch == e && b.attempt < n)
  {
  }

  // ---- from the mint to the credential ----

  /** What may be minted: one named capability that has a provider, for a bounded purpose and time, under a well-formed
      binding to the current epoch. */
  lemma MintableExactlyWhen(b: Binding, capability: string, purpose: string, ttl: real, providers: set<string>,
                            epoch: Option<nat>)
    ensures MintCheck(b, capability, purpose, ttl, providers, epoch) == None <==>
              && b.WellFormed() && (exists i :: 0 <= i < |capability| && capability[i] == '.')
              && capability in providers && 1 <= |purpose| <= 128 && 0.0 < ttl <= 3600.0
              && (epoch.None? || epoch.value == b.epoch)
  {
  }

  /**
   A minted lease is worth its credential: until it expires the first process that redeems it gets what its capability's
   provider has, and gets it again; no other process does, and nobody after it expired or was revoked.
   */
  lemma MintedLeaseRedeems(s: Store, drawn: Handle, b: Binding, capability: string, purpose: string, ttl: real, minted: real,
                           providers: set<string>, epoch: Option<nat>, nonce: string, other: string, now: real,
                           provided: map<string, string>, scope: Scope, reason: string)
    requires MintCheck(b, capability, purpose, ttl, providers, epoch) == None
    requires |nonce| >= MIN_NONCE_LEN && |other| >= MIN_NONCE_LEN && other != nonce
    requires capability in provided && provided[capability] != ""
    ensures var held := MintTx(s, drawn, b, capability, purpose, minted + ttl);
            var (used, first) := RedeemTx(held, drawn, b, nonce, epoch, now, provided);
            && held.leases.Keys == s.leases.Keys + {drawn.leaseId} && held.denials == s.denials
            && (forall id :: id in s.leases && id != drawn.leaseId ==> held.leases[id] == s.leases[id])
            && (minted + ttl <= now ==> first == Denied(Expired))
            && (now < minted + ttl ==>
                  && first == Credential(provided[capability])
                  && RedeemTx(used, drawn, b, nonce, epoch, now, provided) == (used, first)
                  && RedeemTx(used, drawn, b, other, epoch, now, provided).1 == Denied(ProcessMismatch)
                  && (scope.Covers(drawn.leaseId, used.leases[drawn.leaseId]) ==>
                        RedeemTx(RevokeTx(used, scope, reason), drawn, b, nonce, epoch, now, provided).1 == Denied(AlreadyRevoked)))
  {
    var held := MintTx(s, drawn, b, capability, purpose, minted + ttl);
    if now < minted + ttl {
      var used := Bound(held, drawn, nonce);
      assert RedeemTx(held, drawn, b, nonce, epoch, now, provided) == (used, Credential(provided[capability]));
      assert Bound(used, drawn, nonce) == used;
    }
  }

  // ---- the broker object ----

  class CredentialLeaseBroker {
    const providers: set<string>
    var leases: map<string, Lease>
    var denials: seq<Denial>

    ghost function State(): Store reads this { Store(leases, denials) }

    constructor (providers: set<string>)
      ensures State() == Store(map[], []) && this.providers == providers
    {
      this.providers := providers;
      leases, denials := map[], [];
    }

    /** `epoch` is the epoch reader's answer, `fresh` the random identifier and bearer drawn by the call. */
    method Mint(b: Binding, capability: string, purpose: string, ttl: real, now: real,
                epoch: Option<nat>, drawn: Handle) returns (r: Result<Handle, MintError>)
      requires drawn.leaseId !in leases
      modifies this`leases
      ensures match MintCheck(b, Trim(capability), Trim(purpose), ttl, providers, epoch)
              case Some(e) => r == Err(e) && State() == old(State())
              case None =>
                r == Ok(drawn) && State() == MintTx(old(State()), drawn, b, Trim(capability), Trim(purpose), now + ttl)
    {
      if !b.WellFormed() { return Err(BadBinding); }
      var name, why := Trim(capability), Trim(purpose);
      if '.' !in name { return Err(NotExplicit); }
      if name !in providers { return Err(NoProvider); }
      if why == "" || |why| > 128 { return Err(BadPurpose); }
      if ttl <= 0.0 || ttl > 3600.0 { return Err(BadTtl); }
      if epoch.Some? && epoch.value != b.epoch { return Err(StaleCell); }
      leases := leases[drawn.leaseId := Lease(drawn.bearer, name, why, b, now + ttl, None, None)];
      r := Ok(drawn);
    }

    method Refuse(h: Handle, b: Binding, reason: Reason) returns (answer: Answer)
      modifies this`denials
      ensures (State(), answer) == Deny(old(State()), h, b, reason)
    {
      denials := denials + [Denial(h.leaseId, reason, b)];
      answer := Denied(reason);
    }

    method Redeem(h: Handle, b: Binding, nonce: string, epoch: Option<nat>, now: real, provided: map<string, string>)
      returns (answer: Answer)
      modifies this
      ensures (State(), answer) == RedeemTx(old(State()), h, b, nonce, epoch, now, provided)
    {
      if !b.WellFormed() || |nonce| < MIN_NONCE_LEN { return Malformed; }
      if h.leaseId !in leases { answer := Refuse(h, b, UnknownLease); return; }
      var row := leases[h.leaseId];
      if row.bearer != h.bearer { answer := Refuse(h, b, InvalidBearer); return; }
      if row.revoked.Some? { answer := Refuse(h, b, AlreadyRevoked); return; }
      if row.expiresAt <= now { answer := Refuse(h, b, Expired); return; }
      if row.binding != b { answer := Refuse(h, b, BindingMismatch); return; }
      if epoch.Some? && epoch.value != b.epoch { answer := Refuse(h, b, EpochStale); return; }
      var saved := leases;
      if row.process.None? {
        leases := leases[h.leaseId := row.(process := Some(nonce))];
        row := leases[h.leaseId];
      }
      assert leases == saved[h.leaseId := row];
      if row.process != Some(nonce) { answer := Refuse(h, b, ProcessMismatch); return; }
      if row.capability !in provided { answer := Refuse(h, b, ProviderUnavailable); return; }
      if provided[row.capability] == "" {
        leases := saved;
        return NoCredential;
      }
      answer := Credential(provided[row.capability]);
    }

    method Revoke(scope: Scope, reason: string) returns (count: nat)
      modifies this`leases
      ensures State() == RevokeTx(old(State()), scope, reason)
      ensures count == |set id | id in old(leases) && scope.Covers(id, old(leases)[id]) && old(leases)[id].revoked.None?|
    {
      var matching := set id | id in leases && scope.Covers(id, leases[id]) && leases[id].revoked.None?;
      leases := map id | id in leases :: if id in matching then leases[id].(revoked := Some(reason)) else leases[id];
      count := |matching|;
    }
  }
}
