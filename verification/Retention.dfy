/**
 Retention of candidate evidence: objects kept under leases that may be extended, pinned and unpinned, and a sweep that
 removes what nothing holds any longer. The class runs one call at a time; the machine after it lets the calls of
 several processes interleave between reading a lease and writing it back, and lets a process die at any step.
 */
module Retention {
  import opened Prelude
  import Runs

  type Token = string

  datatype Lease = Lease(digest: Token, candidate: string, retainedAt: int, expiresAt: int, pinned: bool)

  /** A lease file holds a lease or something that cannot be read as one. */
  datatype LeaseFile = Good(lease: Lease) | Bad

  datatype Store = Store(objects: set<Token>, leases: map<Token, LeaseFile>)

  datatype Refusal = BadTtl | UnreadableLease | OtherIdentity | NoLease | NoObject

  function RetainTx(s: Store, d: Token, candidate: string, ttl: int, now: int): (Store, Result<Lease, Refusal>) {
    if ttl <= 0 then (s, Err(BadTtl))
    else
      var kept := s.(objects := s.objects + {d});
      if d !in s.leases then
        var lease := Lease(d, candidate, now, now + ttl, false);
        (kept.(leases := s.leases[d := Good(lease)]), Ok(lease))
      else if s.leases[d].Bad? then (kept, Err(UnreadableLease))
      else
        var current := s.leases[d].lease;
        if current.digest != d || current.candidate != candidate then (kept, Err(OtherIdentity))
        else
          var lease := current.(expiresAt := Max(current.expiresAt, now + ttl));
          (kept.(leases := s.leases[d := Good(lease)]), Ok(lease))
  }

  function SetPinTx(s: Store, d: Token, pinned: bool): (Store, Result<Lease, Refusal>) {
    if d !in s.leases then (s, Err(NoLease))
    else if s.leases[d].Bad? then (s, Err(UnreadableLease))
    else if d !in s.objects then (s, Err(NoObject))
    else
      var lease := s.leases[d].lease.(pinned := pinned);
      (s.(leases := s.leases[d := Good(lease)]), Ok(lease))
  }

  // ---- the sweep ----

  /** A readable lease under its own name whose object is there. */
  predicate Sound(s: Store, d: Token) {
    d in s.leases && s.leases[d].Good? && s.leases[d].lease.digest == d && d in s.objects
  }

  /** Exactly these are removed: expired, unpinned, and sound. */
  predicate Sweepable(s: Store, d: Token, now: int) {
    Sound(s, d) && !s.leases[d].lease.pinned && s.leases[d].lease.expiresAt <= now
  }

  function Swept(s: Store, gone: set<Token>): Store {
    Store(s.objects - gone, map d | d in s.leases && d !in gone :: s.leases[d])
  }

  // ---- what single calls are for ----

  /**
   A retention succeeds exactly for a positive time, where there is no lease yet or a readable one of the same candidate.
   The object is then there, and the lease lasts at least that long and no shorter than before; an earlier pin and the
   time of the first retention stay.
   */
  lemma RetainedExactlyWhen(s: Store, d: Token, candidate: string, ttl: int, now: int)
    ensures var (s', r) := RetainTx(s, d, candidate, ttl, now);
            && (r.Ok? <==>
                  ttl > 0 && (d in s.leases ==>
                                s.leases[d].Good? && s.leases[d].lease.digest == d && s.leases[d].lease.candidate == candidate))
            && (r == Err(BadTtl) <==> ttl <= 0)
            && (r == Err(UnreadableLease) <==> ttl > 0 && d in s.leases && s.leases[d].Bad?)
            && (r.Err? ==> s'.leases == s.leases)
            && s'.objects == (if ttl > 0 then s.objects + {d} else s.objects)
            && (r.Ok? ==>
                  && s'.leases == s.leases[d := Good(r.value)]
                  && r.value.digest == d && r.value.candidate == candidate
                  && now + ttl <= r.value.expiresAt
                  && (d !in s.leases ==> r.value.expiresAt == now + ttl && !r.value.pinned && r.value.retainedAt == now)
                  && (d in s.leases ==>
                        var was := s.leases[d].lease;
                        && r.value.pinned == was.pinned && r.value.retainedAt == was.retainedAt
                        && was.expiresAt <= r.value.expiresAt && r.value.expiresAt in {was.expiresAt, now + ttl}))
  {
  }

  /** A pin or an unpin needs a readable lease and its object, and changes nothing but the pin. */
  lemma PinnedExactlyWhen(s: Store, d: Token, pinned: bool)
    ensures var (s', r) := SetPinTx(s, d, pinned);
            && (r.Ok? <==> d in s.leases && s.leases[d].Good? && d in s.objects)
            && (r.Err? ==> s' == s)
            && (r.Ok? ==>
                  && s' == Store(s.objects, s.leases[d := Good(r.value)])
                  && r.value.pinned == pinned && r.value.(pinned := s.leases[d].lease.pinned) == s.leases[d].lease)
  {
  }

  /**
   What a retention and a pin are worth. What has been retained is swept from the end of its lease on, and not before;
   while it is pinned it is not swept at all; once it is unpinned the end of its lease counts again.
   */
  lemma RetainedIsSweptOnlyWhenUnheld(s: Store, d: Token, candidate: string, ttl: int, now: int, later: int)
    requires RetainTx(s, d, candidate, ttl, now).1.Ok?
    ensures var (held, r) := RetainTx(s, d, candidate, ttl, now);
            var (pinned, p) := SetPinTx(held, d, true);
            var (unpinned, u) := SetPinTx(pinned, d, false);
            && p.Ok? && u.Ok?
            && (Sweepable(held, d, later) <==> !r.value.pinned && r.value.expiresAt <= later)
            && (d !in s.leases ==> (Sweepable(held, d, later) <==> now + ttl <= later))
            && !Sweepable(pinned, d, later)
            && (Sweepable(unpinned, d, later) <==> r.value.expiresAt <= later)
  {
  }

  lemma SweptOneMore(was: Store, removed: seq<Token>, d: Token)
    ensures var s := Swept(was, set x | x in removed);
            Swept(was, set x | x in removed + [d]) ==
            Store(s.objects - {d}, map x | x in s.leases && x != d :: s.leases[x])
  {
    assert (set x | x in removed + [d]) == (set x | x in removed) + {d};
  }

  class RetentionStore {
    var objects: set<Token>
    var leases: map<Token, LeaseFile>

    ghost function State(): Store reads this { Store(objects, leases) }

    constructor ()
      ensures State() == Store({}, map[])
    {
      objects, leases := {}, map[];
    }

    method Retain(d: Token, candidate: string, ttl: int, now: int) returns (r: Result<Lease, Refusal>)
      modifies this
      ensures (State(), r) == RetainTx(old(State()), d, candidate, ttl, now)
    {
      if ttl <= 0 { return Err(BadTtl); }
      objects := objects + {d};
      var expiry, pinned, retainedAt := now + ttl, false, now;
      if d in leases {
        if leases[d].Bad? { return Err(UnreadableLease); }
        var current := leases[d].lease;
        if current.digest != d || current.candidate != candidate { return Err(OtherIdentity); }
        expiry, pinned, retainedAt := Max(current.expiresAt, expiry), current.pinned, current.retainedAt;
      }
      var lease := Lease(d, candidate, retainedAt, expiry, pinned);
      leases := leases[d := Good(lease)];
      r := Ok(lease);
    }

    method SetPin(d: Token, pinned: bool) returns (r: Result<Lease, Refusal>)
      modifies this`leases
      ensures (State(), r) == SetPinTx(old(State()), d, pinned)
    {
      if d !in leases { return Err(NoLease); }
      if leases[d].Bad? { return Err(UnreadableLease); }
      if d !in objects { return Err(NoObject); }
      var lease := leases[d].lease.(pinned := pinned);
      leases := leases[d := Good(lease)];
      r := Ok(lease);
    }

    /**
     The names are the lease files found when the sweep began; each goes into exactly one of the three lists. An
     object whose place has been redirected elsewhere is refused when it would be removed, and kept.
     */
    method Sweep(names: seq<Token>, now: int, dryRun: bool, redirected: set<Token>)
      returns (removed: seq<Token>, retained: seq<Token>, malformed: seq<Token>)
      requires forall d :: d in names <==> d in leases
      requires forall i, j :: 0 <= i < j < |names| ==> names[i] != names[j]
      modifies this
      ensures forall d :: d in removed <==> Sweepable(old(State()), d, now) && (dryRun || d !in redirected)
      ensures forall d :: d in retained <==> Sound(old(State()), d) && !Sweepable(old(State()), d, now)
      ensures forall d :: d in malformed <==>
                d in old(leases)
                && (!Sound(old(State()), d) || (Sweepable(old(State()), d, now) && !dryRun && d in redirected))
      ensures State() == if dryRun then old(State()) else Swept(old(State()), set d | d in removed)
      // which those are: unpinned, expired, under a readable lease of their own, and there
      ensures forall d :: d in removed ==>
                d in old(leases) && old(leases)[d].Good? && d in old(objects)
                && var lease := old(leases)[d].lease; lease.digest == d && !lease.pinned && lease.expiresAt <= now
      ensures forall d :: d in old(leases) && old(leases)[d].Good? && d in old(objects) && (dryRun || d !in redirected) ==>
                var lease := old(leases)[d].lease;
                lease.digest == d && !lease.pinned && lease.expiresAt <= now ==> d in removed
    {
      removed, retained, malformed := [], [], [];
      ghost var was := State();
      for i := 0 to |names|
        invariant forall d :: d in removed <==> d in names[..i] && Sweepable(was, d, now) && (dryRun || d !in redirected)
        invariant forall d :: d in retained <==> d in names[..i] && Sound(was, d) && !Sweepable(was, d, now)
        invariant forall d :: d in malformed <==>
                    d in names[..i] && (!Sound(was, d) || (Sweepable(was, d, now) && !dryRun && d in redirected))
        invariant State() == if dryRun then was else Swept(was, set d | d in removed)
      {
        var d := names[i];
        assert names[..i + 1] == names[..i] + [d];
        assert d !in names[..i];
        if leases[d].Bad? || leases[d].lease.digest != d || d !in objects {
          malformed := malformed + [d];
        } else if leases[d].lease.pinned || leases[d].lease.expiresAt > now {
          retained := retained + [d];
        } else if !dryRun && d in redirected {
          malformed := malformed + [d];
        } else {
          if !dryRun {
            objects := objects - {d};
            leases := map x | x in leases && x != d :: leases[x];
          }
          SweptOneMore(was, removed, d);
          removed := removed + [d];
        }
      }
      assert names[..|names|] == names;
    }
  }

  // ---- processes side by side ----

  /**
   Retain, pin, unpin and sweep run in separate processes and take no lock: each reads a lease, and later writes it
   back or removes it. A call is what a process holds between the two.
   */
  datatype Call =
    | Retaining(d: Token, candidate: string, until: int, now: int, seen: Option<Lease>)
    | Pinning(d: Token, pinned: bool, read: Lease)
    | Sweeping(d: Token)      // has read a lease that lets it remove the object
    | Unlinking(d: Token)     // has removed the object
  {
    /** The lease a retention or a pin writes back. */
    function Written(): Lease
      requires Retaining? || Pinning?
    {
      if Pinning? then read.(pinned := pinned)
      else if seen.Some? then seen.value.(expiresAt := Max(seen.value.expiresAt, until))
      else Lease(d, candidate, now, until, false)
    }

    /** Completing this call loses an object, or a lease that lasts until then. */
    predicate LosesPromise(token: Token, time: int) {
      d == token && (Sweeping? || Unlinking? || Written().expiresAt < time)
    }

    /** Completing this call loses an object or the pin on it. An unpin withdraws the pin, which loses nothing. */
    predicate LosesPin(token: Token) {
      d == token && (Sweeping? || Unlinking? || (Retaining? && !Written().pinned))
    }
  }

  /**
   `promises` are the retentions granted, by token and time, until a sweep at or after that time has read the lease;
   `pins` are the pins granted and not withdrawn.
   */
  datatype Sys = Sys(store: Store, calls: map<nat, Call>, promises: set<(Token, int)>, pins: set<Token>)

  datatype Action =
    | CopyObject(d: Token)
    | RetainRead(p: nat, d: Token, candidate: string, ttl: int, now: int)
    | RetainWrite(p: nat)
    | PinRead(p: nat, d: Token, pinned: bool)
    | PinWrite(p: nat)
    | SweepRead(p: nat, d: Token, now: int)
    | SweepRemove(p: nat)
    | SweepUnlink(p: nat)
    | Die(p: nat)

  function LeaseOf(s: Store, d: Token): Option<Lease> {
    if d in s.leases && s.leases[d].Good? then Some(s.leases[d].lease) else None
  }

  ghost predicate Init(s: Sys) { s == Sys(Store({}, map[]), map[], {}, {}) }

  ghost predicate ReadStep(s: Sys, a: Action, s': Sys) {
    match a
    case CopyObject(d) => s' == s.(store := s.store.(objects := s.store.objects + {d}))
    case RetainRead(p, d, candidate, ttl, now) =>
      && p !in s.calls && ttl > 0
      && (d in s.store.leases ==>
            && s.store.leases[d].Good?
            && s.store.leases[d].lease.digest == d && s.store.leases[d].lease.candidate == candidate)
      && s' == s.(calls := s.calls[p := Retaining(d, candidate, now + ttl, now, LeaseOf(s.store, d))])
    case PinRead(p, d, pinned) =>
      && p !in s.calls && LeaseOf(s.store, d).Some? && d in s.store.objects
      && s' == s.(calls := s.calls[p := Pinning(d, pinned, LeaseOf(s.store, d).value)])
    case SweepRead(p, d, now) =>
      && p !in s.calls && Sweepable(s.store, d, now)
      && s' == s.(calls := s.calls[p := Sweeping(d)],
                  promises := set x | x in s.promises && !(x.0 == d && x.1 <= now))
    case Die(p) => s' == s.(calls := s.calls - {p})
    case _ => false
  }

  ghost predicate WriteStep(s: Sys, a: Action, s': Sys) {
    match a
    case RetainWrite(p) =>
      && p in s.calls && s.calls[p].Retaining?
      && var call := s.calls[p];
         s' == s.(store := s.store.(leases := s.store.leases[call.d := Good(call.Written())]),
                  calls := s.calls - {p}, promises := s.promises + {(call.d, call.until)})
    case PinWrite(p) =>
      && p in s.calls && s.calls[p].Pinning?
      && var call := s.calls[p];
         s' == s.(store := s.store.(leases := s.store.leases[call.d := Good(call.Written())]),
                  calls := s.calls - {p}, pins := if call.pinned then s.pins + {call.d} else s.pins - {call.d})
    case SweepRemove(p) =>
      && p in s.calls && s.calls[p].Sweeping? && s.calls[p].d in s.store.objects
      && s' == s.(store := s.store.(objects := s.store.objects - {s.calls[p].d}),
                  calls := s.calls[p := Unlinking(s.calls[p].d)])
    case SweepUnlink(p) =>
      && p in s.calls && s.calls[p].Unlinking?
      && s' == s.(store := s.store.(leases := s.store.leases - {s.calls[p].d}), calls := s.calls - {p})
    case _ => false
  }

  ghost predicate StepAction(s: Sys, a: Action, s': Sys) { ReadStep(s, a, s') || WriteStep(s, a, s') }

  ghost predicate Next(s: Sys, s': Sys) { exists a :: StepAction(s, a, s') }

  // ---- what a grant is worth ----

  /** A retention until a time, or a pin. */
  datatype Grant = Promise(d: Token, until: int) | Pin(d: Token)
  {
    predicate InForce(s: Sys) { if Promise? then (d, until) in s.promises else d in s.pins }

    predicate Honoured(s: Sys) {
      && d in s.store.objects
      && LeaseOf(s.store, d).Some?
      && (if Promise? then until <= LeaseOf(s.store, d).value.expiresAt else LeaseOf(s.store, d).value.pinned)
    }

    predicate LostBy(call: Call) { if Promise? then call.LosesPromise(d, until) else call.LosesPin(d) }

    /** The object is there and the lease holds it, and no call in progress loses it. */
    ghost predicate Secure(s: Sys) { Honoured(s) && forall p :: p in s.calls ==> !LostBy(s.calls[p]) }
  }

  /** The grant a step makes, if it makes one. */
  function Granted(s: Sys, a: Action): Option<Grant> {
    if a.RetainWrite? && a.p in s.calls && s.calls[a.p].Retaining? then Some(Promise(s.calls[a.p].d, s.calls[a.p].until))
    else if a.PinWrite? && a.p in s.calls && s.calls[a.p].Pinning? && s.calls[a.p].pinned then Some(Pin(s.calls[a.p].d))
    else None
  }

  /**
   What can be checked when a grant is about to be made: its object is there, and no other call in progress on the
   object is a sweep, or goes on to write back a lease that it read before and that falls short of the grant.
   */
  ghost predicate Safe(s: Sys, a: Action) {
    match Granted(s, a)
    case None => true
    case Some(g) => g.d in s.store.objects && forall q :: q in s.calls && q != a.p ==> !g.LostBy(s.calls[q])
  }

  /** A secure grant stays secure under every step, as long as it is in force: what is read from now on reflects it. */
  lemma SecureStays(s: Sys, a: Action, s': Sys, g: Grant)
    requires StepAction(s, a, s') && g.InForce(s) && g.Secure(s) && g.InForce(s')
    ensures g.Secure(s')
  {
    if WriteStep(s, a, s') {
      assert !g.LostBy(s.calls[a.p]);
    }
  }

  lemma GrantIsSecureExactlyWhenSafe(s: Sys, a: Action, s': Sys, g: Grant)
    requires StepAction(s, a, s') && Granted(s, a) == Some(g)
    ensures g.InForce(s') && (g.Secure(s') <==> Safe(s, a))
  {
    assert forall q :: q in s'.calls <==> q in s.calls && q != a.p;
  }

  /** Steps after s during which the grant is in force. */
  ghost predicate Continues(more: seq<Sys>, g: Grant) {
    && more != []
    && (forall k :: 0 <= k < |more| - 1 ==> Next(more[k], more[k + 1]))
    && (forall k :: 0 <= k < |more| ==> g.InForce(more[k]))
  }

  lemma {:induction false} SecureGrantsLast(more: seq<Sys>, g: Grant, n: nat)
    requires Continues(more, g) && g.Secure(more[0]) && n < |more|
    ensures g.Secure(more[n])
  {
    if n > 0 {
      SecureGrantsLast(more, g, n - 1);
      assert Next(more[n - 1], more[n - 1 + 1]);
      var a :| StepAction(more[n - 1], a, more[n]);
      SecureStays(more[n - 1], a, more[n], g);
    }
  }

  /** Completing a call that loses the grant does lose it. */
  lemma InsecureGrantsFall(s: Sys, g: Grant, q: nat) returns (more: seq<Sys>)
    requires g.InForce(s) && g.Honoured(s) && q in s.calls && g.LostBy(s.calls[q])
    ensures Continues(more, g) && more[0] == s && !g.Honoured(more[|more| - 1])
  {
    var call := s.calls[q];
    if call.Sweeping? {
      var s' := s.(store := s.store.(objects := s.store.objects - {call.d}), calls := s.calls[q := Unlinking(call.d)]);
      assert StepAction(s, SweepRemove(q), s');
      more := [s, s'];
    } else if call.Unlinking? {
      var s' := s.(store := s.store.(leases := s.store.leases - {call.d}), calls := s.calls - {q});
      assert StepAction(s, SweepUnlink(q), s');
      more := [s, s'];
    } else if call.Retaining? {
      var s' := s.(store := s.store.(leases := s.store.leases[call.d := Good(call.Written())]),
                   calls := s.calls - {q}, promises := s.promises + {(call.d, call.until)});
      assert StepAction(s, RetainWrite(q), s');
      more := [s, s'];
    } else {
      var s' := s.(store := s.store.(leases := s.store.leases[call.d := Good(call.Written())]),
                   calls := s.calls - {q}, pins := if call.pinned then s.pins + {call.d} else s.pins - {call.d});
      assert StepAction(s, PinWrite(q), s');
      more := [s, s'];
    }
  }

  /**
   In every state, for every retention or pin that succeeds: some continuation breaks it while it is in force if and
   only if it was not safe when it was made.
   */
  lemma GrantsAreBrokenExactlyWhenUnsafe(s: Sys, a: Action, s': Sys, g: Grant)
    requires StepAction(s, a, s') && Granted(s, a) == Some(g)
    ensures (exists more :: Continues(more, g) && more[0] == s' && !g.Honoured(more[|more| - 1])) <==> !Safe(s, a)
  {
    GrantIsSecureExactlyWhenSafe(s, a, s', g);
    if !Safe(s, a) {
      if g.Honoured(s') {
        var q :| q in s'.calls && g.LostBy(s'.calls[q]);
        var more := InsecureGrantsFall(s', g, q);
      } else {
        assert Continues([s'], g) && [s'][|[s']| - 1] == s';
      }
    }
    if more :| Continues(more, g) && more[0] == s' && !g.Honoured(more[|more| - 1]) {
      if Safe(s, a) { SecureGrantsLast(more, g, |more| - 1); }
    }
  }

  // ---- runs ----

  /** Steps whose grants, if they make any, are safe. */
  ghost predicate SafeNext(s: Sys, s': Sys) { exists a :: StepAction(s, a, s') && Safe(s, a) }

  ghost predicate AllSecure(s: Sys) { forall g: Grant :: g.InForce(s) ==> g.Secure(s) }

  lemma StepKeepsAllSecure(s: Sys, s': Sys)
    requires AllSecure(s) && SafeNext(s, s')
    ensures AllSecure(s')
  {
    var a :| StepAction(s, a, s') && Safe(s, a);
    forall g: Grant | g.InForce(s') ensures g.Secure(s') {
      if Granted(s, a) == Some(g) {
        GrantIsSecureExactlyWhenSafe(s, a, s', g);
      } else {
        SecureStays(s, a, s', g);
      }
    }
  }

  /** In every run whose grants are safe when they are made, every promise and every pin in force is honoured. */
  lemma PromisesAreKept(run: seq<Sys>, i: nat, g: Grant)
    requires Runs.IsRun(Init, SafeNext, run) && i < |run| && g.InForce(run[i])
    ensures g.Honoured(run[i])
  {
    forall s, s' | AllSecure(s) && SafeNext(s, s') ensures AllSecure(s') { StepKeepsAllSecure(s, s'); }
    Runs.InvariantHolds(Init, SafeNext, AllSecure, run, i);
    assert g.Secure(run[i]);
  }

  /** A promise ends only in a sweep that reads the lease at or after the promised time. */
  lemma PromisesEndOnlyAfterTheirTime(s: Sys, a: Action, s': Sys, d: Token, until: int)
    requires StepAction(s, a, s') && (d, until) in s.promises && (d, until) !in s'.promises
    ensures a.SweepRead? && a.d == d && until <= a.now
  {
  }

  /** So in such a run pinned evidence is there, and stays pinned until it is unpinned. */
  lemma PinsHold(run: seq<Sys>, i: nat, d: Token)
    requires Runs.IsRun(Init, SafeNext, run) && i + 1 < |run| && d in run[i].pins
    ensures d in run[i].store.objects && LeaseOf(run[i].store, d).Some? && LeaseOf(run[i].store, d).value.pinned
    ensures d !in run[i + 1].pins ==>
              exists p :: && p in run[i].calls && run[i].calls[p].Pinning? && run[i].calls[p].d == d
                          && !run[i].calls[p].pinned && StepAction(run[i], PinWrite(p), run[i + 1])
  {
    PromisesAreKept(run, i, Pin(d));
    assert SafeNext(run[i], run[i + 1]);
    var a :| StepAction(run[i], a, run[i + 1]) && Safe(run[i], a);
    assert d !in run[i + 1].pins ==> a.PinWrite?;
  }

  /** A lease's expiry moves earlier only when a call writes back a lease that is no longer the one it read. */
  lemma ExpiryFallsOnlyByAStaleWrite(s: Sys, a: Action, s': Sys, d: Token)
    requires StepAction(s, a, s') && LeaseOf(s.store, d).Some? && LeaseOf(s'.store, d).Some?
    requires LeaseOf(s'.store, d).value.expiresAt < LeaseOf(s.store, d).value.expiresAt
    ensures (a.RetainWrite? || a.PinWrite?) && a.p in s.calls && s.calls[a.p].d == d
    ensures a.RetainWrite? ==> s.calls[a.p].Retaining? && s.calls[a.p].seen != LeaseOf(s.store, d)
    ensures a.PinWrite? ==> s.calls[a.p].Pinning? && Some(s.calls[a.p].read) != LeaseOf(s.store, d)
  {
  }

  /** A retention that nothing interrupts is its copy, its read and its write. */
  lemma RetainAlone(s: Sys, d: Token, candidate: string, ttl: int, now: int, p: nat)
    requires p !in s.calls && RetainTx(s.store, d, candidate, ttl, now).1.Ok?
    ensures exists copied, read, s' :: && StepAction(s, CopyObject(d), copied)
                                       && StepAction(copied, RetainRead(p, d, candidate, ttl, now), read)
                                       && StepAction(read, RetainWrite(p), s')
                                       && s'.store == RetainTx(s.store, d, candidate, ttl, now).0
  {
    var copied := s.(store := s.store.(objects := s.store.objects + {d}));
    var read := copied.(calls := s.calls[p := Retaining(d, candidate, now + ttl, now, LeaseOf(copied.store, d))]);
    var call := read.calls[p];
    var s' := read.(store := read.store.(leases := read.store.leases[d := Good(call.Written())]),
                    calls := read.calls - {p}, promises := s.promises + {(d, now + ttl)});
    assert StepAction(s, CopyObject(d), copied);
    assert StepAction(copied, RetainRead(p, d, candidate, ttl, now), read);
    assert StepAction(read, RetainWrite(p), s');
  }

  /** A call gets past its read exactly where the whole call would succeed. */
  lemma ReadsDecideAsTheCalls(s: Sys, p: nat, d: Token, candidate: string, ttl: int, pinned: bool, now: int)
    requires p !in s.calls
    ensures (exists s' :: ReadStep(s, RetainRead(p, d, candidate, ttl, now), s')) <==> RetainTx(s.store, d, candidate, ttl, now).1.Ok?
    ensures (exists s' :: ReadStep(s, PinRead(p, d, pinned), s')) <==> SetPinTx(s.store, d, pinned).1.Ok?
    ensures (exists s' :: ReadStep(s, SweepRead(p, d, now), s')) <==> Sweepable(s.store, d, now)
  {
    if RetainTx(s.store, d, candidate, ttl, now).1.Ok? {
      var t := s.(calls := s.calls[p := Retaining(d, candidate, now + ttl, now, LeaseOf(s.store, d))]);
      assert ReadStep(s, RetainRead(p, d, candidate, ttl, now), t);
    }
    if SetPinTx(s.store, d, pinned).1.Ok? {
      var t := s.(calls := s.calls[p := Pinning(d, pinned, LeaseOf(s.store, d).value)]);
      assert ReadStep(s, PinRead(p, d, pinned), t);
    }
    if Sweepable(s.store, d, now) {
      var t := s.(calls := s.calls[p := Sweeping(d)], promises := set x | x in s.promises && !(x.0 == d && x.1 <= now));
      assert ReadStep(s, SweepRead(p, d, now), t);
    }
  }

  /** A pin, and the removal of one object, that nothing interrupts are their read and their writes. */
  lemma PinAlone(s: Sys, d: Token, pinned: bool, p: nat)
    requires p !in s.calls && SetPinTx(s.store, d, pinned).1.Ok?
    ensures exists read, s' :: && StepAction(s, PinRead(p, d, pinned), read)
                               && StepAction(read, PinWrite(p), s')
                               && s'.store == SetPinTx(s.store, d, pinned).0
  {
    var read := s.(calls := s.calls[p := Pinning(d, pinned, LeaseOf(s.store, d).value)]);
    var s' := read.(store := read.store.(leases := read.store.leases[d := Good(read.calls[p].Written())]),
                    calls := read.calls - {p}, pins := if pinned then s.pins + {d} else s.pins - {d});
    assert StepAction(s, PinRead(p, d, pinned), read);
    assert StepAction(read, PinWrite(p), s');
  }

  lemma SweepAlone(s: Sys, d: Token, now: int, p: nat)
    requires p !in s.calls && Sweepable(s.store, d, now)
    ensures exists read, removed, s' :: && StepAction(s, SweepRead(p, d, now), read)
                                        && StepAction(read, SweepRemove(p), removed)
                                        && StepAction(removed, SweepUnlink(p), s')
                                        && s'.store == Swept(s.store, {d})
  {
    var read := s.(calls := s.calls[p := Sweeping(d)], promises := set x | x in s.promises && !(x.0 == d && x.1 <= now));
    var removed := read.(store := read.store.(objects := read.store.objects - {d}), calls := read.calls[p := Unlinking(d)]);
    var s' := removed.(store := removed.store.(leases := removed.store.leases - {d}), calls := removed.calls - {p});
    assert StepAction(s, SweepRead(p, d, now), read);
    assert StepAction(read, SweepRemove(p), removed);
    assert StepAction(removed, SweepUnlink(p), s');
    assert s'.store.leases == Swept(s.store, {d}).leases;
  }

  // ---- a run that fails ----

  ghost predicate SweptThoughPinned(s: Sys) { exists d :: d in s.pins && d !in s.store.objects }

  const EXPIRED := Lease("d", "candidate", 0, 1, false)

  /** Retained until time 1; at time 5 a sweep reads the lease, then a pin succeeds, then the sweep goes on. */
  function PinDuringSweep(k: nat): Sys {
    var held := Store({"d"}, map["d" := Good(EXPIRED)]);
    match k
    case 0 => Sys(Store({}, map[]), map[], {}, {})
    case 1 => Sys(Store({"d"}, map[]), map[], {}, {})
    case 2 => Sys(Store({"d"}, map[]), map[0 := Retaining("d", "candidate", 1, 0, None)], {}, {})
    case 3 => Sys(held, map[], {("d", 1)}, {})
    case 4 => Sys(held, map[1 := Sweeping("d")], {}, {})
    case 5 => Sys(held, map[1 := Sweeping("d"), 2 := Pinning("d", true, EXPIRED)], {}, {})
    case 6 => Sys(Store({"d"}, map["d" := Good(EXPIRED.(pinned := true))]), map[1 := Sweeping("d")], {}, {"d"})
    case _ => Sys(Store({}, map["d" := Good(EXPIRED.(pinned := true))]), map[1 := Unlinking("d")], {}, {"d"})
  }

  function PinDuringSweepAction(k: nat): Action {
    match k
    case 0 => CopyObject("d")
    case 1 => RetainRead(0, "d", "candidate", 1, 0)
    case 2 => RetainWrite(0)
    case 3 => SweepRead(1, "d", 5)
    case 4 => PinRead(2, "d", true)
    case 5 => PinWrite(2)
    case _ => SweepRemove(1)
  }

  lemma PinDuringSweepSteps(k: nat)
    requires k < 7
    ensures StepAction(PinDuringSweep(k), PinDuringSweepAction(k), PinDuringSweep(k + 1))
  {
    var s, s' := PinDuringSweep(k), PinDuringSweep(k + 1);
    match k
    case 0 => assert s'.store.objects == s.store.objects + {"d"};
    case 1 => assert s'.calls == s.calls[0 := Retaining("d", "candidate", 1, 0, None)];
    case 2 =>
      assert s.calls[0].Written() == EXPIRED;
      assert s'.calls == s.calls - {0} && s'.promises == s.promises + {("d", 1)};
      assert s'.store.leases == s.store.leases["d" := Good(EXPIRED)];
    case 3 =>
      assert s'.calls == s.calls[1 := Sweeping("d")];
      assert s'.promises == set x | x in s.promises && !(x.0 == "d" && x.1 <= 5);
    case 4 => assert s'.calls == s.calls[2 := Pinning("d", true, EXPIRED)];
    case 5 =>
      assert s'.calls == s.calls - {2} && s'.pins == s.pins + {"d"};
      assert s'.store.leases == s.store.leases["d" := Good(EXPIRED.(pinned := true))];
    case 6 =>
      assert s'.calls == s.calls[1 := Unlinking("d")] && s'.store.objects == s.store.objects - {"d"};
  }

  /** Pinned evidence can be swept: the sweep decides on a lease that a pin then changes. */
  lemma PinnedEvidenceCanBeSwept()
    ensures exists run: seq<Sys> :: Runs.IsRun(Init, Next, run) && SweptThoughPinned(run[|run| - 1])
  {
    var run := seq(8, k requires 0 <= k < 8 => PinDuringSweep(k));
    forall k | 0 <= k < |run| - 1 ensures Next(run[k], run[k + 1]) {
      PinDuringSweepSteps(k);
      assert run[k] == PinDuringSweep(k) && run[k + 1] == PinDuringSweep(k + 1);
    }
    assert Init(run[0]);
    assert "d" in run[7].pins && "d" !in run[7].store.objects;
  }
}
