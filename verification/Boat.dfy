/**
 Hosted VMs: creating, reconnecting to, stopping and forking one work cell's VM through a provider whose every call may
 fail. The provider's answers are a script chosen by the environment; what the calls achieved is a log.
 */
module Boat {
  import opened Prelude
  import Products

  type Vm = nat

  datatype Event = Created(vm: Vm) | Archived(vm: Vm) | Resumed(vm: Vm) | Forked(vm: Vm) | Recorded(vm: Vm)
                 | Reclaimed(vm: Vm)

  function After(live: set<Vm>, e: Event): set<Vm> {
    match e
    case Created(v) => live + {v}
    case Resumed(v) => live + {v}
    case Archived(v) => live - {v}
    case Forked(_) => live
    case Recorded(_) => live
    case Reclaimed(_) => live
  }

  /** The VMs made by `create` that may be running: created or resumed, with no confirmed archive since. */
  function Live(log: seq<Event>): set<Vm> {
    if log == [] then {} else After(Live(log[..|log| - 1]), log[|log| - 1])
  }

  predicate Starts(e: Event, v: Vm) { e == Created(v) || e == Resumed(v) }

  /** Live means exactly: some event started it and no archive was confirmed after that event. */
  lemma {:induction false} LiveMeansNotArchivedSince(log: seq<Event>, v: Vm)
    ensures v in Live(log) <==>
            exists i :: 0 <= i < |log| && Starts(log[i], v) && forall k :: i < k < |log| ==> log[k] != Archived(v)
  {
    if log != [] {
      var front, last := log[..|log| - 1], log[|log| - 1];
      LiveMeansNotArchivedSince(front, v);
      if v in Live(log) {
        if Starts(last, v) {
          assert Starts(log[|log| - 1], v);
        } else {
          var i :| 0 <= i < |front| && Starts(front[i], v) && forall k :: i < k < |front| ==> front[k] != Archived(v);
          assert Starts(log[i], v) && forall k :: i < k < |log| ==> k == |front| || log[k] == front[k];
        }
      }
      if i :| 0 <= i < |log| && Starts(log[i], v) && forall k :: i < k < |log| ==> log[k] != Archived(v) {
        if i < |front| {
          assert Starts(front[i], v) && forall k :: i < k < |front| ==> front[k] == log[k];
          assert last != Archived(v);
        }
      }
    }
  }

  lemma LiveAppend(log: seq<Event>, e: Event)
    ensures Live(log + [e]) == After(Live(log), e)
  {
    assert (log + [e])[..|log|] == log;
  }

  /** Every fork's id is recorded by the very next event, before any other call is made. */
  ghost predicate ForksRecorded(log: seq<Event>) {
    forall i :: 0 <= i < |log| && log[i].Forked? ==> i + 1 < |log| && log[i + 1] == Recorded(log[i].vm)
  }

  lemma ForkThenRecorded(log: seq<Event>, vm: Vm)
    requires ForksRecorded(log)
    ensures ForksRecorded(log + [Forked(vm), Recorded(vm)])
    ensures Live(log + [Forked(vm), Recorded(vm)]) == Live(log)
  {
    LiveAppend(log, Forked(vm));
    LiveAppend(log + [Forked(vm)], Recorded(vm));
    assert log + [Forked(vm), Recorded(vm)] == log + [Forked(vm)] + [Recorded(vm)];
  }

  // ---- the provider ----

  datatype Exec = Raised | Finished(ok: bool)

  /** The answer to the next call, and the script after it. A command that runs takes two answers: that it ran, and its
      exit status. */
  predicate Succeeds(script: seq<bool>) { script != [] && script[0] }

  function Rest(script: seq<bool>): seq<bool> { if script == [] then [] else script[1..] }

  /** The next k answers are all good. */
  predicate AllGood(script: seq<bool>, k: nat) { k <= |script| && forall i :: 0 <= i < k ==> script[i] }

  lemma GoodThenGood(script: seq<bool>, k: nat)
    ensures AllGood(script, k + 1) <==> Succeeds(script) && AllGood(Rest(script), k)
  {
    if script != [] && AllGood(Rest(script), k) {
      forall i | 0 <= i < k + 1 ensures Succeeds(script) ==> script[i] {
        if i > 0 { assert Rest(script)[i - 1] == script[i]; }
      }
    }
  }

  lemma GoodTwice(script: seq<bool>, k: nat)
    ensures AllGood(script, k + 2) <==> Succeeds(script) && Succeeds(Rest(script)) && AllGood(Rest(Rest(script)), k)
  {
    GoodThenGood(script, k + 1);
    GoodThenGood(Rest(script), k);
  }

  function Ran(script: seq<bool>): Exec { if Succeeds(script) then Finished(Succeeds(Rest(script))) else Raised }

  function AfterRun(script: seq<bool>): seq<bool> { if Succeeds(script) then Rest(Rest(script)) else Rest(script) }

  class BoatClient {
    /** Whether each further call succeeds, in order; when the script has run out every call fails. */
    var script: seq<bool>
    var log: seq<Event>
    var nextVm: Vm
    /** The child each idempotency key has made. */
    var children: map<string, Vm>

    constructor (script: seq<bool>)
      ensures this.script == script && log == [] && nextVm == 0 && children == map[]
    {
      this.script, log, nextVm, children := script, [], 0, map[];
    }

    method Answer() returns (ok: bool)
      modifies this`script
      ensures ok == Succeeds(old(script)) && script == Rest(old(script))
    {
      ok := script != [] && script[0];
      if script != [] { script := script[1..]; }
    }

    method Note(e: Event)
      modifies this`log
      ensures log == old(log) + [e]
      ensures Live(log) == After(Live(old(log)), e)
    {
      LiveAppend(log, e);
      log := log + [e];
    }

    method Create() returns (r: Option<Vm>)
      modifies this`script, this`log, this`nextVm
      ensures (r.Some? <==> Succeeds(old(script))) && script == Rest(old(script))
      ensures r.None? ==> log == old(log) && nextVm == old(nextVm)
      ensures r.Some? ==> r.value == old(nextVm) && nextVm == old(nextVm) + 1
                          && log == old(log) + [Created(r.value)] && Live(log) == Live(old(log)) + {r.value}
    {
      var ok := Answer();
      if !ok { return None; }
      Note(Created(nextVm));
      r := Some(nextVm);
      nextVm := nextVm + 1;
    }

    method Call() returns (ok: bool)
      modifies this`script
      ensures ok == Succeeds(old(script)) && script == Rest(old(script))
    {
      ok := Answer();
    }

    method Execute() returns (r: Exec)
      modifies this`script
      ensures r == Ran(old(script)) && script == AfterRun(old(script))
    {
      var answered := Answer();
      if !answered { return Raised; }
      var ok := Answer();
      r := Finished(ok);
    }

    method WaitStopped(vm: Vm) returns (ok: bool)
      modifies this`script, this`log
      ensures ok == Succeeds(old(script)) && script == Rest(old(script))
      ensures log == if ok then old(log) + [Archived(vm)] else old(log)
      ensures Live(log) == if ok then Live(old(log)) - {vm} else Live(old(log))
    {
      ok := Answer();
      if ok { Note(Archived(vm)); }
    }

    /** From the moment it is asked for, the VM may be up, whatever the answer. */
    method Resume(vm: Vm) returns (ok: bool)
      modifies this`script, this`log
      ensures ok == Succeeds(old(script)) && script == Rest(old(script))
      ensures log == old(log) + [Resumed(vm)] && Live(log) == Live(old(log)) + {vm}
    {
      Note(Resumed(vm));
      ok := Answer();
    }

    /** A key that has made a child gives the same child again; the answer to the call may be lost. */
    method Fork(key: string, again: bool) returns (r: Option<Vm>)
      modifies this`script, this`log, this`nextVm, this`children
      ensures (r.Some? <==> Succeeds(old(script)) && Succeeds(Rest(old(script)))) && script == AfterRun(old(script))
      ensures old(nextVm) <= nextVm && Live(log) == Live(old(log))
      ensures log == if r.Some? then old(log) + [if again then Reclaimed(r.value) else Forked(r.value)] else old(log)
      ensures key in old(children) ==> children == old(children) && (r.Some? ==> r.value == children[key])
      ensures key !in old(children) ==> children == old(children) || children == old(children)[key := old(nextVm)]
      ensures r.Some? ==> key in children && r.value == children[key]
    {
      var done := Answer();
      if !done { return None; }
      if key !in children {
        children := children[key := nextVm];
        nextVm := nextVm + 1;
      }
      var answered := Answer();
      if !answered { return None; }
      Note(if again then Reclaimed(children[key]) else Forked(children[key]));
      r := Some(children[key]);
    }
  }

  // ---- one work cell ----

  datatype EnsureError = CreateFailed | Unavailable | ProvisioningFailed

  class BoatSandbox {
    const client: BoatClient
    /** Whether the host keeps run state; without it the handle lives only in this object. */
    const keepsState: bool
    var sandboxId: Option<Vm>
    /** The handle in `boat-sandbox.json`. */
    var file: Option<Vm>

    constructor (client: BoatClient, keepsState: bool)
      requires Live(client.log) == {} && ForksRecorded(client.log)
      ensures Valid() && this.client == client && this.keepsState == keepsState && Handle() == None
    {
      this.client, this.keepsState := client, keepsState;
      sandboxId, file := None, None;
    }

    /** The VM a later call of this cell would work on or close. */
    function Handle(): Option<Vm> reads this { if sandboxId.Some? then sandboxId else file }

    /** Every VM that may be running is the retained handle; so at most one is. */
    ghost predicate Valid() reads this, client {
      && (forall v :: v in Live(client.log) ==> Handle() == Some(v))
      && (keepsState && sandboxId.Some? ==> file == sandboxId)
      && (!keepsState ==> file.None?)
      && ForksRecorded(client.log)
    }

    /** A restarted task builds a new object over the same run state. */
    method Restart()
      requires Valid() && keepsState
      modifies this`sandboxId
      ensures Valid() && sandboxId == None && Handle() == old(Handle())
    {
      sandboxId := None;
    }

    method RestoreId()
      requires Valid()
      modifies this`sandboxId
      ensures Valid() && sandboxId == old(Handle()) && Handle() == old(Handle())
    {
      if sandboxId.None? { sandboxId := file; }
    }

    method PersistId()
      modifies this`file
      ensures file == if keepsState then sandboxId else old(file)
    {
      if keepsState { file := sandboxId; }
    }

    /** mkdir, then a clone unless a work tree is there, then the target directory: the first failure decides. */
    method Provision() returns (ok: bool)
      modifies client`script
      ensures AllGood(old(client.script), 6) ==> ok
      ensures ok ==> AllGood(old(client.script), 3)
      // without a work tree yet: a clone, and then the target directory
      ensures AllGood(old(client.script), 3) && |old(client.script)| >= 8 && !old(client.script)[3] ==>
                (ok <==> AllGood(old(client.script)[4..], 4))
    {
      ghost var script := client.script;
      GoodTwice(script, 4);
      GoodTwice(script, 1);
      GoodTwice(Rest(Rest(script)), 2);
      GoodTwice(Rest(Rest(Rest(Rest(script)))), 0);
      GoodTwice(Rest(Rest(Rest(Rest(script)))), 2);
      GoodTwice(Rest(Rest(Rest(Rest(Rest(Rest(script)))))), 0);
      assert |script| >= 4 ==> Rest(Rest(Rest(Rest(script)))) == script[4..];
      var made := client.Execute();
      if made != Finished(true) { return false; }
      var inTree := client.Execute();
      if inTree == Raised { return false; }
      if !inTree.ok {
        var cloned := client.Execute();
        if cloned != Finished(true) { return false; }
      }
      var present := client.Execute();
      ok := present == Finished(true);
    }

    /** A new VM that could not be provisioned is stopped; if that is not confirmed it becomes the handle. */
    method TakeDown(vm: Vm)
      requires Handle().None? && Live(client.log) == {vm} && ForksRecorded(client.log)
      modifies this, client`script, client`log
      ensures Valid()
      ensures if Handle().None? then client.log == old(client.log) + [Archived(vm)]
              else Handle() == Some(vm) && client.log == old(client.log)
      ensures Handle().None? <==> AllGood(old(client.script), 2)
    {
      GoodTwice(client.script, 0);
      var stopped := client.Call();
      if stopped { stopped := client.WaitStopped(vm); }
      if !stopped {
        sandboxId := Some(vm);
        PersistId();
      }
    }

    /**
     Success means one VM, the handle, may be running. Failure keeps an old handle; a VM created by this call is
     confirmed archived or has become the handle.
     */
    method Ensure() returns (r: Result<(), EnsureError>)
      requires Valid()
      modifies this, client
      ensures Valid()
      ensures r.Ok? ==> Handle().Some? && sandboxId == Handle()
      ensures old(Handle()).Some? ==> Handle() == old(Handle()) && client.log == old(client.log)
      ensures r == Err(CreateFailed) ==> Handle().None? && client.log == old(client.log)
      ensures old(Handle()).None? && r.Ok? ==>
                && Handle() == Some(old(client.nextVm))
                && client.log == old(client.log) + [Created(old(client.nextVm))]
      ensures r == Err(ProvisioningFailed) ==>
                var vm := old(client.nextVm);
                if Handle().None? then client.log == old(client.log) + [Created(vm), Archived(vm)]
                else Handle() == Some(vm) && client.log == old(client.log) + [Created(vm)]
      // which calls decide: the probe of an old VM; else the creation, the wait for it, and the provisioning
      ensures old(Handle()).Some? ==> r == if AllGood(old(client.script), 2) then Ok(()) else Err(Unavailable)
      ensures r == Err(CreateFailed) <==> old(Handle()).None? && !Succeeds(old(client.script))
      ensures old(Handle()).None? && AllGood(old(client.script), 8) ==> r.Ok?
      ensures old(Handle()).None? && r.Ok? ==> AllGood(old(client.script), 5)
    {
      GoodTwice(client.script, 0);
      GoodTwice(client.script, 6);
      GoodTwice(client.script, 3);
      RestoreId();
      if sandboxId.Some? {
        var probe := client.Execute();
        return if probe == Finished(true) then Ok(()) else Err(Unavailable);
      }
      var created := client.Create();
      if created.None? { return Err(CreateFailed); }
      var vm := created.value;
      var ready := client.Call();
      if ready { ready := Provision(); }
      if !ready {
        TakeDown(vm);
        return Err(ProvisioningFailed);
      }
      sandboxId := Some(vm);
      PersistId();
      r := Ok(());
    }

    /** A confirmed stop leaves nothing running and no handle; anything else keeps the handle for another try. */
    method Close()
      requires Valid()
      modifies this, client
      ensures Valid()
      ensures Handle().None? ==> Live(client.log) == {} && file.None?
      ensures Handle().None? || (Handle() == old(Handle()) && client.log == old(client.log))
      ensures old(Handle()).Some? && Handle().None? ==> client.log == old(client.log) + [Archived(old(Handle()).value)]
      ensures old(Handle()).Some? ==> (Handle().None? <==> AllGood(old(client.script), 2))
    {
      GoodTwice(client.script, 0);
      RestoreId();
      if sandboxId.None? { return; }
      var vm := sandboxId.value;
      var stopped := client.Call();
      if stopped { stopped := client.WaitStopped(vm); }
      if !stopped { return; }
      sandboxId := None;
      if keepsState { file := None; }
    }

    method ForkParent() returns (r: Option<Vm>)
      requires Valid()
      modifies this`sandboxId, client
      ensures Valid() && Handle() == old(Handle())
      ensures r.Some? ==> r == Handle() && Live(client.log) == {}
      ensures r.Some? <==> old(Handle()).Some? && AllGood(old(client.script), 2)
    {
      GoodTwice(client.script, 0);
      RestoreId();
      if sandboxId.None? { return None; }
      var ok := client.Call();
      if ok { ok := client.WaitStopped(sandboxId.value); }
      r := if ok then sandboxId else None;
    }

    /** The stop's own answer is not the verdict: the observed state is. */
    method Reap(vm: Vm) returns (ok: bool)
      requires Valid()
      modifies client`script, client`log
      ensures Valid()
      ensures client.log == if ok then old(client.log) + [Archived(vm)] else old(client.log)
      ensures ok == Succeeds(Rest(old(client.script)))
    {
      var _ := client.Call();
      ok := client.WaitStopped(vm);
    }

    /** Whatever fails after the provider has answered, the child's id is on record first. */
    method ForkChild(key: string) returns (r: Option<Vm>)
      requires Valid()
      modifies this`sandboxId, client
      ensures Valid() && Handle() == old(Handle())
      ensures Live(client.log) <= Live(old(client.log))
      ensures r.Some? ==> client.log == old(client.log) + [Forked(r.value), Recorded(r.value)]
      ensures r.None? ==>
                || client.log == old(client.log)
                || (exists v :: client.log == old(client.log) + [Forked(v), Recorded(v)])
                || (exists v :: client.log == old(client.log) + [Forked(v), Recorded(v), Archived(v)])
      // the key stands for one child: an earlier one, or the one made now, even if only its answer was lost
      ensures r.Some? ==> key in client.children && r.value == client.children[key]
      ensures key in old(client.children) ==> client.children == old(client.children)
      ensures r.Some? <==> old(Handle()).Some? && AllGood(old(client.script), 5)
    {
      GoodTwice(client.script, 3);
      RestoreId();
      if sandboxId.None? { return None; }
      ghost var before := client.log;
      var child := client.Fork(key, false);
      if child.None? { return None; }
      var vm := child.value;
      client.Note(Recorded(vm));
      assert client.log == before + [Forked(vm), Recorded(vm)];
      ForkThenRecorded(before, vm);
      var ready := BecomeReady(vm);
      assert before + [Forked(vm), Recorded(vm)] + [Archived(vm)] == before + [Forked(vm), Recorded(vm), Archived(vm)];
      r := if ready then Some(vm) else None;
    }

    /** A fork whose answer was lost is asked for again, and its child comes back under the same key. */
    method ReclaimFork(key: string) returns (r: Option<Vm>)
      requires Valid()
      modifies this`sandboxId, client
      ensures Valid() && Handle() == old(Handle()) && Live(client.log) == Live(old(client.log))
      ensures client.log == if r.Some? then old(client.log) + [Reclaimed(r.value)] else old(client.log)
      ensures r.Some? && key in old(client.children) ==> r.value == old(client.children)[key]
      ensures r.Some? <==> old(Handle()).Some? && AllGood(old(client.script), 2)
    {
      GoodTwice(client.script, 0);
      RestoreId();
      if sandboxId.None? { return None; }
      r := client.Fork(key, true);
    }

    /** A child that never becomes usable is stopped; if that cannot be confirmed, its recorded id is what is left. */
    method BecomeReady(vm: Vm) returns (ready: bool)
      requires Valid()
      modifies client`script, client`log
      ensures Valid()
      ensures client.log == old(client.log) || (!ready && client.log == old(client.log) + [Archived(vm)])
      ensures ready <==> AllGood(old(client.script), 3)
    {
      GoodThenGood(client.script, 2);
      GoodTwice(Rest(client.script), 0);
      ready := client.Call();
      if ready {
        var probe := client.Execute();
        ready := probe == Finished(true);
      }
      if !ready { var _ := Reap(vm); }
    }

    method ResumeParent() returns (ok: bool)
      requires Valid()
      modifies this`sandboxId, client
      ensures Valid() && Handle() == old(Handle())
      ensures ok <==> old(Handle()).Some? && AllGood(old(client.script), 4)
    {
      GoodTwice(client.script, 2);
      GoodTwice(Rest(Rest(client.script)), 0);
      RestoreId();
      if sandboxId.None? { return false; }
      ok := client.Resume(sandboxId.value);
      if ok { ok := client.Call(); }
      if ok {
        var probe := client.Execute();
        ok := probe == Finished(true);
      }
    }
  }

  // ---- polling ----

  datatype Seen = Observed(state: string) | DeadEnd

  datatype Polled = Reached | NotYet | Dead

  predicate Waiting(seen: Seen, done: set<string>) { seen.Observed? && seen.state !in done }

  /** The time slept before the k-th observation. */
  function Slept(k: nat, poll: real): real { if k == 0 then 0.0 else Slept(k - 1, poll) + poll }

  lemma {:induction false} SleptIsProduct(k: nat, poll: real)
    ensures Slept(k, poll) == k as real * poll
  {
    if k > 0 { SleptIsProduct(k - 1, poll); }
  }

  /** Some number of polls is enough to sleep for the whole timeout. */
  lemma EnoughPolls(poll: real, timeout: real) returns (limit: nat)
    requires poll > 0.0
    ensures Slept(limit, poll) >= timeout
  {
    var polls := timeout / poll;
    limit := if polls < 0.0 then 0 else polls.Floor + 1;
    Products.TimesKeepsOrder(polls, limit as real, poll);
    SleptIsProduct(limit, poll);
    assert polls * poll == timeout;
  }

  /** The observation after k sleeps is not final, and there is time left to sleep again. */
  predicate PollsAgain(observe: nat -> Seen, done: set<string>, poll: real, timeout: real, k: nat) {
    Waiting(observe(k), done) && Slept(k, poll) < timeout
  }

  /** There is something to end on: time passes between polls, there is no time to wait, or an observation is final. */
  ghost predicate PollEnds(observe: nat -> Seen, done: set<string>, poll: real, timeout: real) {
    poll > 0.0 || timeout <= 0.0 || exists k :: !Waiting(observe(k), done)
  }

  lemma {:induction false} NoSleepNoTime(k: nat)
    ensures Slept(k, 0.0) == 0.0
  {
    if k > 0 { NoSleepNoTime(k - 1); }
  }

  /** And that is exactly when polling ends. */
  lemma PollingEndsExactlyThen(observe: nat -> Seen, done: set<string>, poll: real, timeout: real)
    requires poll >= 0.0
    ensures (exists k :: !PollsAgain(observe, done, poll, timeout, k)) <==> PollEnds(observe, done, poll, timeout)
  {
    if poll > 0.0 {
      var limit := EnoughPolls(poll, timeout);
      assert !PollsAgain(observe, done, poll, timeout, limit);
    } else if timeout <= 0.0 {
      assert !PollsAgain(observe, done, poll, timeout, 0);
    } else {
      forall k: nat ensures PollsAgain(observe, done, poll, timeout, k) <==> Waiting(observe(k), done) { NoSleepNoTime(k); }
    }
  }

  /**
   The n-th observation, and no earlier one, ends the polling: it is final, or it raises, or by then at least the
   timeout has been slept. With an interval of zero and time to wait, polling goes on until an observation is final.
   */
  method Poll(observe: nat -> Seen, done: set<string>, poll: real, timeout: real) returns (r: Polled, n: nat)
    requires poll >= 0.0 && PollEnds(observe, done, poll, timeout)
    ensures n >= 1 && forall k :: 0 <= k < n - 1 ==> PollsAgain(observe, done, poll, timeout, k)
    ensures match r
            case Reached => observe(n - 1).Observed? && observe(n - 1).state in done
            case Dead => observe(n - 1).DeadEnd?
            case NotYet => Waiting(observe(n - 1), done) && Slept(n - 1, poll) >= timeout
  {
    PollingEndsExactlyThen(observe, done, poll, timeout);
    ghost var limit: nat :| !PollsAgain(observe, done, poll, timeout, limit);
    var waited := 0.0;
    n := 1;
    while Waiting(observe(n - 1), done)
      invariant n >= 1 && waited == Slept(n - 1, poll)
      invariant forall k :: 0 <= k < n - 1 ==> PollsAgain(observe, done, poll, timeout, k)
      invariant n - 1 <= limit
      decreases limit + 1 - n
    {
      if waited >= timeout { return NotYet, n; }
      assert PollsAgain(observe, done, poll, timeout, n - 1);
      waited := waited + poll;
      n := n + 1;
    }
    r := if observe(n - 1).DeadEnd? then Dead else Reached;
  }
}
