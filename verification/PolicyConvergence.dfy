/**
 Policy synchronisation.  A NotifyChanged(.., reloadPolicy = true) that returned nil leaves no
 subscribed instance behind: it has loaded the committed version, or the event still waits in
 its inbox, or its own reload failed and was logged.  This holds in every run exactly when no
 two instances share a non-blank identifier.
 */
module PolicyConvergence {
  import opened Prelude
  import opened Protocol

  predicate AtLeast(inst: Instance, v: Version) {
    inst.enforcer.Some? && inst.enforcer.value.version >= v
  }

  /** A reload event for `v` that instance `i` will not ignore is still in the inbox. */
  predicate Pending(c: Config, i: nat, sub: Subscription, v: Version)
    requires i < |c.ids|
  {
    sub.Live? && exists k :: 0 <= k < |sub.inbox| && Wakes(c, i, sub.inbox[k], v)
  }

  predicate Wakes(c: Config, i: nat, m: Message, v: Version)
    requires i < |c.ids|
  {
    !Skips(c, i, m) && m.reload && m.version == v
  }

  /** As far as subscription `j` is concerned, instance `i` has version `v`, will get it, or failed to load it. */
  predicate Covered(c: Config, i: nat, inst: Instance, j: nat, v: Version)
    requires i < |c.ids| && j < |inst.subs|
  {
    AtLeast(inst, v) || Pending(c, i, inst.subs[j], v) || v in inst.lost
  }

  predicate Reached(call: Notifier, i: nat, j: nat) {
    call.reload && call.pc.Acked? && (i, j) in call.pc.audience
  }

  /** Every acknowledged policy change is loaded at the caller, and covered for every subscription that was
      live at the publish and still is. */
  ghost predicate Converged(c: Config, s: State)
    requires WellFormed(c, s)
  {
    && (forall n | 0 <= n < |s.notifiers| :: LoadedAtCaller(s, s.notifiers[n]))
    && (forall n, i {:trigger s.notifiers[n], s.instances[i]} | 0 <= n < |s.notifiers| && 0 <= i < |s.instances| ::
          CoveredAt(c, s.notifiers[n], i, s.instances[i]))
  }

  predicate LoadedAtCaller(s: State, call: Notifier) {
    call.reload && call.pc.Acked? ==> call.inst < |s.instances| && AtLeast(s.instances[call.inst], call.version)
  }

  ghost predicate CoveredAt(c: Config, call: Notifier, i: nat, inst: Instance)
    requires i < |c.ids|
  {
    forall j: nat | j < |inst.subs| && inst.subs[j].Live? && Reached(call, i, j) :: Covered(c, i, inst, j, call.version)
  }

  /** No two instances share a non-blank identifier. */
  ghost predicate NoCollision(c: Config) {
    forall i, j | 0 <= i < j < |c.ids| :: c.ids[i] == "" || c.ids[i] != c.ids[j]
  }

  // ---------------------------------------------------------- the invariant

  /** The call's audience are subscriptions of that instance, and is covered for as long as they are live. */
  ghost predicate Serves(c: Config, call: Notifier, i: nat, inst: Instance)
    requires i < |c.ids|
  {
    forall j: nat | call.pc.Acked? && (i, j) in call.pc.audience ::
      && j < |inst.subs|
      && (call.reload && inst.subs[j].Live? ==> Covered(c, i, inst, j, call.version))
  }

  /** The caller's own instance reloaded before it published. */
  ghost predicate OwnReloaded(s: State, call: Notifier) {
    && call.inst < |s.instances|
    && call.version < |s.db|
    && (call.reload && (call.pc.Publishing? || call.pc.Acked?) ==> AtLeast(s.instances[call.inst], call.version))
  }

  /** A loaded policy is the policy of its version, and events speak of committed versions. */
  ghost predicate Honest(db: seq<Snapshot>, inst: Instance) {
    && (inst.enforcer.Some? ==>
          && inst.enforcer.value.version < |db|
          && inst.enforcer.value.rules == db[inst.enforcer.value.version].policy)
    && (forall j | 0 <= j < |inst.subs| :: HonestSub(db, inst.subs[j]))
  }

  ghost predicate HonestSub(db: seq<Snapshot>, sub: Subscription) {
    sub.Live? ==> forall k | 0 <= k < |sub.inbox| && sub.inbox[k].Event? :: sub.inbox[k].version < |db|
  }

  ghost predicate Inv(c: Config, s: State) {
    && WellFormed(c, s)
    && (forall n | 0 <= n < |s.notifiers| :: OwnReloaded(s, s.notifiers[n]))
    && (forall i | 0 <= i < |s.instances| :: Honest(s.db, s.instances[i]))
    && (forall n, i | 0 <= n < |s.notifiers| && 0 <= i < |s.instances| ::
          Serves(c, s.notifiers[n], i, s.instances[i]))
  }

  /** One instance moves from `a` to `b` without losing what covers it. */
  ghost predicate Keeps(c: Config, i: nat, a: Instance, b: Instance)
    requires i < |c.ids|
  {
    && (a.enforcer.Some? ==> AtLeast(b, a.enforcer.value.version))
    && |a.subs| <= |b.subs|
    && (forall j: nat | j < |a.subs| :: KeepsSub(c, i, a, b, j))
  }

  ghost predicate KeepsSub(c: Config, i: nat, a: Instance, b: Instance, j: nat)
    requires i < |c.ids| && j < |a.subs| <= |b.subs|
  {
    b.subs[j].Live? ==> a.subs[j].Live? && forall v | Covered(c, i, a, j, v) :: Covered(c, i, b, j, v)
  }

  lemma DeliverKeepsSub(c: Config, i: nat, a: Instance, m: Message, j: nat)
    requires i < |c.ids| && j < |a.subs|
    ensures KeepsSub(c, i, a, Deliver(a, m), j)
    ensures a.subs[j].Live? && m.Event? && Wakes(c, i, m, m.version) ==> Covered(c, i, Deliver(a, m), j, m.version)
  {
    var b := Deliver(a, m);
    forall v | a.subs[j].Live? && Covered(c, i, a, j, v)
      ensures Covered(c, i, b, j, v)
    {
      if Pending(c, i, a.subs[j], v) {
        var k :| 0 <= k < |a.subs[j].inbox| && Wakes(c, i, a.subs[j].inbox[k], v);
        assert b.subs[j].inbox[k] == a.subs[j].inbox[k];
      }
    }
    if a.subs[j].Live? {
      assert b.subs[j].inbox[|a.subs[j].inbox|] == m;
    }
  }

  lemma DeliverKeeps(c: Config, i: nat, a: Instance, m: Message)
    requires i < |c.ids|
    ensures Keeps(c, i, a, Deliver(a, m))
  {
    forall j: nat | j < |a.subs|
      ensures KeepsSub(c, i, a, Deliver(a, m), j)
    {
      DeliverKeepsSub(c, i, a, m, j);
    }
  }

  /** Consuming a message loses no coverage, for the subscription it came from or any other. */
  lemma ConsumeKeepsSub(c: Config, s: State, i: nat, j: nat, ok: bool, other: nat)
    requires WellFormed(c, s) && i < |s.instances| && Honest(s.db, s.instances[i])
    requires j < |s.instances[i].subs| && s.instances[i].subs[j].Live? && s.instances[i].subs[j].inbox != []
    requires other < |s.instances[i].subs|
    ensures |StepConsume(c, s, i, j, ok).instances[i].subs| == |s.instances[i].subs|
    ensures KeepsSub(c, i, s.instances[i], StepConsume(c, s, i, j, ok).instances[i], other)
  {
    var a, b := s.instances[i], StepConsume(c, s, i, j, ok).instances[i];
    forall v | b.subs[other].Live? && Covered(c, i, a, other, v)
      ensures Covered(c, i, b, other, v)
    {
      if other == j && Pending(c, i, a.subs[j], v) {
        var k :| 0 <= k < |a.subs[j].inbox| && Wakes(c, i, a.subs[j].inbox[k], v);
        assert HonestSub(s.db, a.subs[j]);
        if k > 0 {
          assert b.subs[j].inbox[k - 1] == a.subs[j].inbox[k];
        }
      }
    }
  }

  lemma ConsumeKeeps(c: Config, s: State, i: nat, j: nat, ok: bool)
    requires WellFormed(c, s) && i < |s.instances| && Honest(s.db, s.instances[i])
    requires j < |s.instances[i].subs| && s.instances[i].subs[j].Live? && s.instances[i].subs[j].inbox != []
    ensures Keeps(c, i, s.instances[i], StepConsume(c, s, i, j, ok).instances[i])
    ensures Honest(s.db, StepConsume(c, s, i, j, ok).instances[i])
  {
    var a, b := s.instances[i], StepConsume(c, s, i, j, ok).instances[i];
    ConsumeKeepsSub(c, s, i, j, ok, j);
    forall other: nat | other < |a.subs|
      ensures KeepsSub(c, i, a, b, other)
    {
      ConsumeKeepsSub(c, s, i, j, ok, other);
    }
    forall k | 0 <= k < |b.subs|
      ensures HonestSub(s.db, b.subs[k])
    {
      assert HonestSub(s.db, a.subs[k]);
    }
  }

  lemma ServesMoves(c: Config, call: Notifier, i: nat, a: Instance, b: Instance)
    requires i < |c.ids| && Serves(c, call, i, a) && Keeps(c, i, a, b)
    ensures Serves(c, call, i, b)
  {
    forall j: nat | call.pc.Acked? && (i, j) in call.pc.audience
      ensures j < |b.subs| && (call.reload && b.subs[j].Live? ==> Covered(c, i, b, j, call.version))
    {
      assert j < |a.subs| && KeepsSub(c, i, a, b, j);
    }
  }

  /** Instances move one by one, the calls stay as they are. */
  lemma MoveInstances(c: Config, s: State, s': State)
    requires Inv(c, s) && WellFormed(c, s') && s.db <= s'.db && s'.notifiers == s.notifiers
    requires forall i | 0 <= i < |s.instances| ::
      Keeps(c, i, s.instances[i], s'.instances[i]) && Honest(s'.db, s'.instances[i])
    ensures Inv(c, s')
  {
    forall n, i | 0 <= n < |s.notifiers| && 0 <= i < |s.instances|
      ensures Serves(c, s'.notifiers[n], i, s'.instances[i])
    {
      assert Serves(c, s.notifiers[n], i, s.instances[i]);
      ServesMoves(c, s.notifiers[n], i, s.instances[i], s'.instances[i]);
    }
    forall n | 0 <= n < |s.notifiers|
      ensures OwnReloaded(s', s'.notifiers[n])
    {
      assert OwnReloaded(s, s.notifiers[n]);
      var own := s.notifiers[n].inst;
      assert Keeps(c, own, s.instances[own], s'.instances[own]);
    }
  }

  /** One instance changes, by a step that keeps its coverage. */
  lemma MoveInstance(c: Config, s: State, i: nat, b: Instance)
    requires Inv(c, s) && i < |s.instances|
    requires Keeps(c, i, s.instances[i], b) && Honest(s.db, b)
    ensures Inv(c, SetInstance(s, i, b))
  {
    forall j | 0 <= j < |s.instances|
      ensures Keeps(c, j, s.instances[j], SetInstance(s, i, b).instances[j])
    {
    }
    MoveInstances(c, s, SetInstance(s, i, b));
  }

  /** One call moves on. */
  lemma AdvanceKeeps(c: Config, s: State, n: nat, pc: NotifierPc)
    requires Inv(c, s) && n < |s.notifiers|
    requires s.notifiers[n].reload && (pc.Publishing? || pc.Acked?) ==>
      AtLeast(s.instances[s.notifiers[n].inst], s.notifiers[n].version)
    requires forall i | 0 <= i < |s.instances| :: Serves(c, s.notifiers[n].(pc := pc), i, s.instances[i])
    ensures Inv(c, Advance(s, n, pc))
  {
    assert OwnReloaded(s, s.notifiers[n]);
  }

  lemma LoadPolicyKeeps(c: Config, s: State, i: nat)
    requires Inv(c, s) && i < |s.instances|
    ensures Inv(c, LoadPolicy(s, i)) && AtLeast(LoadPolicy(s, i).instances[i], Head(s))
  {
    MoveInstance(c, s, i, LoadPolicy(s, i).instances[i]);
  }

  lemma BroadcastKeeps(c: Config, s: State, m: Message)
    requires Inv(c, s)
    requires m.Event? ==> m.version < |s.db|
    ensures Inv(c, Broadcast(s, m))
  {
    forall i | 0 <= i < |s.instances|
      ensures Keeps(c, i, s.instances[i], Broadcast(s, m).instances[i])
      ensures Honest(s.db, Broadcast(s, m).instances[i])
    {
      assert Honest(s.db, s.instances[i]);
      DeliverKeeps(c, i, s.instances[i], m);
    }
    MoveInstances(c, s, Broadcast(s, m));
  }

  /** The event covers the other instances' subscriptions, the reload before it covers the caller's own. */
  lemma PublishServes(c: Config, s: State, n: nat, i: nat)
    requires NoCollision(c) && Inv(c, s) && n < |s.notifiers| && i < |s.instances|
    requires s.notifiers[n].pc.Publishing?
    ensures var call := s.notifiers[n];
      Serves(c, call.(pc := Acked(Audience(s))), i, Broadcast(s, Event(c.ids[call.inst], call.reload, call.version)).instances[i])
  {
    var call := s.notifiers[n];
    assert OwnReloaded(s, call);
    var event := Event(c.ids[call.inst], call.reload, call.version);
    forall j: nat | (i, j) in Audience(s)
      ensures j < |s.instances[i].subs|
      ensures call.reload ==> Covered(c, i, Deliver(s.instances[i], event), j, call.version)
    {
      DeliverKeepsSub(c, i, s.instances[i], event, j);
      if i != call.inst {
        assert call.reload ==> Wakes(c, i, event, call.version);
      }
    }
  }

  /** An acknowledged publish covers its whole audience. */
  lemma PublishKeeps(c: Config, s: State, n: nat, ok: bool, delivered: bool)
    requires NoCollision(c) && Inv(c, s) && NotifierExists(s, n)
    ensures Inv(c, StepNotifier(c, s, Publish(n, ok, delivered)))
  {
    var call := s.notifiers[n];
    assert OwnReloaded(s, call);
    var event := Event(c.ids[call.inst], call.reload, call.version);
    if call.pc.Publishing? {
      var sent := if ok || delivered then Broadcast(s, event) else s;
      if ok || delivered {
        BroadcastKeeps(c, s, event);
      }
      var pc := if ok then Acked(Audience(s)) else Errored;
      forall i | 0 <= i < |s.instances|
        ensures Serves(c, call.(pc := pc), i, sent.instances[i])
      {
        if ok {
          PublishServes(c, s, n, i);
        }
      }
      assert OwnReloaded(sent, sent.notifiers[n]);
      AdvanceKeeps(c, sent, n, pc);
    }
  }

  /** Closing a subscription or leaving its channel. */
  lemma StoppedKeeps(c: Config, db: seq<Snapshot>, i: nat, a: Instance, b: Instance, j: nat)
    requires i < |c.ids| && Honest(db, a) && j < |a.subs|
    requires b.enforcer == a.enforcer && b.lost == a.lost && b.subs == a.subs[j := Stopped]
    ensures Keeps(c, i, a, b) && Honest(db, b)
  {
    forall k: nat | k < |a.subs|
      ensures KeepsSub(c, i, a, b, k)
    {
      assert k != j ==> b.subs[k] == a.subs[k];
    }
  }

  /** A consumed message is gone; it makes the instance load the head policy exactly when it asks for that and
      does not carry the instance's own non-blank identifier; a load that fails is only noted. */
  lemma ConsumeMeans(c: Config, s: State, i: nat, j: nat, ok: bool)
    requires WellFormed(c, s) && i < |s.instances| && j < |s.instances[i].subs|
    requires s.instances[i].subs[j].Live? && s.instances[i].subs[j].inbox != []
    ensures var a, b := s.instances[i], Apply(c, s, Consume(i, j, ok)).instances[i];
      var m := a.subs[j].inbox[0];
      var wanted := m.Event? && m.reload && (m.source == "" || m.source != c.ids[i]);
      && b.subs == a.subs[j := Live(a.subs[j].inbox[1..])]
      && b.enforcer == (if wanted && ok && a.enforcer.Some? then Some(Policy(Head(s), s.db[Head(s)].policy)) else a.enforcer)
      && b.lost == (if wanted && !(ok && a.enforcer.Some?) then a.lost + {m.version} else a.lost)
  {
  }

  /** Stop ends the remembered subscription and no other, and forgets it. */
  lemma StopMeans(c: Config, s: State, i: nat)
    requires WellFormed(c, s) && i < |s.instances|
    ensures var a, b := s.instances[i], Apply(c, s, Stop(i)).instances[i];
      && b.pubsub == None && |b.subs| == |a.subs| && b.enforcer == a.enforcer && b.lost == a.lost
      && forall j: nat | j < |a.subs| :: b.subs[j] == if a.pubsub == Some(j) then Stopped else a.subs[j]
  {
  }

  lemma SubscribedKeeps(c: Config, db: seq<Snapshot>, i: nat, a: Instance)
    requires i < |c.ids| && Honest(db, a)
    ensures Keeps(c, i, a, Subscribed(a)) && Honest(db, Subscribed(a))
  {
    var b := Subscribed(a);
    forall k: nat | k < |a.subs|
      ensures KeepsSub(c, i, a, b, k)
    {
      assert b.subs[k] == a.subs[k];
    }
  }

  lemma StepInstanceKeeps(c: Config, s: State, step: Step)
    requires Inv(c, s)
    requires step.Bind? || step.Subscribe? || step.Stop? || step.Abandon? || step.Consume?
    requires step.i < |s.instances|
    ensures Inv(c, StepInstance(c, s, step))
  {
    var i, inst := step.i, s.instances[step.i];
    assert Honest(s.db, inst);
    match step
    case Bind(_) => if inst.enforcer.None? { LoadPolicyKeeps(c, s, i); }
    case Subscribe(_) =>
      if c.redis {
        SubscribedKeeps(c, s.db, i, inst);
        MoveInstance(c, s, i, Subscribed(inst));
      }
    case Stop(_) =>
      if inst.pubsub.Some? && inst.pubsub.value < |inst.subs| {
        StoppedKeeps(c, s.db, i, inst, Closed(inst), inst.pubsub.value);
      }
      MoveInstance(c, s, i, Closed(inst));
    case Abandon(_, j) =>
      if j < |inst.subs| {
        StoppedKeeps(c, s.db, i, inst, SetSub(inst, j, Stopped), j);
        MoveInstance(c, s, i, SetSub(inst, j, Stopped));
      }
    case Consume(_, j, ok) =>
      if j < |inst.subs| && inst.subs[j].Live? && inst.subs[j].inbox != [] {
        ConsumeKeeps(c, s, i, j, ok);
        MoveInstance(c, s, i, StepConsume(c, s, i, j, ok).instances[i]);
        assert StepConsume(c, s, i, j, ok) == SetInstance(s, i, StepConsume(c, s, i, j, ok).instances[i]);
      }
  }

  lemma ReloadKeeps(c: Config, s: State, n: nat, ok: bool)
    requires Inv(c, s) && NotifierExists(s, n)
    ensures Inv(c, StepNotifier(c, s, Reload(n, ok)))
  {
    var call := s.notifiers[n];
    assert OwnReloaded(s, call);
    if call.pc.Reloading? {
      if CanReload(s, call.inst, ok) {
        LoadPolicyKeeps(c, s, call.inst);
        AdvanceKeeps(c, LoadPolicy(s, call.inst), n, BeforePublish(c));
      } else {
        AdvanceKeeps(c, s, n, Errored);
      }
    }
  }

  lemma UnlinkKeeps(c: Config, s: State, n: nat, ok: bool)
    requires Inv(c, s) && NotifierExists(s, n)
    ensures Inv(c, StepNotifier(c, s, Unlink(n, ok)))
  {
    var call := s.notifiers[n];
    if call.pc.Unlinking? {
      var s1 := if ok then s.(cache := s.cache - Targets(call.users)) else s;
      MoveInstances(c, s, s1);
      AdvanceKeeps(c, s1, n, if ok then BeforeReload(c, call.reload) else Errored);
    }
  }

  lemma BeginKeeps(c: Config, s: State, i: nat, users: seq<UserId>, reload: bool, version: Version)
    requires Inv(c, s)
    ensures Inv(c, Apply(c, s, BeginNotify(i, users, reload, version)))
  {
    var s' := Apply(c, s, BeginNotify(i, users, reload, version));
    forall n | 0 <= n < |s'.notifiers|
      ensures OwnReloaded(s', s'.notifiers[n])
    {
      assert n < |s.notifiers| ==> OwnReloaded(s, s.notifiers[n]);
    }
  }

  lemma StepNotifierKeeps(c: Config, s: State, step: Step)
    requires NoCollision(c) && Inv(c, s) && (step.Unlink? || step.Reload? || step.Publish?) && NotifierExists(s, step.n)
    ensures Inv(c, StepNotifier(c, s, step))
  {
    match step
    case Unlink(n, ok) => UnlinkKeeps(c, s, n, ok);
    case Reload(n, ok) => ReloadKeeps(c, s, n, ok);
    case Publish(n, ok, delivered) => PublishKeeps(c, s, n, ok, delivered);
  }

  lemma ApplyKeeps(c: Config, s: State, step: Step)
    requires NoCollision(c) && Inv(c, s)
    ensures Inv(c, Apply(c, s, step))
  {
    if step.Bind? || step.Subscribe? || step.Stop? || step.Abandon? || step.Consume? {
      if step.i < |s.instances| {
        StepInstanceKeeps(c, s, step);
      }
    } else if step.Unlink? || step.Reload? || step.Publish? {
      if NotifierExists(s, step.n) {
        StepNotifierKeeps(c, s, step);
      }
    } else {
      OtherKeeps(c, s, step);
    }
  }

  lemma OtherKeeps(c: Config, s: State, step: Step)
    requires Inv(c, s)
    requires !step.Bind? && !step.Subscribe? && !step.Stop? && !step.Abandon? && !step.Consume?
    requires !step.Unlink? && !step.Reload? && !step.Publish?
    ensures Inv(c, Apply(c, s, step))
  {
    match step
    case Disturb => BroadcastKeeps(c, s, Noise);
    case BeginNotify(i, users, reload, version) => BeginKeeps(c, s, i, users, reload, version);
    case Commit(next) => CommitKeeps(c, s, next);
    case _ => QuietKeeps(c, s, step);
  }

  lemma CommitKeeps(c: Config, s: State, next: Snapshot)
    requires Inv(c, s)
    ensures Inv(c, s.(db := s.db + [next]))
  {
    forall i | 0 <= i < |s.instances|
      ensures Keeps(c, i, s.instances[i], s.instances[i]) && Honest(s.db + [next], s.instances[i])
    {
      assert Honest(s.db, s.instances[i]);
      forall j | 0 <= j < |s.instances[i].subs|
        ensures HonestSub(s.db + [next], s.instances[i].subs[j])
      {
        assert HonestSub(s.db, s.instances[i].subs[j]);
      }
    }
    MoveInstances(c, s, s.(db := s.db + [next]));
  }

  /** Clock, cache and resolvers do not touch what convergence speaks of. */
  lemma QuietKeeps(c: Config, s: State, step: Step)
    requires Inv(c, s)
    requires step.Tick? || step.Spoil? || step.BeginResolve? || step.AskCache? || step.Discard?
      || step.ReadUser? || step.ReadRoles? || step.Store?
    ensures Inv(c, Apply(c, s, step))
  {
    var s' := Apply(c, s, step);
    assert s'.db == s.db && s'.instances == s.instances && s'.notifiers == s.notifiers;
    forall i | 0 <= i < |s.instances|
      ensures Keeps(c, i, s.instances[i], s'.instances[i])
    {
    }
    MoveInstances(c, s, s');
  }

  /** Policy convergence, over every run. */
  lemma {:induction false} ExecKeeps(c: Config, s: State, steps: seq<Step>)
    requires NoCollision(c) && Inv(c, s)
    ensures Inv(c, Exec(c, s, steps)) && Converged(c, Exec(c, s, steps))
    decreases |steps|
  {
    if steps != [] {
      ApplyKeeps(c, s, steps[0]);
      ExecKeeps(c, Apply(c, s, steps[0]), steps[1..]);
    } else {
      InvConverged(c, s);
    }
  }

  lemma InvConverged(c: Config, s: State)
    requires Inv(c, s)
    ensures Converged(c, s)
  {
    forall n | 0 <= n < |s.notifiers|
      ensures LoadedAtCaller(s, s.notifiers[n])
    {
      assert OwnReloaded(s, s.notifiers[n]);
    }
    forall n, i | 0 <= n < |s.notifiers| && 0 <= i < |s.instances|
      ensures CoveredAt(c, s.notifiers[n], i, s.instances[i])
    {
      assert Serves(c, s.notifiers[n], i, s.instances[i]);
    }
  }

  lemma InitInv(c: Config, snap: Snapshot)
    ensures Inv(c, Init(c, snap))
  {
  }

  lemma DrainedMeans(c: Config, s: State, n: nat, i: nat, j: nat)
    requires Inv(c, s) && Converged(c, s) && n < |s.notifiers| && s.notifiers[n].version == Head(s)
    requires i < |s.instances| && j < |s.instances[i].subs| && Reached(s.notifiers[n], i, j)
    requires s.instances[i].subs[j] == Live([]) && s.instances[i].lost == {}
    ensures s.instances[i].enforcer == Some(Policy(Head(s), s.db[Head(s)].policy))
  {
    assert CoveredAt(c, s.notifiers[n], i, s.instances[i]);
    assert Covered(c, i, s.instances[i], j, Head(s));
    assert Honest(s.db, s.instances[i]);
  }

  /** Drained inboxes mean every instance enforces the head policy: what an operator sees once
      the last policy change was acknowledged and no reload failed. */
  lemma DrainedEnforcesHead(c: Config, snap: Snapshot, steps: seq<Step>, s: State, n: nat, i: nat, j: nat)
    requires NoCollision(c) && s == Exec(c, Init(c, snap), steps)
    requires n < |s.notifiers| && s.notifiers[n].version == Head(s)
    requires i < |s.instances| && j < |s.instances[i].subs| && Reached(s.notifiers[n], i, j)
    requires s.instances[i].subs[j] == Live([]) && s.instances[i].lost == {}
    ensures s.instances[i].enforcer == Some(Policy(Head(s), s.db[Head(s)].policy))
  {
    InitInv(c, snap);
    ExecKeeps(c, Init(c, snap), steps);
    DrainedMeans(c, s, n, i, j);
  }

  // ------------------------------------------------------------ the converse

  /** Instances `i` and `j` load the policy, `j` subscribes, and the policy changes. */
  function Prepare(i: nat, j: nat, next: Snapshot): seq<Step> {
    [Bind(i), Bind(j), Subscribe(j), Commit(next)]
  }

  /** Instance `i` announces the change, and `j` mistakes the event for its own. */
  function Mistake(i: nat, j: nat): seq<Step> {
    [BeginNotify(i, [], true, 1), Reload(0, true), Publish(0, true, true), Consume(j, 0, true)]
  }

  /** Instance `j` has loaded version 0 and listens on one drained subscription. */
  predicate Listening(inst: Instance) {
    && inst.enforcer.Some? && inst.enforcer.value.version == 0
    && inst.subs == [Live([])] && inst.lost == {}
  }

  ghost predicate Prepared(c: Config, s: State, i: nat, j: nat) {
    && WellFormed(c, s) && |s.db| == 2 && s.notifiers == []
    && i < |s.instances| && s.instances[i].enforcer.Some?
    && j < |s.instances| && Listening(s.instances[j])
  }

  lemma PrepareRun(c: Config, snap: Snapshot, next: Snapshot, i: nat, j: nat)
    requires c.redis && i < |c.ids| && j < |c.ids| && i != j
    ensures Prepared(c, Exec(c, Init(c, snap), Prepare(i, j, next)), i, j)
  {
    var s0 := Init(c, snap);
    var s1 := Apply(c, s0, Bind(i));
    var s2 := Apply(c, s1, Bind(j));
    var s3 := Apply(c, s2, Subscribe(j));
    var s4 := Apply(c, s3, Commit(next));
    ExecCons(c, s0, Bind(i), [Bind(j), Subscribe(j), Commit(next)]);
    ExecCons(c, s1, Bind(j), [Subscribe(j), Commit(next)]);
    ExecCons(c, s2, Subscribe(j), [Commit(next)]);
    ExecCons(c, s3, Commit(next), []);
    assert s4.instances[j] == Instance(Some(Policy(0, snap.policy)), [Live([])], Some(0), {});
  }

  ghost predicate Announcing(c: Config, s: State, i: nat, j: nat) {
    && WellFormed(c, s) && s.notifiers == [Notifier(i, [], true, 1, Publishing)]
    && i < |s.instances| && j < |s.instances| && Listening(s.instances[j])
  }

  lemma MistakeBegins(c: Config, s: State, i: nat, j: nat)
    requires c.redis && Prepared(c, s, i, j) && i != j
    ensures Announcing(c, Exec(c, s, Mistake(i, j)[..2]), i, j)
  {
    var s1 := Apply(c, s, BeginNotify(i, [], true, 1));
    assert s1.notifiers == [Notifier(i, [], true, 1, Reloading)];
    ExecCons(c, s, BeginNotify(i, [], true, 1), [Reload(0, true)]);
    ExecCons(c, s1, Reload(0, true), []);
    assert Mistake(i, j)[..2] == [BeginNotify(i, [], true, 1), Reload(0, true)];
  }

  /** The first call was acknowledged to subscription 0 of `j`, which has an older policy, and nothing on the way
      makes it load another: no other call reloads and no inbox of `j` holds a reload event. */
  ghost predicate Missed(s: State, j: nat) {
    && j < |s.instances| && s.instances[j].enforcer.Some? && !AtLeast(s.instances[j], 1) && 1 !in s.instances[j].lost
    && |s.instances[j].subs| > 0
    && (forall k: nat | k < |s.instances[j].subs| :: NoReload(s.instances[j].subs[k]))
    && |s.notifiers| > 0 && s.notifiers[0].version == 1 && Reached(s.notifiers[0], j, 0)
    && (forall n | 1 <= n < |s.notifiers| :: !s.notifiers[n].reload && !s.notifiers[n].pc.Reloading?)
  }

  predicate NoReload(sub: Subscription) {
    sub.Live? ==> forall k | 0 <= k < |sub.inbox| :: sub.inbox[k].Event? ==> !sub.inbox[k].reload
  }

  /** The event is in the inbox of `j`, and nothing else has changed there. */
  ghost predicate Announced(c: Config, s: State, i: nat, j: nat) {
    && WellFormed(c, s) && |s.notifiers| == 1 && s.notifiers[0].version == 1 && Reached(s.notifiers[0], j, 0)
    && i < |c.ids| && j < |s.instances| && s.instances[j].enforcer.Some? && s.instances[j].enforcer.value.version == 0
    && s.instances[j].subs == [Live([Event(c.ids[i], true, 1)])] && s.instances[j].lost == {}
  }

  lemma MistakePublished(c: Config, s: State, i: nat, j: nat)
    requires Announcing(c, s, i, j)
    ensures Announced(c, Apply(c, s, Publish(0, true, true)), i, j)
  {
    var s1, event := Apply(c, s, Publish(0, true, true)), Event(c.ids[i], true, 1);
    assert s.instances[j].subs[0].Live?;
    assert s1.notifiers[0].pc == Acked(Audience(s)) && (j, 0) in Audience(s);
    assert [] + [event] == [event] && s1.instances[j] == Deliver(s.instances[j], event);
  }

  lemma MistakeConsumed(c: Config, s: State, i: nat, j: nat)
    requires Announced(c, s, i, j) && c.ids[i] == c.ids[j] != ""
    ensures var s' := Apply(c, s, Consume(j, 0, true)); Missed(s', j) && s'.instances[j].subs == [Live([])]
  {
    var event := Event(c.ids[i], true, 1);
    assert s.instances[j].subs[0] == Live([event]) && [event][1..] == [];
  }

  lemma MistakeEnds(c: Config, s: State, i: nat, j: nat)
    requires Announcing(c, s, i, j) && c.ids[i] == c.ids[j] != ""
    ensures var s' := Exec(c, s, Mistake(i, j)[2..]); Missed(s', j) && s'.instances[j].subs == [Live([])]
  {
    var s1 := Apply(c, s, Publish(0, true, true));
    MistakePublished(c, s, i, j);
    MistakeConsumed(c, s1, i, j);
    ExecCons(c, s, Publish(0, true, true), [Consume(j, 0, true)]);
    ExecCons(c, s1, Consume(j, 0, true), []);
    assert Mistake(i, j)[2..] == [Publish(0, true, true), Consume(j, 0, true)];
  }

  lemma MistakeRun(c: Config, s: State, i: nat, j: nat)
    requires c.redis && Prepared(c, s, i, j) && i != j && c.ids[i] == c.ids[j] != ""
    ensures var s' := Exec(c, s, Mistake(i, j)); Missed(s', j) && s'.instances[j].subs == [Live([])]
  {
    MistakeBegins(c, s, i, j);
    MistakeEnds(c, Exec(c, s, Mistake(i, j)[..2]), i, j);
    ExecAppend(c, s, Mistake(i, j)[..2], Mistake(i, j)[2..]);
    assert Mistake(i, j) == Mistake(i, j)[..2] + Mistake(i, j)[2..];
  }

  /** Nobody announces another policy change. */
  predicate Quiet(steps: seq<Step>) {
    forall k | 0 <= k < |steps| :: !(steps[k].BeginNotify? && steps[k].reload)
  }

  /** While the subscription is open, the state has not converged. */
  lemma MissedMeans(c: Config, s: State, j: nat)
    requires WellFormed(c, s) && Missed(s, j)
    ensures !AtLeast(s.instances[j], 1)
    ensures s.instances[j].subs[0].Live? ==> !Converged(c, s)
  {
    assert NoReload(s.instances[j].subs[0]);
    if s.instances[j].subs[0].Live? {
      assert !Covered(c, j, s.instances[j], 0, 1);
      assert !CoveredAt(c, s.notifiers[0], j, s.instances[j]);
    }
  }

  /** What the other steps can do to instance `j`: end or add subscriptions, and deliver messages without reload. */
  predicate Harmless(a: Instance, b: Instance) {
    && b.enforcer == a.enforcer && b.lost == a.lost && |b.subs| >= |a.subs|
    && ((forall k: nat | k < |a.subs| :: NoReload(a.subs[k])) ==> forall k: nat | k < |b.subs| :: NoReload(b.subs[k]))
  }

  lemma BroadcastHarmless(s: State, m: Message, j: nat)
    requires j < |s.instances| && (m.Event? ==> !m.reload)
    ensures Harmless(s.instances[j], Broadcast(s, m).instances[j])
  {
    var a, b := s.instances[j], Broadcast(s, m).instances[j];
    forall k: nat | k < |a.subs| && NoReload(a.subs[k])
      ensures NoReload(b.subs[k])
    {
    }
  }

  lemma InstanceStepHarmless(c: Config, s: State, step: Step, j: nat)
    requires WellFormed(c, s) && Missed(s, j)
    requires step.Bind? || step.Subscribe? || step.Stop? || step.Abandon? || step.Consume?
    requires step.i < |s.instances|
    ensures Harmless(s.instances[j], StepInstance(c, s, step).instances[j])
  {
    var a, b := s.instances[j], StepInstance(c, s, step).instances[j];
    if step.Consume? && step.i == j && step.j < |a.subs| {
      assert NoReload(a.subs[step.j]);
    }
    forall k: nat | k < |b.subs|
      ensures NoReload(b.subs[k])
    {
      if k < |a.subs| {
        assert NoReload(a.subs[k]);
      }
    }
  }

  lemma StillMissed(s: State, s': State, j: nat)
    requires Missed(s, j) && |s'.instances| == |s.instances| && Harmless(s.instances[j], s'.instances[j])
    requires |s'.notifiers| >= |s.notifiers| && s'.notifiers[0] == s.notifiers[0]
    requires forall n | 1 <= n < |s'.notifiers| :: !s'.notifiers[n].reload && !s'.notifiers[n].pc.Reloading?
    ensures Missed(s', j)
  {
  }

  lemma NotifierStepMissed(c: Config, s: State, step: Step, j: nat)
    requires WellFormed(c, s) && Missed(s, j)
    requires step.Unlink? || step.Reload? || step.Publish?
    requires step.n < |s.notifiers| && s.notifiers[step.n].inst < |s.instances|
    ensures Missed(StepNotifier(c, s, step), j)
  {
    var call, s' := s.notifiers[step.n], StepNotifier(c, s, step);
    if step.Publish? && call.pc.Publishing? {
      BroadcastHarmless(s, Event(c.ids[call.inst], call.reload, call.version), j);
    }
    StillMissed(s, s', j);
  }

  lemma ApplyMissed(c: Config, s: State, step: Step, j: nat)
    requires WellFormed(c, s) && Missed(s, j) && !(step.BeginNotify? && step.reload)
    ensures Missed(Apply(c, s, step), j)
  {
    var s' := Apply(c, s, step);
    if step.Bind? || step.Subscribe? || step.Stop? || step.Abandon? || step.Consume? {
      if step.i < |s.instances| {
        InstanceStepHarmless(c, s, step, j);
        StillMissed(s, s', j);
      }
    } else if step.Unlink? || step.Reload? || step.Publish? {
      if NotifierExists(s, step.n) {
        NotifierStepMissed(c, s, step, j);
      }
    } else if step.Disturb? {
      BroadcastHarmless(s, Noise, j);
      StillMissed(s, s', j);
    } else {
      QuietMissed(c, s, step, j);
    }
  }

  lemma QuietMissed(c: Config, s: State, step: Step, j: nat)
    requires WellFormed(c, s) && Missed(s, j) && !(step.BeginNotify? && step.reload)
    requires step.Commit? || step.Tick? || step.Spoil? || step.BeginResolve? || step.AskCache? || step.Discard?
      || step.ReadUser? || step.ReadRoles? || step.Store? || step.BeginNotify?
    ensures Missed(Apply(c, s, step), j)
  {
    var s' := Apply(c, s, step);
    assert s'.instances == s.instances;
    StillMissed(s, s', j);
  }

  lemma {:induction false} ExecMissed(c: Config, s: State, steps: seq<Step>, j: nat)
    requires WellFormed(c, s) && Missed(s, j) && Quiet(steps)
    ensures Missed(Exec(c, s, steps), j)
    decreases |steps|
  {
    if steps != [] {
      ApplyMissed(c, s, steps[0], j);
      assert Quiet(steps[1..]);
      ExecMissed(c, Apply(c, s, steps[0]), steps[1..], j);
    }
  }

  /** Two instances with one non-blank identifier: one of them misses an acknowledged change.  In every
      continuation without another policy change it keeps the older policy, unconverged while it listens. */
  lemma CollisionDiverges(c: Config, snap: Snapshot, next: Snapshot, i: nat, j: nat, rest: seq<Step>)
    requires c.redis && i < |c.ids| && j < |c.ids| && i != j && c.ids[i] == c.ids[j] != "" && Quiet(rest)
    ensures var s := Exec(c, Init(c, snap), Prepare(i, j, next) + Mistake(i, j) + rest);
      && j < |s.instances| && !AtLeast(s.instances[j], 1)
      && |s.instances[j].subs| > 0 && (s.instances[j].subs[0].Live? ==> !Converged(c, s))
    ensures rest == [] ==> !Converged(c, Exec(c, Init(c, snap), Prepare(i, j, next) + Mistake(i, j) + rest))
  {
    var s1 := Exec(c, Init(c, snap), Prepare(i, j, next));
    PrepareRun(c, snap, next, i, j);
    MistakeRun(c, s1, i, j);
    var s2 := Exec(c, s1, Mistake(i, j));
    ExecAppend(c, Init(c, snap), Prepare(i, j, next), Mistake(i, j));
    ExecAppend(c, Init(c, snap), Prepare(i, j, next) + Mistake(i, j), rest);
    ExecMissed(c, s2, rest, j);
    MissedMeans(c, Exec(c, s2, rest), j);
  }

  /** Exactly when every run converges. */
  lemma ConvergesIffNoCollision(c: Config, snap: Snapshot)
    requires c.redis
    ensures (forall steps :: Converged(c, Exec(c, Init(c, snap), steps))) <==> NoCollision(c)
  {
    if NoCollision(c) {
      forall steps
        ensures Converged(c, Exec(c, Init(c, snap), steps))
      {
        ExecKeeps(c, Init(c, snap), steps);
      }
    } else {
      var i, j :| 0 <= i < j < |c.ids| && c.ids[i] == c.ids[j] != "";
      CollisionDiverges(c, snap, snap, i, j, []);
      assert !Converged(c, Exec(c, Init(c, snap), Prepare(i, j, snap) + Mistake(i, j) + []));
    }
  }
}
