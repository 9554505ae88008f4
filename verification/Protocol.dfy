/**
 The identity cache and the policy synchronisation of several server instances,
 as one transition system.

 Every step is one atomic interaction with something shared: the database, the Redis
 cache, the Redis channel or an instance's enforcer.  Calls of ResolvePrincipal and
 NotifyChanged are records with a program counter, so any interleaving of any number of
 them is a list of steps.  A step that is not enabled leaves the state as it is; hence a
 theorem about `Exec(c, s, steps)` for all `steps` is a theorem about every run.
 */
module Protocol {
  import opened Prelude

  type UserId = int
  type Version = nat

  // ---------------------------------------------------------------- database

  datatype UserRow = UserRow(sessionVersion: int, isSuperAdmin: bool)

  datatype Rule = Rule(roleCode: string, permissionCode: string)

  /** What one committed version shows to the queries: the enabled, undeleted users,
      their enabled role codes in query order, and the active policy. */
  datatype Snapshot = Snapshot(users: map<UserId, UserRow>, roles: map<UserId, seq<string>>, policy: seq<Rule>)

  datatype Principal = Principal(userId: UserId, sessionVersion: int, roles: seq<string>, isSuperAdmin: bool)

  datatype Identity = Absent | Found(principal: Principal)

  function RolesOf(snap: Snapshot, u: UserId): seq<string> {
    if u in snap.roles then snap.roles[u] else []
  }

  // ------------------------------------------------------------------- state

  /** History of a loaded identity: the versions its two reads saw and when the first one happened. */
  datatype Stamp = Stamp(userV: Version, roleV: Version, at: nat)

  datatype Payload = Encoded(identity: Identity, stamp: Stamp) | Garbage

  datatype Slot = Slot(payload: Payload, expires: nat)

  datatype ResolverPc =
    | Asking                                        // before the cache read
    | Discarding                                    // read an undecodable payload, about to unlink it
    | Loading                                       // cache miss, nothing read yet
    | HasUser(row: UserRow, userV: Version, at: nat)
    | Loaded(identity: Identity, stamp: Stamp)      // about to write the cache
    | Returned(identity: Identity, stamp: Stamp, hit: bool, at: nat)
    | Rejected                                      // non-positive id: not found, nothing read
    | Failed

  datatype Resolver = Resolver(user: UserId, startHead: Version, pc: ResolverPc)

  datatype NotifierPc =
    | Unlinking
    | Reloading
    | Publishing
    | Acked(audience: set<(nat, nat)>)   // returned nil; audience = subscriptions live at the publish, with their instances
    | Errored

  /** A NotifyChanged call made by instance `inst` after the commit of `version`. */
  datatype Notifier = Notifier(inst: nat, users: seq<UserId>, reload: bool, version: Version, pc: NotifierPc)

  /** A channel message; `version` is history, the payload carries source and reload flag. */
  datatype Message = Event(source: string, reload: bool, version: Version) | Noise

  /** A subscription with its consumer goroutine, until it is closed or its context is done. */
  datatype Subscription = Live(inbox: seq<Message>) | Stopped

  datatype Policy = Policy(version: Version, rules: seq<Rule>)

  /** All subscriptions an instance ever started, `pubsub` being the one it remembers.  `lost` is history:
      versions of reload events whose reload failed here and was only logged. */
  datatype Instance = Instance(enforcer: Option<Policy>, subs: seq<Subscription>, pubsub: Option<nat>, lost: set<Version>)

  /** Instance `i` is configured with identifier `ids[i]`. */
  datatype Config = Config(ids: seq<string>, redis: bool, ttl: nat)

  datatype State = State(
    db: seq<Snapshot>,
    clock: nat,
    cache: map<UserId, Slot>,
    instances: seq<Instance>,
    resolvers: seq<Resolver>,
    notifiers: seq<Notifier>)

  function Init(c: Config, snap: Snapshot): State {
    State([snap], 0, map[], seq(|c.ids|, i => Instance(None, [], None, {})), [], [])
  }

  ghost predicate WellFormed(c: Config, s: State) {
    |s.db| > 0 && |s.instances| == |c.ids|
  }

  function Head(s: State): Version
    requires |s.db| > 0
  {
    |s.db| - 1
  }

  // ------------------------------------------------------------------- steps

  datatype Step =
    | Commit(next: Snapshot)
    | Tick(d: nat)
    | Spoil(user: UserId)                      // a foreign write leaves an undecodable payload
    | BeginResolve(user: UserId)
    | AskCache(r: nat, ok: bool)
    | Discard(r: nat, ok: bool)
    | ReadUser(r: nat, ok: bool)
    | ReadRoles(r: nat, ok: bool)
    | Store(r: nat, ok: bool)
    | BeginNotify(inst: nat, users: seq<UserId>, reload: bool, version: Version)
    | Unlink(n: nat, ok: bool)
    | Reload(n: nat, ok: bool)
    | Publish(n: nat, ok: bool, delivered: bool)
    | Bind(i: nat)
    | Subscribe(i: nat)
    | Stop(i: nat)
    | Abandon(i: nat, j: nat)                  // the context of consumer j is done
    | Consume(i: nat, j: nat, ok: bool)
    | Disturb                                  // an undecodable message on the channel

  function Move(s: State, r: nat, pc: ResolverPc): State
    requires r < |s.resolvers|
  {
    s.(resolvers := s.resolvers[r := s.resolvers[r].(pc := pc)])
  }

  function Advance(s: State, n: nat, pc: NotifierPc): State
    requires n < |s.notifiers|
  {
    s.(notifiers := s.notifiers[n := s.notifiers[n].(pc := pc)])
  }

  function SetInstance(s: State, i: nat, inst: Instance): State
    requires i < |s.instances|
  {
    s.(instances := s.instances[i := inst])
  }

  /** The user part is read; a missing user ends the load without a role query. */
  function AfterUserRead(s: State, u: UserId): ResolverPc
    requires |s.db| > 0
  {
    var users := s.db[Head(s)].users;
    if u in users then HasUser(users[u], Head(s), s.clock)
    else Loaded(Absent, Stamp(Head(s), Head(s), s.clock))
  }

  function AfterRoleRead(s: State, u: UserId, pc: ResolverPc): ResolverPc
    requires |s.db| > 0 && pc.HasUser?
  {
    Loaded(
      Found(Principal(u, pc.row.sessionVersion, RolesOf(s.db[Head(s)], u), pc.row.isSuperAdmin)),
      Stamp(pc.userV, Head(s), pc.at))
  }

  function AfterCacheRead(s: State, u: UserId): ResolverPc {
    if u in s.cache && s.clock < s.cache[u].expires then
      match s.cache[u].payload
      case Encoded(identity, stamp) => Returned(identity, stamp, true, s.clock)
      case Garbage => Discarding
    else
      Loading
  }

  function StepResolver(c: Config, s: State, step: Step): (s': State)
    requires WellFormed(c, s)
    requires step.AskCache? || step.Discard? || step.ReadUser? || step.ReadRoles? || step.Store?
    requires step.r < |s.resolvers|
    ensures WellFormed(c, s') && s'.db == s.db && s'.clock == s.clock
    ensures |s'.resolvers| == |s.resolvers| && |s'.notifiers| == |s.notifiers|
  {
    var Resolver(u, _, pc) := s.resolvers[step.r];
    match step
    case AskCache(r, ok) =>
      if pc.Asking? then Move(s, r, if !c.redis then Loading else if ok then AfterCacheRead(s, u) else Failed) else s
    case Discard(r, ok) =>
      if pc.Discarding? then Move(if ok then s.(cache := s.cache - {u}) else s, r, Failed) else s
    case ReadUser(r, ok) =>
      if pc.Loading? then Move(s, r, if ok then AfterUserRead(s, u) else Failed) else s
    case ReadRoles(r, ok) =>
      if pc.HasUser? then Move(s, r, if ok then AfterRoleRead(s, u, pc) else Failed) else s
    case Store(r, ok) =>
      if !pc.Loaded? then s
      else if !c.redis then Move(s, r, Returned(pc.identity, pc.stamp, false, s.clock))
      else if !ok then Move(s, r, Failed)
      else
        Move(s.(cache := s.cache[u := Slot(Encoded(pc.identity, pc.stamp), s.clock + c.ttl)]),
             r, Returned(pc.identity, pc.stamp, false, s.clock))
  }

  /** The positive ids of a NotifyChanged argument: the keys it unlinks. */
  function Targets(users: seq<UserId>): (keys: set<UserId>)
    ensures forall u :: u in keys <==> u in users && u > 0
  {
    set u | u in users && u > 0
  }

  function BeforeReload(c: Config, reload: bool): NotifierPc {
    if reload then Reloading else BeforePublish(c)
  }

  function BeforePublish(c: Config): NotifierPc {
    if c.redis then Publishing else Acked({})
  }

  function FirstPc(c: Config, users: seq<UserId>, reload: bool): NotifierPc {
    if c.redis && Targets(users) != {} then Unlinking else BeforeReload(c, reload)
  }

  function Audience(s: State): (a: set<(nat, nat)>)
    ensures forall i: nat, j: nat ::
      (i, j) in a <==> i < |s.instances| && j < |s.instances[i].subs| && s.instances[i].subs[j].Live?
  {
    set i: nat, j: nat | i < |s.instances| && j < |s.instances[i].subs| && s.instances[i].subs[j].Live? :: (i, j)
  }

  function Append(sub: Subscription, m: Message): Subscription {
    if sub.Live? then Live(sub.inbox + [m]) else sub
  }

  function Deliver(inst: Instance, m: Message): Instance {
    inst.(subs := seq(|inst.subs|, j requires 0 <= j < |inst.subs| => Append(inst.subs[j], m)))
  }

  function Broadcast(s: State, m: Message): (s': State)
    ensures |s'.instances| == |s.instances|
  {
    s.(instances := seq(|s.instances|, i requires 0 <= i < |s.instances| => Deliver(s.instances[i], m)))
  }

  /** LoadPolicy: atomically installs the head policy.  An unbound enforcer or a failed query is an error. */
  function LoadPolicy(s: State, i: nat): State
    requires |s.db| > 0 && i < |s.instances|
  {
    SetInstance(s, i, s.instances[i].(enforcer := Some(Policy(Head(s), s.db[Head(s)].policy))))
  }

  predicate CanReload(s: State, i: nat, ok: bool)
    requires i < |s.instances|
  {
    ok && s.instances[i].enforcer.Some?
  }

  function StepNotifier(c: Config, s: State, step: Step): (s': State)
    requires WellFormed(c, s)
    requires step.Unlink? || step.Reload? || step.Publish?
    requires step.n < |s.notifiers| && s.notifiers[step.n].inst < |s.instances|
    ensures WellFormed(c, s') && s'.db == s.db && s'.clock == s.clock
    ensures |s'.resolvers| == |s.resolvers| && |s'.notifiers| == |s.notifiers|
  {
    var call := s.notifiers[step.n];
    match step
    case Unlink(n, ok) =>
      if !call.pc.Unlinking? then s
      else if !ok then Advance(s, n, Errored)
      else Advance(s.(cache := s.cache - Targets(call.users)), n, BeforeReload(c, call.reload))
    case Reload(n, ok) =>
      if !call.pc.Reloading? then s
      else if !CanReload(s, call.inst, ok) then Advance(s, n, Errored)
      else Advance(LoadPolicy(s, call.inst), n, BeforePublish(c))
    case Publish(n, ok, delivered) =>
      if !call.pc.Publishing? then s
      else
        var event := Event(c.ids[call.inst], call.reload, call.version);
        Advance(if ok || delivered then Broadcast(s, event) else s, n, if ok then Acked(Audience(s)) else Errored)
  }

  /** Instance `i` ignores its own non-blank identifier. */
  predicate Skips(c: Config, i: nat, m: Message)
    requires i < |c.ids|
  {
    m.Noise? || (m.source != "" && m.source == c.ids[i])
  }

  function SetSub(inst: Instance, j: nat, sub: Subscription): Instance
    requires j < |inst.subs|
  {
    inst.(subs := inst.subs[j := sub])
  }

  function StepConsume(c: Config, s: State, i: nat, j: nat, ok: bool): State
    requires WellFormed(c, s) && i < |s.instances| && j < |s.instances[i].subs|
    requires s.instances[i].subs[j].Live? && s.instances[i].subs[j].inbox != []
  {
    var inst := s.instances[i];
    var m := inst.subs[j].inbox[0];
    var popped := SetInstance(s, i, SetSub(inst, j, Live(inst.subs[j].inbox[1..])));
    if Skips(c, i, m) || !m.reload then popped
    else if CanReload(s, i, ok) then LoadPolicy(popped, i)
    else SetInstance(popped, i, popped.instances[i].(lost := inst.lost + {m.version}))
  }

  function Subscribed(inst: Instance): Instance {
    inst.(subs := inst.subs + [Live([])], pubsub := Some(|inst.subs|))
  }

  function Closed(inst: Instance): Instance {
    if inst.pubsub.None? then inst
    else if inst.pubsub.value < |inst.subs| then SetSub(inst, inst.pubsub.value, Stopped).(pubsub := None)
    else inst.(pubsub := None)
  }

  function StepInstance(c: Config, s: State, step: Step): (s': State)
    requires WellFormed(c, s)
    requires step.Bind? || step.Subscribe? || step.Stop? || step.Abandon? || step.Consume?
    requires step.i < |s.instances|
    ensures WellFormed(c, s') && s'.db == s.db && s'.clock == s.clock
    ensures |s'.resolvers| == |s.resolvers| && |s'.notifiers| == |s.notifiers|
  {
    var inst := s.instances[step.i];
    match step
    case Bind(i) =>
      if inst.enforcer.None? then LoadPolicy(s, i) else s
    case Subscribe(i) =>
      if c.redis then SetInstance(s, i, Subscribed(inst)) else s
    case Stop(i) => SetInstance(s, i, Closed(inst))
    case Abandon(i, j) =>
      if j < |inst.subs| then SetInstance(s, i, SetSub(inst, j, Stopped)) else s
    case Consume(i, j, ok) =>
      if j < |inst.subs| && inst.subs[j].Live? && inst.subs[j].inbox != [] then StepConsume(c, s, i, j, ok) else s
  }

  function Apply(c: Config, s: State, step: Step): (s': State)
    requires WellFormed(c, s)
    ensures WellFormed(c, s')
    ensures s.db <= s'.db && s.clock <= s'.clock
    ensures |s.resolvers| <= |s'.resolvers| && |s.notifiers| <= |s'.notifiers|
  {
    match step
    case Commit(next) => s.(db := s.db + [next])
    case Tick(d) => s.(clock := s.clock + d)
    case Spoil(u) => s.(cache := s.cache[u := Slot(Garbage, s.clock + c.ttl)])
    case BeginResolve(u) =>
      s.(resolvers := s.resolvers + [Resolver(u, Head(s), if u <= 0 then Rejected else Asking)])
    case BeginNotify(i, users, reload, version) =>
      if i < |s.instances| && version < |s.db| then
        s.(notifiers := s.notifiers + [Notifier(i, users, reload, version, FirstPc(c, users, reload))])
      else s
    case Disturb => Broadcast(s, Noise)
    case Bind(i) => if i < |s.instances| then StepInstance(c, s, step) else s
    case Subscribe(i) => if i < |s.instances| then StepInstance(c, s, step) else s
    case Stop(i) => if i < |s.instances| then StepInstance(c, s, step) else s
    case Abandon(i, _) => if i < |s.instances| then StepInstance(c, s, step) else s
    case Consume(i, _, _) => if i < |s.instances| then StepInstance(c, s, step) else s
    case Unlink(n, _) => if NotifierExists(s, n) then StepNotifier(c, s, step) else s
    case Reload(n, _) => if NotifierExists(s, n) then StepNotifier(c, s, step) else s
    case Publish(n, _, _) => if NotifierExists(s, n) then StepNotifier(c, s, step) else s
    case AskCache(r, _) => if r < |s.resolvers| then StepResolver(c, s, step) else s
    case Discard(r, _) => if r < |s.resolvers| then StepResolver(c, s, step) else s
    case ReadUser(r, _) => if r < |s.resolvers| then StepResolver(c, s, step) else s
    case ReadRoles(r, _) => if r < |s.resolvers| then StepResolver(c, s, step) else s
    case Store(r, _) => if r < |s.resolvers| then StepResolver(c, s, step) else s
  }

  predicate NotifierExists(s: State, n: nat) {
    n < |s.notifiers| && s.notifiers[n].inst < |s.instances|
  }

  /** A run: the steps in order. */
  function Exec(c: Config, s: State, steps: seq<Step>): (s': State)
    requires WellFormed(c, s)
    ensures WellFormed(c, s')
    ensures s.db <= s'.db && s.clock <= s'.clock
    ensures |s.resolvers| <= |s'.resolvers| && |s.notifiers| <= |s'.notifiers|
    decreases |steps|
  {
    if steps == [] then s else Exec(c, Apply(c, s, steps[0]), steps[1..])
  }

  lemma ExecCons(c: Config, s: State, step: Step, rest: seq<Step>)
    requires WellFormed(c, s)
    ensures Exec(c, s, [step] + rest) == Exec(c, Apply(c, s, step), rest)
  {
    assert ([step] + rest)[1..] == rest;
  }

  lemma {:induction false} ExecAppend(c: Config, s: State, xs: seq<Step>, ys: seq<Step>)
    requires WellFormed(c, s)
    ensures Exec(c, s, xs + ys) == Exec(c, Exec(c, s, xs), ys)
    decreases |xs|
  {
    if xs == [] {
      assert xs + ys == ys;
    } else {
      assert (xs + ys)[1..] == xs[1..] + ys;
      ExecAppend(c, Apply(c, s, xs[0]), xs[1..], ys);
    }
  }
}
