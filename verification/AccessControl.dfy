/**
 The access control adapter as code: one Control object per server instance, all of them on the
 same database, cache and channel.  Each method is proved to do exactly what its fixed schedule
 of protocol steps does when nothing comes in between.  That ties the code to the protocol; calls
 that overlap are the subject of the protocol itself.
 */
module AccessControl {
  import opened Prelude
  import opened Protocol
  import opened IdentityCache

  /** Which of the calls to the outside succeed. */
  datatype ResolveFaults = ResolveFaults(get: bool, unlink: bool, user: bool, roles: bool, set_: bool)
  datatype NotifyFaults = NotifyFaults(unlink: bool, load: bool, publish: bool, delivered: bool)

  datatype Answer = Answer(identity: Identity) | Error

  predicate Finished(pc: ResolverPc) {
    pc.Returned? || pc.Rejected? || pc.Failed?
  }

  function AnswerOf(pc: ResolverPc): Answer {
    match pc
    case Returned(identity, _, _, _) => Answer(identity)
    case Rejected => Answer(Absent)
    case _ => Error
  }

  // --------------------------------------------------------------- schedules

  /** One undisturbed ResolvePrincipal call; the steps of the branches not taken are not enabled. */
  function ResolveSchedule(u: UserId, f: ResolveFaults): seq<Step> {
    [BeginResolve(u), AskCache(0, f.get), Discard(0, f.unlink), ReadUser(0, f.user), ReadRoles(0, f.roles), Store(0, f.set_)]
  }

  /** One undisturbed NotifyChanged call of instance `i`. */
  function NotifySchedule(i: nat, users: seq<UserId>, reload: bool, version: Version, f: NotifyFaults): seq<Step> {
    [BeginNotify(i, users, reload, version)] + NotifySteps(f)
  }

  function NotifySteps(f: NotifyFaults): seq<Step> {
    [Unlink(0, f.unlink)] + ([Reload(0, f.load)] + [Publish(0, f.publish, f.delivered)])
  }

  predicate OfResolver(step: Step, r: nat) {
    (step.AskCache? || step.Discard? || step.ReadUser? || step.ReadRoles? || step.Store?) && step.r == r
  }

  lemma {:induction false} FinishedStays(c: Config, s: State, steps: seq<Step>, r: nat)
    requires WellFormed(c, s) && r < |s.resolvers| && Finished(s.resolvers[r].pc)
    requires forall step | step in steps :: OfResolver(step, r)
    ensures Exec(c, s, steps) == s
    decreases |steps|
  {
    if steps != [] {
      assert OfResolver(steps[0], r);
      FinishedStays(c, s, steps[1..], r);
    }
  }

  lemma ExecTwo(c: Config, s: State, steps: seq<Step>)
    requires WellFormed(c, s) && |steps| >= 2
    ensures Exec(c, s, steps) == Exec(c, Apply(c, Apply(c, s, steps[0]), steps[1]), steps[2..])
  {
    ExecCons(c, s, steps[0], steps[1..]);
    ExecCons(c, Apply(c, s, steps[0]), steps[1], steps[2..]);
    assert steps == [steps[0]] + steps[1..] && steps[1..] == [steps[1]] + steps[2..];
  }

  /** The cache read and, after an undecodable payload, the unlink decide the call or leave a miss. */
  lemma AskOutcome(c: Config, s: State, u: UserId, f: ResolveFaults)
    requires WellFormed(c, s) && |s.resolvers| == 1 && s.resolvers[0].user == u && s.resolvers[0].pc.Asking?
    ensures
      var rest := ResolveSchedule(u, f);
      var asked := Move(s, 0, if !c.redis then Loading else if f.get then AfterCacheRead(s, u) else Failed);
      var pc := asked.resolvers[0].pc;
      && (Finished(pc) ==> Exec(c, s, rest[1..]) == asked)
      && (pc.Discarding? ==> Exec(c, s, rest[1..]) == Move(if f.unlink then s.(cache := s.cache - {u}) else s, 0, Failed))
      && (pc.Loading? ==> Exec(c, s, rest[1..]) == Exec(c, asked, rest[3..]))
      && (Finished(pc) || pc.Discarding? || pc.Loading?)
  {
    var steps := ResolveSchedule(u, f);
    var asked := Apply(c, s, steps[1]);
    ExecTwo(c, s, steps[1..]);
    assert steps[1..][2..] == steps[3..];
    var after := Apply(c, asked, steps[2]);
    if Finished(after.resolvers[0].pc) {
      FinishedStays(c, after, steps[3..], 0);
    }
  }

  /** How a whole call starts: rejected, decided by the cache, or a miss still to be filled. */
  lemma CallOutcome(c: Config, s: State, u: UserId, f: ResolveFaults)
    requires WellFormed(c, s) && s.resolvers == []
    ensures
      var call := Resolver(u, Head(s), Rejected);
      u <= 0 ==> Exec(c, s, ResolveSchedule(u, f)) == s.(resolvers := [call])
    ensures
      var asked := if !c.redis then Loading else if f.get then AfterCacheRead(s, u) else Failed;
      var call := Resolver(u, Head(s), if asked.Discarding? then Failed else asked);
      u > 0 && asked != Loading ==>
        Finished(call.pc) && Exec(c, s, ResolveSchedule(u, f)) ==
          s.(resolvers := [call], cache := if asked.Discarding? && f.unlink then s.cache - {u} else s.cache)
    ensures
      u > 0 && (c.redis ==> f.get && AfterCacheRead(s, u) == Loading) ==>
        Exec(c, s, ResolveSchedule(u, f)) ==
        Exec(c, s.(resolvers := [Resolver(u, Head(s), Loading)]), ResolveSchedule(u, f)[3..])
  {
    var steps := ResolveSchedule(u, f);
    var s1 := Apply(c, s, steps[0]);
    ExecCons(c, s, steps[0], steps[1..]);
    assert steps == [steps[0]] + steps[1..];
    if u <= 0 {
      FinishedStays(c, s1, steps[1..], 0);
    } else {
      AskOutcome(c, s1, u, f);
      assert AfterCacheRead(s1, u) == AfterCacheRead(s, u);
      assert Move(s1, 0, Loading) == s.(resolvers := [Resolver(u, Head(s), Loading)]);
    }
  }

  /** How a call goes on after a miss: the two reads, then the cache write. */
  lemma RefillOutcome(c: Config, s: State, u: UserId, f: ResolveFaults)
    requires WellFormed(c, s) && |s.resolvers| == 1 && s.resolvers[0].user == u && s.resolvers[0].pc.Loading?
    ensures
      var loaded := Apply(c, Apply(c, s, ReadUser(0, f.user)), ReadRoles(0, f.roles));
      var pc := loaded.resolvers[0].pc;
      var end := Exec(c, s, ResolveSchedule(u, f)[3..]);
      && (pc == Failed ==> end == loaded)
      && (pc.Loaded? && c.redis && !f.set_ ==> end == Move(loaded, 0, Failed))
      && (pc.Loaded? && (c.redis ==> f.set_) ==>
            end == Move(if c.redis then loaded.(cache := s.cache[u := Slot(Encoded(pc.identity, pc.stamp), s.clock + c.ttl)])
                        else loaded, 0, Returned(pc.identity, pc.stamp, false, s.clock)))
  {
    var steps := ResolveSchedule(u, f)[3..];
    var loaded := Apply(c, Apply(c, s, ReadUser(0, f.user)), ReadRoles(0, f.roles));
    ExecTwo(c, s, steps);
    assert steps[2..] == [Store(0, f.set_)];
    ExecCons(c, loaded, Store(0, f.set_), []);
  }

  predicate AllSucceed(f: ResolveFaults) {
    f.get && f.user && f.roles && f.set_
  }

  /** An undisturbed call without a live entry, when everything succeeds: the answer is the head version's. */
  lemma ColdCall(c: Config, s: State, u: UserId, f: ResolveFaults)
    requires WellFormed(c, s) && s.resolvers == [] && u > 0 && AllSucceed(f)
    requires c.redis ==> u !in s.cache || s.cache[u].expires <= s.clock
    ensures
      var end := Exec(c, s, ResolveSchedule(u, f));
      && |end.resolvers| == 1 && end.resolvers[0].pc.Returned? && end.db == s.db
      && var pc := end.resolvers[0].pc;
         && !pc.hit && pc.stamp == Stamp(Head(s), Head(s), s.clock)
         && Says(s.db, u, pc.identity, Head(s), Head(s))
         && end.cache == if c.redis then s.cache[u := Slot(Encoded(pc.identity, pc.stamp), s.clock + c.ttl)] else s.cache
  {
    var missed := s.(resolvers := [Resolver(u, Head(s), Loading)]);
    CallOutcome(c, s, u, f);
    RefillOutcome(c, missed, u, f);
  }

  /** Whether a call that is made fails, for a positive id: the cache read, a read of an undecodable entry, or
      after a miss the user query, the role query of a user that exists, or the cache write. */
  predicate CallFails(c: Config, s: State, u: UserId, f: ResolveFaults)
    requires WellFormed(c, s)
  {
    var warm := c.redis && u in s.cache && s.clock < s.cache[u].expires;
    || (c.redis && !f.get)
    || (warm && s.cache[u].payload.Garbage?)
    || (!warm && (!f.user || (u in s.db[Head(s)].users && !f.roles) || (c.redis && !f.set_)))
  }

  lemma MissFails(c: Config, s: State, u: UserId, f: ResolveFaults)
    requires WellFormed(c, s) && |s.resolvers| == 1 && s.resolvers[0].user == u && s.resolvers[0].pc.Loading?
    ensures var end := Exec(c, s, ResolveSchedule(u, f)[3..]);
      |end.resolvers| == 1 && (end.resolvers[0].pc == Failed <==>
        (!f.user || (u in s.db[Head(s)].users && !f.roles) || (c.redis && !f.set_)))
  {
    RefillOutcome(c, s, u, f);
  }

  /** An undisturbed call is an error exactly when one of its calls fails. */
  lemma ErrorIff(c: Config, s: State, u: UserId, f: ResolveFaults)
    requires WellFormed(c, s) && s.resolvers == [] && u > 0
    ensures var end := Exec(c, s, ResolveSchedule(u, f));
      |end.resolvers| == 1 && (end.resolvers[0].pc == Failed <==> CallFails(c, s, u, f))
  {
    CallOutcome(c, s, u, f);
    MissFails(c, s.(resolvers := [Resolver(u, Head(s), Loading)]), u, f);
  }

  predicate OfNotifier(step: Step, n: nat) {
    (step.Unlink? || step.Reload? || step.Publish?) && step.n == n
  }

  lemma {:induction false} AckedStays(c: Config, s: State, steps: seq<Step>, n: nat)
    requires WellFormed(c, s) && NotifierExists(s, n) && (s.notifiers[n].pc.Acked? || s.notifiers[n].pc.Errored?)
    requires forall step | step in steps :: OfNotifier(step, n)
    ensures Exec(c, s, steps) == s
    decreases |steps|
  {
    if steps != [] {
      assert OfNotifier(steps[0], n);
      AckedStays(c, s, steps[1..], n);
    }
  }

  // The outcome of an undisturbed NotifyChanged call, from each of its stages on.

  function AfterPublish(c: Config, s: State, n: Notifier, f: NotifyFaults): State
    requires WellFormed(c, s) && n.inst < |s.instances|
  {
    if !c.redis then s.(notifiers := [n.(pc := Acked({}))])
    else
      var event := Event(c.ids[n.inst], n.reload, n.version);
      var sent := if f.publish || f.delivered then Broadcast(s, event) else s;
      sent.(notifiers := [n.(pc := if f.publish then Acked(Audience(s)) else Errored)])
  }

  function AfterReload(c: Config, s: State, n: Notifier, f: NotifyFaults): State
    requires WellFormed(c, s) && n.inst < |s.instances|
  {
    if !n.reload then AfterPublish(c, s, n, f)
    else if !CanReload(s, n.inst, f.load) then s.(notifiers := [n.(pc := Errored)])
    else AfterPublish(c, LoadPolicy(s, n.inst), n, f)
  }

  function AfterUnlink(c: Config, s: State, n: Notifier, f: NotifyFaults): State
    requires WellFormed(c, s) && n.inst < |s.instances|
  {
    if !c.redis || Targets(n.users) == {} then AfterReload(c, s, n, f)
    else if !f.unlink then s.(notifiers := [n.(pc := Errored)])
    else AfterReload(c, s.(cache := s.cache - Targets(n.users)), n, f)
  }

  function Calling(s: State, n: Notifier, pc: NotifierPc): State {
    s.(notifiers := [n.(pc := pc)])
  }

  lemma PublishOutcome(c: Config, s: State, n: Notifier, f: NotifyFaults)
    requires WellFormed(c, s) && n.inst < |s.instances|
    ensures Exec(c, Calling(s, n, BeforePublish(c)), [Publish(0, f.publish, f.delivered)]) == AfterPublish(c, s, n, f)
  {
    var s0 := Calling(s, n, BeforePublish(c));
    ExecCons(c, s0, Publish(0, f.publish, f.delivered), []);
  }

  lemma ReloadOutcome(c: Config, s: State, n: Notifier, f: NotifyFaults)
    requires WellFormed(c, s) && n.inst < |s.instances|
    ensures
      Exec(c, Calling(s, n, BeforeReload(c, n.reload)), [Reload(0, f.load)] + [Publish(0, f.publish, f.delivered)])
      == AfterReload(c, s, n, f)
  {
    var s0, rest := Calling(s, n, BeforeReload(c, n.reload)), [Publish(0, f.publish, f.delivered)];
    ExecCons(c, s0, Reload(0, f.load), rest);
    if !n.reload {
      PublishOutcome(c, s, n, f);
    } else if !CanReload(s, n.inst, f.load) {
      assert Apply(c, s0, Reload(0, f.load)) == Calling(s, n, Errored);
      AckedStays(c, Calling(s, n, Errored), rest, 0);
    } else {
      PublishOutcome(c, LoadPolicy(s, n.inst), n, f);
      assert Apply(c, s0, Reload(0, f.load)) == Calling(LoadPolicy(s, n.inst), n, BeforePublish(c));
    }
  }

  lemma UnlinkOutcome(c: Config, s: State, n: Notifier, f: NotifyFaults)
    requires WellFormed(c, s) && n.inst < |s.instances|
    ensures
      Exec(c, Calling(s, n, FirstPc(c, n.users, n.reload)), NotifySteps(f)) == AfterUnlink(c, s, n, f)
  {
    var s0 := Calling(s, n, FirstPc(c, n.users, n.reload));
    var rest := [Reload(0, f.load)] + [Publish(0, f.publish, f.delivered)];
    ExecCons(c, s0, Unlink(0, f.unlink), rest);
    if !c.redis || Targets(n.users) == {} {
      assert Apply(c, s0, Unlink(0, f.unlink)) == s0;
      ReloadOutcome(c, s, n, f);
    } else if !f.unlink {
      assert Apply(c, s0, Unlink(0, f.unlink)) == Calling(s, n, Errored);
      AckedStays(c, Calling(s, n, Errored), rest, 0);
    } else {
      var s1 := s.(cache := s.cache - Targets(n.users));
      assert Apply(c, s0, Unlink(0, f.unlink)) == Calling(s1, n, BeforeReload(c, n.reload));
      ReloadOutcome(c, s1, n, f);
    }
  }

  lemma NotifyOutcome(c: Config, s: State, i: nat, users: seq<UserId>, reload: bool, version: Version, f: NotifyFaults)
    requires WellFormed(c, s) && s.notifiers == [] && i < |s.instances| && version < |s.db|
    ensures Exec(c, s, NotifySchedule(i, users, reload, version, f))
      == AfterUnlink(c, s, Notifier(i, users, reload, version, Unlinking), f)
  {
    var n := Notifier(i, users, reload, version, Unlinking);
    ExecCons(c, s, BeginNotify(i, users, reload, version), NotifySteps(f));
    assert Apply(c, s, BeginNotify(i, users, reload, version)) == Calling(s, n, FirstPc(c, users, reload));
    UnlinkOutcome(c, s, n, f);
  }

  /** A subscription after a message: appended to the inbox if the subscription is live. */
  ghost predicate Heard(before: seq<Subscription>, after: seq<Subscription>, m: Message) {
    && |after| == |before|
    && forall j | 0 <= j < |before| :: after[j] == if before[j].Live? then Live(before[j].inbox + [m]) else before[j]
  }

  /** What an undisturbed call that returned nil has done. */
  lemma AckedMeans(c: Config, s: State, n: Notifier, f: NotifyFaults, end: State)
    requires WellFormed(c, s) && n.inst < |s.instances| && end == AfterUnlink(c, s, n, f)
    requires |end.notifiers| == 1 && end.notifiers[0].pc.Acked?
    ensures end.cache == if c.redis then s.cache - Targets(n.users) else s.cache
    ensures |end.instances| == |s.instances|
    ensures n.reload ==> end.instances[n.inst].enforcer == Some(Policy(Head(s), s.db[Head(s)].policy))
    ensures c.redis ==> forall i | 0 <= i < |s.instances| ::
      Heard(s.instances[i].subs, end.instances[i].subs, Event(c.ids[n.inst], n.reload, n.version))
  {
    assert s.cache - {} == s.cache;
  }

  lemma SomeTarget(users: seq<UserId>)
    ensures Targets(users) != {} <==> exists u :: u in users && u > 0
  {
    if u :| u in users && u > 0 {
      assert u in Targets(users);
    }
  }

  /** An undisturbed call returns nil exactly when every call it makes succeeds. */
  lemma AckedIff(c: Config, s: State, n: Notifier, f: NotifyFaults, end: State)
    requires WellFormed(c, s) && n.inst < |s.instances| && end == AfterUnlink(c, s, n, f)
    ensures |end.notifiers| == 1
    ensures end.notifiers[0].pc.Acked? <==>
      && (c.redis && Targets(n.users) != {} ==> f.unlink)
      && (n.reload ==> f.load && s.instances[n.inst].enforcer.Some?)
      && (c.redis ==> f.publish)
  {
  }

  class Control {
    const instanceID: string
    var enforcer: Option<Policy>
    var subscriptions: seq<Subscription>    // all that were ever started, each with its consumer
    var pubsub: Option<nat>                 // the one Close will close
    ghost var lost: set<Version>

    constructor (id: string)
      ensures instanceID == id && enforcer == None && subscriptions == [] && pubsub == None && lost == {}
    {
      instanceID, enforcer, subscriptions, pubsub, lost := id, None, [], None, {};
    }

    ghost function Value(): Instance
      reads this
    {
      Instance(enforcer, subscriptions, pubsub, lost)
    }
  }

  /** What the instances share. */
  class Cluster {
    const redis: bool
    const cacheTTL: nat
    const controls: seq<Control>
    var db: seq<Snapshot>
    var clock: nat
    var cache: map<UserId, Slot>

    constructor (redis: bool, ttl: nat, controls: seq<Control>, snap: Snapshot)
      requires forall i, j | 0 <= i < j < |controls| :: controls[i] != controls[j]
      ensures Valid() && this.controls == controls && this.redis == redis && cacheTTL == ttl
      ensures db == [snap] && clock == 0 && cache == map[]
    {
      this.redis, cacheTTL, this.controls := redis, ttl, controls;
      db, clock, cache := [snap], 0, map[];
    }

    ghost predicate Valid()
      reads this
    {
      && |db| > 0
      && (forall i, j | 0 <= i < j < |controls| :: controls[i] != controls[j])
    }

    ghost function Settings(): (c: Config) {
      Config(seq(|controls|, i requires 0 <= i < |controls| => controls[i].instanceID), redis, cacheTTL)
    }

    ghost function Instances(): seq<Instance>
      reads controls
    {
      seq(|controls|, i requires 0 <= i < |controls| reads controls => controls[i].Value())
    }

    /** The protocol state this cluster is in, with the given calls in flight. */
    ghost function View(resolvers: seq<Resolver>, notifiers: seq<Notifier>): (s: State)
      requires Valid()
      reads this, controls
      ensures WellFormed(Settings(), s)
    {
      State(db, clock, cache, Instances(), resolvers, notifiers)
    }

    // ------------------------------------------------------------ identities

    /** The two queries of a cache miss, tied to the protocol's two read steps. */
    method LoadPrincipal(userID: UserId, f: ResolveFaults) returns (identity: Option<Identity>, pc: ResolverPc)
      requires Valid()
      ensures identity.Some? ==> pc.Loaded? && pc.identity == identity.value && Current(userID, identity.value)
      ensures identity.None? ==> pc == Failed && !(f.user && f.roles)
      ensures
        var s := View([Resolver(userID, |db| - 1, Loading)], []);
        Apply(Settings(), Apply(Settings(), s, ReadUser(0, f.user)), ReadRoles(0, f.roles))
          == View([Resolver(userID, |db| - 1, pc)], [])
    {
      var head := |db| - 1;
      pc := Failed;
      if !f.user {
        return None, pc;
      }
      if userID !in db[head].users {
        return Some(Absent), Loaded(Absent, Stamp(head, head, clock));
      }
      var user := db[head].users[userID];
      if !f.roles {
        return None, pc;
      }
      var roles := RolesOf(db[head], userID);
      var principal := Principal(userID, user.sessionVersion, roles, user.isSuperAdmin);
      return Some(Found(principal)), Loaded(Found(principal), Stamp(head, head, clock));
    }

    /** The rest of ResolvePrincipal after a cache miss: load, then write the cache. */
    method Refill(userID: UserId, f: ResolveFaults) returns (answer: Answer, ghost call: Resolver)
      requires Valid()
      modifies this`cache
      ensures Valid()
      ensures View([call], []) ==
        Exec(Settings(), old(View([Resolver(userID, |db| - 1, Loading)], [])), ResolveSchedule(userID, f)[3..])
      ensures Finished(call.pc) && answer == AnswerOf(call.pc)
    {
      RefillOutcome(Settings(), View([Resolver(userID, |db| - 1, Loading)], []), userID, f);
      var identity, pc := LoadPrincipal(userID, f);
      call := Resolver(userID, |db| - 1, pc);
      if identity.None? {
        return Error, call;
      }
      if redis {
        if !f.set_ {
          return Error, call.(pc := Failed);
        }
        cache := cache[userID := Slot(Encoded(identity.value, pc.stamp), clock + cacheTTL)];
      }
      return Answer(identity.value), call.(pc := Returned(identity.value, pc.stamp, false, clock));
    }

    /** The cache read that opens ResolvePrincipal: an answer, an error, or a miss (`Loading`). */
    method ReadCache(userID: UserId, f: ResolveFaults) returns (pc: ResolverPc)
      requires Valid()
      modifies this`cache
      ensures Valid()
      ensures
        var asked := if !redis then Loading else if f.get then AfterCacheRead(old(View([], [])), userID) else Failed;
        && pc == (if asked.Discarding? then Failed else asked)
        && cache == (if asked.Discarding? && f.unlink then old(cache) - {userID} else old(cache))
    {
      if redis {
        if !f.get {
          return Failed;
        }
        if userID in cache && clock < cache[userID].expires {
          match cache[userID].payload {
            case Garbage =>
              if f.unlink {
                cache := cache - {userID};
              }
              return Failed;
            case Encoded(identity, stamp) =>
              return Returned(identity, stamp, true, clock);
          }
        }
      }
      return Loading;
    }

    /** What the database says of a user now. */
    ghost predicate Current(userID: UserId, identity: Identity)
      requires Valid()
      reads this
    {
      Says(db, userID, identity, |db| - 1, |db| - 1)
    }

    /** The cache holds a live entry for the user. */
    predicate Warm(userID: UserId)
      reads this
    {
      redis && userID in cache && clock < cache[userID].expires
    }

    /** A whole undisturbed call is the protocol's schedule for it, on every path through the code.  A live entry
        is the answer, and an undecodable one an error; without an entry the answer is what the database says now,
        and is kept for the whole TTL. */
    method ResolvePrincipal(userID: UserId, f: ResolveFaults) returns (answer: Answer, ghost call: Resolver)
      requires Valid()
      modifies this`cache
      ensures Valid()
      ensures View([call], []) == Exec(Settings(), old(View([], [])), ResolveSchedule(userID, f))
      ensures Finished(call.pc) && answer == AnswerOf(call.pc)
      ensures userID <= 0 ==> answer == Answer(Absent) && cache == old(cache)
      ensures userID > 0 ==> (answer == Error <==> CallFails(Settings(), old(View([], [])), userID, f))
      ensures userID > 0 && f.get && old(Warm(userID)) ==>
        match old(cache)[userID].payload
        case Encoded(identity, _) => answer == Answer(identity) && cache == old(cache)
        case Garbage => answer == Error && cache == if f.unlink then old(cache) - {userID} else old(cache)
      ensures userID > 0 && AllSucceed(f) && !old(Warm(userID)) ==>
        answer.Answer? && Current(userID, answer.identity) && Kept(userID, answer.identity, old(cache))
    {
      ghost var s := View([], []);
      if userID <= 0 {
        CallOutcome(Settings(), s, userID, f);
        return Answer(Absent), Resolver(userID, |db| - 1, Rejected);
      }
      answer, call := ResolveUser(userID, f);
      ErrorIff(Settings(), s, userID, f);
      if AllSucceed(f) && !old(Warm(userID)) {
        ColdCall(Settings(), s, userID, f);
      }
    }

    /** With Redis the cache now holds this identity for the whole TTL; nothing else in it has changed. */
    ghost predicate Kept(userID: UserId, identity: Identity, before: map<UserId, Slot>)
      reads this
    {
      if redis then exists stamp :: cache == before[userID := Slot(Encoded(identity, stamp), clock + cacheTTL)]
      else cache == before
    }

    /** The rest of ResolvePrincipal, for a positive id: the cache, then the database. */
    method ResolveUser(userID: UserId, f: ResolveFaults) returns (answer: Answer, ghost call: Resolver)
      requires Valid() && userID > 0
      modifies this`cache
      ensures Valid()
      ensures View([call], []) == Exec(Settings(), old(View([], [])), ResolveSchedule(userID, f))
      ensures Finished(call.pc) && answer == AnswerOf(call.pc)
      ensures f.get && old(Warm(userID)) ==>
        match old(cache)[userID].payload
        case Encoded(identity, _) => answer == Answer(identity) && cache == old(cache)
        case Garbage => answer == Error && cache == if f.unlink then old(cache) - {userID} else old(cache)
    {
      CallOutcome(Settings(), View([], []), userID, f);
      var pc := ReadCache(userID, f);
      call := Resolver(userID, |db| - 1, pc);
      if !pc.Loading? {
        return AnswerOf(pc), call;
      }
      answer, call := Refill(userID, f);
    }

    // ---------------------------------------------------------- notification

    /** reloadPolicy: an unbound enforcer or a failed load is an error and changes nothing. */
    method ReloadPolicy(i: nat, load: bool) returns (ok: bool)
      requires Valid() && i < |controls|
      modifies controls[i]
      ensures Valid() && ok == CanReload(old(View([], [])), i, load)
      ensures View([], []) == if ok then LoadPolicy(old(View([], [])), i) else old(View([], []))
      ensures ok <==> load && old(controls[i].enforcer).Some?
      ensures controls[i].enforcer == if ok then Some(Policy(|db| - 1, db[|db| - 1].policy)) else old(controls[i].enforcer)
      ensures controls[i].subscriptions == old(controls[i].subscriptions) && controls[i].lost == old(controls[i].lost)
      ensures controls[i].pubsub == old(controls[i].pubsub)
    {
      if controls[i].enforcer.None? || !load {
        return false;
      }
      controls[i].enforcer := Some(Policy(|db| - 1, db[|db| - 1].policy));
      return true;
    }

    method Deliver(m: Message)
      requires Valid()
      modifies controls
      ensures Valid() && View([], []) == Broadcast(old(View([], [])), m)
    {
      forall i | 0 <= i < |controls| {
        controls[i].subscriptions := seq(|controls[i].subscriptions|,
          j requires 0 <= j < |controls[i].subscriptions| reads controls[i] => Append(controls[i].subscriptions[j], m));
      }
      forall i | 0 <= i < |controls|
        ensures controls[i].Value() == Protocol.Deliver(old(controls[i].Value()), m)
      {
        assert controls[i].subscriptions == Protocol.Deliver(old(controls[i].Value()), m).subs;
      }
    }

    /** The second half of NotifyChanged: reload here, then tell the other instances. */
    method ReloadAndPublish(ghost n: Notifier, i: nat, reload: bool, version: Version, f: NotifyFaults)
      returns (ok: bool, ghost call: Notifier)
      requires Valid() && i < |controls| && n.inst == i && n.reload == reload && n.version == version
      modifies controls
      ensures Valid()
      ensures View([], [call]) == AfterReload(Settings(), old(View([], [])), n, f)
      ensures ok <==> call.pc.Acked?
    {
      if reload {
        var loaded := ReloadPolicy(i, f.load);
        if !loaded {
          return false, n.(pc := Errored);
        }
      }
      if !redis {
        return true, n.(pc := Acked({}));
      }
      call := n.(pc := if f.publish then Acked(Audience(View([], []))) else Errored);
      if f.publish || f.delivered {
        Deliver(Event(controls[i].instanceID, reload, version));
      }
      return f.publish, call;
    }

    /** A whole undisturbed call is the protocol's schedule for it, on every path through the code. */
    method NotifyChanged(i: nat, userIDs: seq<UserId>, reload: bool, version: Version, f: NotifyFaults)
      returns (ok: bool, ghost call: Notifier)
      requires Valid() && i < |controls| && version < |db|
      modifies this`cache, controls
      ensures Valid()
      ensures View([], [call]) == Exec(Settings(), old(View([], [])), NotifySchedule(i, userIDs, reload, version, f))
      ensures ok <==> call.pc.Acked?
      ensures ok <==>
        && (redis && (exists u :: u in userIDs && u > 0) ==> f.unlink)
        && (reload ==> f.load && old(controls[i].enforcer).Some?)
        && (redis ==> f.publish)
      ensures ok ==> cache == if redis then old(cache) - Targets(userIDs) else old(cache)
      ensures ok && reload ==> controls[i].enforcer == Some(Policy(|db| - 1, db[|db| - 1].policy))
      ensures ok && redis ==> forall k | 0 <= k < |controls| ::
        Heard(old(controls[k].subscriptions), controls[k].subscriptions, Event(controls[i].instanceID, reload, version))
    {
      ghost var before := View([], []);
      ok, call := Notify(i, userIDs, reload, version, f);
      ghost var n := Notifier(i, userIDs, reload, version, Unlinking);
      NotifyOutcome(Settings(), before, i, userIDs, reload, version, f);
      AckedIff(Settings(), before, n, f, View([], [call]));
      if ok {
        AckedMeans(Settings(), before, n, f, View([], [call]));
      }
      SomeTarget(userIDs);
      forall k | 0 <= k < |controls|
        ensures View([], [call]).instances[k].subs == controls[k].subscriptions
        ensures before.instances[k].subs == old(controls[k].subscriptions)
      {
      }
    }

    /** The body of NotifyChanged. */
    method Notify(i: nat, userIDs: seq<UserId>, reload: bool, version: Version, f: NotifyFaults)
      returns (ok: bool, ghost call: Notifier)
      requires Valid() && i < |controls| && version < |db|
      modifies this`cache, controls
      ensures Valid()
      ensures View([], [call]) == Exec(Settings(), old(View([], [])), NotifySchedule(i, userIDs, reload, version, f))
      ensures ok <==> call.pc.Acked?
    {
      call := Notifier(i, userIDs, reload, version, Unlinking);
      ghost var s := View([], []);
      NotifyOutcome(Settings(), s, i, userIDs, reload, version, f);
      var unique := UniqueUserIDs(userIDs);
      assert |unique| > 0 ==> unique[0] in Targets(userIDs);
      if redis && |unique| > 0 {
        if !f.unlink {
          return false, call.(pc := Errored);
        }
        cache := cache - set u | u in unique;
      }
      assert View([], []) == if redis && Targets(userIDs) != {} then s.(cache := s.cache - Targets(userIDs)) else s;
      ok, call := ReloadAndPublish(call, i, reload, version, f);
    }

    /** Start: subscribing, which may fail; without Redis there is nothing to subscribe to.  A further call starts
        a further subscription, and the earlier one stays without anybody to close it. */
    method Start(i: nat, subscribed: bool) returns (ok: bool)
      requires Valid() && i < |controls|
      modifies controls[i]
      ensures Valid() && ok == (!redis || subscribed)
      ensures View([], []) ==
        if ok then Apply(Settings(), old(View([], [])), Subscribe(i)) else old(View([], []))
      ensures ok && redis ==>
        && controls[i].subscriptions == old(controls[i].subscriptions) + [Live([])]
        && controls[i].pubsub == Some(|old(controls[i].subscriptions)|)
      ensures controls[i].enforcer == old(controls[i].enforcer)
    {
      if !redis {
        return true;
      }
      if !subscribed {
        return false;
      }
      controls[i].pubsub := Some(|controls[i].subscriptions|);
      controls[i].subscriptions := controls[i].subscriptions + [Live([])];
      return true;
    }

    /** Close: ends the remembered subscription, if any, and reports how that went; then there is none to close. */
    method Close(i: nat, closes: bool) returns (ok: bool)
      requires Valid() && i < |controls|
      modifies controls[i]
      ensures Valid() && View([], []) == Apply(Settings(), old(View([], [])), Stop(i))
      ensures ok == (old(controls[i].pubsub).None? || closes) && controls[i].pubsub.None?
      ensures controls[i].enforcer == old(controls[i].enforcer)
      ensures controls[i].subscriptions ==
        if old(controls[i].pubsub).Some? && old(controls[i].pubsub).value < |old(controls[i].subscriptions)|
        then old(controls[i].subscriptions)[old(controls[i].pubsub).value := Stopped]
        else old(controls[i].subscriptions)
    {
      var pubsub := controls[i].pubsub;
      controls[i].pubsub := None;
      if pubsub.None? {
        return true;
      }
      if pubsub.value < |controls[i].subscriptions| {
        controls[i].subscriptions := controls[i].subscriptions[pubsub.value := Stopped];
      }
      return closes;
    }

    /** consumeChanges of subscription `j`: some messages of the inbox, `loads` saying which reloads succeed, and
        then, if `done`, the end because the context is done or the channel closed. */
    method ConsumeChanges(i: nat, j: nat, loads: seq<bool>, done: bool)
      requires Valid() && i < |controls| && j < |controls[i].subscriptions|
      requires controls[i].subscriptions[j].Live? && |loads| <= |controls[i].subscriptions[j].inbox|
      modifies controls[i]
      ensures Valid() && |controls[i].subscriptions| == |old(controls[i].subscriptions)|
      ensures controls[i].subscriptions[j] ==
        if done then Stopped else Live(old(controls[i].subscriptions[j].inbox)[|loads|..])
      ensures View([], []) == Exec(Settings(), old(View([], [])), Consumes(i, j, loads, done))
    {
      ghost var c, s0, inbox := Settings(), View([], []), controls[i].subscriptions[j].inbox;
      var k := 0;
      while k < |loads|
        invariant k <= |loads| && |controls[i].subscriptions| == |old(controls[i].subscriptions)|
        invariant controls[i].subscriptions[j] == Live(inbox[k..])
        invariant Exec(c, s0, Consumes(i, j, loads, done)) == Exec(c, View([], []), Consumes(i, j, loads[k..], done))
      {
        ghost var before := View([], []);
        ConsumeOne(i, j, loads[k]);
        ConsumesStep(c, before, i, j, loads, k, done);
        k := k + 1;
      }
      if done {
        ExecCons(c, View([], []), Abandon(i, j), []);
        Leave(i, j);
      }
    }

    /** The end of a consumer. */
    method Leave(i: nat, j: nat)
      requires Valid() && i < |controls| && j < |controls[i].subscriptions|
      modifies controls[i]
      ensures Valid() && controls[i].subscriptions == old(controls[i].subscriptions)[j := Stopped]
      ensures View([], []) == Apply(Settings(), old(View([], [])), Abandon(i, j))
    {
      controls[i].subscriptions := controls[i].subscriptions[j := Stopped];
    }

    /** One message: garbage and the instance's own events are skipped, a failed reload is only logged. */
    method ConsumeOne(i: nat, j: nat, load: bool)
      requires Valid() && i < |controls| && j < |controls[i].subscriptions|
      requires controls[i].subscriptions[j].Live? && controls[i].subscriptions[j].inbox != []
      modifies controls[i]
      ensures Valid()
      ensures controls[i].subscriptions ==
        old(controls[i].subscriptions)[j := Live(old(controls[i].subscriptions[j].inbox)[1..])]
      ensures View([], []) == Apply(Settings(), old(View([], [])), Consume(i, j, load))
      ensures var m := old(controls[i].subscriptions[j].inbox[0]);
        var heard := m.Event? && m.reload && (m.source == "" || m.source != controls[i].instanceID);
        controls[i].enforcer ==
          if heard && load && old(controls[i].enforcer).Some? then Some(Policy(|db| - 1, db[|db| - 1].policy))
          else old(controls[i].enforcer)
    {
      var message := controls[i].subscriptions[j].inbox[0];
      controls[i].subscriptions := controls[i].subscriptions[j := Live(controls[i].subscriptions[j].inbox[1..])];
      React(i, message, load);
    }

    /** What a received message makes of the policy here. */
    method React(i: nat, message: Message, load: bool)
      requires Valid() && i < |controls|
      modifies controls[i]
      ensures Valid() && controls[i].subscriptions == old(controls[i].subscriptions)
      ensures var heard := message.Event? && message.reload && (message.source == "" || message.source != controls[i].instanceID);
        && controls[i].enforcer == (
          if heard && load && old(controls[i].enforcer).Some? then Some(Policy(|db| - 1, db[|db| - 1].policy))
          else old(controls[i].enforcer))
        && controls[i].lost == (
          if heard && !(load && old(controls[i].enforcer).Some?) then old(controls[i].lost) + {message.version}
          else old(controls[i].lost))
        && controls[i].pubsub == old(controls[i].pubsub)
    {
      if message.Noise? {
        return;
      }
      if message.source != "" && message.source == controls[i].instanceID {
        return;
      }
      if message.reload {
        var ok := ReloadPolicy(i, load);
        if !ok {
          controls[i].lost := controls[i].lost + {message.version};
        }
      }
    }
  }

  /** The steps of a consumer that handles as many messages as there are `loads`. */
  function Consumes(i: nat, j: nat, loads: seq<bool>, done: bool): seq<Step> {
    if loads == [] then (if done then [Abandon(i, j)] else [])
    else [Consume(i, j, loads[0])] + Consumes(i, j, loads[1..], done)
  }

  lemma ConsumesStep(c: Config, s: State, i: nat, j: nat, loads: seq<bool>, k: nat, done: bool)
    requires WellFormed(c, s) && k < |loads|
    ensures Exec(c, s, Consumes(i, j, loads[k..], done)) ==
      Exec(c, Apply(c, s, Consume(i, j, loads[k])), Consumes(i, j, loads[k + 1..], done))
  {
    assert loads[k..][0] == loads[k] && loads[k..][1..] == loads[k + 1..];
    ExecCons(c, s, Consume(i, j, loads[k]), Consumes(i, j, loads[k + 1..], done));
  }

  predicate Positive(u: UserId) {
    u > 0
  }

  /** uniqueUserIDs: the positive ids, each once, in first-occurrence order (`Prelude.DistinctMeans`). */
  method UniqueUserIDs(values: seq<UserId>) returns (result: seq<UserId>)
    ensures result == Distinct(values, Positive)
    ensures (set u | u in result) == Targets(values)
    ensures InOrder(values, result)
  {
    var seen: set<UserId> := {};
    result := [];
    for i := 0 to |values|
      invariant seen == set u | u in result
      invariant result == Distinct(values[..i], Positive)
    {
      assert values[..i + 1][..i] == values[..i];
      if values[i] <= 0 {
        continue;
      }
      if values[i] in seen {
        continue;
      }
      seen := seen + {values[i]};
      result := result + [values[i]];
    }
    assert values[..|values|] == values;
    DistinctMeans(values, Positive);
  }
}
