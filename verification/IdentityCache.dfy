/**
 What ResolvePrincipal promises under every interleaving of resolvers, notifiers and commits:
 where its answer comes from, how old a cached answer can be, and exactly when the
 invalidation of NotifyChanged makes later answers fresh.
 */
module IdentityCache {
  import opened Prelude
  import opened Protocol

  // -------------------------------------------------------------- provenance

  /** The user part of version `userV` joined with the role part of version `roleV`. */
  function Compose(db: seq<Snapshot>, u: UserId, userV: Version, roleV: Version): Identity
    requires userV < |db| && roleV < |db|
  {
    if u in db[userV].users then
      var row := db[userV].users[u];
      Found(Principal(u, row.sessionVersion, RolesOf(db[roleV], u), row.isSuperAdmin))
    else
      Absent
  }

  /** `identity` was composed from committed data: a user part and a role part no older than it. */
  ghost predicate Sourced(db: seq<Snapshot>, clock: nat, u: UserId, identity: Identity, stamp: Stamp) {
    && stamp.userV <= stamp.roleV < |db|
    && stamp.at <= clock
    && identity == Compose(db, u, stamp.userV, stamp.roleV)
  }

  ghost predicate SourcedCall(s: State, call: Resolver) {
    match call.pc
    case HasUser(row, userV, at) =>
      && call.startHead <= userV < |s.db| && at <= s.clock
      && call.user in s.db[userV].users && s.db[userV].users[call.user] == row
    case Loaded(identity, stamp) =>
      && Sourced(s.db, s.clock, call.user, identity, stamp)
      && call.startHead <= stamp.userV
    case Returned(identity, stamp, hit, at) =>
      && Sourced(s.db, at, call.user, identity, stamp)
      && (!hit ==> call.startHead <= stamp.userV)
      && at <= s.clock
    case _ => call.startHead < |s.db|
  }

  ghost predicate SourcedSlot(s: State, u: UserId)
    requires u in s.cache
  {
    s.cache[u].payload.Encoded? ==>
      Sourced(s.db, s.clock, u, s.cache[u].payload.identity, s.cache[u].payload.stamp)
  }

  /** Every cached and every in-flight or answered identity comes from committed versions;
      an answer that missed the cache is at least as new as the start of its call. */
  ghost predicate AllSourced(s: State) {
    && (forall u | u in s.cache :: SourcedSlot(s, u))
    && (forall r | 0 <= r < |s.resolvers| :: SourcedCall(s, s.resolvers[r]))
  }

  lemma SourcedCallGrows(s: State, s': State, call: Resolver)
    requires s.db <= s'.db && s.clock <= s'.clock && SourcedCall(s, call)
    ensures SourcedCall(s', call)
  {
    assert forall v: nat | v < |s.db| :: s'.db[v] == s.db[v];
  }

  lemma SourcedSlotGrows(s: State, s': State, u: UserId)
    requires s.db <= s'.db && s.clock <= s'.clock
    requires u in s.cache && SourcedSlot(s, u) && u in s'.cache && s'.cache[u] == s.cache[u]
    ensures SourcedSlot(s', u)
  {
    assert forall v: nat | v < |s.db| :: s'.db[v] == s.db[v];
  }

  lemma StepResolverKeepsSourced(c: Config, s: State, step: Step)
    requires WellFormed(c, s) && AllSourced(s)
    requires step.AskCache? || step.Discard? || step.ReadUser? || step.ReadRoles? || step.Store?
    requires step.r < |s.resolvers|
    ensures AllSourced(StepResolver(c, s, step))
  {
    var s' := StepResolver(c, s, step);
    var call := s.resolvers[step.r];
    assert SourcedCall(s, call);
    assert call.user in s.cache ==> SourcedSlot(s, call.user);
    assert SourcedCall(s', s'.resolvers[step.r]);
    forall r | 0 <= r < |s'.resolvers| && r != step.r
      ensures SourcedCall(s', s'.resolvers[r])
    {
      SourcedCallGrows(s, s', s.resolvers[r]);
    }
    forall u | u in s'.cache
      ensures SourcedSlot(s', u)
    {
      if u in s.cache && s'.cache[u] == s.cache[u] {
        SourcedSlotGrows(s, s', u);
      }
    }
  }

  lemma ApplyKeepsSourced(c: Config, s: State, step: Step)
    requires WellFormed(c, s) && AllSourced(s)
    ensures AllSourced(Apply(c, s, step))
  {
    if step.AskCache? || step.Discard? || step.ReadUser? || step.ReadRoles? || step.Store? {
      if step.r < |s.resolvers| {
        StepResolverKeepsSourced(c, s, step);
      }
    } else {
      var s' := Apply(c, s, step);
      forall r | 0 <= r < |s'.resolvers|
        ensures SourcedCall(s', s'.resolvers[r])
      {
        if r < |s.resolvers| {
          SourcedCallGrows(s, s', s.resolvers[r]);
        }
      }
      forall u | u in s'.cache
        ensures SourcedSlot(s', u)
      {
        if u in s.cache && s'.cache[u] == s.cache[u] {
          SourcedSlotGrows(s, s', u);
        }
      }
    }
  }

  /** Provenance, over every run: no answer shows uncommitted or future data. */
  lemma {:induction false} Provenance(c: Config, s: State, steps: seq<Step>)
    requires WellFormed(c, s) && AllSourced(s)
    ensures AllSourced(Exec(c, s, steps))
    decreases |steps|
  {
    if steps != [] {
      ApplyKeepsSourced(c, s, steps[0]);
      Provenance(c, Apply(c, s, steps[0]), steps[1..]);
    }
  }

  /** What an answer says, read off two committed versions: `Absent` for a user that version `userV` does not
      show, otherwise that user's row of `userV` with the role codes of version `roleV`. */
  ghost predicate Says(db: seq<Snapshot>, u: UserId, identity: Identity, userV: Version, roleV: Version)
    requires userV < |db| && roleV < |db|
  {
    match identity
    case Absent => u !in db[userV].users
    case Found(p) =>
      && u in db[userV].users
      && p.userId == u
      && p.sessionVersion == db[userV].users[u].sessionVersion
      && p.isSuperAdmin == db[userV].users[u].isSuperAdmin
      && p.roles == if u in db[roleV].roles then db[roleV].roles[u] else []
  }

  /** Every answer of every run: a user part and a role part, each of a committed version, the second no older
      than the first, and after a cache miss the first no older than the call. */
  lemma ProvenanceFromInit(c: Config, snap: Snapshot, steps: seq<Step>, r: nat)
    requires r < |Exec(c, Init(c, snap), steps).resolvers|
    requires Exec(c, Init(c, snap), steps).resolvers[r].pc.Returned?
    ensures
      var s := Exec(c, Init(c, snap), steps);
      var Resolver(u, start, answer) := s.resolvers[r];
      && answer.stamp.userV <= answer.stamp.roleV < |s.db|
      && Says(s.db, u, answer.identity, answer.stamp.userV, answer.stamp.roleV)
      && (!answer.hit ==> start <= answer.stamp.userV)
  {
    Provenance(c, Init(c, snap), steps);
    var s := Exec(c, Init(c, snap), steps);
    assert SourcedCall(s, s.resolvers[r]);
  }

  // --------------------------------------------------------------- staleness

  /** Every cache write of the run happens at most `d` after the first read of its data. */
  ghost predicate WritesWithin(c: Config, s: State, steps: seq<Step>, d: nat)
    requires WellFormed(c, s)
    decreases |steps|
  {
    steps != [] ==>
      && (steps[0].Store? && steps[0].r < |s.resolvers| && s.resolvers[steps[0].r].pc.Loaded? ==>
            s.clock <= s.resolvers[steps[0].r].pc.stamp.at + d)
      && WritesWithin(c, Apply(c, s, steps[0]), steps[1..], d)
  }

  ghost predicate YoungSlot(slot: Slot, ttl: nat, d: nat) {
    slot.payload.Encoded? ==> slot.expires <= slot.payload.stamp.at + d + ttl
  }

  ghost predicate YoungHit(call: Resolver, ttl: nat, d: nat) {
    call.pc.Returned? && call.pc.hit ==> call.pc.at < call.pc.stamp.at + ttl + d
  }

  ghost predicate AllYoung(c: Config, s: State, d: nat) {
    && (forall u | u in s.cache :: YoungSlot(s.cache[u], c.ttl, d))
    && (forall r | 0 <= r < |s.resolvers| :: YoungHit(s.resolvers[r], c.ttl, d))
  }

  lemma ApplyKeepsYoung(c: Config, s: State, step: Step, d: nat)
    requires WellFormed(c, s) && AllYoung(c, s, d) && WritesWithin(c, s, [step], d)
    ensures AllYoung(c, Apply(c, s, step), d)
  {
    var s' := Apply(c, s, step);
    forall u | u in s'.cache
      ensures YoungSlot(s'.cache[u], c.ttl, d)
    {
      if u in s.cache {
        assert YoungSlot(s.cache[u], c.ttl, d);
      }
    }
    forall r | 0 <= r < |s'.resolvers|
      ensures YoungHit(s'.resolvers[r], c.ttl, d)
    {
      if r < |s.resolvers| {
        assert YoungHit(s.resolvers[r], c.ttl, d);
      }
    }
  }

  /** Staleness bound, over every run: a hit answers with data younger than ttl + d. */
  lemma {:induction false} StalenessBound(c: Config, s: State, steps: seq<Step>, d: nat)
    requires WellFormed(c, s) && AllYoung(c, s, d) && WritesWithin(c, s, steps, d)
    ensures AllYoung(c, Exec(c, s, steps), d)
    decreases |steps|
  {
    if steps != [] {
      ApplyKeepsYoung(c, s, steps[0], d);
      StalenessBound(c, Apply(c, s, steps[0]), steps[1..], d);
    }
  }

  // --------------------------------------------------------------- freshness

  /** A load of `u` that read the user row before version `v` and may still write the cache. */
  predicate StaleReader(call: Resolver, u: UserId, v: Version) {
    && call.user == u
    && match call.pc
       case HasUser(_, userV, _) => userV < v
       case Loaded(_, stamp) => stamp.userV < v
       case _ => false
  }

  predicate HasStaleReader(s: State, u: UserId, v: Version) {
    exists r :: 0 <= r < |s.resolvers| && StaleReader(s.resolvers[r], u, v)
  }

  predicate FreshAnswer(call: Resolver, u: UserId, v: Version) {
    call.user == u && call.pc.Returned? ==> call.pc.stamp.userV >= v
  }

  /** Every answer for `u` to a call begun after the first `prior` ones has version `v` or later. */
  ghost predicate FreshSince(s: State, prior: nat, u: UserId, v: Version) {
    forall r | prior <= r < |s.resolvers| :: FreshAnswer(s.resolvers[r], u, v)
  }

  predicate FreshSlot(s: State, u: UserId, v: Version) {
    u in s.cache && s.cache[u].payload.Encoded? ==> s.cache[u].payload.stamp.userV >= v
  }

  ghost predicate Clean(s: State, prior: nat, u: UserId, v: Version) {
    && v < |s.db|
    && FreshSlot(s, u, v)
    && (forall r | 0 <= r < |s.resolvers| :: !StaleReader(s.resolvers[r], u, v))
    && FreshSince(s, prior, u, v)
  }

  lemma ApplyKeepsClean(c: Config, s: State, step: Step, prior: nat, u: UserId, v: Version)
    requires WellFormed(c, s) && Clean(s, prior, u, v)
    ensures Clean(Apply(c, s, step), prior, u, v)
  {
    var s' := Apply(c, s, step);
    forall r | 0 <= r < |s'.resolvers|
      ensures !StaleReader(s'.resolvers[r], u, v)
      ensures prior <= r ==> FreshAnswer(s'.resolvers[r], u, v)
    {
      if r < |s.resolvers| {
        assert !StaleReader(s.resolvers[r], u, v);
        assert prior <= r ==> FreshAnswer(s.resolvers[r], u, v);
      }
    }
  }

  lemma {:induction false} ExecKeepsClean(c: Config, s: State, steps: seq<Step>, prior: nat, u: UserId, v: Version)
    requires WellFormed(c, s) && Clean(s, prior, u, v)
    ensures Clean(Exec(c, s, steps), prior, u, v)
    decreases |steps|
  {
    if steps != [] {
      ApplyKeepsClean(c, s, steps[0], prior, u, v);
      ExecKeepsClean(c, Apply(c, s, steps[0]), steps[1..], prior, u, v);
    }
  }

  /** The invalidation for the commit `v` of user `u` is about to happen. */
  ghost predicate AboutToUnlink(c: Config, s: State, n: nat, u: UserId, v: Version) {
    && WellFormed(c, s) && c.redis && v < |s.db|
    && NotifierExists(s, n)
    && s.notifiers[n].pc.Unlinking? && s.notifiers[n].version == v && u in Targets(s.notifiers[n].users)
  }

  lemma InvalidationFreshens(c: Config, s: State, n: nat, u: UserId, v: Version, steps: seq<Step>)
    requires AboutToUnlink(c, s, n, u, v) && !HasStaleReader(s, u, v)
    ensures FreshSince(Exec(c, Apply(c, s, Unlink(n, true)), steps), |s.resolvers|, u, v)
  {
    var s1 := Apply(c, s, Unlink(n, true));
    assert s1.resolvers == s.resolvers;
    ExecKeepsClean(c, s1, steps, |s.resolvers|, u, v);
  }

  /** The way a stale load gets past the invalidation: it finishes, writes, and a new call hits. */
  function LateWrite(s: State, r: nat, u: UserId): seq<Step>
    requires r < |s.resolvers|
  {
    (if s.resolvers[r].pc.HasUser? then [ReadRoles(r, true)] else [])
    + [Store(r, true), BeginResolve(u), AskCache(|s.resolvers|, true)]
  }

  lemma LateWriteAnswersStale(c: Config, s: State, r: nat, u: UserId, v: Version)
    requires WellFormed(c, s) && c.redis && c.ttl > 0 && u > 0
    requires r < |s.resolvers| && s.resolvers[r].pc.Loaded?
    requires StaleReader(s.resolvers[r], u, v)
    ensures
      !FreshSince(Exec(c, s, [Store(r, true), BeginResolve(u), AskCache(|s.resolvers|, true)]), |s.resolvers|, u, v)
  {
    var s1 := Apply(c, s, Store(r, true));
    var s2 := Apply(c, s1, BeginResolve(u));
    var s3 := Apply(c, s2, AskCache(|s.resolvers|, true));
    assert s1.cache[u].payload.stamp.userV < v;
    assert s2.resolvers[|s.resolvers|] == Resolver(u, Head(s1), Asking);
    assert !FreshAnswer(s3.resolvers[|s.resolvers|], u, v);
    ExecCons(c, s, Store(r, true), [BeginResolve(u), AskCache(|s.resolvers|, true)]);
    ExecCons(c, s1, BeginResolve(u), [AskCache(|s.resolvers|, true)]);
    ExecCons(c, s2, AskCache(|s.resolvers|, true), []);
  }

  lemma StaleReaderDefeats(c: Config, s: State, n: nat, u: UserId, v: Version, r: nat)
    requires AboutToUnlink(c, s, n, u, v) && c.ttl > 0
    requires r < |s.resolvers| && StaleReader(s.resolvers[r], u, v)
    ensures !FreshSince(Exec(c, Apply(c, s, Unlink(n, true)), LateWrite(s, r, u)), |s.resolvers|, u, v)
  {
    var s1 := Apply(c, s, Unlink(n, true));
    var tail := [Store(r, true), BeginResolve(u), AskCache(|s.resolvers|, true)];
    if s.resolvers[r].pc.HasUser? {
      var s2 := Apply(c, s1, ReadRoles(r, true));
      LateWriteAnswersStale(c, s2, r, u, v);
      ExecCons(c, s1, ReadRoles(r, true), tail);
    } else {
      LateWriteAnswersStale(c, s1, r, u, v);
      assert LateWrite(s, r, u) == tail;
    }
  }

  /** Exactly when NotifyChanged makes the cache fresh: in every continuation, every answer to a
      call begun after its unlink shows version `v` or later, if and only if at the unlink no load
      that read `u` before `v` is still on its way to write the cache. */
  lemma FreshIffNoStaleReader(c: Config, s: State, n: nat, u: UserId, v: Version)
    requires AboutToUnlink(c, s, n, u, v) && c.ttl > 0
    ensures
      (forall steps :: FreshSince(Exec(c, Apply(c, s, Unlink(n, true)), steps), |s.resolvers|, u, v))
      <==> !HasStaleReader(s, u, v)
  {
    var s1 := Apply(c, s, Unlink(n, true));
    if HasStaleReader(s, u, v) {
      var r :| 0 <= r < |s.resolvers| && StaleReader(s.resolvers[r], u, v);
      StaleReaderDefeats(c, s, n, u, v, r);
      assert !FreshSince(Exec(c, s1, LateWrite(s, r, u)), |s.resolvers|, u, v);
    } else {
      forall steps
        ensures FreshSince(Exec(c, s1, steps), |s.resolvers|, u, v)
      {
        InvalidationFreshens(c, s, n, u, v, steps);
      }
    }
  }

  /** The unconditional promise fails: a run from the start reaches an unlink with a stale load in flight. */
  lemma StaleReaderIsReachable(c: Config, snap: Snapshot, next: Snapshot, u: UserId)
    requires c.redis && |c.ids| > 0 && u > 0
    ensures
      var steps := [BeginResolve(u), AskCache(0, true), ReadUser(0, true), Commit(next), BeginNotify(0, [u], false, 1)];
      var s := Exec(c, Init(c, snap), steps);
      AboutToUnlink(c, s, 0, u, 1) && HasStaleReader(s, u, 1)
  {
    var s0 := Init(c, snap);
    var s1 := Apply(c, s0, BeginResolve(u));
    var s2 := Apply(c, s1, AskCache(0, true));
    var s3 := Apply(c, s2, ReadUser(0, true));
    var s4 := Apply(c, s3, Commit(next));
    var s5 := Apply(c, s4, BeginNotify(0, [u], false, 1));
    ExecCons(c, s0, BeginResolve(u), [AskCache(0, true), ReadUser(0, true), Commit(next), BeginNotify(0, [u], false, 1)]);
    ExecCons(c, s1, AskCache(0, true), [ReadUser(0, true), Commit(next), BeginNotify(0, [u], false, 1)]);
    ExecCons(c, s2, ReadUser(0, true), [Commit(next), BeginNotify(0, [u], false, 1)]);
    ExecCons(c, s3, Commit(next), [BeginNotify(0, [u], false, 1)]);
    ExecCons(c, s4, BeginNotify(0, [u], false, 1), []);
    assert s3.resolvers[0].pc.HasUser? || s3.resolvers[0].pc.Loaded?;
    assert u in Targets([u]);
    assert StaleReader(s5.resolvers[0], u, 1);
  }
}
