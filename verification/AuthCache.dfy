/** The generation-fenced authorization cache (crates/backend/src/auth_cache.rs).

    `AuthorizationCache` is the object with its two shared fields; each method is one of the
    source's critical sections. `System` interleaves those sections of many `resolve` calls with
    invalidations, a clock and the Accounts service; the laws are about every reachable state. */
module AuthCache {
  import opened Wrappers

  type Time = int
  /** A bearer's digest. */
  type Key = nat
  type Task = nat

  const MAX_ENTRIES: nat := 4096
  const STRIPES: nat := 128
  const TTL: Time := 15_000

  /** What Accounts answered. `answer` is the serial number of the fetch that produced it. */
  datatype Identity = Identity(answer: nat, expiresAt: Time)

  datatype Entry = Entry(identity: Identity, until: Time, generation: nat)

  datatype Cache = Cache(generation: nat, entries: map<Key, Entry>)

  // ---------------------------------------------------- the critical sections

  predicate Servable(e: Entry, generation: nat, now: Time) {
    e.generation == generation && now < e.until && now < e.identity.expiresAt
  }

  function Lookup(c: Cache, key: Key, now: Time): Option<Identity> {
    if key in c.entries && Servable(c.entries[key], c.generation, now)
    then Some(c.entries[key].identity) else None
  }

  function Fresh(entries: map<Key, Entry>, generation: nat, now: Time): map<Key, Entry> {
    map k | k in entries && entries[k].until > now && entries[k].generation == generation :: entries[k]
  }

  /** `retain` the fresh entries of this generation when full, and `clear` if that frees nothing. */
  function MakeRoom(entries: map<Key, Entry>, generation: nat, now: Time): map<Key, Entry> {
    if |entries| < MAX_ENTRIES then entries
    else
      var kept := Fresh(entries, generation, now);
      if |kept| >= MAX_ENTRIES then map[] else kept
  }

  function Admit(c: Cache, key: Key, identity: Identity, generation: nat, now: Time): Cache {
    c.(entries := MakeRoom(c.entries, generation, now)[key := Entry(identity, now + TTL, generation)])
  }

  lemma RestrictedSize(entries: map<Key, Entry>, kept: map<Key, Entry>)
    requires kept.Keys <= entries.Keys
    ensures |kept| <= |entries|
  {
    SubsetSize(kept.Keys, entries.Keys);
    assert |kept| == |kept.Keys| && |entries| == |entries.Keys|;
  }

  lemma {:induction false} SubsetSize<T>(a: set<T>, b: set<T>)
    requires a <= b
    ensures |a| <= |b|
  {
    if x :| x in a { SubsetSize(a - {x}, b - {x}); }
  }

  /** Admitting never grows the map beyond its bound, and never alters an entry it keeps. */
  lemma AdmitIsBounded(c: Cache, key: Key, identity: Identity, generation: nat, now: Time)
    requires |c.entries| <= MAX_ENTRIES
    ensures |Admit(c, key, identity, generation, now).entries| <= MAX_ENTRIES
    ensures forall k | k in Admit(c, key, identity, generation, now).entries && k != key ::
              k in c.entries && Admit(c, key, identity, generation, now).entries[k] == c.entries[k]
  {
    var room := MakeRoom(c.entries, generation, now);
    RestrictedSize(c.entries, room);
    var after := room[key := Entry(identity, now + TTL, generation)];
    assert after.Keys == room.Keys + {key};
    assert |after| == |after.Keys|;
    if key !in room { assert |room.Keys + {key}| == |room.Keys| + 1; }
  }

  class AuthorizationCache {
    var generation: nat
    var entries: map<Key, Entry>

    function State(): Cache
      reads this
    {
      Cache(generation, entries)
    }

    constructor ()
      ensures State() == Cache(0, map[])
    {
      generation, entries := 0, map[];
    }

    /** `fetch_add`, then `clear` under the write lock. */
    method Invalidate()
      modifies this
      ensures State() == Cache(old(generation) + 1, map[])
      ensures forall key, now :: Lookup(State(), key, now) == None
    {
      generation := generation + 1;
      entries := map[];
    }

    method Cached(key: Key, now: Time) returns (identity: Option<Identity>)
      ensures identity == Lookup(State(), key, now)
    {
      identity := None;
      if key in entries {
        var entry := entries[key];
        if entry.generation == generation && now < entry.until && now < entry.identity.expiresAt {
          identity := Some(entry.identity);
        }
      }
    }

    /** The write-locked end of `resolve`: re-check the generation, make room, insert. */
    method Store(key: Key, identity: Identity, begun: nat, now: Time) returns (stored: bool)
      modifies this`entries
      ensures stored <==> generation == begun
      ensures State() == if stored then Admit(old(State()), key, identity, begun, now) else old(State())
      ensures stored && |old(entries)| <= MAX_ENTRIES ==> |entries| <= MAX_ENTRIES
    {
      if generation != begun {
        return false;
      }
      if |entries| <= MAX_ENTRIES { AdmitIsBounded(State(), key, identity, begun, now); }
      if |entries| >= MAX_ENTRIES {
        entries := map k | k in entries && entries[k].until > now && entries[k].generation == begun :: entries[k];
        if |entries| >= MAX_ENTRIES {
          entries := map[];
        }
      }
      entries := entries[key := Entry(identity, now + TTL, begun)];
      stored := true;
    }
  }

  // ----------------------------------------------------- the concurrent system

  /** Why a call fails: Accounts refused or could not answer, the answer's token had already expired, or the
      authorizations changed during both rounds. */
  datatype Failure = Refused | TokenExpired | KeptChanging

  /** Where one `resolve` call stands. `round` counts loop iterations already used. */
  datatype Stage =
    | Looking
    | Waiting
    | Rechecking
    | Loading(round: nat)
    | Loaded(round: nat, generation: nat)
    | Fetching(round: nat, generation: nat, fetch: nat)
    | Answered(round: nat, generation: nat, identity: Identity)
    | Storing(round: nat, generation: nat, identity: Identity)
    | Inserting(generation: nat, identity: Identity)
    | Returned(identity: Identity)
    | Failed(why: Failure)

  /** A call: its key, the generation and the time when it was made, its stage and how often it fetched. */
  datatype Call = Call(key: Key, madeAt: nat, since: Time, stage: Stage, fetches: nat)

  /** A request to Accounts: for which key, and the generation current when it was sent. */
  datatype Fetch = Fetch(key: Key, begunAt: nat)

  datatype System = System(now: Time, cache: Cache, calls: map<Task, Call>, log: seq<Fetch>)

  datatype Action =
    | Tick(millis: nat)
    | Bump
    | Clear
    | Make(task: Task, key: Key)
    | Advance(task: Task)
    | Answer(task: Task, expiresAt: Option<Time>)
    | Drop(task: Task)

  function Stripe(key: Key): nat {
    key % STRIPES
  }

  /** Stages between acquiring and releasing the stripe's flight lock. */
  predicate InFlight(s: Stage) {
    !s.Looking? && !s.Waiting? && !s.Returned? && !s.Failed?
  }

  predicate FlightFree(s: System, stripe: nat) {
    forall t | t in s.calls :: InFlight(s.calls[t].stage) ==> Stripe(s.calls[t].key) != stripe
  }

  /** No call is inside the write-locked section. */
  predicate WriteFree(s: System) {
    forall t | t in s.calls :: !s.calls[t].stage.Inserting?
  }

  predicate Enabled(s: System, a: Action) {
    match a
    case Tick(_) => true
    case Bump => true
    case Clear => WriteFree(s)
    case Make(t, _) => t !in s.calls
    case Answer(t, _) => t in s.calls && s.calls[t].stage.Fetching?
    case Drop(t) => t in s.calls && !s.calls[t].stage.Inserting?
    case Advance(t) =>
      t in s.calls &&
      match s.calls[t].stage
      case Looking => WriteFree(s)
      case Rechecking => WriteFree(s)
      case Waiting => FlightFree(s, Stripe(s.calls[t].key))
      case Storing(_, _, _) => WriteFree(s)
      case Fetching(_, _, _) => false
      case Returned(_) => false
      case Failed(_) => false
      case _ => true
  }

  /** `continue`: another round, or the retry-later error once two are used. */
  function NextRound(round: nat): Stage {
    if round < 1 then Loading(round + 1) else Failed(KeptChanging)
  }

  function AdvanceStage(s: System, c: Call): Stage {
    match c.stage
    case Looking =>
      (match Lookup(s.cache, c.key, s.now) case Some(i) => Returned(i) case None => Waiting)
    case Waiting => Rechecking
    case Rechecking =>
      (match Lookup(s.cache, c.key, s.now) case Some(i) => Returned(i) case None => Loading(0))
    case Loading(r) => Loaded(r, s.cache.generation)
    case Loaded(r, g) => Fetching(r, g, |s.log|)
    case Answered(r, g, i) =>
      if s.cache.generation != g then NextRound(r)
      else if i.expiresAt <= s.now then Failed(TokenExpired)
      else Storing(r, g, i)
    case Storing(r, g, i) => if s.cache.generation != g then NextRound(r) else Inserting(g, i)
    case Inserting(g, i) => Returned(i)
    case Fetching(_, _, _) => c.stage
    case Returned(_) => c.stage
    case Failed(_) => c.stage
  }

  function Apply(s: System, a: Action): System
    requires Enabled(s, a)
  {
    match a
    case Tick(millis) => s.(now := s.now + millis)
    case Bump => s.(cache := s.cache.(generation := s.cache.generation + 1))
    case Clear => s.(cache := s.cache.(entries := map[]))
    case Make(t, key) => s.(calls := s.calls[t := Call(key, s.cache.generation, s.now, Looking, 0)])
    case Drop(t) => s.(calls := s.calls - {t})
    case Answer(t, expiresAt) =>
      var c := s.calls[t];
      var stage := if expiresAt.None? then Failed(Refused)
                   else Answered(c.stage.round, c.stage.generation, Identity(c.stage.fetch, expiresAt.value));
      s.(calls := s.calls[t := c.(stage := stage)])
    case Advance(t) =>
      var c := s.calls[t];
      var stage := AdvanceStage(s, c);
      var moved := s.(calls := s.calls[t := c.(stage := stage)]);
      match c.stage
      case Loaded(_, _) =>
        moved.(calls := s.calls[t := c.(stage := stage, fetches := c.fetches + 1)],
               log := s.log + [Fetch(c.key, s.cache.generation)])
      case Inserting(g, i) => moved.(cache := Admit(s.cache, c.key, i, g, s.now))
      case _ => moved
  }

  function Start(now: Time): System {
    System(now, Cache(0, map[]), map[], [])
  }

  /** The state after a run of actions, or `None` if some action was not possible. */
  function After(actions: seq<Action>, now: Time): Option<System> {
    if actions == [] then Some(Start(now))
    else
      var before := After(actions[..|actions| - 1], now);
      var last := actions[|actions| - 1];
      if before.Some? && Enabled(before.value, last) then Some(Apply(before.value, last)) else None
  }

  predicate Reachable(s: System, actions: seq<Action>, now: Time) {
    After(actions, now) == Some(s)
  }

  // ------------------------------------------------------------- invariants

  /** `identity` is the answer to a fetch for `key` begun at generation `g`. */
  predicate From(log: seq<Fetch>, identity: Identity, key: Key, g: nat) {
    identity.answer < |log| && log[identity.answer] == Fetch(key, g)
  }

  predicate EntryOk(s: System, key: Key, e: Entry) {
    && From(s.log, e.identity, key, e.generation)
    && e.generation <= s.cache.generation
    && e.until <= s.now + TTL
  }

  /** A pending answer is at least as new as the generation its round loaded. */
  predicate PendingOk(s: System, key: Key, fetch: nat, g: nat) {
    && fetch < |s.log| && s.log[fetch].key == key
    && g <= s.log[fetch].begunAt <= s.cache.generation
  }

  predicate StageOk(s: System, c: Call) {
    match c.stage
    case Looking => c.fetches == 0
    case Waiting => c.fetches == 0
    case Rechecking => c.fetches == 0
    case Loading(r) => r <= 1 && c.fetches == r && c.madeAt + r <= s.cache.generation
    case Loaded(r, g) => r <= 1 && c.fetches == r && c.madeAt + r <= g <= s.cache.generation
    case Fetching(r, g, f) => r <= 1 && c.fetches == r + 1 && c.madeAt + r <= g && PendingOk(s, c.key, f, g)
    case Answered(r, g, i) => r <= 1 && c.fetches == r + 1 && c.madeAt + r <= g && PendingOk(s, c.key, i.answer, g)
    case Storing(r, g, i) => r <= 1 && c.fetches == r + 1 && c.madeAt + r <= g && PendingOk(s, c.key, i.answer, g)
                             && c.since < i.expiresAt
    case Inserting(g, i) => c.fetches <= 2 && c.madeAt <= g <= s.cache.generation && From(s.log, i, c.key, g)
                            && c.since < i.expiresAt
    case Returned(i) => c.fetches <= 2 && i.answer < |s.log| && s.log[i.answer].key == c.key
                        && c.madeAt <= s.log[i.answer].begunAt && c.since < i.expiresAt
    case Failed(why) => c.fetches <= 2 && (why.KeptChanging? ==> c.fetches == 2 && c.madeAt + 2 <= s.cache.generation)
  }

  predicate CallOk(s: System, c: Call) {
    c.madeAt <= s.cache.generation && c.since <= s.now && StageOk(s, c)
  }

  ghost predicate Invariant(s: System) {
    && |s.cache.entries| <= MAX_ENTRIES
    && (forall k | k in s.cache.entries :: EntryOk(s, k, s.cache.entries[k]))
    && (forall t | t in s.calls :: CallOk(s, s.calls[t]))
    && (forall t, u | t in s.calls && u in s.calls && t != u :: Apart(s.calls[t], s.calls[u]))
  }

  /** Calls in flight are on different stripes, and only one is write-locked. */
  predicate Apart(c: Call, d: Call) {
    && (InFlight(c.stage) && InFlight(d.stage) ==> Stripe(c.key) != Stripe(d.key))
    && (c.stage.Inserting? ==> !d.stage.Inserting?)
  }

  /** Facts about calls and entries survive any step of the rest of the system. */
  predicate Later(s: System, s': System) {
    && s.now <= s'.now && s.cache.generation <= s'.cache.generation
    && |s.log| <= |s'.log| && s'.log[..|s.log|] == s.log
  }

  lemma StepIsLater(s: System, a: Action)
    requires Enabled(s, a)
    ensures Later(s, Apply(s, a))
  {
  }

  lemma LogStays(s: System, s': System, i: nat)
    requires Later(s, s') && i < |s.log|
    ensures i < |s'.log| && s'.log[i] == s.log[i]
  {
    assert s'.log[..|s.log|][i] == s'.log[i];
  }

  lemma CallLater(s: System, s': System, c: Call)
    requires Later(s, s') && CallOk(s, c)
    ensures CallOk(s', c)
  {
    match c.stage
    case Fetching(_, _, f) => LogStays(s, s', f);
    case Answered(_, _, i) => LogStays(s, s', i.answer);
    case Storing(_, _, i) => LogStays(s, s', i.answer);
    case Inserting(_, i) => LogStays(s, s', i.answer);
    case Returned(i) => LogStays(s, s', i.answer);
    case _ =>
  }

  lemma EntryLater(s: System, s': System, key: Key, e: Entry)
    requires Later(s, s') && EntryOk(s, key, e)
    ensures EntryOk(s', key, e)
  {
    LogStays(s, s', e.identity.answer);
  }

  /** A hit returns an answer fetched at the generation current at that moment. */
  lemma HitIsCurrent(s: System, key: Key)
    requires Invariant(s) && Lookup(s.cache, key, s.now).Some?
    ensures From(s.log, Lookup(s.cache, key, s.now).value, key, s.cache.generation)
  {
    assert EntryOk(s, key, s.cache.entries[key]);
  }

  lemma LookingKeepsCall(s: System, c: Call, s': System)
    requires Invariant(s) && CallOk(s, c) && Later(s, s') && (c.stage.Looking? || c.stage.Rechecking?)
    ensures CallOk(s', c.(stage := AdvanceStage(s, c)))
  {
    if Lookup(s.cache, c.key, s.now).Some? {
      HitIsCurrent(s, c.key);
      LogStays(s, s', Lookup(s.cache, c.key, s.now).value.answer);
    }
  }

  lemma AdvanceKeepsCall(s: System, t: Task)
    requires Invariant(s) && Enabled(s, Advance(t))
    ensures var s' := Apply(s, Advance(t)); CallOk(s', s'.calls[t])
  {
    var c := s.calls[t];
    var s' := Apply(s, Advance(t));
    assert CallOk(s, c);
    StepIsLater(s, Advance(t));
    if c.stage.Looking? || c.stage.Rechecking? {
      LookingKeepsCall(s, c, s');
    } else {
      CallLater(s, s', c);
    }
  }

  lemma StepKeepsCalls(s: System, a: Action)
    requires Invariant(s) && Enabled(s, a)
    ensures var s' := Apply(s, a); forall t | t in s'.calls :: CallOk(s', s'.calls[t])
  {
    var s' := Apply(s, a);
    StepIsLater(s, a);
    forall t | t in s'.calls ensures CallOk(s', s'.calls[t]) {
      if a == Advance(t) {
        AdvanceKeepsCall(s, t);
      } else if t in s.calls {
        CallLater(s, s', s.calls[t]);
      }
    }
  }

  lemma StepKeepsEntries(s: System, a: Action)
    requires Invariant(s) && Enabled(s, a)
    ensures var s' := Apply(s, a);
            && |s'.cache.entries| <= MAX_ENTRIES
            && forall k | k in s'.cache.entries :: EntryOk(s', k, s'.cache.entries[k])
  {
    var s' := Apply(s, a);
    StepIsLater(s, a);
    if a.Advance? && s.calls[a.task].stage.Inserting? {
      var c := s.calls[a.task];
      assert CallOk(s, c);
      AdmitIsBounded(s.cache, c.key, c.stage.identity, c.stage.generation, s.now);
    }
    forall k | k in s'.cache.entries ensures EntryOk(s', k, s'.cache.entries[k]) {
      if k in s.cache.entries && s'.cache.entries[k] == s.cache.entries[k] {
        EntryLater(s, s', k, s.cache.entries[k]);
      }
    }
  }

  /** A call that enters the flight or write-locked section found it free; others stay out. */
  lemma AdvanceStaysApart(s: System, t: Task, u: Task)
    requires Invariant(s) && Enabled(s, Advance(t)) && u in s.calls && u != t
    ensures var s' := Apply(s, Advance(t)); Apart(s'.calls[t], s'.calls[u]) && Apart(s'.calls[u], s'.calls[t])
  {
    assert Apart(s.calls[t], s.calls[u]) && Apart(s.calls[u], s.calls[t]);
  }

  /** The stripe lock: two calls of one stripe are never both in flight. */
  lemma StepKeepsFlights(s: System, a: Action)
    requires Invariant(s) && Enabled(s, a)
    ensures var s' := Apply(s, a);
            forall t, u | t in s'.calls && u in s'.calls && t != u :: Apart(s'.calls[t], s'.calls[u])
  {
    var s' := Apply(s, a);
    forall t, u | t in s'.calls && u in s'.calls && t != u ensures Apart(s'.calls[t], s'.calls[u]) {
      if a == Advance(t) {
        AdvanceStaysApart(s, t, u);
      } else if a == Advance(u) {
        AdvanceStaysApart(s, u, t);
      } else if t in s.calls && u in s.calls {
        assert Apart(s.calls[t], s.calls[u]);
      }
    }
  }

  lemma {:induction false} ReachableKeepsInvariant(s: System, actions: seq<Action>, now: Time)
    requires Reachable(s, actions, now)
    ensures Invariant(s)
    decreases |actions|
  {
    if actions != [] {
      var last := actions[|actions| - 1];
      var before := After(actions[..|actions| - 1], now).value;
      ReachableKeepsInvariant(before, actions[..|actions| - 1], now);
      StepKeepsCalls(before, last);
      StepKeepsEntries(before, last);
      StepKeepsFlights(before, last);
    }
  }

  // ------------------------------------------------------------ main results

  /** Whenever a call's answer passes its last check (a hit, or the write-locked re-check), the
      answer came from a fetch for that very key begun at the generation current right then. */
  lemma CheckedAnswersAreCurrent(s: System, actions: seq<Action>, now: Time, t: Task)
    requires Reachable(s, actions, now) && Enabled(s, Advance(t))
    ensures var after := Apply(s, Advance(t)).calls[t];
            && (after.stage.Returned? && !s.calls[t].stage.Inserting? ==>
                  From(s.log, after.stage.identity, after.key, s.cache.generation))
            && (after.stage.Inserting? ==> From(s.log, after.stage.identity, after.key, s.cache.generation))
  {
    ReachableKeepsInvariant(s, actions, now);
    var c := s.calls[t];
    assert CallOk(s, c);
    if (c.stage.Looking? || c.stage.Rechecking?) && Lookup(s.cache, c.key, s.now).Some? {
      HitIsCurrent(s, c.key);
    }
  }

  /** No call returns anything fetched before an invalidation that preceded the call: the answer's
      fetch began at a generation at least that of the call, and it was for the call's own key. Nor does
      it return a token that had expired when the call was made. */
  lemma NothingStaleIsReturned(s: System, actions: seq<Action>, now: Time, t: Task)
    requires Reachable(s, actions, now) && t in s.calls && s.calls[t].stage.Returned?
    ensures var c := s.calls[t];
            && c.stage.identity.answer < |s.log|
            && s.log[c.stage.identity.answer].key == c.key
            && s.log[c.stage.identity.answer].begunAt >= c.madeAt
            && c.stage.identity.expiresAt > c.since
  {
    ReachableKeepsInvariant(s, actions, now);
    assert CallOk(s, s.calls[t]);
  }

  /** Resource bounds in every reachable state: at most two fetches per call, one call in flight
      per stripe, at most 4096 entries, and no entry servable longer than fifteen seconds. */
  lemma ResourcesAreBounded(s: System, actions: seq<Action>, now: Time)
    requires Reachable(s, actions, now)
    ensures forall t | t in s.calls :: s.calls[t].fetches <= 2
    ensures forall t, u | t in s.calls && u in s.calls && t != u ::
              s.calls[t].stage.Fetching? && s.calls[u].stage.Fetching? ==>
                Stripe(s.calls[t].key) != Stripe(s.calls[u].key)
    ensures |s.cache.entries| <= 4096
    ensures forall k, g, later: Time | k in s.cache.entries && later >= s.now + TTL ::
              !Servable(s.cache.entries[k], g, later)
  {
    ReachableKeepsInvariant(s, actions, now);
    forall t | t in s.calls ensures s.calls[t].fetches <= 2 { assert CallOk(s, s.calls[t]); }
    forall t, u | t in s.calls && u in s.calls && t != u ensures Apart(s.calls[t], s.calls[u]) {}
    forall k, g, later: Time | k in s.cache.entries && later >= s.now + TTL
      ensures !Servable(s.cache.entries[k], g, later)
    {
      assert EntryOk(s, k, s.cache.entries[k]);
    }
  }

  /** A call gives up for change only after two fetches and at least two invalidations since it was made. */
  lemma GivingUpTakesTwoChanges(s: System, actions: seq<Action>, now: Time, t: Task)
    requires Reachable(s, actions, now) && t in s.calls && s.calls[t].stage == Failed(KeptChanging)
    ensures s.calls[t].fetches == 2 && s.cache.generation >= s.calls[t].madeAt + 2
  {
    ReachableKeepsInvariant(s, actions, now);
    assert CallOk(s, s.calls[t]);
  }

  // --------------------------------------------------- what a call comes to

  /** An admitted answer is served until fifteen seconds later or until its token expires, and no longer. */
  lemma AdmittedIsServedExactly(c: Cache, key: Key, identity: Identity, now: Time, later: Time)
    ensures Lookup(Admit(c, key, identity, c.generation, now), key, later) ==
            if later < now + 15_000 && later < identity.expiresAt then Some(identity) else None
  {
  }

  /** Whether an entry is worth keeping: of this generation and within its fifteen seconds. */
  predicate IsFresh(c: Cache, key: Key, now: Time) {
    key in c.entries && c.entries[key].generation == c.generation && now < c.entries[key].until
  }

  /** Admission takes no other answer out of service unless the cache is full of fresh entries; then it starts
      over. A full cache with a stale entry keeps exactly its fresh ones. */
  lemma AdmissionSparesTheFresh(c: Cache, key: Key, identity: Identity, now: Time, other: Key)
    requires other != key && |c.entries| <= 4096
    ensures var after := Admit(c, key, identity, c.generation, now);
            if |c.entries| == 4096 && forall k | k in c.entries :: IsFresh(c, k, now)
            then after.entries.Keys == {key}
            else && Lookup(after, other, now) == Lookup(c, other, now)
                 && (other in after.entries <==>
                       other in c.entries && (|c.entries| < 4096 || IsFresh(c, other, now)))
  {
    var kept := Fresh(c.entries, c.generation, now);
    RestrictedSize(c.entries, kept);
    if forall k | k in c.entries :: IsFresh(c, k, now) {
      assert kept == c.entries;
    } else {
      var stale :| stale in c.entries && !IsFresh(c, stale, now);
      SubsetSize(kept.Keys + {stale}, c.entries.Keys);
      assert |kept.Keys + {stale}| == |kept| + 1 && |c.entries| == |c.entries.Keys|;
    }
  }

  function Steps(s: System, actions: seq<Action>): Option<System>
    decreases |actions|
  {
    if actions == [] then Some(s)
    else if Enabled(s, actions[0]) then Steps(Apply(s, actions[0]), actions[1..]) else None
  }

  lemma {:induction false} StepsCompose(s: System, a: seq<Action>, b: seq<Action>)
    requires Steps(s, a).Some?
    ensures Steps(s, a + b) == Steps(Steps(s, a).value, b)
    decreases |a|
  {
    if a == [] {
      assert a + b == b;
    } else {
      assert (a + b)[1..] == a[1..] + b;
      StepsCompose(Apply(s, a[0]), a[1..], b);
    }
  }

  lemma OneMore(s: System, run: seq<Action>, middle: System, a: Action)
    requires Steps(s, run) == Some(middle) && Enabled(middle, a)
    ensures Steps(s, run + [a]) == Some(Apply(middle, a))
  {
    StepsCompose(s, run, [a]);
    assert Steps(middle, [a]) == Steps(Apply(middle, a), [a][1..]);
  }

  /** Accounts' side of one round: what it answers, and whether the authorizations change meanwhile. */
  datatype Round = Round(changes: bool, expiresAt: Option<Time>)

  /** What becomes of a round that stands, or of one that must be repeated. */
  function RoundOutcome(r: Round, round: nat, fetch: nat, now: Time): Stage {
    match r.expiresAt
    case None => Failed(Refused)
    case Some(expiresAt) =>
      if r.changes then (if round == 0 then Loading(1) else Failed(KeptChanging))
      else if expiresAt <= now then Failed(TokenExpired)
      else Returned(Identity(fetch, expiresAt))
  }

  /** What becomes of a whole call: a hit, the first round's outcome, or the second's. */
  function CallOutcome(hit: Option<Identity>, first: Round, second: Round, fetch: nat, now: Time): Stage {
    if hit.Some? then Returned(hit.value)
    else if first.changes && first.expiresAt.Some? then RoundOutcome(second, 1, fetch + 1, now)
    else RoundOutcome(first, 0, fetch, now)
  }

  /** Where a run of one call leaves all others, and the locks it took. */
  predicate OthersStay(s: System, end: System, t: Task) {
    && end.calls.Keys == s.calls.Keys && end.now == s.now
    && forall u | u in s.calls && u != t :: end.calls[u] == s.calls[u]
  }

  /** The steps of one round, alone with Accounts. */
  lemma RoundRuns(s: System, t: Task, r: Round) returns (run: seq<Action>, end: System)
    requires t in s.calls && s.calls[t].stage.Loading? && s.calls[t].stage.round <= 1 && WriteFree(s)
    ensures Steps(s, run) == Some(end) && OthersStay(s, end, t) && end.calls[t].key == s.calls[t].key
    ensures end.calls[t].stage == RoundOutcome(r, s.calls[t].stage.round, |s.log|, s.now)
    ensures end.log == s.log + [Fetch(s.calls[t].key, s.cache.generation)]
    ensures end.cache == if end.calls[t].stage.Returned?
                         then Admit(s.cache, s.calls[t].key, end.calls[t].stage.identity, s.cache.generation, s.now)
                         else s.cache.(generation := s.cache.generation + if r.changes then 1 else 0)
  {
    run, end := [], s;
    run, end := Step(s, run, end, Advance(t));
    run, end := Step(s, run, end, Advance(t));
    if r.changes { run, end := Step(s, run, end, Bump); }
    run, end := Step(s, run, end, Answer(t, r.expiresAt));
    if r.expiresAt.Some? {
      run, end := Step(s, run, end, Advance(t));
      if !r.changes && s.now < r.expiresAt.value {
        run, end := Step(s, run, end, Advance(t));
        run, end := Step(s, run, end, Advance(t));
      }
    }
  }

  lemma Step(s: System, run: seq<Action>, middle: System, a: Action) returns (longer: seq<Action>, end: System)
    requires Steps(s, run) == Some(middle) && Enabled(middle, a)
    ensures longer == run + [a] && end == Apply(middle, a) && Steps(s, longer) == Some(end)
  {
    OneMore(s, run, middle, a);
    longer, end := run + [a], Apply(middle, a);
  }

  /** Up to its fetch: a call looks, waits for its stripe and looks again. */
  lemma CallLooks(s: System, t: Task) returns (run: seq<Action>, end: System)
    requires t in s.calls && (s.calls[t].stage.Looking? || s.calls[t].stage.Waiting?)
    requires WriteFree(s) && FlightFree(s, Stripe(s.calls[t].key))
    ensures Steps(s, run) == Some(end) && OthersStay(s, end, t) && end.calls[t].key == s.calls[t].key
    ensures end.log == s.log && end.cache == s.cache
    ensures var hit := Lookup(s.cache, s.calls[t].key, s.now);
            end.calls[t].stage == if hit.Some? then Returned(hit.value) else Loading(0)
  {
    run, end := [], s;
    if s.calls[t].stage.Looking? { run, end := Step(s, run, end, Advance(t)); }
    if !end.calls[t].stage.Returned? {
      run, end := Step(s, run, end, Advance(t));
      run, end := Step(s, run, end, Advance(t));
    }
  }

  /** What a call does when nobody holds it up: a hit answers it at once, without a fetch, even if it had to wait
      for its stripe; otherwise it fetches once, or twice if the authorizations changed during the first fetch,
      and a current answer with a live token is returned and cached. It fails exactly for the three reasons there
      are. */
  lemma CallComesToItsOutcome(s: System, t: Task, first: Round, second: Round) returns (run: seq<Action>, end: System)
    requires t in s.calls && (s.calls[t].stage.Looking? || s.calls[t].stage.Waiting?)
    requires WriteFree(s) && FlightFree(s, Stripe(s.calls[t].key))
    ensures Steps(s, run) == Some(end) && OthersStay(s, end, t)
    ensures var hit := Lookup(s.cache, s.calls[t].key, s.now);
            && end.calls[t].stage == CallOutcome(hit, first, second, |s.log|, s.now)
            && end.calls[t].key == s.calls[t].key
            && (hit.Some? ==> end.log == s.log && end.cache == s.cache)
            && (hit.None? ==> |end.log| == |s.log| + if first.changes && first.expiresAt.Some? then 2 else 1)
    ensures end.calls[t].stage.Returned? ==>
              Lookup(end.cache, s.calls[t].key, s.now) == Some(end.calls[t].stage.identity)
  {
    run, end := CallLooks(s, t);
    if end.calls[t].stage.Loading? {
      var more, next := RoundRuns(end, t, first);
      StepsCompose(s, run, more);
      run, end := run + more, next;
      if first.changes && first.expiresAt.Some? {
        more, next := RoundRuns(end, t, second);
        StepsCompose(s, run, more);
        run, end := run + more, next;
      }
    }
  }

  /** These calls have the same key and all still wait for an answer. */
  predicate AllWait(s: System, ts: seq<Task>, key: Key) {
    && NoRepeats(ts)
    && forall t | t in ts ::
         t in s.calls && s.calls[t].key == key && (s.calls[t].stage.Looking? || s.calls[t].stage.Waiting?)
  }

  /** However many calls wait for one key, one after another they share one fetch: the first one's answer serves
      them all. */
  lemma {:induction false} CallsShareOneFetch(s: System, ts: seq<Task>, key: Key, expiresAt: Time)
      returns (run: seq<Action>, end: System)
    requires AllWait(s, ts, key) && ts != [] && WriteFree(s) && FlightFree(s, Stripe(key))
    requires Lookup(s.cache, key, s.now).None? && s.now < expiresAt
    ensures Steps(s, run) == Some(end) && |end.log| == |s.log| + 1
    ensures forall t | t in ts :: t in end.calls && end.calls[t].stage == Returned(Identity(|s.log|, expiresAt))
  {
    var answer := Round(false, Some(expiresAt));
    run, end := CallComesToItsOutcome(s, ts[0], answer, answer);
    var more, last := WaitersAreServed(end, ts[1..], key, Identity(|s.log|, expiresAt));
    StepsCompose(s, run, more);
    run, end := run + more, last;
    forall t | t in ts ensures t in end.calls && end.calls[t].stage == Returned(Identity(|s.log|, expiresAt)) {
      if t !in ts[1..] { assert t == ts[0]; }
    }
  }

  lemma {:induction false} WaitersAreServed(s: System, ts: seq<Task>, key: Key, identity: Identity)
      returns (run: seq<Action>, end: System)
    requires AllWait(s, ts, key) && WriteFree(s) && FlightFree(s, Stripe(key))
    requires Lookup(s.cache, key, s.now) == Some(identity)
    ensures Steps(s, run) == Some(end) && end.log == s.log && end.calls.Keys == s.calls.Keys
    ensures forall t | t in ts :: end.calls[t].stage == Returned(identity)
    ensures forall u | u in s.calls && u !in ts :: end.calls[u] == s.calls[u]
    decreases |ts|
  {
    run, end := [], s;
    if ts != [] {
      run, end := CallLooks(s, ts[0]);
      assert ts[0] !in ts[1..];
      var more, last := WaitersAreServed(end, ts[1..], key, identity);
      StepsCompose(s, run, more);
      run, end := run + more, last;
    }
  }
}
