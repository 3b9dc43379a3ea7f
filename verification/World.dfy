/** The whole service: a clock, the profiles and every session's cell, and its runs.

    One `Move` is a tick of the shared clock, one profile transaction, one reservation, one reaper
    batch, or one action on one session. A run is any sequence of possible moves, so the theorems
    below hold for every interleaving of requests, reapers, recoveries, lookups, provider failures
    and crashes, in any number of processes. */
module World {
  import opened Wrappers
  import opened Rows
  import opened UsageRows
  import opened Slots
  import opened Lifecycle
  import opened LifecycleLaws
  import opened LifecycleMoves

  /** `TTL_STOP_CONCURRENCY`. */
  const STOP_BATCH: nat := 8

  datatype World = World(now: Time, profiles: map<Id, ProfileStatus>, cells: map<Id, Cell>)

  datatype Move =
    | Tick(later: Time)
    | ReserveProfile(p: Id)
    | SettleProfile(p: Id, ready: bool)
    | EndProfile(p: Id, owner: bool)
    | Reserve(s: Id, profile: Option<Id>, allowed: bool, at: Time, ttl: Time)
    | Claim(at: Time, chosen: set<Id>, lease: Lease, worker: Id)
    | On(s: Id, action: Action)

  function TablesOf(w: World): Tables {
    Tables(w.profiles, map s | s in w.cells :: w.cells[s].row)
  }

  function PartOf(chosen: set<Id>, s: Id, worker: Id, lease: Lease): Option<(Id, Lease)> {
    if s in chosen then Some((worker, lease)) else None
  }

  ghost predicate Possible(w: World, m: Move) {
    match m
    case Tick(later) => w.now <= later
    case ReserveProfile(p) => p !in w.profiles
    case SettleProfile(_, _) => true
    case EndProfile(_, _) => true
    case Reserve(s, _, _, at, _) => s !in w.cells && at <= w.now
    case Claim(at, chosen, lease, worker) =>
      && at <= w.now && FirstDue(TablesOf(w), at, chosen, STOP_BATCH)
      && forall s | s in w.cells :: ClaimEnabled(w.cells[s], w.now, at, PartOf(chosen, s, worker, lease))
    case On(s, action) => s in w.cells && Enabled(w.cells[s], w.now, action)
  }

  function WithProfiles(w: World, next: Result<Tables, StoreError>): World {
    if next.Ok? then w.(profiles := next.value.profiles) else w
  }

  ghost function Made(w: World, m: Move): World
    requires Possible(w, m)
  {
    match m
    case Tick(later) => w.(now := later)
    case ReserveProfile(p) => w.(profiles := ProfileReserved(TablesOf(w), p).profiles)
    case SettleProfile(p, ready) => WithProfiles(w, ProfileSettled(TablesOf(w), p, ready))
    case EndProfile(p, owner) => WithProfiles(w, ProfileEnded(TablesOf(w), p, owner))
    case Reserve(s, profile, allowed, at, ttl) =>
      if SessionReserved(TablesOf(w), s, profile, allowed, at, ttl).Ok?
      then w.(cells := w.cells[s := Fresh(profile, at, ttl)]) else w
    case Claim(at, chosen, lease, worker) =>
      w.(cells := map s | s in w.cells :: ApplyClaim(w.cells[s], at, PartOf(chosen, s, worker, lease)))
    case On(s, action) => w.(cells := w.cells[s := Apply(w.cells[s], w.now, action)])
  }

  /** The world after a run, if every move of it was possible. */
  ghost function After(w: World, moves: seq<Move>): Option<World> {
    if moves == [] then Some(w)
    else
      var before := After(w, moves[..|moves| - 1]);
      var last := moves[|moves| - 1];
      if before.Some? && Possible(before.value, last) then Some(Made(before.value, last)) else None
  }

  function Empty(now: Time): World {
    World(now, map[], map[])
  }

  // --------------------------------------------------------------- invariant

  ghost predicate WorldOk(w: World) {
    SlotsOk(TablesOf(w)) && forall s | s in w.cells :: CellOk(w.cells[s], w.now)
  }

  lemma CellIs(w: World, s: Id)
    requires WorldOk(w) && s in w.cells
    ensures CellOk(w.cells[s], w.now)
  {
  }

  /** A move on one session is exactly one row change of the store's tables. */
  lemma OnChangesOneRow(w: World, s: Id, action: Action)
    requires s in w.cells && Enabled(w.cells[s], w.now, action)
    ensures TablesOf(Made(w, On(s, action))) == RowChanged(TablesOf(w), s, Apply(w.cells[s], w.now, action).row)
  {
    hide Apply, Enabled;
  }

  /** A batch is exactly the store's bulk claim. */
  lemma ClaimIsTheBulkClaim(w: World, m: Move)
    requires Possible(w, m) && m.Claim?
    ensures TablesOf(Made(w, m)) == SessionsClaimed(TablesOf(w), m.at, m.chosen, m.lease)
  {
    hide Claimed, TtlReached, FirstDue;
    forall s | s in w.cells
      ensures ApplyClaim(w.cells[s], m.at, PartOf(m.chosen, s, m.worker, m.lease)).row
           == Claimed(w.cells[s].row, m.at, if s in m.chosen then Some(m.lease) else None)
    {
    }
  }

  function Committed(t: Tables, next: Result<Tables, StoreError>): Tables {
    if next.Ok? then next.value else t
  }

  /** Every move changes the tables exactly as the store's transaction of that name does, and a refused one not at
      all. */
  lemma MovesAreTransactions(w: World, m: Move)
    requires Possible(w, m)
    ensures TablesOf(Made(w, m)) ==
            match m
            case Tick(_) => TablesOf(w)
            case ReserveProfile(p) => ProfileReserved(TablesOf(w), p)
            case SettleProfile(p, ready) => Committed(TablesOf(w), ProfileSettled(TablesOf(w), p, ready))
            case EndProfile(p, owner) => Committed(TablesOf(w), ProfileEnded(TablesOf(w), p, owner))
            case Reserve(s, profile, allowed, at, ttl) =>
              Committed(TablesOf(w), SessionReserved(TablesOf(w), s, profile, allowed, at, ttl))
            case Claim(at, chosen, lease, _) => SessionsClaimed(TablesOf(w), at, chosen, lease)
            case On(s, action) => RowChanged(TablesOf(w), s, Apply(w.cells[s], w.now, action).row)
    ensures m.Tick? ==> Made(w, m).now == m.later
    ensures m.Reserve? && SessionReserved(TablesOf(w), m.s, m.profile, m.allowed, m.at, m.ttl).Ok? ==>
              Made(w, m).cells[m.s].usage == ReservedUsage(m.profile, m.at)
  {
    hide Busy, FirstDue, ClaimEnabled, ApplyClaim, Apply, Enabled;
    if m.On? { OnChangesOneRow(w, m.s, m.action); }
    if m.Claim? { ClaimIsTheBulkClaim(w, m); }
  }

  lemma OnKeepsWorld(w: World, s: Id, action: Action)
    requires WorldOk(w) && Possible(w, On(s, action))
    ensures WorldOk(Made(w, On(s, action)))
  {
    hide CellOk, Apply, Enabled, SlotsOk, RowChanged;
    CellIs(w, s);
    var d := Apply(w.cells[s], w.now, action);
    ActionKeeps(w.cells[s], w.now, action);
    ActionAdvances(w.cells[s], w.now, action);
    OnChangesOneRow(w, s, action);
    ForwardKeepsSlots(TablesOf(w), s, d.row);
  }

  lemma ClaimKeepsWorld(w: World, m: Move)
    requires WorldOk(w) && Possible(w, m) && m.Claim?
    ensures WorldOk(Made(w, m))
  {
    hide CellOk, ApplyClaim, ClaimEnabled, SlotsOk, FirstDue, SessionsClaimed;
    ClaimIsTheBulkClaim(w, m);
    ClaimKeepsSlots(TablesOf(w), m.at, m.chosen, m.lease);
    forall s | s in w.cells
      ensures CellOk(ApplyClaim(w.cells[s], m.at, PartOf(m.chosen, s, m.worker, m.lease)), w.now)
    {
      CellIs(w, s);
      ClaimStepKeeps(w.cells[s], w.now, m.at, PartOf(m.chosen, s, m.worker, m.lease));
    }
  }

  lemma ReserveKeepsWorld(w: World, m: Move)
    requires WorldOk(w) && Possible(w, m) && m.Reserve?
    ensures WorldOk(Made(w, m))
  {
    hide CellOk, SlotsOk;
    var next := SessionReserved(TablesOf(w), m.s, m.profile, m.allowed, m.at, m.ttl);
    if next.Ok? {
      ReservationKeepsSlots(TablesOf(w), m.s, m.profile, m.allowed, m.at, m.ttl);
      FreshIsOk(m.profile, m.at, m.ttl, w.now);
      assert TablesOf(Made(w, m)) == next.value;
      forall s | s in Made(w, m).cells ensures CellOk(Made(w, m).cells[s], w.now) {
        if s != m.s { CellIs(w, s); }
      }
    }
  }

  lemma ProfileMovesKeepWorld(w: World, m: Move)
    requires WorldOk(w) && Possible(w, m) && (m.ReserveProfile? || m.SettleProfile? || m.EndProfile?)
    ensures WorldOk(Made(w, m))
  {
    hide CellOk, SlotsOk, Busy;
    match m
    case ReserveProfile(p) =>
      ProfileStepsKeepSlots(TablesOf(w), p, true, true);
      assert TablesOf(Made(w, m)) == ProfileReserved(TablesOf(w), p);
    case SettleProfile(p, ready) =>
      ProfileStepsKeepSlots(TablesOf(w), p, ready, true);
      assert ProfileSettled(TablesOf(w), p, ready).Ok? ==>
          TablesOf(Made(w, m)) == ProfileSettled(TablesOf(w), p, ready).value;
    case EndProfile(p, owner) =>
      ProfileStepsKeepSlots(TablesOf(w), p, true, owner);
      assert ProfileEnded(TablesOf(w), p, owner).Ok? ==>
          TablesOf(Made(w, m)) == ProfileEnded(TablesOf(w), p, owner).value;
  }

  lemma MoveKeepsWorld(w: World, m: Move)
    requires WorldOk(w) && Possible(w, m)
    ensures WorldOk(Made(w, m))
  {
    hide CellOk, SlotsOk, FirstDue, Apply, Enabled, ApplyClaim, ClaimEnabled;
    match m
    case Tick(later) =>
      forall s | s in w.cells ensures CellOk(w.cells[s], later) {
        CellIs(w, s);
        TimePasses(w.cells[s], w.now, later);
      }
      assert TablesOf(Made(w, m)) == TablesOf(w);
    case On(s, action) => OnKeepsWorld(w, s, action);
    case Claim(_, _, _, _) => ClaimKeepsWorld(w, m);
    case Reserve(_, _, _, _, _) => ReserveKeepsWorld(w, m);
    case _ => ProfileMovesKeepWorld(w, m);
  }

  lemma {:induction false} RunKeepsWorld(w: World, moves: seq<Move>)
    requires WorldOk(w) && After(w, moves).Some?
    ensures WorldOk(After(w, moves).value)
    decreases |moves|
  {
    hide WorldOk, Possible, Made;
    if moves != [] {
      RunKeepsWorld(w, moves[..|moves| - 1]);
      MoveKeepsWorld(After(w, moves[..|moves| - 1]).value, moves[|moves| - 1]);
    }
  }

  lemma EmptyIsOk(now: Time)
    ensures WorldOk(Empty(now))
  {
  }

  /** Reached from an empty database by some run. */
  ghost predicate Reachable(w: World) {
    exists now: Time, moves: seq<Move> :: After(Empty(now), moves) == Some(w)
  }

  lemma ReachableIsOk(w: World)
    requires Reachable(w)
    ensures WorldOk(w)
  {
    hide WorldOk, After;
    var now: Time, moves: seq<Move> :| After(Empty(now), moves) == Some(w);
    EmptyIsOk(now);
    RunKeepsWorld(Empty(now), moves);
  }

  // ------------------------------------------------------- never run backwards

  lemma MoveAdvances(w: World, m: Move, s: Id)
    requires WorldOk(w) && Possible(w, m) && s in w.cells
    ensures s in Made(w, m).cells && Advances(w.cells[s], Made(w, m).cells[s])
  {
    hide CellOk, SlotsOk, FirstDue, Apply, Enabled, ApplyClaim, ClaimEnabled, Advances;
    CellIs(w, s);
    AdvancesReflexive(w.cells[s]);
    match m
    case On(t, action) => if t == s { ActionAdvances(w.cells[s], w.now, action); }
    case Claim(at, chosen, lease, worker) =>
      ClaimAdvances(w.cells[s], w.now, at, PartOf(chosen, s, worker, lease));
    case _ =>
  }

  lemma {:induction false} RunAdvances(w: World, moves: seq<Move>, s: Id)
    requires WorldOk(w) && After(w, moves).Some? && s in w.cells
    ensures s in After(w, moves).value.cells && Advances(w.cells[s], After(w, moves).value.cells[s])
    decreases |moves|
  {
    hide WorldOk, Possible, Made, Advances;
    AdvancesReflexive(w.cells[s]);
    if moves != [] {
      var prefix, last := moves[..|moves| - 1], moves[|moves| - 1];
      RunAdvances(w, prefix, s);
      RunKeepsWorld(w, prefix);
      var before := After(w, prefix).value;
      MoveAdvances(before, last, s);
      AdvancesTransitive(w.cells[s], before.cells[s], Made(before, last).cells[s]);
    }
  }
}
