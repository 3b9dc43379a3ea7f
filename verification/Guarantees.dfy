/** What every run of the service guarantees: the main results about sessions, browsers, recordings,
    stop attempts, lookups and usage. */
module Guarantees {
  import opened Wrappers
  import opened Rows
  import opened RowLaws
  import opened RowOutcomes
  import opened UsageRows
  import opened Slots
  import opened Lifecycle
  import opened LifecycleLaws
  import opened LifecycleMoves
  import opened World

  // ------------------------------------------------------------------- slots

  /** In every reachable state a profile has at most one starting, active or ending session, and none
      unless it is ready. */
  lemma OneLiveSessionPerProfile(w: World, s: Id, t: Id, p: Id)
    requires Reachable(w) && s in w.cells && t in w.cells
    requires Occupies(w.cells[s].row, p) && Occupies(w.cells[t].row, p)
    ensures s == t && p in w.profiles && w.profiles[p].Ready?
  {
    hide Reachable, CellOk;
    ReachableIsOk(w);
    assert Occupies(TablesOf(w).rows[s], p) && Occupies(TablesOf(w).rows[t], p);
  }

  /** The ways a move may take a session out of the live statuses. */
  predicate SafelyFreed(s: Id, c: Cell, d: Cell, m: Move) {
    || (m.On? && m.s == s && m.action.Finalize? && StopConfirmed(c, d))
    || (m.On? && m.s == s && m.action.FailStart? && c.browser.None?)
    || (m.Claim? && c.row.session.status.Starting? && c.row.session.expiresAt <= m.at)
  }

  /** In every interleaving a live session becomes terminal only after its own browser's confirmed
      stop, after a start that created no browser, or by expiring before it ever started. */
  lemma SlotIsFreedOnlySafely(w: World, m: Move, s: Id)
    requires Reachable(w) && Possible(w, m) && s in w.cells && s in Made(w, m).cells
    requires Frees(w.cells[s], Made(w, m).cells[s])
    ensures SafelyFreed(s, w.cells[s], Made(w, m).cells[s], m)
  {
    hide Reachable, WorldOk, CellOk, Apply, Enabled, ApplyClaim, ClaimEnabled, FirstDue, StopConfirmed;
    ReachableIsOk(w);
    CellIs(w, s);
    match m
    case On(t, action) => if t == s { OnlyAConfirmedStopFrees(w.cells[s], w.now, action); }
    case Claim(at, chosen, lease, worker) =>
      OnlyLateStartsExpireAtOnce(w.cells[s], at, PartOf(chosen, s, worker, lease));
    case _ =>
  }

  /** A remote browser that the store knows about and that is still running. */
  predicate Running(c: Cell) {
    c.row.session.provider.Some? && HasBrowser(c, c.row.session.provider.value) && !Stopped(c)
  }

  lemma RunningIsLive(w: World, s: Id)
    requires WorldOk(w) && s in w.cells && Running(w.cells[s])
    ensures IsLive(w.cells[s].row.session.status)
  {
    hide WorldOk, CellOk, RowOk;
    CellIs(w, s);
    CreatorIs(w.cells[s], w.now);
  }

  /** So at most one recorded browser runs per profile, whatever fails and whoever races. */
  lemma OneRunningBrowserPerProfile(w: World, s: Id, t: Id, p: Id)
    requires Reachable(w) && s in w.cells && t in w.cells
    requires w.cells[s].row.session.profile == Some(p) && w.cells[t].row.session.profile == Some(p)
    requires Running(w.cells[s]) && Running(w.cells[t])
    ensures s == t
  {
    hide Reachable, WorldOk, Running;
    ReachableIsOk(w);
    RunningIsLive(w, s);
    RunningIsLive(w, t);
    OneLiveSessionPerProfile(w, s, t, p);
  }

  /** Over any run: a session once activated frees its slot only with that same browser stopped. */
  lemma ActivatedSessionEndsStopped(w: World, moves: seq<Move>, s: Id)
    requires Reachable(w) && s in w.cells && w.cells[s].row.session.provider.Some?
    requires After(w, moves).Some?
    ensures s in After(w, moves).value.cells
    ensures var d := After(w, moves).value.cells[s];
            && d.row.session.provider == w.cells[s].row.session.provider
            && HasBrowser(d, w.cells[s].row.session.provider.value)
            && (!IsLive(d.row.session.status) ==> Stopped(d))
  {
    hide Reachable, WorldOk, CellOk, After, RowOk;
    ReachableIsOk(w);
    RunAdvances(w, moves, s);
    RunKeepsWorld(w, moves);
    CellIs(After(w, moves).value, s);
    CreatorIs(After(w, moves).value.cells[s], After(w, moves).value.now);
  }

  /** A browser outlives its session only where its start was never recorded and the session expired
      before activation. */
  lemma OutlivingBrowserWasNeverRecorded(w: World, s: Id)
    requires Reachable(w) && s in w.cells
    requires var c := w.cells[s]; !IsLive(c.row.session.status) && c.browser.Some? && !Stopped(c)
    ensures w.cells[s].row.session.status.Expired? && w.cells[s].row.session.provider.None?
  {
    hide Reachable, WorldOk, CellOk, NotOrphaned, ResolveOk;
    ReachableIsOk(w);
    CellIs(w, s);
    CreatorIs(w.cells[s], w.now);
  }

  predicate StillUp(c: Cell) {
    c.browser.Some? && !Stopped(c)
  }

  /** Exactly when a freed slot leaves a remote browser up: the session was still starting when a
      reaper's claim expired it, and the provider had started its browser. */
  lemma FreedSlotLeavesABrowserExactlyIfStartingHadOne(w: World, m: Move, s: Id)
    requires Reachable(w) && Possible(w, m) && s in w.cells && s in Made(w, m).cells
    requires Frees(w.cells[s], Made(w, m).cells[s])
    ensures StillUp(Made(w, m).cells[s]) <==> w.cells[s].row.session.status.Starting? && m.Claim? && StillUp(w.cells[s])
  {
    hide Reachable, WorldOk, CellOk, Possible, Made, Frees, Up, UsageUp;
    SlotIsFreedOnlySafely(w, m, s);
    ReachableIsOk(w);
    MoveAdvances(w, m, s);
    if m.Claim? { ClaimLeavesBrowser(w, m, s); }
    if m.On? && m.action.FailStart? { FailStartLeavesBrowser(w, m, s); }
  }

  lemma ClaimLeavesBrowser(w: World, m: Move, s: Id)
    requires m.Claim? && Possible(w, m) && s in w.cells && s in Made(w, m).cells
    ensures Made(w, m).cells[s].browser == w.cells[s].browser
  {
    hide FirstDue, ClaimEnabled, Claimed, TtlReached, Reapable;
  }

  lemma FailStartLeavesBrowser(w: World, m: Move, s: Id)
    requires m.On? && m.action.FailStart? && Possible(w, m) && s in w.cells && s in Made(w, m).cells
    ensures Made(w, m).cells[s].browser == w.cells[s].browser
  {
    hide FailedStart;
  }

  /** The provider has a browser for this session up, or its start may still create one. */
  predicate MayRun(c: Cell) {
    StillUp(c) || c.inFlight || c.creator.Calling?
  }

  /** Once no browser is up and no start is open, none ever comes. */
  lemma NoBrowserComes(c: Cell, now: Time, a: Action)
    requires Enabled(c, now, a) && !MayRun(c)
    ensures !MayRun(Apply(c, now, a))
  {
    hide Activated, LateActivated, Retained, FailedStart, FailedAfterStop, EndFinalized, ExpiryFinalized, MarkedPending;
    hide ResolutionQueued, LookupCompleted, LookupFailed, Rescheduled, Hidden, Released, EndBegun, EndingRuntime;
    hide Remembered, LeaseCurrent, LookupClaimed, UsageRecorded, ActivationExpired, Resolvable;
  }

  lemma NoBrowserComesByMove(w: World, m: Move, s: Id)
    requires Possible(w, m) && s in w.cells && !MayRun(w.cells[s])
    ensures s in Made(w, m).cells && !MayRun(Made(w, m).cells[s])
  {
    hide Apply, Enabled, FirstDue, ClaimEnabled, MayRun, ApplyClaim;
    match m
    case On(t, action) => if t == s { NoBrowserComes(w.cells[s], w.now, action); }
    case Claim(at, chosen, lease, worker) => ClaimLeavesStart(w.cells[s], at, PartOf(chosen, s, worker, lease));
    case _ =>
  }

  lemma ClaimLeavesStart(c: Cell, at: Time, claim: Option<(Id, Lease)>)
    ensures MayRun(ApplyClaim(c, at, claim)) == MayRun(c)
  {
  }

  lemma {:induction false} NoBrowserEverComes(w: World, moves: seq<Move>, s: Id)
    requires After(w, moves).Some? && s in w.cells && !MayRun(w.cells[s])
    ensures s in After(w, moves).value.cells && !MayRun(After(w, moves).value.cells[s])
    decreases |moves|
  {
    hide Possible, Made, MayRun;
    if moves != [] {
      var before := moves[..|moves| - 1];
      NoBrowserEverComes(w, before, s);
      NoBrowserComesByMove(After(w, before).value, moves[|moves| - 1], s);
    }
  }

  /** And while one is up or may come, some run has it up. */
  lemma BrowserMayCome(w: World, s: Id) returns (moves: seq<Move>)
    requires s in w.cells && MayRun(w.cells[s])
    ensures After(w, moves).Some? && s in After(w, moves).value.cells && StillUp(After(w, moves).value.cells[s])
  {
    if StillUp(w.cells[s]) {
      moves := [];
    } else {
      var m := On(s, if w.cells[s].inFlight then BrowserAppears(0) else StartLost(Some(0)));
      moves := [m];
      assert moves[..0] == [] && After(w, moves[..0]) == Some(w);
    }
  }

  /** A browser may also stop by itself at any moment, and then none of this session ever runs again. */
  lemma BrowserMayStopByItself(w: World, s: Id, moves: seq<Move>)
    requires s in w.cells && StillUp(w.cells[s]) && !w.cells[s].inFlight && !w.cells[s].creator.Calling?
    requires Possible(w, On(s, BrowserStops)) && After(Made(w, On(s, BrowserStops)), moves).Some?
    ensures s in After(Made(w, On(s, BrowserStops)), moves).value.cells
    ensures !StillUp(After(Made(w, On(s, BrowserStops)), moves).value.cells[s])
  {
    hide After;
    NoBrowserEverComes(Made(w, On(s, BrowserStops)), moves, s);
  }

  /** Some run from here has this session's browser up, now or later. */
  ghost predicate BrowserCanBeUp(w: World, s: Id) {
    exists moves :: After(w, moves).Some? && s in After(w, moves).value.cells && StillUp(After(w, moves).value.cells[s])
  }

  lemma CanBeUpExactly(w: World, s: Id)
    requires s in w.cells
    ensures BrowserCanBeUp(w, s) <==> MayRun(w.cells[s])
  {
    hide After;
    if MayRun(w.cells[s]) {
      var moves := BrowserMayCome(w, s);
    } else {
      forall moves | After(w, moves).Some?
        ensures s in After(w, moves).value.cells ==> !StillUp(After(w, moves).value.cells[s])
      {
        NoBrowserEverComes(w, moves, s);
      }
    }
  }

  /** What frees a slot any other way than a claim leaves no browser up and no start open. */
  lemma OthersFreeForGood(w: World, m: Move, s: Id)
    requires Reachable(w) && Possible(w, m) && s in w.cells && s in Made(w, m).cells
    requires Frees(w.cells[s], Made(w, m).cells[s]) && !m.Claim?
    ensures !MayRun(Made(w, m).cells[s])
  {
    hide Reachable, WorldOk, CellOk, RowOk, Apply, Frees;
    SlotIsFreedOnlySafely(w, m, s);
    ReachableIsOk(w);
    CellIs(w, s);
    CreatorIs(w.cells[s], w.now);
    var c := w.cells[s];
    assert Made(w, m).cells[s] == Apply(c, w.now, m.action);
    if m.action.Finalize? { FinalizeLeavesStart(c, w.now, m.action); } else { FailStartCloses(c, w.now, m.action); }
  }

  lemma FinalizeLeavesStart(c: Cell, now: Time, a: Action)
    requires Enabled(c, now, a) && a.Finalize?
    ensures var d := Apply(c, now, a); d.browser == c.browser && d.creator == c.creator && d.inFlight == c.inFlight
  {
    hide FailedAfterStop, EndFinalized, ExpiryFinalized;
  }

  lemma FailStartCloses(c: Cell, now: Time, a: Action)
    requires Enabled(c, now, a) && a.FailStart?
    ensures var d := Apply(c, now, a); d.browser == c.browser && d.creator.Done? && d.inFlight == c.inFlight
  {
    hide FailedStart;
  }

  lemma ClaimMoveLeavesStart(w: World, m: Move, s: Id)
    requires m.Claim? && Possible(w, m) && s in w.cells && s in Made(w, m).cells
    ensures MayRun(Made(w, m).cells[s]) == MayRun(w.cells[s])
  {
    hide FirstDue, ClaimEnabled, ApplyClaim, MayRun;
    ClaimLeavesStart(w.cells[s], m.at, PartOf(m.chosen, s, m.worker, m.lease));
  }

  /** Exactly when a freed slot can have a remote browser up, at once or at any later point of any run: a
      reaper's claim expired a session still starting while its browser was up or its start still open. */
  lemma FreedSlotMayHaveABrowserExactly(w: World, m: Move, s: Id)
    requires Reachable(w) && Possible(w, m) && s in w.cells && s in Made(w, m).cells
    requires Frees(w.cells[s], Made(w, m).cells[s])
    ensures BrowserCanBeUp(Made(w, m), s) <==> m.Claim? && w.cells[s].row.session.status.Starting? && MayRun(w.cells[s])
  {
    hide Reachable, Possible, Made, Frees, MayRun, BrowserCanBeUp, StopConfirmed;
    CanBeUpExactly(Made(w, m), s);
    SlotIsFreedOnlySafely(w, m, s);
    if m.Claim? { ClaimMoveLeavesStart(w, m, s); } else { OthersFreeForGood(w, m, s); }
  }

  // ---------------------------------------------------------------- statuses

  /** A retried end, at any later point of any run, finds the browser the first attempt found. */
  lemma RetriedEndFindsTheSameBrowser(w: World, moves: seq<Move>, s: Id, note: string)
    requires Reachable(w) && After(w, moves).Some? && s in w.cells && w.cells[s].row.session.status.Ending?
    ensures s in After(w, moves).value.cells
    ensures var later := After(w, moves).value.cells[s].row;
            later.session.status.Ending? ==>
              && EndBegun(later, note) == later
              && EndingRuntime(w.cells[s].row).Ok? && EndingRuntime(later).Ok?
              && EndingRuntime(later).value.id == EndingRuntime(w.cells[s].row).value.id
              && EndingRuntime(later).value.cdp == EndingRuntime(w.cells[s].row).value.cdp
              && EndingRuntime(later).value.live == EndingRuntime(w.cells[s].row).value.live
  {
    hide Reachable, WorldOk, CellOk, After, RowOk, Up;
    ReachableIsOk(w);
    RunAdvances(w, moves, s);
    RunKeepsWorld(w, moves);
    CellIs(w, s);
    CreatorIs(w.cells[s], w.now);
    var last := After(w, moves).value;
    CellIs(last, s);
    CreatorIs(last.cells[s], last.now);
    if last.cells[s].row.session.status.Ending? {
      EndRetryFindsSameRuntime(w.cells[s].row, last.cells[s].row, note);
    }
  }

  /** The runtime a creator is about to store. */
  predicate Brings(c: Cell, p: Runtime) {
    match c.creator
    case Activating(q, _) => p == q
    case FallingBack(q, _) => p == q
    case Retaining(q) => p == q
    case _ => false
  }

  /** A creator's action that gives a session its browser stores each column as it was brought. */
  lemma GivenRuntimeIsStored(c: Cell, now: Time, a: Action, p: Runtime)
    requires CellOk(c, now) && Enabled(c, now, a) && CreatorAction(a) && Brings(c, p)
    requires c.row.session.provider.None? && Apply(c, now, a).row.session.provider.Some?
    ensures var s := Apply(c, now, a).row.session;
            s.provider == Some(p.id) && s.cdp == Some(p.cdp) && s.live == Some(p.live)
  {
    hide CellOk, Activated, LateActivated, Retained;
    CreatorIs(c, now);
    if a.Activate? { ActivationIsReadBack(c.row, p, a.at, TTL_NOTE); }
    if a.FallBack? { LateActivationIsReadBack(c.row, p, now, Lease(0, 0)); }
    if a.Retain? { RetentionIsReadBack(c.row, p, a.reason); }
  }

  /** Over any run: an end finds the very runtime the session was given by its activation, its late activation
      or its retention, each endpoint in its place, however much later. */
  lemma EndFindsTheGivenRuntime(w: World, s: Id, a: Action, p: Runtime, moves: seq<Move>)
    requires Reachable(w) && Possible(w, On(s, a)) && CreatorAction(a) && Brings(w.cells[s], p)
    requires var first := Made(w, On(s, a));
             && w.cells[s].row.session.provider.None? && first.cells[s].row.session.provider.Some?
             && After(first, moves).Some?
    ensures var last := After(Made(w, On(s, a)), moves).value;
            && s in last.cells
            && (Endable(last.cells[s].row) ==>
                  && RuntimeOf(last.cells[s].row.session).Ok?
                  && var found := RuntimeOf(last.cells[s].row.session).value;
                     found.id == p.id && found.cdp == p.cdp && found.live == p.live)
  {
    hide Reachable, WorldOk, CellOk, Apply, Enabled, After, RowOk;
    ReachableIsOk(w);
    CellIs(w, s);
    var first := Made(w, On(s, a));
    MoveKeepsWorld(w, On(s, a));
    RunAdvances(first, moves, s);
    GivenRuntimeIsStored(w.cells[s], w.now, a, p);
  }

  /** Runtime columns follow the status in every reachable state. */
  lemma StatusFixesRuntime(w: World, s: Id)
    requires Reachable(w) && s in w.cells
    ensures var x := w.cells[s].row.session;
            && (x.status.Starting? ==> x.provider.None? && x.cdp.None? && x.live.None?)
            && (x.status.Active? || x.status.Ending? ==> RuntimeOf(x).Ok?)
            && (x.endedAt.None? <==> IsLive(x.status))
  {
    hide Reachable, WorldOk, CellOk, NotOrphaned, ResolveOk;
    ReachableIsOk(w);
    CellIs(w, s);
    CreatorIs(w.cells[s], w.now);
  }

  /** Over any run the recorded browser never changes, the status only moves forward, and the
      terminal statuses are final. */
  lemma StatusOnlyMovesForward(w: World, moves: seq<Move>, s: Id)
    requires Reachable(w) && After(w, moves).Some? && s in w.cells
    ensures s in After(w, moves).value.cells
    ensures var x, y := w.cells[s].row.session, After(w, moves).value.cells[s].row.session;
            && Rank(x.status) <= Rank(y.status)
            && (!IsLive(x.status) ==> y.status == x.status && y.endedAt == x.endedAt)
            && (x.provider.Some? ==> y.provider == x.provider)
            && y.profile == x.profile && y.expiresAt == x.expiresAt
  {
    hide Reachable, WorldOk, CellOk, After;
    ReachableIsOk(w);
    RunAdvances(w, moves, s);
  }

  // --------------------------------------------------------------- recordings

  /** No pending recording is ever orphaned, and once its session is over the lookup that will find
      its source can really be claimed when it falls due. */
  lemma PendingRecordingsAreReachable(w: World, s: Id, leaseUntil: Time)
    requires Reachable(w) && s in w.cells && w.cells[s].row.recording.status.Pending?
    ensures var r := w.cells[s].row;
            r.session.url.Some? || (r.resolve.Some? && r.resolve.value.doneAt.None? && r.session.provider.Some?)
    ensures var r := w.cells[s].row;
            r.session.url.None? && !IsLive(r.session.status) && r.resolve.Some? && w.now >= r.resolve.value.nextAt ==>
              Possible(w, On(s, ClaimLookup(w.now, leaseUntil)))
  {
    hide Reachable, WorldOk, CellOk;
    ReachableIsOk(w);
    CellIs(w, s);
    CreatorIs(w.cells[s], w.now);
    var r := w.cells[s].row;
    if r.session.url.None? && !IsLive(r.session.status) { PendingIsResolvable(r, w.now); }
  }

  /** In every reachable state a finished session's pending recording can still move, by an open delivery
      or a claimable lookup, exactly unless its source is stored and no delivery was queued. */
  lemma PendingRecordingIsStuckExactly(w: World, s: Id)
    requires Reachable(w) && s in w.cells && w.cells[s].row.recording.status.Pending?
    requires !IsLive(w.cells[s].row.session.status)
    ensures HasWayForward(w.cells[s].row) <==> !StuckRow(w.cells[s].row)
  {
    hide Reachable, WorldOk, CellOk, RowOk, HasWayForward;
    ReachableIsOk(w);
    CellIs(w, s);
    CreatorIs(w.cells[s], w.now);
    PendingIsStuckExactly(w.cells[s].row);
  }

  /** And exactly which moves make it stuck, told from the state before them. */
  lemma RecordingGetsStuckExactly(w: World, m: Move, s: Id)
    requires Reachable(w) && Possible(w, m) && s in w.cells && s in Made(w, m).cells
    ensures NewlyStuck(w.cells[s], Made(w, m).cells[s]) <==> m.On? && m.s == s && GetsStuck(w.cells[s], m.action)
  {
    hide Reachable, WorldOk, CellOk, Apply, Enabled, ApplyClaim, ClaimEnabled, FirstDue, GetsStuck;
    ReachableIsOk(w);
    CellIs(w, s);
    match m
    case On(t, action) => if t == s { ActionSticksExactly(w.cells[s], w.now, action); }
    case Claim(at, chosen, lease, worker) =>
      ClaimSticksNothing(w.cells[s], w.now, at, PartOf(chosen, s, worker, lease));
    case _ =>
  }

  /** One resolve event causes at most ten provider lookups, over any run whatever. */
  lemma AtMostTenLookups(w: World, s: Id)
    requires Reachable(w) && s in w.cells
    ensures |w.cells[s].queried| <= MAX_LOOKUPS
  {
    hide Reachable, WorldOk, CellOk;
    ReachableIsOk(w);
    CellIs(w, s);
    QueriesAre(w.cells[s], w.now);
    DistinctBelow(w.cells[s].queried, MAX_LOOKUPS);
  }

  function AttemptOf(w: World, s: Id): nat
    requires s in w.cells && w.cells[s].row.resolve.Some?
  {
    w.cells[s].row.resolve.value.attempts
  }

  lemma ClaimingCountsUp(w: World, s: Id, at: Time, leaseUntil: Time)
    requires Possible(w, On(s, ClaimLookup(at, leaseUntil)))
    ensures w.cells[s].row.resolve.Some? && s in Made(w, On(s, ClaimLookup(at, leaseUntil))).cells
    ensures var next := Made(w, On(s, ClaimLookup(at, leaseUntil)));
            && next.cells[s].row.resolve.Some? && AttemptOf(next, s) == AttemptOf(w, s) + 1
            && AttemptOf(next, s) in next.cells[s].lookups
  {
  }

  /** Each attempt number is handed out once: a later claim of the same event gets a larger one. */
  lemma AttemptsAreHandedOutOnce(w: World, s: Id, at: Time, until: Time, moves: seq<Move>,
                                 laterAt: Time, laterUntil: Time)
    requires Reachable(w) && Possible(w, On(s, ClaimLookup(at, until)))
    requires var first := Made(w, On(s, ClaimLookup(at, until)));
             After(first, moves).Some? && Possible(After(first, moves).value, On(s, ClaimLookup(laterAt, laterUntil)))
    ensures var first := Made(w, On(s, ClaimLookup(at, until)));
            var last := Made(After(first, moves).value, On(s, ClaimLookup(laterAt, laterUntil)));
            && s in first.cells && s in last.cells
            && first.cells[s].row.resolve.Some? && last.cells[s].row.resolve.Some?
            && AttemptOf(first, s) < AttemptOf(last, s)
  {
    hide Reachable, WorldOk, Possible, Made, After;
    ReachableIsOk(w);
    var first := Made(w, On(s, ClaimLookup(at, until)));
    MoveKeepsWorld(w, On(s, ClaimLookup(at, until)));
    ClaimingCountsUp(w, s, at, until);
    RunAdvances(first, moves, s);
    ClaimingCountsUp(After(first, moves).value, s, laterAt, laterUntil);
  }

  // ------------------------------------------------------------ stop attempts

  /** At no moment do two reaper attempts on one session run, across all processes: each attempt ends
      within its budget, before the lease that let it start. */
  lemma StopAttemptsNeverOverlap(w: World, s: Id, v: Id, u: Id)
    requires Reachable(w) && s in w.cells
    requires Attempting(w.cells[s], w.now, v) && Attempting(w.cells[s], w.now, u)
    ensures v == u && w.cells[s].row.session.lease == Some(w.cells[s].closers[v].kind.lease)
    ensures w.now < w.cells[s].closers[v].kind.lease.until
  {
    hide Reachable, WorldOk, CellOk;
    ReachableIsOk(w);
    CellIs(w, s);
    AttemptsNeverOverlap(w.cells[s], w.now, v, u);
    AttemptHoldsLease(w.cells[s], w.now, v);
  }

  /** A reaper's release or finalization changes a session only while it holds the session's lease, and then
      no other reaper does. */
  lemma OnlyTheLeaseHolderActsOnASession(w: World, s: Id, a: Action, u: Id)
    requires Reachable(w) && Possible(w, On(s, a)) && (a.Release? || a.Finalize?)
    requires a.w in w.cells[s].closers && w.cells[s].closers[a.w].kind.Reap?
    requires u in w.cells[s].closers && w.cells[s].closers[u].kind.Reap? && u != a.w
    ensures s in Made(w, On(s, a)).cells
    ensures Made(w, On(s, a)).cells[s].row.session != w.cells[s].row.session ==>
              && HoldsLease(w.cells[s].row.session, w.cells[s].closers[a.w].kind.lease.id)
              && !HoldsLease(w.cells[s].row.session, w.cells[s].closers[u].kind.lease.id)
  {
    hide Reachable, WorldOk, CellOk, Apply, Enabled;
    ReachableIsOk(w);
    CellIs(w, s);
    ClosersAreApart(w.cells[s], w.now, a.w, u);
    if Apply(w.cells[s], w.now, a).row.session != w.cells[s].row.session {
      OnlyTheHolderChangesTheSession(w.cells[s], w.now, a);
    }
  }

  // -------------------------------------------------------------------- usage

  /** Over any run: browser time and traffic never fall, the currency never changes, and a finished
      session's usage is final. */
  lemma UsageNeverRunsBackwards(w: World, moves: seq<Move>, s: Id)
    requires Reachable(w) && After(w, moves).Some? && s in w.cells
    ensures s in After(w, moves).value.cells
    ensures UsageUp(w.cells[s].usage, After(w, moves).value.cells[s].usage)
    ensures !IsLive(w.cells[s].row.session.status) ==> After(w, moves).value.cells[s].usage == w.cells[s].usage
  {
    hide Reachable, WorldOk, CellOk, After, UsageUp;
    ReachableIsOk(w);
    RunAdvances(w, moves, s);
  }

  /** No move but a closer's terminal sample lowers a stored cost. */
  lemma CostsFallOnlyThroughTerminalSamples(w: World, m: Move, s: Id)
    requires Reachable(w) && Possible(w, m) && s in w.cells && s in Made(w, m).cells
    requires var u, v := w.cells[s].usage, Made(w, m).cells[s].usage;
             CostFell(v.browserCost, u.browserCost) || CostFell(v.proxyCost, u.proxyCost)
    ensures m.On? && m.s == s && m.action.Meter?
  {
    hide Reachable, WorldOk, CellOk, Apply, Enabled, ApplyClaim, ClaimEnabled, FirstDue, CostFell;
    ReachableIsOk(w);
    CellIs(w, s);
    var u := w.cells[s].usage;
    SameCost(u.browserCost);
    SameCost(u.proxyCost);
    match m
    case On(t, action) => if t == s { OnlyTerminalSamplesRefund(w.cells[s], w.now, action); }
    case Claim(at, chosen, lease, worker) => ClaimLeavesUsage(w.cells[s], at, PartOf(chosen, s, worker, lease));
    case _ =>
  }

  lemma ClaimLeavesUsage(c: Cell, at: Time, claim: Option<(Id, Lease)>)
    ensures ApplyClaim(c, at, claim).usage == c.usage
  {
  }
}
