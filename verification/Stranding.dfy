/** Runs that leave something behind: two remote browsers of one profile up at once, and a pending
    recording that nothing will ever deliver. */
module Stranding {
  import opened Wrappers
  import opened Rows
  import opened RowLaws
  import opened UsageRows
  import opened Slots
  import opened Lifecycle
  import opened World
  import Decimal

  lemma ReserveStep(w: World, s: Id, p: Id, at: Time, ttl: Time)
    requires s !in w.cells && at <= w.now
    requires p in w.profiles && w.profiles[p].Ready? && !Busy(TablesOf(w), p)
    ensures var m := Reserve(s, Some(p), true, at, ttl);
            Possible(w, m) && Made(w, m) == w.(cells := w.cells[s := Fresh(Some(p), at, ttl)])
  {
  }

  function Started(c: Cell, p: Runtime): Cell {
    c.(browser := Some(Browser(p.id, false)), creator := Activating(p, false))
  }

  lemma StartStep(w: World, s: Id, p: Runtime)
    requires s in w.cells && w.cells[s].creator.Calling? && w.cells[s].closers == map[]
    ensures var m := On(s, StartSucceeds(p.id, Some(p), false, 0));
            Possible(w, m) && Made(w, m) == w.(cells := w.cells[s := Started(w.cells[s], p)])
  {
  }

  lemma VanishStep(w: World, s: Id)
    requires s in w.cells
    ensures var m := On(s, CreatorVanishes);
            Possible(w, m) && Made(w, m) == w.(cells := w.cells[s := w.cells[s].(creator := Done)])
  {
  }

  /** A claim that finds nothing to stop still expires the sessions that never started. */
  lemma ExpireStep(w: World, s: Id, at: Time)
    requires at <= w.now && w.cells.Keys == {s} && w.cells[s].row.session.status.Starting?
    requires w.cells[s].row.session.expiresAt <= at
    ensures var m := Claim(at, {}, Lease(0, at + STOP_LEASE), 0);
            Possible(w, m) && Made(w, m) == w.(cells := map[s := w.cells[s].(row := TtlReached(w.cells[s].row, at))])
  {
    assert DueSet(TablesOf(w), at) == {};
  }

  lemma SetUpStep(w: World, p: Id)
    requires p !in w.profiles
    ensures Possible(w, ReserveProfile(p))
    ensures Made(w, ReserveProfile(p)) == w.(profiles := w.profiles[p := Provisioning])
  {
  }

  lemma ReadyStep(w: World, p: Id)
    requires p in w.profiles && w.profiles[p].Provisioning?
    ensures Possible(w, SettleProfile(p, true))
    ensures Made(w, SettleProfile(p, true)) == w.(profiles := w.profiles[p := ProfileStatus.Ready])
  {
  }

  lemma RunExtends(w: World, moves: seq<Move>, mid: World, m: Move)
    requires After(w, moves) == Some(mid) && Possible(mid, m)
    ensures After(w, moves + [m]) == Some(Made(mid, m))
  {
    hide Possible, Made;
    assert (moves + [m])[..|moves + [m]| - 1] == moves;
  }

  lemma ReachesNext(w: World, m: Move)
    requires Reachable(w) && Possible(w, m)
    ensures Reachable(Made(w, m))
  {
    hide Possible, Made, After;
    var now: Time, moves: seq<Move> :| After(Empty(now), moves) == Some(w);
    RunExtends(Empty(now), moves, w, m);
  }

  lemma OnReaches(w: World, s: Id, a: Action)
    requires Reachable(w) && s in w.cells && Enabled(w.cells[s], w.now, a)
    ensures Reachable(w.(cells := w.cells[s := Apply(w.cells[s], w.now, a)]))
  {
    hide Reachable, Enabled, Apply;
    ReachesNext(w, On(s, a));
  }

  /** A ready profile and a session on it whose creator vanished after the provider's start. */
  function Abandoned(p: Runtime): World {
    World(0, map[1 := ProfileStatus.Ready], map[7 := Started(Fresh(Some(1), 0, 10), p).(creator := Done)])
  }

  lemma EmptyIsReachable()
    ensures Reachable(Empty(0))
  {
    assert After(Empty(0), []) == Some(Empty(0));
  }

  lemma ReservedIsReachable(p: Id, s: Id)
    ensures Reachable(World(0, map[p := ProfileStatus.Ready], map[s := Fresh(Some(p), 0, 10)]))
  {
    hide Possible, Made, Reachable;
    var w0 := Empty(0);
    EmptyIsReachable();
    SetUpStep(w0, p);
    ReachesNext(w0, ReserveProfile(p));
    var w1 := w0.(profiles := w0.profiles[p := Provisioning]);
    ReadyStep(w1, p);
    ReachesNext(w1, SettleProfile(p, true));
    var w2 := w1.(profiles := w1.profiles[p := ProfileStatus.Ready]);
    ReserveStep(w2, s, p, 0, 10);
    ReachesNext(w2, Reserve(s, Some(p), true, 0, 10));
    assert w2.(cells := w2.cells[s := Fresh(Some(p), 0, 10)])
        == World(0, map[p := ProfileStatus.Ready], map[s := Fresh(Some(p), 0, 10)]);
  }

  lemma AbandonedIsReachable(p: Runtime)
    ensures Reachable(Abandoned(p))
  {
    hide Possible, Made, Reachable;
    var w3 := World(0, map[1 := ProfileStatus.Ready], map[7 := Fresh(Some(1), 0, 10)]);
    ReservedIsReachable(1, 7);
    StartStep(w3, 7, p);
    ReachesNext(w3, On(7, StartSucceeds(p.id, Some(p), false, 0)));
    var w4 := w3.(cells := w3.cells[7 := Started(Fresh(Some(1), 0, 10), p)]);
    VanishStep(w4, 7);
    ReachesNext(w4, On(7, CreatorVanishes));
    assert Made(w4, On(7, CreatorVanishes)) == Abandoned(p);
  }

  function Replaced(p: Runtime, q: Runtime): World {
    var expired := Started(Fresh(Some(1), 0, 10), p).(creator := Done);
    World(20, map[1 := ProfileStatus.Ready],
          map[7 := expired.(row := TtlReached(expired.row, 20)), 8 := Started(Fresh(Some(1), 20, 10), q)])
  }

  lemma ReplacedIsReachable(p: Runtime, q: Runtime)
    ensures Reachable(Replaced(p, q))
  {
    hide Possible, Made, Reachable;
    AbandonedIsReachable(p);
    var w5 := Abandoned(p);
    var w6 := w5.(now := 20);
    TickStep(w5, 20);
    ReachesNext(w5, Tick(20));
    ExpireStep(w6, 7, 20);
    ReachesNext(w6, Claim(20, {}, Lease(0, 20 + STOP_LEASE), 0));
    var w7 := w6.(cells := map[7 := w6.cells[7].(row := TtlReached(w6.cells[7].row, 20))]);
    ReserveStep(w7, 8, 1, 20, 10);
    ReachesNext(w7, Reserve(8, Some(1), true, 20, 10));
    var w8 := w7.(cells := w7.cells[8 := Fresh(Some(1), 20, 10)]);
    StartStep(w8, 8, q);
    ReachesNext(w8, On(8, StartSucceeds(q.id, Some(q), false, 0)));
    assert Made(w8, On(8, StartSucceeds(q.id, Some(q), false, 0))) == Replaced(p, q);
  }

  lemma TickStep(w: World, later: Time)
    requires w.now <= later
    ensures Possible(w, Tick(later)) && Made(w, Tick(later)) == w.(now := later)
  {
  }

  /** A creator that vanishes between the provider's start and the activation leaves a browser nobody
      recorded; its session expires, the slot is free, and the next session on the profile starts a
      second browser while the first still runs. */
  lemma VanishedCreatorStrandsABrowser(p: Runtime, q: Runtime)
    ensures var w := Replaced(p, q);
            && Reachable(w)
            && w.cells[7].row.session.profile == w.cells[8].row.session.profile == Some(1)
            && w.cells[7].row.session.status.Expired? && IsLive(w.cells[8].row.session.status)
            && w.cells[7].browser == Some(Browser(p.id, false)) && w.cells[8].browser == Some(Browser(q.id, false))
  {
    hide Reachable;
    ReplacedIsReachable(p, q);
  }

  // --------------------------------------------------- the ambiguous start

  predicate NobodyVanished(moves: seq<Move>) {
    forall i | 0 <= i < |moves| :: moves[i].On? ==> !moves[i].action.CreatorVanishes? && !moves[i].action.Vanish?
  }

  lemma UnfoundStep(w: World, s: Id, b: Id)
    requires s in w.cells && w.cells[s].creator.Calling? && !w.cells[s].inFlight
    ensures Possible(w, On(s, StartLost(Some(b))))
    ensures var next := Made(w, On(s, StartLost(Some(b))));
            && Possible(next, On(s, Find(None)))
            && Made(next, On(s, Find(None))) ==
               w.(cells := w.cells[s := w.cells[s].(browser := Some(Browser(b, false)), creator := Done)])
  {
  }

  /** The same state is reached with nobody vanishing: the start's reply is lost, the provider does not
      find the browser it has started, and the request ends as it should, leaving the reservation. */
  lemma UnfoundStartStrandsABrowser(p: Runtime) returns (moves: seq<Move>)
    ensures NobodyVanished(moves) && After(Empty(0), moves) == Some(Abandoned(p))
  {
    hide Possible, Made;
    var w0 := Empty(0);
    moves := [];
    SetUpStep(w0, 1);
    RunExtends(w0, moves, w0, ReserveProfile(1));
    moves := moves + [ReserveProfile(1)];
    var w1 := w0.(profiles := w0.profiles[1 := Provisioning]);
    ReadyStep(w1, 1);
    RunExtends(w0, moves, w1, SettleProfile(1, true));
    moves := moves + [SettleProfile(1, true)];
    var w2 := w1.(profiles := w1.profiles[1 := ProfileStatus.Ready]);
    ReserveStep(w2, 7, 1, 0, 10);
    RunExtends(w0, moves, w2, Reserve(7, Some(1), true, 0, 10));
    moves := moves + [Reserve(7, Some(1), true, 0, 10)];
    var w3 := w2.(cells := w2.cells[7 := Fresh(Some(1), 0, 10)]);
    UnfoundStep(w3, 7, p.id);
    var w4 := Made(w3, On(7, StartLost(Some(p.id))));
    RunExtends(w0, moves, w3, On(7, StartLost(Some(p.id))));
    moves := moves + [On(7, StartLost(Some(p.id)))];
    RunExtends(w0, moves, w4, On(7, Find(None)));
    moves := moves + [On(7, Find(None))];
    assert w3.profiles == Abandoned(p).profiles;
    assert Made(w4, On(7, Find(None))) == Abandoned(p);
  }

  // ------------------------------------------------------- the late browser

  /** The session's start was lost before it created anything; the session has expired, and the next one
      on the profile runs its browser. */
  function Superseded(q: Runtime): World {
    var lost := Fresh(Some(1), 0, 10).(creator := Done, inFlight := true);
    World(20, map[1 := ProfileStatus.Ready],
          map[7 := lost.(row := TtlReached(lost.row, 20)), 8 := Started(Fresh(Some(1), 20, 10), q)])
  }

  lemma LostStep(w: World, s: Id)
    requires s in w.cells && w.cells[s].creator.Calling? && w.cells[s].browser.None?
    ensures Possible(w, On(s, StartLost(None)))
    ensures var next := Made(w, On(s, StartLost(None)));
            && Possible(next, On(s, Find(None)))
            && Made(next, On(s, Find(None))) ==
               w.(cells := w.cells[s := w.cells[s].(creator := Done, inFlight := true)])
  {
  }

  lemma SupersededIsReachable(q: Runtime)
    ensures Reachable(Superseded(q))
  {
    hide Possible, Made, Reachable;
    var w3 := World(0, map[1 := ProfileStatus.Ready], map[7 := Fresh(Some(1), 0, 10)]);
    ReservedIsReachable(1, 7);
    LostStep(w3, 7);
    ReachesNext(w3, On(7, StartLost(None)));
    ReachesNext(Made(w3, On(7, StartLost(None))), On(7, Find(None)));
    var w5 := w3.(cells := w3.cells[7 := Fresh(Some(1), 0, 10).(creator := Done, inFlight := true)]);
    TickStep(w5, 20);
    ReachesNext(w5, Tick(20));
    var w6 := w5.(now := 20);
    ExpireStep(w6, 7, 20);
    ReachesNext(w6, Claim(20, {}, Lease(0, 20 + STOP_LEASE), 0));
    var w7 := w6.(cells := map[7 := w6.cells[7].(row := TtlReached(w6.cells[7].row, 20))]);
    ReserveStep(w7, 8, 1, 20, 10);
    ReachesNext(w7, Reserve(8, Some(1), true, 20, 10));
    var w8 := w7.(cells := w7.cells[8 := Fresh(Some(1), 20, 10)]);
    StartStep(w8, 8, q);
    ReachesNext(w8, On(8, StartSucceeds(q.id, Some(q), false, 0)));
    assert Made(w8, On(8, StartSucceeds(q.id, Some(q), false, 0))) == Superseded(q);
  }

  /** No browser is up when the slot is freed, nor when it is taken again; then the lost start creates its
      browser after all, and two of one profile run. */
  lemma LateBrowserJoinsItsSuccessor(q: Runtime, late: Id)
    ensures Reachable(Superseded(q)) && Possible(Superseded(q), On(7, BrowserAppears(late)))
    ensures var w := Made(Superseded(q), On(7, BrowserAppears(late)));
            && Reachable(w) && Superseded(q).cells[7].browser.None?
            && w.cells[7].row.session.profile == w.cells[8].row.session.profile == Some(1)
            && w.cells[7].row.session.status.Expired? && IsLive(w.cells[8].row.session.status)
            && w.cells[7].browser == Some(Browser(late, false)) && w.cells[8].browser == Some(Browser(q.id, false))
  {
    hide Reachable;
    SupersededIsReachable(q);
    ReachesNext(Superseded(q), On(7, BrowserAppears(late)));
  }

  // --------------------------------------------------- the stuck recording

  const SOURCED: Runtime := Runtime(5, 0, 0, Some(9))
  const NO_USAGE: Sample := Sample(0, None, None, None, "0", "0", "USD", 0)

  function Incognito(): Cell {
    Fresh(None, 0, 10)
  }

  /** Activated, but the reply was lost. */
  function Unanswered(): Cell {
    var c := Started(Incognito(), SOURCED);
    c.(row := c.row.(session := WithRuntime(c.row.session, Active, SOURCED)), creator := Retaining(SOURCED))
  }

  /** The runtime could not be retained either, so its recovery does not know the source. */
  function Unretained(): Cell {
    Unanswered().(creator := Done, closers := map[1 := Closer(Recover, 5, Stopping, false)])
  }

  /** Meanwhile the owner ended the session; that request goes no further. */
  function Recovering(): Cell {
    Unretained().(row := EndBegun(Unanswered().row, ""))
  }

  function Metered(): Cell {
    Recovering().(browser := Some(Browser(5, true)), usage := Sampled(Incognito().usage, NO_USAGE, true),
                  closers := map[1 := Closer(Recover, 5, Finalizing, false)])
  }

  /** The recovery finalizes: the session failed, its recording waits for a lookup of a known source. */
  function Stuck(): Cell {
    Metered().(row := FailedAfterStop(Recovering().row, 5, "", 0, false, 0).value, closers := map[])
  }

  lemma StartIsUnanswered()
    ensures Enabled(Started(Incognito(), SOURCED), 0, Activate(0, true))
    ensures Apply(Started(Incognito(), SOURCED), 0, Activate(0, true)) == Unanswered()
    ensures Enabled(Unanswered(), 0, Retain("", true, 1)) && Apply(Unanswered(), 0, Retain("", true, 1)) == Unretained()
  {
  }

  lemma OwnerEnds()
    ensures Enabled(Unretained(), 0, BeginEnd(2, ""))
    ensures var c := Apply(Unretained(), 0, BeginEnd(2, ""));
            Enabled(c, 0, Vanish(2)) && Apply(c, 0, Vanish(2)) == Recovering()
  {
  }

  lemma NoUsageIsRecorded()
    ensures UsageRecorded(Recovering().row.session, Incognito().usage, NO_USAGE, true)
         == Ok(Sampled(Incognito().usage, NO_USAGE, true))
  {
    hide Decimal.ToMillionths;
    ZeroCost("0");
  }

  lemma StopIsConfirmed()
    ensures Enabled(Recovering(), 0, Stop(1, Confirmed(None)))
    ensures var c := Apply(Recovering(), 0, Stop(1, Confirmed(None)));
            Enabled(c, 0, Meter(1, NO_USAGE)) && Apply(c, 0, Meter(1, NO_USAGE)) == Metered()
  {
    hide UsageRecorded, Sampled;
    NoUsageIsRecorded();
  }

  lemma RecoveryEnds()
    ensures Enabled(Metered(), 0, Finalize(1, "", 0, 0)) && Apply(Metered(), 0, Finalize(1, "", 0, 0)) == Stuck()
  {
    hide Sampled;
  }

  function Alone(c: Cell): World {
    World(0, map[], map[7 := c])
  }

  lemma AloneReaches(c: Cell, a: Action)
    requires Reachable(Alone(c)) && Enabled(c, 0, a)
    ensures Reachable(Alone(Apply(c, 0, a)))
  {
    hide Reachable, Enabled, Apply;
    OnReaches(Alone(c), 7, a);
    assert Alone(c).(cells := Alone(c).cells[7 := Apply(c, 0, a)]) == Alone(Apply(c, 0, a));
  }

  lemma StartedAloneIsReachable()
    ensures Reachable(Alone(Started(Incognito(), SOURCED)))
  {
    hide Reachable, Possible, Made, Apply, Enabled, Started;
    EmptyIsReachable();
    IncognitoStep(Empty(0), 7, 0, 10);
    ReachesNext(Empty(0), Reserve(7, None, true, 0, 10));
    assert Empty(0).(cells := Empty(0).cells[7 := Incognito()]) == Alone(Incognito());
    StartStep(Alone(Incognito()), 7, SOURCED);
    ReachesNext(Alone(Incognito()), On(7, StartSucceeds(5, Some(SOURCED), false, 0)));
    assert Alone(Incognito()).(cells := Alone(Incognito()).cells[7 := Started(Incognito(), SOURCED)])
        == Alone(Started(Incognito(), SOURCED));
  }

  lemma IncognitoStep(w: World, s: Id, at: Time, ttl: Time)
    requires s !in w.cells && at <= w.now
    ensures var m := Reserve(s, None, true, at, ttl);
            Possible(w, m) && Made(w, m) == w.(cells := w.cells[s := Fresh(None, at, ttl)])
  {
  }

  lemma StuckIsReachable()
    ensures Reachable(Alone(Stuck()))
  {
    hide Reachable, Enabled, Apply, Alone, Stuck, Metered, Recovering, Unretained, Unanswered, Incognito, Started;
    StartedAloneIsReachable();
    StartIsUnanswered();
    AloneReaches(Started(Incognito(), SOURCED), Activate(0, true));
    AloneReaches(Unanswered(), Retain("", true, 1));
    OwnerEnds();
    AloneReaches(Unretained(), BeginEnd(2, ""));
    AloneReaches(Apply(Unretained(), 0, BeginEnd(2, "")), Vanish(2));
    StopIsConfirmed();
    AloneReaches(Recovering(), Stop(1, Confirmed(None)));
    AloneReaches(Apply(Recovering(), 0, Stop(1, Confirmed(None))), Meter(1, NO_USAGE));
    RecoveryEnds();
    AloneReaches(Metered(), Finalize(1, "", 0, 0));
  }

  /** A recovery that could not retain the runtime does not know that its source is already stored: it
      queues a lookup no claim will ever take, and no delivery. The recording stays pending with nobody
      left to act on it. */
  lemma ForgottenSourceStrandsARecording()
    ensures Reachable(Alone(Stuck()))
    ensures var c := Stuck();
            && c.row.session.status.Failed? && c.row.recording.status.Pending?
            && c.row.session.url == Some(9) && c.row.deliver.None? && !HasWayForward(c.row)
            && c.creator.Done? && c.closers == map[] && c.lookups == map[]
  {
    StuckIsReachable();
    hide Reachable;
  }
}
