/** A due session that is never served (crates/backend/src/server.rs). A failed stop releases its lease at
    once, and every claim starts again from the soonest expiry; so eight sessions whose stops keep failing
    are claimed in every round, and a ninth waits for ever. */
module Starvation {
  import opened Wrappers
  import opened Rows
  import opened Slots
  import opened Lifecycle
  import opened World
  import opened Stranding

  function RuntimeFor(s: Id): Runtime {
    Runtime(s, 0, 0, None)
  }

  /** Session `s`, without a profile, activated at time 0 to expire at time 10. */
  function ActiveCell(s: Id): Cell {
    var c := Started(Fresh(None, 0, 10), RuntimeFor(s));
    c.(row := c.row.(session := WithRuntime(c.row.session, Active, RuntimeFor(s))), creator := Done)
  }

  function Crowd(n: nat): World {
    World(0, map[], map s: nat | s < n :: ActiveCell(s))
  }

  lemma ActivateStep(w: World, s: Id)
    requires w.now == 0 && s in w.cells && w.cells[s] == Started(Fresh(None, 0, 10), RuntimeFor(s))
    ensures var m := On(s, Activate(0, false));
            Possible(w, m) && Made(w, m) == w.(cells := w.cells[s := ActiveCell(s)])
  {
  }

  lemma {:induction false} CrowdIsReachable(n: nat)
    ensures Reachable(Crowd(n))
  {
    hide Possible, Made, Reachable, Started, ActiveCell;
    if n == 0 {
      assert Crowd(0) == Empty(0);
      EmptyIsReachable();
    } else {
      var s := n - 1;
      var w0 := Crowd(s);
      CrowdIsReachable(s);
      IncognitoStep(w0, s, 0, 10);
      ReachesNext(w0, Reserve(s, None, true, 0, 10));
      var w1 := w0.(cells := w0.cells[s := Fresh(None, 0, 10)]);
      StartStep(w1, s, RuntimeFor(s));
      ReachesNext(w1, On(s, StartSucceeds(s, Some(RuntimeFor(s)), false, 0)));
      var w2 := w1.(cells := w1.cells[s := Started(Fresh(None, 0, 10), RuntimeFor(s))]);
      ActivateStep(w2, s);
      ReachesNext(w2, On(s, Activate(0, false)));
      assert w2.(cells := w2.cells[s := ActiveCell(s)]) == Crowd(n);
    }
  }

  // ------------------------------------------------------------ failing rounds

  const LATE: Time := 20

  function Below(n: nat): (s: set<Id>)
    ensures |s| == n && forall i: Id :: i in s <==> i < n
  {
    if n == 0 then {} else Below(n - 1) + {n - 1}
  }

  /** Session `s` after `k` rounds: ending, unleased, its stop tried in each of them if `s` is of the batch. */
  function Tried(s: Id, k: nat): Cell {
    var c := ActiveCell(s);
    c.(row := if k == 0 then c.row else TtlReached(c.row, LATE), leases := if s < STOP_BATCH then Below(k) else {})
  }

  function StuckAfter(k: nat): World {
    World(LATE, map[], map s: nat | s <= STOP_BATCH :: Tried(s, k))
  }

  function RoundLease(k: nat): Lease {
    Lease(k, LATE + STOP_LEASE)
  }

  /** The same session while its claim waits for its worker. */
  function Leased(s: Id, k: nat): Cell {
    var c := Tried(s, k + 1);
    c.(row := c.row.(session := c.row.session.(lease := Some(RoundLease(k)))),
       closers := map[0 := Closer(Reap(RoundLease(k), None), s, Waiting, false)])
  }

  /** In round `k` the stops of the sessions below `done` have failed. */
  function Midway(k: nat, done: nat): World {
    World(LATE, map[], map s: nat | s <= STOP_BATCH ::
            if done <= s < STOP_BATCH then Leased(s, k) else Tried(s, k + 1))
  }

  lemma ClaimOne(s: Id, k: nat)
    requires s < STOP_BATCH
    ensures ClaimEnabled(Tried(s, k), LATE, LATE, Some((0, RoundLease(k))))
    ensures ApplyClaim(Tried(s, k), LATE, Some((0, RoundLease(k)))) == Leased(s, k)
  {
    assert Below(k) + {k} == Below(k + 1);
  }

  lemma ClaimNot(s: Id, k: nat)
    requires s == STOP_BATCH
    ensures ClaimEnabled(Tried(s, k), LATE, LATE, None)
    ensures ApplyClaim(Tried(s, k), LATE, None) == Tried(s, k + 1)
  {
  }

  lemma TriedIsDue(s: Id, k: nat)
    ensures Reapable(TtlReached(Tried(s, k).row, LATE), LATE) && Tried(s, k).row.session.expiresAt == 10
  {
  }

  /** Nine sessions due with the same expiry. */
  predicate NineDue(t: Tables) {
    && t.rows.Keys == Below(STOP_BATCH) + {STOP_BATCH}
    && forall s | s in t.rows :: Due(t, s, LATE) && t.rows[s].session.expiresAt == 10
  }

  lemma NineAreDue(t: Tables)
    requires NineDue(t)
    ensures DueSet(t, LATE) == Below(STOP_BATCH) + {STOP_BATCH} && |DueSet(t, LATE)| == STOP_BATCH + 1
  {
    hide Due, Below;
    assert DueSet(t, LATE) == Below(STOP_BATCH) + {STOP_BATCH};
  }

  lemma FirstEightAreChosen(t: Tables)
    requires NineDue(t)
    ensures FirstDue(t, LATE, Below(STOP_BATCH), STOP_BATCH)
  {
    hide Due, DueSet;
    NineAreDue(t);
  }

  lemma NinthIsNotChosen(t: Tables, chosen: set<Id>)
    requires NineDue(t) && FirstDue(t, LATE, chosen, STOP_BATCH)
    ensures STOP_BATCH in DueSet(t, LATE) - chosen
  {
    hide Due, DueSet, Below;
    NineAreDue(t);
    SplitSize(DueSet(t, LATE), chosen);
    var d :| d in DueSet(t, LATE) - chosen;
    assert STOP_BATCH in chosen ==> Sooner(t, STOP_BATCH, d);
  }

  lemma StuckHasNineDue(k: nat)
    ensures NineDue(TablesOf(StuckAfter(k)))
  {
    hide Tried, Reapable, TtlReached;
    var t := TablesOf(StuckAfter(k));
    forall s | s in t.rows ensures Due(t, s, LATE) && t.rows[s].session.expiresAt == 10 { TriedIsDue(s, k); }
  }

  lemma ClaimEach(k: nat, s: Id)
    requires s <= STOP_BATCH
    ensures ClaimEnabled(Tried(s, k), LATE, LATE, PartOf(Below(STOP_BATCH), s, 0, RoundLease(k)))
    ensures ApplyClaim(Tried(s, k), LATE, PartOf(Below(STOP_BATCH), s, 0, RoundLease(k)))
         == if s < STOP_BATCH then Leased(s, k) else Tried(s, k + 1)
  {
    hide Tried, Leased, ApplyClaim, ClaimEnabled;
    if s < STOP_BATCH { ClaimOne(s, k); } else { ClaimNot(s, k); }
  }

  lemma ClaimIsPossible(k: nat)
    ensures Possible(StuckAfter(k), Claim(LATE, Below(STOP_BATCH), RoundLease(k), 0))
  {
    hide Tried, FirstDue, ClaimEnabled, TablesOf, NineDue, PartOf;
    StuckHasNineDue(k);
    FirstEightAreChosen(TablesOf(StuckAfter(k)));
    forall s | s in StuckAfter(k).cells
      ensures ClaimEnabled(StuckAfter(k).cells[s], LATE, LATE, PartOf(Below(STOP_BATCH), s, 0, RoundLease(k)))
    {
      ClaimEach(k, s);
    }
  }

  lemma ClaimLeadsMidway(k: nat)
    requires Possible(StuckAfter(k), Claim(LATE, Below(STOP_BATCH), RoundLease(k), 0))
    ensures Made(StuckAfter(k), Claim(LATE, Below(STOP_BATCH), RoundLease(k), 0)) == Midway(k, 0)
  {
    hide Possible, Tried, Leased, ApplyClaim, PartOf, Below, RoundLease;
    var w := StuckAfter(k);
    var made := Made(w, Claim(LATE, Below(STOP_BATCH), RoundLease(k), 0));
    forall s | s in w.cells ensures made.cells[s] == Midway(k, 0).cells[s] { ClaimEach(k, s); }
    assert made.cells == Midway(k, 0).cells;
  }

  // ----------------------------------------------------------- one failed stop

  function Stage1(s: Id, k: nat): Cell {
    Leased(s, k).(closers := map[0 := Closer(Reap(RoundLease(k), Some(LATE)), s, Validating, false)])
  }

  function Stage2(s: Id, k: nat): Cell {
    Leased(s, k).(closers := map[0 := Closer(Reap(RoundLease(k), Some(LATE)), s, Stopping, false)])
  }

  function Stage3(s: Id, k: nat): Cell {
    Leased(s, k).(closers := map[0 := Closer(Reap(RoundLease(k), Some(LATE)), s, Releasing, false)])
  }

  lemma AttemptBegins(s: Id, k: nat)
    ensures Enabled(Leased(s, k), LATE, StartReaping(0)) && Apply(Leased(s, k), LATE, StartReaping(0)) == Stage1(s, k)
    ensures Enabled(Stage1(s, k), LATE, Validate(0, LATE))
    ensures Apply(Stage1(s, k), LATE, Validate(0, LATE)) == Stage2(s, k)
  {
  }

  lemma AttemptFails(s: Id, k: nat)
    requires s < STOP_BATCH
    ensures Enabled(Stage2(s, k), LATE, Stop(0, Declined))
    ensures Apply(Stage2(s, k), LATE, Stop(0, Declined)) == Stage3(s, k)
    ensures Enabled(Stage3(s, k), LATE, Release(0)) && Apply(Stage3(s, k), LATE, Release(0)) == Tried(s, k + 1)
  {
  }

  lemma FailedStopReaches(k: nat, s: nat)
    requires s < STOP_BATCH && Reachable(Midway(k, s))
    ensures Reachable(Midway(k, s + 1))
  {
    hide Reachable, Enabled, Apply, Tried, Leased, Stage1, Stage2, Stage3;
    AttemptBegins(s, k);
    AttemptFails(s, k);
    var w := Midway(k, s);
    OnReaches(w, s, StartReaping(0));
    var w1 := w.(cells := w.cells[s := Stage1(s, k)]);
    OnReaches(w1, s, Validate(0, LATE));
    var w2 := w1.(cells := w1.cells[s := Stage2(s, k)]);
    OnReaches(w2, s, Stop(0, Declined));
    var w3 := w2.(cells := w2.cells[s := Stage3(s, k)]);
    OnReaches(w3, s, Release(0));
    assert w3.(cells := w3.cells[s := Tried(s, k + 1)]) == Midway(k, s + 1);
  }

  lemma {:induction false} RoundReaches(k: nat, done: nat)
    requires Reachable(Midway(k, 0)) && done <= STOP_BATCH
    ensures Reachable(Midway(k, done))
  {
    hide Reachable, Midway;
    if done > 0 {
      RoundReaches(k, done - 1);
      FailedStopReaches(k, done - 1);
    }
  }

  /** A whole round: the batch is claimed and every one of its stops fails. */
  lemma FailingRoundReaches(k: nat)
    requires Reachable(StuckAfter(k))
    ensures Reachable(StuckAfter(k + 1))
  {
    hide Reachable, Possible, Made, Tried, Leased, Below;
    ClaimIsPossible(k);
    ClaimLeadsMidway(k);
    ReachesNext(StuckAfter(k), Claim(LATE, Below(STOP_BATCH), RoundLease(k), 0));
    RoundReaches(k, STOP_BATCH);
    assert Midway(k, STOP_BATCH).cells == StuckAfter(k + 1).cells;
  }

  lemma CrowdIsLate()
    ensures Reachable(StuckAfter(0))
  {
    hide Reachable, Possible, Made, Tried, Crowd;
    CrowdIsReachable(STOP_BATCH + 1);
    assert Crowd(STOP_BATCH + 1).now == 0 by { NothingTried(); }
    TickStep(Crowd(STOP_BATCH + 1), LATE);
    ReachesNext(Crowd(STOP_BATCH + 1), Tick(LATE));
    NothingTried();
  }

  lemma {:induction false} StuckAfterIsReachable(k: nat)
    ensures Reachable(StuckAfter(k))
  {
    hide Reachable, StuckAfter;
    if k == 0 {
      CrowdIsLate();
    } else {
      StuckAfterIsReachable(k - 1);
      FailingRoundReaches(k - 1);
    }
  }

  lemma NothingTried()
    ensures Crowd(STOP_BATCH + 1).now == 0 && Crowd(STOP_BATCH + 1).(now := LATE) == StuckAfter(0)
  {
    assert Below(0) == {};
    forall s: nat ensures Tried(s, 0) == ActiveCell(s) {}
  }

  /** After any number of rounds the ninth session is due, and still no claim can choose it. */
  lemma NinthIsNeverServed(k: nat, chosen: set<Id>)
    requires FirstDue(TablesOf(StuckAfter(k)), LATE, chosen, STOP_BATCH)
    ensures Reachable(StuckAfter(k))
    ensures STOP_BATCH in DueSet(TablesOf(StuckAfter(k)), LATE) - chosen
  {
    hide Reachable, StuckAfter, FirstDue, NineDue, DueSet;
    StuckAfterIsReachable(k);
    StuckHasNineDue(k);
    NinthIsNotChosen(TablesOf(StuckAfter(k)), chosen);
  }

  /** These are rounds as the queue law has them: all stops of the batch failed, so the queue ahead of the
      ninth session stood still. */
  lemma StuckRoundEnds(k: nat)
    ensures RoundEnds(TablesOf(StuckAfter(k)), LATE, Below(STOP_BATCH), RoundLease(k), Below(STOP_BATCH),
                      TablesOf(StuckAfter(k + 1)))
  {
    hide Tried;
    var t, t' := TablesOf(StuckAfter(k)), TablesOf(StuckAfter(k + 1));
    forall s | s in t.rows
      ensures t'.rows[s] == if s < STOP_BATCH then Released(Claimed(t.rows[s], LATE, Some(RoundLease(k))), k)
                            else Claimed(t.rows[s], LATE, None)
      ensures t'.rows[s].session.expiresAt == t.rows[s].session.expiresAt
    {
      TriedAgain(s, k);
      TriedIsDue(s, k);
      TriedIsDue(s, k + 1);
    }
  }

  lemma TriedAgain(s: Id, k: nat)
    ensures Tried(s, k + 1).row == Claimed(Tried(s, k).row, LATE, None)
    ensures Tried(s, k + 1).row == Released(Claimed(Tried(s, k).row, LATE, Some(RoundLease(k))), k)
  {
  }
}
