/** How one action may change a session's rows, its usage and its browser. */
module LifecycleMoves {
  import opened Wrappers
  import opened Numbers
  import opened Rows
  import opened RowLaws
  import opened UsageRows
  import opened Lifecycle
  import opened LifecycleLaws

  /** What never runs backwards: the rows, time and traffic, a finished session's usage, the set of
      drawn leases and the record of provider lookups. */
  ghost predicate Advances(c: Cell, d: Cell) {
    && Up(c.row, d.row) && UsageUp(c.usage, d.usage)
    && (!IsLive(c.row.session.status) ==> d.usage == c.usage)
    && c.leases <= d.leases && c.queried <= d.queried
    && (Stopped(c) ==> Stopped(d))
  }

  lemma AdvancesReflexive(c: Cell)
    ensures Advances(c, c)
  {
  }

  lemma AdvancesTransitive(c: Cell, d: Cell, e: Cell)
    requires Advances(c, d) && Advances(d, e)
    ensures Advances(c, e)
  {
    UpTransitive(c.row, d.row, e.row);
    UsageUpTransitive(c.usage, d.usage, e.usage);
  }

  lemma CreatorAdvances(c: Cell, now: Time, a: Action)
    requires CellOk(c, now) && Enabled(c, now, a) && CreatorAction(a)
    ensures Advances(c, Apply(c, now, a))
  {
    hide CellOk, Readable, RowOk, Apply;
    CreatorIs(c, now);
    var d := CreatorStep(c, a);
    assert Apply(c, now, a) == d by { CreatorApplies(c, now, a); }
    match a
    case Activate(at, _) => ActivationKeeps(c.row, c.creator.p, at); RowAdvances(c, d);
    case FallBack => ActivationKeeps(c.row, c.creator.p, now); RowAdvances(c, d);
    case FailStart(reason, at) => FailedStartKeeps(c.row, reason, at); RowAdvances(c, d);
    case Retain(reason, _, _) => RetentionKeeps(c.row, c.creator.p, reason); RowAdvances(c, d);
    case _ =>
  }

  lemma CreatorApplies(c: Cell, now: Time, a: Action)
    requires Enabled(c, now, a) && CreatorAction(a)
    ensures Apply(c, now, a) == CreatorStep(c, a)
  {
  }

  lemma RowAdvances(c: Cell, d: Cell)
    requires Up(c.row, d.row) && d.usage == c.usage && d.leases == c.leases
    requires d.queried == c.queried && d.browser == c.browser
    ensures Advances(c, d)
  {
  }

  lemma FinalizeAdvances(c: Cell, now: Time, w: Id, reason: string, durationMs: nat, at: Time)
    requires w in c.closers
    requires CellOk(c, now) && Enabled(c, now, Finalize(w, reason, durationMs, at))
    ensures Advances(c, Apply(c, now, Finalize(w, reason, durationMs, at)))
  {
    hide CellOk, Readable, RowOk;
    CreatorIs(c, now);
    CloserIs(c, now, w);
    var k := c.closers[w];
    match k.kind
    case End => EndFinalizedKeeps(c.row, at);
    case Reap(lease, _) => ExpiryFinalizedKeeps(c.row, lease.id, at);
    case Recover => FailedAfterStopKeeps(c.row, k.browser, reason, durationMs, k.hasSource, at);
  }

  lemma RegisterAdvances(c: Cell, now: Time, w: Id, durationMs: nat, at: Time)
    requires CellOk(c, now) && Enabled(c, now, Register(w, durationMs, at))
    ensures Advances(c, Apply(c, now, Register(w, durationMs, at)))
  {
    hide CellOk, Readable, RowOk;
    CreatorIs(c, now);
    MarkKeeps(c.row, durationMs, 0, at);
    QueueKeeps(c.row, durationMs, at);
    RowAdvances(c, Apply(c, now, Register(w, durationMs, at)));
  }

  lemma CloserAdvancesRow(c: Cell, now: Time, a: Action)
    requires CellOk(c, now) && Enabled(c, now, a)
    requires a.BeginEnd? || a.ReadRuntime? || a.StartReaping? || a.Validate? || a.Stop? || a.Snapshot? || a.Learn?
          || a.Release? || a.Break? || a.Vanish?
    ensures Advances(c, Apply(c, now, a))
  {
    hide CellOk, Readable, RowOk, EndBegun, Remembered, Released, EndingRuntime, LeaseCurrent, Up;
    hide CreatorStep, LookupStep, SideStep, FinalizeStep, MeterStep, RegisterStep;
    CreatorIs(c, now);
    UpReflexive(c.row);
    var d := Apply(c, now, a);
    match a
    case BeginEnd(_, note) => EndBegunKeeps(c.row, note); RowAdvances(c, d);
    case Learn(w) => RememberKeeps(c.row, c.closers[w].stage.url); RowAdvances(c, d);
    case Release(w) => ReleaseKeeps(c.row, c.closers[w].kind.lease.id); RowAdvances(c, d);
    case _ =>
  }

  lemma MeterAdvances(c: Cell, now: Time, w: Id, sample: Sample)
    requires CellOk(c, now) && Enabled(c, now, Meter(w, sample))
    ensures Advances(c, Apply(c, now, Meter(w, sample)))
  {
    hide CellOk, Readable, RowOk, UsageRecorded;
    UsageIs(c, now);
    if UsageRecorded(c.row.session, c.usage, sample, true).Ok? {
      SampleKeeps(c.row.session, c.usage, sample, true);
    }
  }

  lemma SideAdvances(c: Cell, now: Time, a: Action)
    requires CellOk(c, now) && Enabled(c, now, a)
    requires a.BrowserAppears? || a.BrowserStops? || a.SampleActive? || a.Hide? || a.ClaimLookup?
    ensures Advances(c, Apply(c, now, a))
    ensures a.SampleActive? ==>
              !CostFell(Apply(c, now, a).usage.browserCost, c.usage.browserCost)
              && !CostFell(Apply(c, now, a).usage.proxyCost, c.usage.proxyCost)
  {
    hide CellOk, Readable, RowOk, UsageRecorded, CostFell, CreatorStep, CloserStep, LookupStep;
    CreatorIs(c, now);
    UsageIs(c, now);
    match a
    case SampleActive(sample) =>
      SameCost(c.usage.browserCost);
      SameCost(c.usage.proxyCost);
      if UsageRecorded(c.row.session, c.usage, sample, false).Ok? {
        SampleKeeps(c.row.session, c.usage, sample, false);
      }
    case Hide(at) => HidingKeeps(c.row, at);
    case ClaimLookup(at, leaseUntil) => LookupClaimKeeps(c.row, at, leaseUntil);
    case _ =>
  }

  lemma CompletionAdvances(c: Cell, now: Time, n: nat, at: Time, replyLost: bool)
    requires CellOk(c, now) && Enabled(c, now, Complete(n, at, replyLost))
    ensures Advances(c, Apply(c, now, Complete(n, at, replyLost)))
  {
    hide CellOk, Readable, RowOk, LookupCompleted, Up, LookupOk, CreatorStep, CloserStep, SideStep;
    LookupFacts(c, now, n);
    UpReflexive(c.row);
    var l := c.lookups[n];
    LookupCompletedKeeps(c.row, l.provider, n, l.step.url, at);
    RowAdvances(c, Apply(c, now, Complete(n, at, replyLost)));
  }

  lemma LookupFacts(c: Cell, now: Time, n: nat)
    requires CellOk(c, now) && n in c.lookups
    ensures RowOk(c.row) && c.row.session.provider == Some(c.lookups[n].provider) && !IsLive(c.row.session.status)
  {
    hide CellOk, Readable, RowOk;
    CreatorIs(c, now);
    LookupIs(c, now, n);
  }

  lemma LookupAdvances(c: Cell, now: Time, a: Action)
    requires CellOk(c, now) && Enabled(c, now, a) && LookupAction(a) && !a.Complete?
    ensures Advances(c, Apply(c, now, a))
  {
    hide CellOk, Readable, RowOk, LookupFailed, Rescheduled, Up, LookupOk, CreatorStep, CloserStep, SideStep;
    var n, d := a.attempt, Apply(c, now, a);
    LookupFacts(c, now, n);
    UpReflexive(c.row);
    match a
    case GiveUp(_, at) => LookupFailedKeeps(c.row, c.lookups[n].provider, n, at); RowAdvances(c, d);
    case Defer(_, nextAt) => RescheduleKeeps(c.row, n, nextAt); RowAdvances(c, d);
    case _ =>
  }

  lemma ActionAdvances(c: Cell, now: Time, a: Action)
    requires CellOk(c, now) && Enabled(c, now, a)
    ensures Advances(c, Apply(c, now, a))
  {
    hide CellOk, Apply, Advances;
    if CreatorAction(a) {
      CreatorAdvances(c, now, a);
    } else if a.Complete? {
      CompletionAdvances(c, now, a.attempt, a.at, a.replyLost);
    } else if LookupAction(a) {
      LookupAdvances(c, now, a);
    } else if a.BrowserAppears? || a.BrowserStops? || a.SampleActive? || a.Hide? || a.ClaimLookup? {
      SideAdvances(c, now, a);
    } else if a.Meter? {
      MeterAdvances(c, now, a.w, a.sample);
    } else if a.Register? {
      RegisterAdvances(c, now, a.w, a.durationMs, a.at);
    } else if a.Finalize? {
      FinalizeAdvances(c, now, a.w, a.reason, a.durationMs, a.at);
    } else {
      CloserAdvancesRow(c, now, a);
    }
  }


  lemma ClaimAdvances(c: Cell, now: Time, at: Time, claim: Option<(Id, Lease)>)
    requires CellOk(c, now)
    ensures Advances(c, ApplyClaim(c, at, claim))
  {
    hide CellOk, Readable, RowOk;
    CreatorIs(c, now);
    ClaimKeeps(c.row, at, if claim.Some? then Some(claim.value.1) else None);
  }

  // ------------------------------------------------------------ freeing a slot

  predicate Frees(c: Cell, d: Cell) {
    IsLive(c.row.session.status) && !IsLive(d.row.session.status)
  }

  /** A closer frees the slot only at its last step, after the very browser recorded has stopped. */
  predicate StopConfirmed(c: Cell, d: Cell) {
    d.row.session.provider.Some? && HasBrowser(c, d.row.session.provider.value) && Stopped(c)
  }

  lemma FinalizeFreesStopped(c: Cell, now: Time, w: Id, reason: string, durationMs: nat, at: Time)
    requires w in c.closers
    requires CellOk(c, now) && Enabled(c, now, Finalize(w, reason, durationMs, at))
    requires Frees(c, Apply(c, now, Finalize(w, reason, durationMs, at)))
    ensures StopConfirmed(c, Apply(c, now, Finalize(w, reason, durationMs, at)))
  {
    hide CellOk, Readable, RowOk;
    CloserIs(c, now, w);
    CreatorIs(c, now);
  }

  lemma OthersFreeNothing(c: Cell, now: Time, a: Action)
    requires CellOk(c, now) && Enabled(c, now, a) && !a.Finalize? && !a.FailStart?
    ensures !Frees(c, Apply(c, now, a))
  {
    hide CellOk, UsageRecorded, EndingRuntime, LeaseCurrent;
  }

  /** A session leaves the live statuses only by a finalization after its own browser's confirmed
      stop, or by a refused start, which created no browser. */
  lemma OnlyAConfirmedStopFrees(c: Cell, now: Time, a: Action)
    requires CellOk(c, now) && Enabled(c, now, a)
    requires Frees(c, Apply(c, now, a))
    ensures (a.Finalize? && StopConfirmed(c, Apply(c, now, a))) || (a.FailStart? && c.browser.None?)
  {
    hide CellOk, Apply, Frees, StopConfirmed;
    if a.Finalize? {
      FinalizeFreesStopped(c, now, a.w, a.reason, a.durationMs, a.at);
    } else if a.FailStart? {
      CreatorIs(c, now);
    } else {
      OthersFreeNothing(c, now, a);
    }
  }

  /** A reaper's claim ends only sessions whose start never completed in time. */
  lemma OnlyLateStartsExpireAtOnce(c: Cell, at: Time, claim: Option<(Id, Lease)>)
    requires Frees(c, ApplyClaim(c, at, claim))
    ensures c.row.session.status.Starting? && c.row.session.expiresAt <= at
  {
  }

  // -------------------------------------------------------------------- costs

  lemma CreatorLeavesUsage(c: Cell, now: Time, a: Action)
    requires Enabled(c, now, a) && CreatorAction(a)
    ensures Apply(c, now, a).usage == c.usage
  {
    hide UsageRecorded, Activated, LateActivated, Retained, FailedStart;
  }

  lemma CloserLeavesUsage(c: Cell, now: Time, a: Action)
    requires Enabled(c, now, a) && CloserAction(a) && !a.Meter?
    ensures Apply(c, now, a).usage == c.usage
  {
    hide UsageRecorded, CreatorStep, FailedAfterStop, EndFinalized, ExpiryFinalized;
    hide MarkedPending, ResolutionQueued, Released, EndBegun, EndingRuntime, Remembered, LeaseCurrent;
  }

  lemma OthersLeaveUsage(c: Cell, now: Time, a: Action)
    requires Enabled(c, now, a) && !a.Meter? && !a.SampleActive?
    ensures Apply(c, now, a).usage == c.usage
  {
    hide UsageRecorded, CreatorStep, CloserStep, LookupCompleted, LookupFailed, Rescheduled, Hidden, LookupClaimed;
    if CreatorAction(a) { CreatorLeavesUsage(c, now, a); }
    else if CloserAction(a) { CloserLeavesUsage(c, now, a); }
  }

  /** Whatever happens, a stored cost falls only through a closer's terminal sample. */
  lemma OnlyTerminalSamplesRefund(c: Cell, now: Time, a: Action)
    requires CellOk(c, now) && Enabled(c, now, a)
    requires var d := Apply(c, now, a);
             CostFell(d.usage.browserCost, c.usage.browserCost) || CostFell(d.usage.proxyCost, c.usage.proxyCost)
    ensures a.Meter? && !c.row.session.status.Active? && IsLive(c.row.session.status)
  {
    hide CellOk, Readable, RowOk, CostFell, UsageRecorded;
    SameCost(c.usage.browserCost);
    SameCost(c.usage.proxyCost);
    if a.SampleActive? {
      SideAdvances(c, now, a);
    } else if !a.Meter? {
      OthersLeaveUsage(c, now, a);
    } else {
      UsageIs(c, now);
      if UsageRecorded(c.row.session, c.usage, a.sample, true).Ok? {
        SampleKeeps(c.row.session, c.usage, a.sample, true);
      }
    }
  }

  // ------------------------------------------------------------------ lookups

  /** A lookup whose attempt is no longer the current one changes no stored row, whatever it does. */
  lemma StaleLookupChangesNothing(c: Cell, now: Time, a: Action)
    requires Enabled(c, now, a) && LookupAction(a) && !OwnsAttempt(c.row, a.attempt)
    ensures Apply(c, now, a).row == c.row
  {
    var l := c.lookups[a.attempt];
    if a.Complete? { StaleAttemptIsHarmless(c.row, l.provider, a.attempt, l.step.url, a.at, a.at); }
  }

  /** Each provider lookup belongs to one attempt and at most ten attempts make one. */
  lemma {:induction false} DistinctBelow(ns: seq<nat>, bound: nat)
    requires NoRepeats(ns) && forall n | n in ns :: 1 <= n <= bound
    ensures |ns| <= bound
  {
    SetOfDistinct(ns);
    var values := set i | 0 <= i < |ns| :: ns[i];
    forall n | n in values ensures 1 <= n <= bound {
      var i :| 0 <= i < |ns| && ns[i] == n;
      assert ns[i] in ns;
    }
    SizeBelow(values, bound);
  }

  lemma {:induction false} SetOfDistinct(ns: seq<nat>)
    requires NoRepeats(ns)
    ensures |set i | 0 <= i < |ns| :: ns[i]| == |ns|
  {
    if ns != [] {
      var init, last := ns[..|ns| - 1], ns[|ns| - 1];
      SetOfDistinct(init);
      assert (set i | 0 <= i < |ns| :: ns[i]) == (set i | 0 <= i < |init| :: init[i]) + {last};
    }
  }

  lemma {:induction false} SizeBelow(values: set<nat>, bound: nat)
    requires forall n | n in values :: 1 <= n <= bound
    ensures |values| <= bound
    decreases bound
  {
    if bound == 0 {
      assert values == {};
    } else {
      SizeBelow(values - {bound}, bound - 1);
    }
  }

  // ---------------------------------------------------------- stuck recordings

  /** What a closer can see before its step: this step leaves the recording stuck. A recovery that does not
      know the stored source, an end or an expiry whose lookup another closer has made useless, or a source
      learned after the session was finished. */
  predicate GetsStuck(c: Cell, a: Action) {
    match a
    case Learn(_) =>
      && !IsLive(c.row.session.status) && c.row.recording.status.Pending?
      && c.row.session.url.None? && c.row.deliver.None?
    case Finalize(w, _, durationMs, at) =>
      && w in c.closers && IsLive(c.row.session.status) && c.row.session.url.Some? && c.row.deliver.None?
      && (match c.closers[w].kind
          case End => c.row.session.status.Ending? && c.row.recording.status.Pending?
          case Reap(lease, _) =>
            && c.row.session.status.Ending? && c.row.session.expiresAt <= at && HoldsLease(c.row.session, lease.id)
            && c.row.recording.status.Pending?
          case Recover => !c.closers[w].hasSource && durationMs <= MAX_I64 && Undelivered(c.row.recording.status))
    case _ => false
  }

  predicate NewlyStuck(c: Cell, d: Cell) {
    !StuckRow(c.row) && StuckRow(d.row)
  }

  lemma FinalizeSticksExactly(c: Cell, now: Time, w: Id, reason: string, durationMs: nat, at: Time)
    requires w in c.closers
    requires CellOk(c, now) && Enabled(c, now, Finalize(w, reason, durationMs, at))
    ensures var a := Finalize(w, reason, durationMs, at); NewlyStuck(c, Apply(c, now, a)) <==> GetsStuck(c, a)
  {
    hide CellOk, Readable, NotOrphaned;
    CloserIs(c, now, w);
    CreatorIs(c, now);
  }

  lemma CreatorSticksNothing(c: Cell, now: Time, a: Action)
    requires CellOk(c, now) && Enabled(c, now, a) && CreatorAction(a)
    ensures !NewlyStuck(c, Apply(c, now, a))
  {
    hide CellOk, Readable, NotOrphaned;
    CreatorIs(c, now);
  }

  lemma StopLeavesRow(c: Cell, now: Time, a: Action)
    requires Enabled(c, now, a) && a.Stop?
    ensures Apply(c, now, a).row == c.row
  {
    hide CreatorStep, LookupStep, SideStep, FinalizeStep, MeterStep, RegisterStep, ReadStep, ReapStep;
  }

  lemma CloserSticksExactly(c: Cell, now: Time, a: Action)
    requires CellOk(c, now) && Enabled(c, now, a) && CloserAction(a) && !a.Finalize?
    ensures NewlyStuck(c, Apply(c, now, a)) <==> GetsStuck(c, a)
  {
    hide CellOk, Readable, RowOk, UsageRecorded, EndingRuntime, LeaseCurrent;
    hide CreatorStep, LookupStep, SideStep, FinalizeStep, StopStep, HasBrowser;
    if a.Stop? { StopLeavesRow(c, now, a); }
  }

  lemma LookupSticksNothing(c: Cell, now: Time, a: Action)
    requires Enabled(c, now, a) && LookupAction(a)
    ensures !NewlyStuck(c, Apply(c, now, a))
  {
    hide CreatorStep, CloserStep, SideStep;
  }

  lemma SideSticksNothing(c: Cell, now: Time, a: Action)
    requires Enabled(c, now, a) && !CreatorAction(a) && !CloserAction(a) && !LookupAction(a)
    ensures !NewlyStuck(c, Apply(c, now, a))
  {
    hide CreatorStep, CloserStep, LookupStep, UsageRecorded;
  }

  /** Exactly which actions make a recording stuck, told from the state before them. */
  lemma ActionSticksExactly(c: Cell, now: Time, a: Action)
    requires CellOk(c, now) && Enabled(c, now, a)
    ensures NewlyStuck(c, Apply(c, now, a)) <==> GetsStuck(c, a)
  {
    hide CellOk, Apply, NewlyStuck;
    if a.Finalize? {
      FinalizeSticksExactly(c, now, a.w, a.reason, a.durationMs, a.at);
    } else if CreatorAction(a) {
      CreatorSticksNothing(c, now, a);
    } else if CloserAction(a) {
      CloserSticksExactly(c, now, a);
    } else if LookupAction(a) {
      LookupSticksNothing(c, now, a);
    } else {
      SideSticksNothing(c, now, a);
    }
  }

  lemma ClaimSticksNothing(c: Cell, now: Time, at: Time, claim: Option<(Id, Lease)>)
    requires CellOk(c, now)
    ensures !NewlyStuck(c, ApplyClaim(c, at, claim))
  {
    hide CellOk, Readable, NotOrphaned;
    CreatorIs(c, now);
  }

  // -------------------------------------------------------------------- leases

  /** A reaper without the session's lease changes no session column by releasing or finalizing. */
  lemma OnlyTheHolderChangesTheSession(c: Cell, now: Time, a: Action)
    requires Enabled(c, now, a) && (a.Release? || a.Finalize?) && a.w in c.closers && c.closers[a.w].kind.Reap?
    ensures !HoldsLease(c.row.session, c.closers[a.w].kind.lease.id) ==> Apply(c, now, a).row.session == c.row.session
  {
    var lease := c.closers[a.w].kind.lease.id;
    if !HoldsLease(c.row.session, lease) {
      OnlyTheLeaseHolderActs(c.row, lease, if a.Finalize? then a.at else now);
    }
  }

  // ------------------------------------------------------------- stop attempts

  /** A reaper's worker between its start and the end of its attempt budget. */
  predicate Attempting(c: Cell, now: Time, w: Id) {
    w in c.closers && c.closers[w].kind.Reap? && Awake(c.closers[w], now)
  }

  /** A running attempt ends before its lease does, so the lease is still the session's own. */
  lemma AttemptHoldsLease(c: Cell, now: Time, w: Id)
    requires CellOk(c, now) && Attempting(c, now, w)
    ensures now < c.closers[w].kind.lease.until && c.row.session.lease == Some(c.closers[w].kind.lease)
  {
    hide CellOk;
    CloserIs(c, now, w);
  }

  /** Hence two attempts never run at once, in one process or in several. */
  lemma AttemptsNeverOverlap(c: Cell, now: Time, v: Id, w: Id)
    requires CellOk(c, now) && Attempting(c, now, v) && Attempting(c, now, w)
    ensures v == w
  {
    hide CellOk;
    AttemptHoldsLease(c, now, v);
    AttemptHoldsLease(c, now, w);
    if v != w { ClosersAreApart(c, now, v, w); }
  }

  lemma ClosersAreApart(c: Cell, now: Time, v: Id, w: Id)
    requires CellOk(c, now) && v in c.closers && w in c.closers && v != w
    ensures Apart(c.closers[v], c.closers[w])
  {
  }
}
