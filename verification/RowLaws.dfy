/** What every transaction on a session's rows keeps, and the order in which rows may change. */
module RowLaws {
  import opened Wrappers
  import opened Rows

  // ------------------------------------------------------------ consistency

  /** A starting session has no runtime; an active or ending one has all of it; only a finished
      session has an end time. */
  predicate RuntimeOk(s: Session) {
    && (s.status.Starting? ==> s.provider.None? && s.cdp.None? && s.live.None?)
    && (s.status.Active? || s.status.Ending? || s.status.Ended? ==> RuntimeOf(s).Ok?)
    && (s.endedAt.None? <==> IsLive(s.status))
    && (s.lease.Some? ==> s.provider.Some? && !s.status.Active?)
  }

  predicate Open(e: Option<Event>) {
    e.Some? && e.value.doneAt.None?
  }

  /** No pending recording is orphaned: its source is known, or a lookup for it is still open. */
  predicate NotOrphaned(r: Row) {
    r.recording.status.Pending? ==> r.session.url.Some? || (Open(r.resolve) && r.session.provider.Some?)
  }

  /** A lookup exists only for a known browser, and closes without a source only once the recording
      is settled; a delivery closes only with the recording trashed. */
  predicate ResolveOk(r: Row) {
    && (r.resolve.Some? ==> r.session.provider.Some?)
    && (r.resolve.Some? && !Open(r.resolve) && r.session.url.None? ==> !Undelivered(r.recording.status))
    && (!Winding(r.session.status) ==> r.recording.status.Recording? && r.resolve.None? && r.deliver.None?)
    && (r.deliver.Some? && !Open(r.deliver) ==> r.recording.status.Trashed?)
  }

  predicate RowOk(r: Row) {
    RuntimeOk(r.session) && NotOrphaned(r) && ResolveOk(r)
  }

  // ------------------------------------------------------------------- order

  function Rank(s: Status): nat {
    match s
    case Starting => 0
    case Active => 1
    case Ending => 2
    case _ => 3
  }

  predicate EventUp(a: Option<Event>, b: Option<Event>) {
    a.Some? ==>
      && b.Some? && a.value.attempts <= b.value.attempts
      && (a.value.doneAt.Some? ==> b.value.doneAt == a.value.doneAt)
  }

  predicate SessionUp(a: Session, b: Session) {
    && a.profile == b.profile && a.startedAt == b.startedAt && a.expiresAt == b.expiresAt
    && Rank(a.status) <= Rank(b.status)
    && (!IsLive(a.status) ==> b.status == a.status && b.endedAt == a.endedAt)
    && (a.provider.Some? ==> b.provider == a.provider)
    && (a.cdp.Some? ==> b.cdp == a.cdp) && (a.live.Some? ==> b.live == a.live)
    && (a.url.Some? ==> b.url.Some?)
  }

  /** `b` may follow `a`: statuses only move forward and stop at the first terminal one, the
      provider browser once set is never exchanged, a known source stays known, a recording never
      resumes, and events stay and count up. */
  predicate Up(a: Row, b: Row) {
    && SessionUp(a.session, b.session)
    && (!a.recording.status.Recording? ==> !b.recording.status.Recording?)
    && EventUp(a.resolve, b.resolve) && EventUp(a.deliver, b.deliver)
  }

  lemma UpReflexive(a: Row)
    ensures Up(a, a)
  {
  }

  lemma UpTransitive(a: Row, b: Row, c: Row)
    requires Up(a, b) && Up(b, c)
    ensures Up(a, c)
  {
  }

  // -------------------------------------------------------- each transaction

  lemma ReservedIsOk(profile: Option<Id>, at: Time, ttl: Time)
    ensures RowOk(Reserved(profile, at, ttl))
  {
  }

  lemma ActivationKeeps(r: Row, p: Runtime, at: Time)
    requires RowOk(r) && (r.session.status.Starting? ==> r.session.url.None?)
    ensures Activated(r, p, at).Some? ==> RowOk(Activated(r, p, at).value) && Up(r, Activated(r, p, at).value)
    ensures RowOk(LateActivated(r, p)) && Up(r, LateActivated(r, p))
  {
  }

  lemma RetentionKeeps(r: Row, p: Runtime, reason: string)
    requires RowOk(r)
    ensures var next := Retained(r, p, reason);
            next.Ok? ==> && RowOk(next.value) && Up(r, next.value)
                         && next.value.session.provider == Some(p.id) && next.value.session.status.Ending?
                         && (p.url.Some? ==> next.value.session.url.Some?)
  {
  }

  lemma FailedStartKeeps(r: Row, reason: string, at: Time)
    requires RowOk(r)
    ensures RowOk(FailedStart(r, reason, at)) && Up(r, FailedStart(r, reason, at))
    ensures !IsLive(FailedStart(r, reason, at).session.status)
  {
  }

  /** Safe for any caller that names a known source truthfully and owns the failed session. */
  lemma FailedAfterStopKeeps(r: Row, provider: Id, reason: string, durationMs: nat, hasSource: bool, at: Time)
    requires RowOk(r)
    requires hasSource ==> r.session.url.Some?
    requires r.session.status.Failed? ==> r.session.provider.Some?
    ensures var next := FailedAfterStop(r, provider, reason, durationMs, hasSource, at);
            next.Ok? ==> && RowOk(next.value) && Up(r, next.value)
                         && next.value.session.status.Failed? && next.value.session.provider == Some(provider)
  {
  }

  lemma EndBegunKeeps(r: Row, note: string)
    requires RowOk(r)
    ensures RowOk(EndBegun(r, note)) && Up(r, EndBegun(r, note))
  {
  }

  /** A retried end finds the browser the first attempt found, and keeps the first note. */
  lemma EndRetryFindsSameRuntime(r: Row, later: Row, note: string)
    requires RowOk(r) && RowOk(later) && Up(r, later)
    requires r.session.status.Ending? && later.session.status.Ending?
    ensures EndBegun(later, note) == later
    ensures EndingRuntime(r).Ok? && EndingRuntime(later).Ok?
    ensures var a, b := EndingRuntime(r).value, EndingRuntime(later).value;
            a.id == b.id && a.cdp == b.cdp && a.live == b.live && (a.url.Some? ==> b.url.Some?)
  {
  }

  lemma EndFinalizedKeeps(r: Row, at: Time)
    requires RowOk(r) && !r.recording.status.Recording?
    ensures EndFinalized(r, at).Ok? ==> RowOk(EndFinalized(r, at).value) && Up(r, EndFinalized(r, at).value)
  {
  }

  lemma ClaimKeeps(r: Row, at: Time, lease: Option<Lease>)
    requires RowOk(r)
    ensures RowOk(Claimed(r, at, lease)) && Up(r, Claimed(r, at, lease))
  {
  }

  lemma ExpiryFinalizedKeeps(r: Row, lease: Id, at: Time)
    requires RowOk(r) && !r.recording.status.Recording?
    ensures ExpiryFinalized(r, lease, at).Ok? ==>
              RowOk(ExpiryFinalized(r, lease, at).value) && Up(r, ExpiryFinalized(r, lease, at).value)
  {
  }

  lemma ReleaseKeeps(r: Row, lease: Id)
    requires RowOk(r)
    ensures RowOk(Released(r, lease)) && Up(r, Released(r, lease))
  {
  }

  lemma RememberKeeps(r: Row, url: Secret)
    requires RowOk(r)
    ensures RowOk(Remembered(r, url)) && Up(r, Remembered(r, url))
  {
  }

  lemma MarkKeeps(r: Row, durationMs: nat, sizeBytes: nat, at: Time)
    requires RowOk(r)
    ensures var next := MarkedPending(r, durationMs, sizeBytes, at);
            next.Ok? ==> RowOk(next.value) && Up(r, next.value) && next.value.recording.status.Pending?
  {
  }

  lemma QueueKeeps(r: Row, durationMs: nat, at: Time)
    requires RowOk(r)
    ensures var next := ResolutionQueued(r, durationMs, at);
            next.Ok? ==> RowOk(next.value) && Up(r, next.value) && next.value.recording.status.Pending?
  {
  }

  lemma LookupClaimKeeps(r: Row, at: Time, leaseUntil: Time)
    requires RowOk(r) && Resolvable(r, at)
    ensures RowOk(LookupClaimed(r, leaseUntil)) && Up(r, LookupClaimed(r, leaseUntil))
    ensures OwnsAttempt(LookupClaimed(r, leaseUntil), r.resolve.value.attempts + 1)
  {
  }

  lemma RescheduleKeeps(r: Row, attempt: nat, nextAt: Time)
    requires RowOk(r)
    ensures RowOk(Rescheduled(r, attempt, nextAt)) && Up(r, Rescheduled(r, attempt, nextAt))
  {
  }

  lemma LookupFailedKeeps(r: Row, provider: Id, attempt: nat, at: Time)
    requires RowOk(r) && r.session.provider == Some(provider) && !IsLive(r.session.status)
    ensures RowOk(LookupFailed(r, provider, attempt, at)) && Up(r, LookupFailed(r, provider, attempt, at))
  {
  }

  lemma LookupCompletedKeeps(r: Row, provider: Id, attempt: nat, url: Secret, at: Time)
    requires RowOk(r) && r.session.provider == Some(provider) && !IsLive(r.session.status)
    ensures var next := LookupCompleted(r, provider, attempt, url, at);
            next.Ok? ==> RowOk(next.value.0) && Up(r, next.value.0)
  {
  }

  lemma HidingKeeps(r: Row, at: Time)
    requires RowOk(r)
    ensures Hidden(r, at).Ok? ==> RowOk(Hidden(r, at).value) && Up(r, Hidden(r, at).value)
  {
  }

  /** Only the current attempt's holder changes a lookup's schedule or outcome; a stale response,
      however late, changes nothing at all. */
  lemma StaleAttemptIsHarmless(r: Row, provider: Id, attempt: nat, url: Secret, at: Time, nextAt: Time)
    requires !OwnsAttempt(r, attempt)
    ensures Rescheduled(r, attempt, nextAt) == r
    ensures LookupFailed(r, provider, attempt, at) == r
    ensures LookupCompleted(r, provider, attempt, url, at) == Ok((r, false))
  {
  }

  /** A stop lease binds: without it, release and expired-finalization change no session column. */
  lemma OnlyTheLeaseHolderActs(r: Row, lease: Id, at: Time)
    requires !HoldsLease(r.session, lease)
    ensures Released(r, lease) == r
    ensures ExpiryFinalized(r, lease, at).Ok? ==> ExpiryFinalized(r, lease, at).value.session == r.session
    ensures !LeaseCurrent(r, lease, at)
  {
  }

  /** Every expired ending session whose lease is free or elapsed can be claimed, and the claim
      replaces the lease; no other expired session with a runtime escapes for longer than its lease. */
  lemma ExpiredSessionsStayClaimable(r: Row, at: Time, lease: Lease)
    requires RowOk(r) && r.session.expiresAt <= at
    requires r.session.status.Active? || (r.session.status.Ending? && LeaseFree(r.session, at))
    ensures Reapable(TtlReached(r, at), at)
    ensures Claimed(r, at, Some(lease)).session.lease == Some(lease)
    ensures Claimed(r, at, Some(lease)).session.status.Ending?
  {
  }

  /** A pending recording of a finished session is never stuck: its source is known, or a lookup is
      open and will be selected once due. */
  lemma PendingIsResolvable(r: Row, at: Time)
    requires RowOk(r) && r.recording.status.Pending? && !IsLive(r.session.status) && r.session.url.None?
    ensures r.resolve.Some? && (at >= r.resolve.value.nextAt ==> Resolvable(r, at))
  {
  }

  /** Something can still be done for a recording: its delivery is open, or a lookup can be claimed at
      some time. */
  ghost predicate HasWayForward(r: Row) {
    Open(r.deliver) || exists at :: Resolvable(r, at)
  }

  /** A finished session's recording that is pending although its source is stored and no delivery queued. */
  predicate StuckRow(r: Row) {
    !IsLive(r.session.status) && r.recording.status.Pending? && r.session.url.Some? && r.deliver.None?
  }

  /** Exactly when a finished session's pending recording is stuck: its source is stored and yet no
      delivery was queued. A lookup claims only rows without a source, so none can help. */
  lemma PendingIsStuckExactly(r: Row)
    requires RowOk(r) && r.recording.status.Pending? && !IsLive(r.session.status)
    ensures !HasWayForward(r) <==> StuckRow(r)
  {
    if r.session.url.None? {
      PendingIsResolvable(r, r.resolve.value.nextAt);
      assert Resolvable(r, r.resolve.value.nextAt);
    }
  }
}
