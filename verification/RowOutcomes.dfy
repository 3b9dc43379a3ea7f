/** What each transaction on a session leaves behind, told by what later ones read, undo or find due.

    RowLaws says what no transaction may break; these laws say what each one achieves. */
module RowOutcomes {
  import opened Wrappers
  import opened Numbers
  import opened Rows
  import opened RowLaws
  import opened UsageRows
  import UsageCost
  import Decimal

  // --------------------------------------------------------------- activation

  /** A starting row as its reservation left it, whatever runtime, status or note it got since. */
  function Unstarted(r: Row): Row {
    r.(session := r.session.(status := Starting, note := None, provider := None, cdp := None, live := None,
                             url := None))
  }

  /** A reservation lasts from its start to its limit, and until then, and not a moment longer, it can be
      activated. */
  lemma ReservationLastsItsTime(profile: Option<Id>, at: Time, ttl: Time, p: Runtime, later: Time)
    ensures var r := Reserved(profile, at, ttl);
            && r.session.profile == profile && r.session.startedAt == at && r.session.expiresAt == at + ttl
            && (Activated(r, p, later).Some? <==> later < at + ttl)
            && TtlReached(r, later).session.status == (if later < at + ttl then Starting else Expired)
            && r.session.note.None? && Unstarted(r) == r
  {
  }

  /** An end gets from the store the very runtime the activation was given, each column where it belongs,
      and nothing else about the session has changed. */
  lemma ActivationIsReadBack(r: Row, p: Runtime, at: Time, note: string)
    ensures Activated(r, p, at).Some? <==> r.session.status.Starting? && at < r.session.expiresAt
    ensures Activated(r, p, at).Some? ==>
              var next := Activated(r, p, at).value;
              && next.session.status.Active? && next.session.note == r.session.note
              && EndBegun(next, note).session.note == Some(note)
              && EndingRuntime(EndBegun(next, note)) == Ok(p) && Unstarted(next) == Unstarted(r)
  {
  }

  /** A late activation keeps the runtime of a session whose time is over, so that the next claim finds it. */
  lemma LateActivationIsReadBack(r: Row, p: Runtime, at: Time, lease: Lease)
    requires RowOk(r)
    ensures var next := LateActivated(r, p);
            if r.session.status.Starting?
            then && EndingRuntime(next) == Ok(p) && next.session.note == Some(TTL_NOTE)
                 && Unstarted(next) == Unstarted(r)
                 && (r.session.expiresAt <= at ==> Claimed(next, at, Some(lease)).session.lease == Some(lease))
            else next == r
    ensures r.session.status.Starting? ==> (Activated(r, p, at).None? <==> ActivationExpired(r, at))
  {
  }

  /** A retained runtime is read back too; one already stored stays, and the first note stays. */
  lemma RetentionIsReadBack(r: Row, p: Runtime, reason: string)
    requires RowOk(r)
    ensures Retained(r, p, reason).Ok? <==>
              IsLive(r.session.status) && (r.session.provider.None? || r.session.provider == Some(p.id))
    ensures r.session.provider.Some? && r.session.provider != Some(p.id) <==>
              Retained(r, p, reason) == Err(Corrupt)
    ensures Retained(r, p, reason).Ok? ==>
              var next := Retained(r, p, reason).value;
              && EndingRuntime(next) ==
                 (if r.session.provider.None? then Ok(p.(url := Coalesce(r.session.url, p.url)))
                  else Ok(RuntimeOf(r.session).value.(url := Coalesce(r.session.url, p.url))))
              && next.session.note == Some(if r.session.note.Some? then r.session.note.value else reason)
              && Unstarted(next) == Unstarted(r)
              && Retained(next, p, "") == Ok(next)
  {
  }

  /** A stored source replaces any other and touches nothing else. */
  lemma SourceIsReadBack(r: Row, url: Secret)
    ensures Remembered(r, url).session.url == Some(url)
    ensures Remembered(r, url).(session := Remembered(r, url).session.(url := r.session.url)) == r
    ensures RuntimeOf(r.session).Ok? ==>
              RuntimeOf(Remembered(r, url).session) == Ok(RuntimeOf(r.session).value.(url := Some(url)))
  {
  }

  // --------------------------------------------------------------- failed starts

  /** The first end of a session is its only one: a second failure changes nothing. */
  lemma FirstFailureStands(r: Row, reason: string, at: Time, again: string, later: Time)
    ensures var failed := FailedStart(r, reason, at);
            && FailedStart(failed, again, later) == failed
            && (IsLive(r.session.status) ==>
                  && failed.session == r.session.(status := Failed, endedAt := Some(at), note := Some(reason))
                  && !failed.recording.status.Recording?
                  && (r.recording.status.Recording? ==> failed.recording == r.recording.(status := Lost))
                  && (!r.recording.status.Recording? ==> failed.recording == r.recording))
            && (!IsLive(r.session.status) ==> failed == r)
            && failed.resolve == r.resolve && failed.deliver == r.deliver
  {
  }

  /** An event that is queued unless it already was. */
  predicate Queued(before: Option<Event>, after: Option<Event>, due: Time, at: Time) {
    if before.Some? then after == before else after == Some(Event(0, due, at, None))
  }

  /** What a stopped session leaves of its recording: it is pending with its length, and its delivery is
      queued if its source is known, the lookup of its source otherwise. */
  predicate HandedOver(before: Row, after: Row, known: bool, durationMs: nat, size: Option<int>, at: Time) {
    && after.recording == RecordingRow(Pending, Some(durationMs), size)
    && (if known then Queued(before.deliver, after.deliver, at, at) && after.resolve == before.resolve
        else Queued(before.resolve, after.resolve, at + SOURCE_INITIAL_DELAY, at) && after.deliver == before.deliver)
  }

  function SizeOr(r: Row, size: int): Option<int> {
    Some(if r.recording.sizeBytes.Some? then r.recording.sizeBytes.value else size)
  }

  /** Exactly when a session fails after its browser's stop, and how: only from a live status or an earlier
      such failure, only for its own browser. A retry changes neither session nor events. */
  lemma FailureAfterStopIsExact(r: Row, provider: Id, reason: string, durationMs: nat, hasSource: bool, at: Time)
    ensures var done := FailedAfterStop(r, provider, reason, durationMs, hasSource, at);
            && (done.Ok? <==> && (IsLive(r.session.status) || r.session.status.Failed?)
                              && (r.session.provider.None? || r.session.provider == Some(provider))
                              && durationMs <= MAX_I64)
            && (done.Ok? && IsLive(r.session.status) ==>
                  done.value.session == r.session.(status := Failed, endedAt := Some(at), note := Some(reason),
                                                   provider := Some(provider)))
            && (done.Ok? && Undelivered(r.recording.status) ==>
                  HandedOver(r, done.value, hasSource, durationMs, SizeOr(r, 0), at))
            && (done.Ok? && !Undelivered(r.recording.status) ==> done.value.recording == r.recording)
  {
  }

  lemma RetriedFailureChangesNothing(r: Row, provider: Id, reason: string, durationMs: nat, hasSource: bool,
                                     at: Time, again: string, later: Time)
    requires FailedAfterStop(r, provider, reason, durationMs, hasSource, at).Ok?
    ensures var done := FailedAfterStop(r, provider, reason, durationMs, hasSource, at).value;
            FailedAfterStop(done, provider, again, durationMs, hasSource, later) == Ok(done)
  {
  }

  // ------------------------------------------------------ ends and expiries

  predicate Endable(r: Row) {
    r.session.status.Active? || r.session.status.Ending?
  }

  /** A confirmed stop brought this recording source, if any. */
  function Sourced(r: Row, url: Option<Secret>): Row {
    if url.Some? then Remembered(r, url.value) else r
  }

  /** The recording's hand-over before the last step of an end or an expiry. */
  function Handed(r: Row, known: bool, durationMs: nat, at: Time): Result<Row, StoreError> {
    if known then MarkedPending(r, durationMs, 0, at) else ResolutionQueued(r, durationMs, at)
  }

  /** `after` is `before` finished with this status and note at this moment: told column by column. */
  predicate ClosedAs(before: Row, after: Row, status: Status, note: Option<string>, url: Option<Secret>, known: bool,
                     durationMs: nat, at: Time)
  {
    && after.session == before.session.(status := status, endedAt := Some(at), note := note,
                                        url := if url.Some? then url else before.session.url)
    && HandedOver(before, after, known, durationMs, if known then Some(0) else SizeOr(before, 0), at)
  }

  /** The hand-over succeeds exactly for an undelivered recording of a finishing session with a length that
      fits, if what the closer knows about the source is what the row says. */
  lemma HandOverIsExact(r: Row, url: Option<Secret>, known: bool, durationMs: nat, at: Time)
    requires Winding(r.session.status) && r.session.provider.Some? && (url.Some? ==> known)
    requires known ==> url.Some? || r.session.url.Some?
    ensures var handed := Handed(Sourced(r, url), known, durationMs, at);
            && (handed.Ok? <==> && Undelivered(r.recording.status) && durationMs <= MAX_I64
                                && (known || r.session.url.None?))
            && (handed.Ok? ==>
                  && handed.value.session == r.session.(url := if url.Some? then url else r.session.url)
                  && HandedOver(r, handed.value, known, durationMs, if known then Some(0) else SizeOr(r, 0), at))
  {
  }

  /** From the hand-over on, an end and an expiry by the lease holder cannot fail, and this is what they leave. */
  lemma HandedOverSessionCloses(r: Row, url: Option<Secret>, known: bool, durationMs: nat, lease: Id, at: Time)
    requires r.session.status.Ending? && r.session.provider.Some? && (url.Some? ==> known)
    requires known ==> url.Some? || r.session.url.Some?
    requires Handed(Sourced(r, url), known, durationMs, at).Ok?
    ensures var handed := Handed(Sourced(r, url), known, durationMs, at).value;
            && EndFinalized(handed, at).Ok?
            && ClosedAs(r, EndFinalized(handed, at).value, Ended, r.session.note, url, known, durationMs, at)
            && (ExpiryFinalized(handed, lease, at).Ok? <==>
                  r.session.expiresAt <= at && HoldsLease(r.session, lease))
            && (ExpiryFinalized(handed, lease, at).Ok? ==>
                  ClosedAs(r, ExpiryFinalized(handed, lease, at).value, Expired, Some(TTL_NOTE), url, known, durationMs,
                           at))
  {
    HandOverIsExact(r, url, known, durationMs, at);
  }

  /** A finished end or expiry can be retried by anyone and stays what it was, and none leaves a recording running. */
  lemma RetriedCloseChangesNothing(r: Row, lease: Id, at: Time, other: Id, later: Time)
    ensures EndFinalized(r, at).Ok? ==> EndFinalized(EndFinalized(r, at).value, later) == EndFinalized(r, at)
    ensures ExpiryFinalized(r, lease, at).Ok? ==>
              ExpiryFinalized(ExpiryFinalized(r, lease, at).value, other, later) == ExpiryFinalized(r, lease, at)
    ensures EndFinalized(r, at).Ok? ==>
              EndFinalized(r, at).value.recording ==
              if r.recording.status.Recording? then r.recording.(status := Pending) else r.recording
    ensures ExpiryFinalized(r, lease, at).Ok? ==>
              ExpiryFinalized(r, lease, at).value.recording ==
              if r.recording.status.Recording? then r.recording.(status := Pending) else r.recording
    ensures EndFinalized(r, at).Ok? <==> r.session.status.Ending? || r.session.status.Ended?
    ensures ExpiryFinalized(r, lease, at).Ok? <==>
              || r.session.status.Expired?
              || (r.session.status.Ending? && r.session.expiresAt <= at && HoldsLease(r.session, lease))
  {
  }

  // ------------------------------------------------------------------ expiring

  /** What the time limit does to each session, and how long a claim binds: its lease is current until it
      elapses or is released, and only then can the session be claimed again. */
  lemma ClaimBindsUntilItElapses(r: Row, at: Time, lease: Lease, later: Time)
    requires RowOk(r) && Reapable(TtlReached(r, at), at) && at <= later
    ensures var claimed := Claimed(r, at, Some(lease));
            && claimed == TtlReached(r, at).(session := claimed.session) && claimed.session.lease == Some(lease)
            && claimed.session.(lease := None) == TtlReached(r, at).session.(lease := None)
            && (LeaseCurrent(claimed, lease.id, later) <==> later < lease.until)
            && (Reapable(claimed, later) <==> lease.until <= later)
            && Reapable(Released(claimed, lease.id), later)
            && Released(claimed, lease.id) == claimed.(session := claimed.session.(lease := None))
  {
  }

  /** Exactly which sessions a reaper's claim may choose: those past their limit that have a browser to stop and
      that no unexpired lease holds. */
  lemma ClaimableExactly(r: Row, at: Time)
    requires RowOk(r)
    ensures Reapable(TtlReached(r, at), at) <==>
              Endable(r) && r.session.expiresAt <= at && !(r.session.lease.Some? && at < r.session.lease.value.until)
  {
  }

  /** Before its limit the clock does nothing to a session. At its limit one still starting has expired without
      a recording, and an active one starts to end and keeps its runtime; the others are left alone. */
  lemma LimitIsKept(r: Row, at: Time, note: string)
    requires RowOk(r)
    ensures var next := TtlReached(r, at);
            && (at < r.session.expiresAt ==> next == r)
            && (r.session.expiresAt <= at && r.session.status.Starting? ==>
                  && next.session == r.session.(status := Expired, endedAt := Some(at), note := Some(TTL_NOTE))
                  && next == r.(session := next.session, recording := r.recording.(status := Lost)))
            && (r.session.expiresAt <= at && r.session.status.Active? ==>
                  && EndingRuntime(next) == EndingRuntime(EndBegun(r, note))
                  && next.session.note == Some(if r.session.note.Some? then r.session.note.value else TTL_NOTE)
                  && next == r.(session := r.session.(status := Ending, note := next.session.note)))
            && (!r.session.status.Starting? && !r.session.status.Active? ==> next == r)
            && TtlReached(next, at) == next
  {
  }

  // ------------------------------------------------------------------- lookups

  /** A found source is stored unless one is known already, makes an undelivered recording deliverable and
      closes the lookup for good. */
  lemma FoundSourceIsDeliverable(r: Row, provider: Id, attempt: nat, url: Secret, at: Time, later: Time)
    requires OwnsAttempt(r, attempt)
    ensures var done := LookupCompleted(r, provider, attempt, url, at);
            && (done.Ok? <==> && r.session.provider == Some(provider) && !IsLive(r.session.status)
                              && !r.recording.status.Available?)
            && (done.Err? ==> done.error == Corrupt)
            && (done.Ok? ==>
                  var (next, accepted) := done.value;
                  && (accepted <==> !r.recording.status.Trashed?)
                  && !OwnsAttempt(next, attempt) && !Resolvable(next, later)
                  && next.resolve == Some(r.resolve.value.(doneAt := Some(at)))
                  && (!accepted ==> next == r.(resolve := next.resolve))
                  && (accepted ==>
                        && next.session.url == Some(if r.session.url.Some? then r.session.url.value else url)
                        && next.session.(url := r.session.url) == r.session
                        && Queued(r.deliver, next.deliver, at, at)
                        && next.recording ==
                           r.recording.(status := if r.recording.status.Lost? then Lost else Pending)))
  {
  }

  /** A lookup given up closes for good and loses the recording it was for; its length is kept. */
  lemma GivenUpLookupLosesTheRecording(r: Row, provider: Id, attempt: nat, at: Time, later: Time)
    requires OwnsAttempt(r, attempt) && r.session.provider == Some(provider) && !IsLive(r.session.status)
    ensures var next := LookupFailed(r, provider, attempt, at);
            && next.session == r.session && next.deliver == r.deliver
            && next.resolve == Some(r.resolve.value.(doneAt := Some(at)))
            && !OwnsAttempt(next, attempt) && !Resolvable(next, later)
            && (Undelivered(r.recording.status) ==>
                  next.recording == RecordingRow(Lost, r.recording.durationMs, SizeOr(r, 0)))
            && (!Undelivered(r.recording.status) ==> next.recording == r.recording)
  {
  }

  /** A deferred lookup keeps its attempt and is due again exactly from the new time on, and a claimed one
      from the end of its lease on, with the next attempt. */
  lemma LookupIsDueFrom(r: Row, at: Time, attempt: nat, nextAt: Time, later: Time)
    requires Resolvable(r, at)
    ensures Resolvable(LookupClaimed(r, nextAt), later) <==> nextAt <= later
    ensures OwnsAttempt(LookupClaimed(r, nextAt), attempt) <==> attempt == r.resolve.value.attempts + 1
    ensures var n := r.resolve.value.attempts;
            && (Resolvable(Rescheduled(r, n, nextAt), later) <==> nextAt <= later)
            && Rescheduled(Rescheduled(r, n, nextAt), n, r.resolve.value.nextAt) == r
            && OwnsAttempt(Rescheduled(r, n, nextAt), n)
    ensures LookupClaimed(r, nextAt).(resolve := r.resolve) == r
    ensures LookupClaimed(r, nextAt).resolve.value.(nextAt := 0, attempts := 0)
            == r.resolve.value.(nextAt := 0, attempts := 0)
  {
  }

  /** Exactly which lookups a claim may choose: those open and due whose session is over, whose source is still
      missing and whose recording was neither delivered nor trashed. */
  lemma OnlyMissingSourcesAreLookedUp(r: Row, at: Time)
    requires RowOk(r)
    ensures Resolvable(r, at) <==>
              && Open(r.resolve) && r.resolve.value.nextAt <= at && !IsLive(r.session.status) && r.session.url.None?
              && !r.recording.status.Available? && !r.recording.status.Trashed?
  {
  }

  /** A hand-over for delivery stores length and size each in its column, and refuses what does not fit. */
  lemma MarkingIsExact(r: Row, durationMs: nat, sizeBytes: nat, at: Time)
    requires Undelivered(r.recording.status) && Winding(r.session.status) && r.session.url.Some?
    ensures var marked := MarkedPending(r, durationMs, sizeBytes, at);
            if durationMs <= MAX_I64 && sizeBytes <= MAX_I64
            then marked.Ok? && HandedOver(r, marked.value, true, durationMs, Some(sizeBytes), at)
                 && marked.value.session == r.session
            else marked == Err(Invalid)
  {
  }

  /** A queued lookup becomes due exactly after the initial delay of fifteen seconds. */
  lemma QueuedLookupWaits(r: Row, durationMs: nat, at: Time, later: Time)
    requires ResolutionQueued(r, durationMs, at).Ok? && r.resolve.None? && !IsLive(r.session.status)
    ensures Resolvable(ResolutionQueued(r, durationMs, at).value, later) <==> at + 15_000 <= later
  {
  }

  // -------------------------------------------------------------------- hiding

  /** A recording is trashed exactly once its session is over and it is no longer being recorded; then no
      lookup of it is ever due again, no delivery is open, and trashing it again changes nothing. */
  lemma TrashedIsSettled(r: Row, at: Time, later: Time)
    ensures Hidden(r, at).Ok? <==> !IsLive(r.session.status) && !r.recording.status.Recording?
    ensures Hidden(r, at).Ok? ==>
              var next := Hidden(r, at).value;
              && next.recording == r.recording.(status := Trashed) && next.session == r.session
              && !Open(next.deliver) && !Open(next.resolve) && !Resolvable(next, later)
              && Hidden(next, later) == Ok(next)
              && (r.resolve.Some? <==> next.resolve.Some?) && (r.deliver.Some? <==> next.deliver.Some?)
  {
  }

  // --------------------------------------------------------------------- usage

  /** The columns a usage report reads. */
  function Billed(u: Usage): UsageCost.UsageRow {
    UsageCost.UsageRow(u.browserMillis, u.proxyIn, u.proxyOut, u.proxyUnclassified, u.browserCost, u.proxyCost,
                       u.currency)
  }

  /** A fresh session has used nothing, and counts traffic only if it has a profile. */
  lemma FreshUsageIsFree(profile: Option<Id>, at: Time)
    ensures var u := ReservedUsage(profile, at);
            && UsageCost.MapUsage(Billed(u)) == Ok(UsageCost.ZeroUsage("USD")) && u.sampledAt == at
            && (u.proxyIn.Some? <==> profile.Some?) && (u.proxyOut.Some? <==> profile.Some?)
            && (u.proxyUnclassified.Some? <==> profile.Some?)
  {
    hide Decimal.ToMillionths, UsageCost.MapUsage, UsageCost.IsFloorShare;
    var row := Billed(ReservedUsage(profile, at));
    ZeroCost(row.browserCost);
    ZeroCost(row.proxyCost);
    UsageCost.MappedRowBalances(row);
    UsageCost.MappedRowReportsItsColumns(row);
  }

  predicate StorableCounter(n: Option<int>) {
    n.Some? ==> 0 <= n.value <= MAX_I64
  }

  /** A usage row as the database can hold it and a report can read it. */
  predicate Storable(u: Usage) {
    && 0 <= u.browserMillis <= MAX_I64
    && StorableCounter(u.proxyIn) && StorableCounter(u.proxyOut) && StorableCounter(u.proxyUnclassified)
    && Decimal.ToMillionths(u.browserCost).Ok? && Decimal.ToMillionths(u.proxyCost).Ok?
    && |u.currency| == 3 && forall i | 0 <= i < 3 :: 'A' <= u.currency[i] <= 'Z'
  }

  /** A currency as a sample may write it, in letters of either case. */
  predicate SameLetters(upper: string, written: string) {
    && |upper| == |written|
    && forall i | 0 <= i < |written| :: written[i] == upper[i] || written[i] as int == upper[i] as int + 32
  }

  /** No sample, however large, odd or late, leaves a row that cannot be stored or read back, and its currency is
      stored in capitals. */
  lemma SampleKeepsStorable(session: Session, u: Usage, s: Sample, terminal: bool)
    requires Storable(u) && UsageOk(u)
    ensures var next := UsageRecorded(session, u, s, terminal);
            next.Ok? ==> Storable(next.value) && SameLetters(Upper(s.currency), s.currency)
  {
    hide Decimal.ToMillionths;
  }

  /** So over any mix of samples from the reservation on, the session's usage can be reported unless its two costs
      together exceed 64 bits, and its costs are the last accepted ones. */
  lemma {:induction false} ObservedUsageIsReported(profile: Option<Id>, at: Time, os: seq<Observation>)
    ensures var u := ObservedAll(ReservedUsage(profile, at), os);
            && Storable(u)
            && (UsageCost.MapUsage(Billed(u)).Ok? <==>
                  Decimal.ToMillionths(u.browserCost).value + Decimal.ToMillionths(u.proxyCost).value <= MAX_U64)
    decreases |os|
  {
    hide UsageRecorded, Decimal.ToMillionths, UsageOk;
    var u := ObservedAll(ReservedUsage(profile, at), os);
    if os == [] {
      ZeroCost("0");
    } else {
      var before, last := os[..|os| - 1], os[|os| - 1];
      ObservedUsageIsReported(profile, at, before);
      ReservedUsageIsOk(profile, at);
      ObservationsNeverRunBackwards(ReservedUsage(profile, at), before);
      SampleKeepsStorable(last.session, ObservedAll(ReservedUsage(profile, at), before), last.sample, last.terminal);
    }
    UsageCost.MappedRowBalances(Billed(u));
  }
}
