/** The rows of one browser session and the store's transactions on them
    (crates/backend/src/store.rs).

    A session, its recording and its two outbox events are keyed by the same session id, so one
    transaction on one session is a function on a `Row` (its usage row is in module UsageRows).
    Each function below is the net effect of one committed transaction; `Err` means it rolled back.
    Sealed URLs are opaque. */
module Rows {
  import opened Wrappers
  import opened Numbers

  type Id = nat
  type Time = int
  type Secret = nat

  const SOURCE_INITIAL_DELAY: Time := 15_000
  const TTL_NOTE := "ttl reached"

  datatype Status = Starting | Active | Ending | Ended | Expired | Failed

  /** The statuses that hold a profile's slot. */
  predicate IsLive(s: Status) {
    s.Starting? || s.Active? || s.Ending?
  }

  datatype Lease = Lease(id: Id, until: Time)

  datatype Session = Session(profile: Option<Id>, status: Status, startedAt: Time, expiresAt: Time,
                             endedAt: Option<Time>, note: Option<string>, provider: Option<Id>,
                             cdp: Option<Secret>, live: Option<Secret>, url: Option<Secret>, lease: Option<Lease>)

  datatype RecordingStatus = Recording | Pending | Available | Lost | Trashed

  datatype RecordingRow = RecordingRow(status: RecordingStatus, durationMs: Option<int>, sizeBytes: Option<int>)

  datatype Event = Event(attempts: nat, nextAt: Time, createdAt: Time, doneAt: Option<Time>)

  /** `resolve` is the `recording.resolve` outbox event, `deliver` the `recording.store` one. */
  datatype Row = Row(session: Session, recording: RecordingRow, resolve: Option<Event>, deliver: Option<Event>)

  /** A provider browser as the store receives it. */
  datatype Runtime = Runtime(id: Id, cdp: Secret, live: Secret, url: Option<Secret>)

  datatype StoreError =
    | NotFound | Invalid | Corrupt | WrongState(status: Status)
    | ProfileRetired | ProfileNotReady | ProfileBusy | Forbidden

  function Coalesce<T>(a: Option<T>, b: Option<T>): Option<T> {
    if a.Some? then a else b
  }

  /** `INSERT OR IGNORE` of an outbox event. */
  function Ensured(e: Option<Event>, nextAt: Time, createdAt: Time): Option<Event> {
    if e.Some? then e else Some(Event(0, nextAt, createdAt, None))
  }

  function Closed(e: Option<Event>, at: Time): Option<Event> {
    match e
    case None => None
    case Some(e) => Some(e.(doneAt := Coalesce(e.doneAt, Some(at))))
  }

  /** `UPDATE recordings SET status = .. WHERE status = 'recording'`. */
  function FromRecording(r: RecordingRow, status: RecordingStatus): RecordingRow {
    if r.status.Recording? then r.(status := status) else r
  }

  predicate Undelivered(s: RecordingStatus) {
    s.Recording? || s.Pending?
  }

  // -------------------------------------------------------------- reservation

  function Reserved(profile: Option<Id>, at: Time, ttl: Time): Row {
    Row(Session(profile, Starting, at, at + ttl, None, None, None, None, None, None, None),
        RecordingRow(Recording, None, None), None, None)
  }

  // --------------------------------------------------------------- activation

  function WithRuntime(s: Session, status: Status, p: Runtime): Session {
    s.(status := status, provider := Some(p.id), cdp := Some(p.cdp), live := Some(p.live), url := p.url)
  }

  /** The guarded activation, `None` when it touches no row. */
  function Activated(r: Row, p: Runtime, at: Time): Option<Row> {
    if r.session.status.Starting? && r.session.expiresAt > at
    then Some(r.(session := WithRuntime(r.session, Active, p))) else None
  }

  /** Whether a missed activation goes on to persist the runtime of an expired session. */
  predicate ActivationExpired(r: Row, at: Time) {
    r.session.expiresAt <= at && IsLive(r.session.status)
  }

  function LateActivated(r: Row, p: Runtime): Row {
    if r.session.status.Starting?
    then r.(session := WithRuntime(r.session, Ending, p).(note := Some(TTL_NOTE))) else r
  }

  /** `retain_session_runtime`: hold the slot with this runtime while its stop is confirmed. */
  function Retained(r: Row, p: Runtime, reason: string): Result<Row, StoreError> {
    var s := r.session;
    if IsLive(s.status) && (s.provider.None? || s.provider == Some(p.id)) then
      Ok(r.(session := s.(status := Ending, note := Coalesce(s.note, Some(reason)),
                          provider := Coalesce(s.provider, Some(p.id)), cdp := Coalesce(s.cdp, Some(p.cdp)),
                          live := Coalesce(s.live, Some(p.live)), url := Coalesce(s.url, p.url))))
    else if s.provider.Some? && s.provider != Some(p.id) then Err(Corrupt)
    else Err(WrongState(s.status))
  }

  // --------------------------------------------------------------- failed start

  /** `fail_session`, after a start that certainly did not commit. */
  function FailedStart(r: Row, reason: string, at: Time): Row {
    if IsLive(r.session.status) then
      r.(session := r.session.(status := Failed, endedAt := Some(at), note := Some(reason)),
         recording := FromRecording(r.recording, Lost))
    else r
  }

  /** `finalize_failed_session_after_stop`. */
  function FailedAfterStop(r: Row, provider: Id, reason: string, durationMs: nat, hasSource: bool, at: Time)
      : Result<Row, StoreError>
  {
    var s := r.session;
    var releases := IsLive(s.status) && (s.provider.None? || s.provider == Some(provider));
    if !releases && s.provider.Some? && s.provider != Some(provider) then Err(Corrupt)
    else if !releases && !s.status.Failed? then Err(WrongState(s.status))
    else if durationMs > MAX_I64 then Err(Invalid)
    else
      var session := if releases
                     then s.(status := Failed, endedAt := Some(at), note := Some(reason),
                             provider := Coalesce(s.provider, Some(provider)))
                     else s;
      var recording := if Undelivered(r.recording.status)
                       then RecordingRow(Pending, Some(durationMs), Coalesce(r.recording.sizeBytes, Some(0)))
                       else r.recording;
      if hasSource then Ok(r.(session := session, recording := recording, deliver := Ensured(r.deliver, at, at)))
      else Ok(r.(session := session, recording := recording,
                 resolve := Ensured(r.resolve, at + SOURCE_INITIAL_DELAY, at)))
  }

  // -------------------------------------------------------------- explicit end

  /** The claiming update of `begin_end_session`; an ending session keeps its first note. */
  function EndBegun(r: Row, note: string): Row {
    if r.session.status.Active? then r.(session := r.session.(status := Ending, note := Some(note))) else r
  }

  /** `runtime_from_row`. */
  function RuntimeOf(s: Session): Result<Runtime, StoreError> {
    if s.provider.None? || s.cdp.None? || s.live.None? then Err(Corrupt)
    else Ok(Runtime(s.provider.value, s.cdp.value, s.live.value, s.url))
  }

  /** The read that follows: only an ending session yields its runtime. */
  function EndingRuntime(r: Row): Result<Runtime, StoreError> {
    if r.session.status.Ending? then RuntimeOf(r.session) else Err(WrongState(r.session.status))
  }

  function EndFinalized(r: Row, at: Time): Result<Row, StoreError> {
    var recording := FromRecording(r.recording, Pending);
    match r.session.status
    case Ending => Ok(r.(session := r.session.(status := Ended, endedAt := Some(at)), recording := recording))
    case Ended => Ok(r.(recording := recording))
    case status => Err(WrongState(status))
  }

  // --------------------------------------------------------------------- expiry

  /** The two bulk updates of `claim_expired_sessions`, on one row. */
  function TtlReached(r: Row, at: Time): Row {
    if r.session.expiresAt > at then r
    else match r.session.status
      case Starting =>
        r.(session := r.session.(status := Expired, endedAt := Some(at), note := Some(TTL_NOTE)),
           recording := FromRecording(r.recording, Lost))
      case Active =>
        r.(session := r.session.(status := Ending, note := Coalesce(r.session.note, Some(TTL_NOTE))))
      case _ => r
  }

  predicate LeaseFree(s: Session, at: Time) {
    s.lease.None? || s.lease.value.until <= at
  }

  predicate Reapable(r: Row, at: Time) {
    && r.session.status.Ending? && r.session.expiresAt <= at && r.session.provider.Some?
    && LeaseFree(r.session, at)
  }

  /** One row of a whole claim: expired, and leased if it was selected. */
  function Claimed(r: Row, at: Time, lease: Option<Lease>): Row {
    var e := TtlReached(r, at);
    if lease.Some? && Reapable(e, at) then e.(session := e.session.(lease := lease)) else e
  }

  predicate HoldsLease(s: Session, lease: Id) {
    s.lease.Some? && s.lease.value.id == lease
  }

  /** `expired_claim_is_current`. */
  predicate LeaseCurrent(r: Row, lease: Id, at: Time) {
    r.session.status.Ending? && HoldsLease(r.session, lease) && r.session.lease.value.until > at
  }

  function Released(r: Row, lease: Id): Row {
    if HoldsLease(r.session, lease) then r.(session := r.session.(lease := None)) else r
  }

  function ExpiryFinalized(r: Row, lease: Id, at: Time): Result<Row, StoreError> {
    var recording := FromRecording(r.recording, Pending);
    if r.session.status.Ending? && r.session.expiresAt <= at && HoldsLease(r.session, lease) then
      Ok(r.(session := r.session.(status := Expired, endedAt := Some(at), note := Some(TTL_NOTE)),
            recording := recording))
    else if r.session.status.Expired? then Ok(r.(recording := recording))
    else Err(WrongState(r.session.status))
  }

  // ------------------------------------------------------------------ recording

  /** `remember_provider_recording_url`: unconditional. */
  function Remembered(r: Row, url: Secret): Row {
    r.(session := r.session.(url := Some(url)))
  }

  predicate Winding(s: Status) {
    !s.Starting? && !s.Active?
  }

  function MarkedPending(r: Row, durationMs: nat, sizeBytes: nat, at: Time): Result<Row, StoreError> {
    if durationMs > MAX_I64 || sizeBytes > MAX_I64 then Err(Invalid)
    else if !Undelivered(r.recording.status) || !Winding(r.session.status) || r.session.url.None? then Err(NotFound)
    else Ok(r.(recording := RecordingRow(Pending, Some(durationMs), Some(sizeBytes)),
               deliver := Ensured(r.deliver, at, at)))
  }

  function ResolutionQueued(r: Row, durationMs: nat, at: Time): Result<Row, StoreError> {
    if durationMs > MAX_I64 then Err(Invalid)
    else if !Undelivered(r.recording.status) || !Winding(r.session.status)
      || r.session.provider.None? || r.session.url.Some? then Err(NotFound)
    else Ok(r.(recording := RecordingRow(Pending, Some(durationMs), Coalesce(r.recording.sizeBytes, Some(0))),
               resolve := Ensured(r.resolve, at + SOURCE_INITIAL_DELAY, at)))
  }

  /** Selected by `claim_recording_source_resolutions` when due. */
  predicate Resolvable(r: Row, at: Time) {
    && r.resolve.Some? && r.resolve.value.doneAt.None? && r.resolve.value.nextAt <= at
    && r.session.provider.Some? && r.session.url.None? && !IsLive(r.session.status)
    && (Undelivered(r.recording.status) || r.recording.status.Lost?)
  }

  function LookupClaimed(r: Row, leaseUntil: Time): Row
    requires r.resolve.Some?
  {
    r.(resolve := Some(r.resolve.value.(attempts := r.resolve.value.attempts + 1, nextAt := leaseUntil)))
  }

  /** The compare-and-swap every later step of a lookup starts with. */
  predicate OwnsAttempt(r: Row, attempt: nat) {
    r.resolve.Some? && r.resolve.value.attempts == attempt && r.resolve.value.doneAt.None?
  }

  function Rescheduled(r: Row, attempt: nat, nextAt: Time): Row {
    if OwnsAttempt(r, attempt) then r.(resolve := Some(r.resolve.value.(nextAt := nextAt))) else r
  }

  function LookupFailed(r: Row, provider: Id, attempt: nat, at: Time): Row {
    if !OwnsAttempt(r, attempt) then r
    else
      var recording := if Undelivered(r.recording.status) && r.session.provider == Some(provider)
                          && !IsLive(r.session.status)
                       then RecordingRow(Lost, r.recording.durationMs, Coalesce(r.recording.sizeBytes, Some(0)))
                       else r.recording;
      r.(resolve := Closed(r.resolve, at), recording := recording)
  }

  /** `complete_recording_source_resolution`: the row, and whether the URL was accepted. */
  function LookupCompleted(r: Row, provider: Id, attempt: nat, url: Secret, at: Time): Result<(Row, bool), StoreError> {
    if !OwnsAttempt(r, attempt) then Ok((r, false))
    else if r.session.provider != Some(provider) || IsLive(r.session.status) then Err(Corrupt)
    else if r.recording.status.Trashed? then Ok((r.(resolve := Closed(r.resolve, at)), false))
    else if r.recording.status.Available? then Err(Corrupt)
    else
      Ok((r.(session := r.session.(url := Coalesce(r.session.url, Some(url))),
             recording := if Undelivered(r.recording.status) then r.recording.(status := Pending) else r.recording,
             resolve := Closed(r.resolve, at), deliver := Ensured(r.deliver, at, at)), true))
  }

  /** `trash_recording`, for its owner. */
  function Hidden(r: Row, at: Time): Result<Row, StoreError> {
    if IsLive(r.session.status) then Err(WrongState(r.session.status))
    else if r.recording.status.Recording? then Err(WrongState(r.session.status))
    else Ok(r.(recording := r.recording.(status := Trashed), resolve := Closed(r.resolve, at),
               deliver := Closed(r.deliver, at)))
  }
}
