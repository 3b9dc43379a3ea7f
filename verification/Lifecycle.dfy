/** One browser session's life across processes (crates/backend/src/server.rs).

    A `Cell` is a session's stored rows together with everything acting on it: the request that
    creates it, any number of closers (explicit ends, TTL reapers, failed-start recovery), lookups
    for its recording, and the remote browser as the provider really has it. Every action is one
    transaction or one provider exchange; actions of different workers interleave freely, any
    provider exchange may fail or lose its reply, and any worker may vanish between actions. */
module Lifecycle {
  import opened Wrappers
  import opened Rows
  import opened UsageRows

  /** `TTL_STOP_LEASE`, `TTL_STOP_ATTEMPT_BUDGET`, and the longest wait from claim to worker start. */
  const STOP_LEASE: Time := 210_000
  const STOP_BUDGET: Time := 180_000
  const START_SLACK: Time := 30_000
  const MAX_LOOKUPS: nat := 10

  /** The remote browser as it really is. The provider answers truthfully about it and a stopped
      browser stays stopped. One start request is made per reservation, so there is at most one. */
  datatype Browser = Browser(id: Id, stopped: bool)

  /** Where `create_session` stands after its reservation. `found` marks a browser discovered after
      an ambiguous start, whose failed activation is left to the reaper. */
  datatype Creator =
    | Calling
    | Refused
    | Searching
    | Activating(p: Runtime, found: bool)
    | Rereading(p: Runtime, found: bool, at: Time)
    | FallingBack(p: Runtime, found: bool)
    | Retaining(p: Runtime)
    | Done

  datatype Kind =
    | End
    | Reap(lease: Lease, startedAt: Option<Time>)
    | Recover

  datatype Stage =
    | Reading                 // an end has claimed the session and reads its runtime
    | Waiting                 // a reaper has claimed the session; its worker is not yet running
    | Validating              // a reaper re-checks its claim under the session gate
    | Stopping                // the provider stop is in flight
    | LookingUp               // the stop's reply was ambiguous; the provider is asked for a snapshot
    | Learning(url: Secret)   // a validated stopped snapshot carried a recording source
    | Metering
    | Registering
    | Finalizing
    | Releasing

  datatype Closer = Closer(kind: Kind, browser: Id, stage: Stage, hasSource: bool)

  datatype Step = Ready | Asked | Completing(url: Secret) | Failing | Deferring

  /** A leased recording lookup; its attempt number is its key. */
  datatype Lookup = Lookup(provider: Id, step: Step)

  /** `inFlight` says that a start whose reply was lost may still create its browser; `leases` holds every
      stop lease ever drawn, `queried` the attempts that asked the provider. */
  datatype Cell = Cell(row: Row, usage: Usage, browser: Option<Browser>, inFlight: bool, creator: Creator,
                       closers: map<Id, Closer>, lookups: map<nat, Lookup>, leases: set<Id>, queried: seq<nat>)

  function Fresh(profile: Option<Id>, at: Time, ttl: Time): Cell {
    Cell(Reserved(profile, at, ttl), ReservedUsage(profile, at), None, false, Calling, map[], map[], {}, [])
  }

  // ----------------------------------------------------------------- actions

  datatype StopReply = Confirmed(url: Option<Secret>) | Ambiguous(committed: bool) | Declined

  datatype Answer = Found(url: Secret) | Unavailable | NotYet

  datatype Action =
    // create_session
    | StartSucceeds(b: Id, p: Option<Runtime>, stopped: bool, w: Id)
    | StartRefused
    | StartLost(created: Option<Id>)
    | FailStart(reason: string, at: Time)
    | Find(p: Option<Runtime>)
    | Activate(at: Time, replyLost: bool)
    | Reread
    | FallBack
    | ActivationBreaks
    | Retain(reason: string, broken: bool, w: Id)
    | CreatorVanishes
    // closers
    | BeginEnd(w: Id, note: string)
    | ReadRuntime(w: Id)
    | StartReaping(w: Id)
    | Validate(w: Id, at: Time)
    | Stop(w: Id, reply: StopReply)
    | Snapshot(w: Id, url: Option<Option<Secret>>)
    | Learn(w: Id)
    | Meter(w: Id, sample: Sample)
    | Register(w: Id, durationMs: nat, at: Time)
    | Finalize(w: Id, reason: string, durationMs: nat, at: Time)
    | Release(w: Id)
    | Break(w: Id)
    | Vanish(w: Id)
    // everything else
    | BrowserAppears(b: Id)
    | BrowserStops
    | SampleActive(sample: Sample)
    | Hide(at: Time)
    | ClaimLookup(at: Time, leaseUntil: Time)
    | Ask(attempt: nat)
    | Reply(attempt: nat, answer: Answer)
    | Complete(attempt: nat, at: Time, replyLost: bool)
    | GiveUp(attempt: nat, at: Time)
    | Defer(attempt: nat, nextAt: Time)
    | TimeOut(attempt: nat)
    | LookupVanishes(attempt: nat)

  /** A reaper's worker is dropped when its attempt budget is over. */
  predicate Awake(k: Closer, now: Time) {
    k.kind.Reap? ==> k.kind.startedAt.Some? && now <= k.kind.startedAt.value + STOP_BUDGET
  }

  predicate At(c: Cell, now: Time, w: Id, stage: Stage) {
    w in c.closers && c.closers[w].stage == stage && Awake(c.closers[w], now)
  }

  predicate LookupAt(c: Cell, attempt: nat, step: Step) {
    attempt in c.lookups && c.lookups[attempt].step == step
  }

  predicate HasBrowser(c: Cell, b: Id) {
    c.browser.Some? && c.browser.value.id == b
  }

  predicate Stopped(c: Cell) {
    c.browser.Some? && c.browser.value.stopped
  }

  predicate Enabled(c: Cell, now: Time, a: Action) {
    match a
    case StartSucceeds(b, p, stopped, w) =>
      c.creator.Calling? && w !in c.closers && (p.Some? ==> p.value.id == b && !stopped)
    case StartRefused => c.creator.Calling?
    case StartLost(_) => c.creator.Calling?
    case FailStart(_, at) => c.creator.Refused? && at <= now
    case Find(p) => c.creator.Searching? && (p.Some? ==> HasBrowser(c, p.value.id))
    case Activate(at, _) => c.creator.Activating? && at <= now
    case Reread => c.creator.Rereading?
    case FallBack => c.creator.FallingBack?
    case ActivationBreaks => c.creator.Activating? || c.creator.Rereading? || c.creator.FallingBack?
    case Retain(_, _, w) => c.creator.Retaining? && w !in c.closers
    case CreatorVanishes => true
    case BeginEnd(w, _) => w !in c.closers
    case ReadRuntime(w) => At(c, now, w, Reading)
    case StartReaping(w) =>
      w in c.closers && c.closers[w].stage.Waiting? && c.closers[w].kind.Reap?
      && now < c.closers[w].kind.lease.until - STOP_LEASE + START_SLACK
    case Validate(w, at) => At(c, now, w, Validating) && c.closers[w].kind.Reap? && at <= now
    case Stop(w, reply) => At(c, now, w, Stopping) && (reply.Confirmed? ==> HasBrowser(c, c.closers[w].browser))
    case Snapshot(w, url) =>
      At(c, now, w, LookingUp) && (url.Some? ==> HasBrowser(c, c.closers[w].browser) && Stopped(c))
    case Learn(w) => w in c.closers && c.closers[w].stage.Learning? && Awake(c.closers[w], now)
    case Meter(w, _) => At(c, now, w, Metering)
    case Register(w, _, at) => At(c, now, w, Registering) && at <= now
    case Finalize(w, _, _, at) => At(c, now, w, Finalizing) && at <= now
    case Release(w) => At(c, now, w, Releasing) && c.closers[w].kind.Reap?
    case Break(w) => w in c.closers && Awake(c.closers[w], now) && !c.closers[w].stage.Waiting?
    case Vanish(w) => w in c.closers
    case BrowserAppears(_) => c.inFlight
    case BrowserStops => c.browser.Some?
    case SampleActive(_) => true
    case Hide(at) => at <= now
    case ClaimLookup(at, _) => at <= now && Resolvable(c.row, at)
    case Ask(n) => LookupAt(c, n, Ready)
    case Reply(n, _) => LookupAt(c, n, Asked)
    case Complete(n, at, _) => n in c.lookups && c.lookups[n].step.Completing? && at <= now
    case GiveUp(n, at) =>
      at <= now && (LookupAt(c, n, Failing) || (LookupAt(c, n, Deferring) && n >= MAX_LOOKUPS))
    case Defer(n, _) => LookupAt(c, n, Deferring) && n < MAX_LOOKUPS
    case TimeOut(n) => n in c.lookups
    case LookupVanishes(n) => n in c.lookups
  }

  // ----------------------------------------------------------------- effects

  function WithCloser(c: Cell, w: Id, k: Closer): Cell {
    c.(closers := c.closers[w := k])
  }

  function Without(c: Cell, w: Id): Cell {
    c.(closers := c.closers - {w})
  }

  /** A closer's error path: a reaper goes on to release its lease, the others just report. */
  function GivesUp(c: Cell, w: Id): Cell
    requires w in c.closers
  {
    var k := c.closers[w];
    if k.kind.Reap? && !k.stage.Releasing? then WithCloser(c, w, k.(stage := Releasing)) else Without(c, w)
  }

  /** An activation that failed hands over to recovery, except for a browser merely found. */
  function ActivationLost(p: Runtime, found: bool): Creator {
    if found then Done else Retaining(p)
  }

  function AfterSnapshot(k: Closer, url: Option<Secret>): Closer {
    k.(stage := if url.Some? then Learning(url.value) else Metering)
  }

  predicate CreatorAction(a: Action) {
    a.StartSucceeds? || a.StartRefused? || a.StartLost? || a.FailStart? || a.Find? || a.Activate? || a.Reread?
    || a.FallBack? || a.ActivationBreaks? || a.Retain? || a.CreatorVanishes?
  }

  predicate CreatorReady(c: Cell, a: Action) {
    && CreatorAction(a)
    && (a.Activate? || a.Reread? || a.FallBack? || a.ActivationBreaks? ==>
          c.creator.Activating? || c.creator.Rereading? || c.creator.FallingBack?)
    && (a.Reread? ==> c.creator.Rereading?)
    && (a.Retain? ==> c.creator.Retaining?)
  }

  function CreatorStep(c: Cell, a: Action): Cell
    requires CreatorReady(c, a)
  {
    match a
    case StartSucceeds(b, p, stopped, w) =>
      var started := c.(browser := Some(Browser(b, stopped)));
      if p.Some? then started.(creator := Activating(p.value, false))
      else WithCloser(started.(creator := Done), w, Closer(Recover, b, Stopping, false))
    case StartRefused => c.(creator := Refused)
    case StartLost(b) =>
      c.(creator := Searching, browser := if b.Some? then Some(Browser(b.value, false)) else None, inFlight := b.None?)
    case FailStart(reason, at) => c.(row := FailedStart(c.row, reason, at), creator := Done)
    case Find(p) => c.(creator := if p.Some? then Activating(p.value, true) else Done)
    case Activate(at, replyLost) =>
      var p, found := c.creator.p, c.creator.found;
      var next := Activated(c.row, p, at);
      if next.None? then c.(creator := Rereading(p, found, at))
      else c.(row := next.value, creator := if replyLost then ActivationLost(p, found) else Done)
    case Reread =>
      var p, found := c.creator.p, c.creator.found;
      c.(creator := if ActivationExpired(c.row, c.creator.at) then FallingBack(p, found) else ActivationLost(p, found))
    case FallBack =>
      c.(row := LateActivated(c.row, c.creator.p), creator := ActivationLost(c.creator.p, c.creator.found))
    case ActivationBreaks => c.(creator := ActivationLost(c.creator.p, c.creator.found))
    case Retain(reason, broken, w) =>
      var p := c.creator.p;
      var next := Retained(c.row, p, reason);
      if broken || next.Err? then WithCloser(c.(creator := Done), w, Closer(Recover, p.id, Stopping, false))
      else WithCloser(c.(row := next.value, creator := Done), w, Closer(Recover, p.id, Stopping, p.url.Some?))
    case CreatorVanishes => c.(creator := Done)
  }

  function StopStep(c: Cell, w: Id, reply: StopReply): Cell
    requires w in c.closers
  {
    var k := c.closers[w];
    var halted := if HasBrowser(c, k.browser) then c.(browser := Some(c.browser.value.(stopped := true))) else c;
    match reply
    case Confirmed(url) => WithCloser(halted, w, AfterSnapshot(k, url))
    case Ambiguous(committed) => WithCloser(if committed then halted else c, w, k.(stage := LookingUp))
    case Declined => GivesUp(c, w)
  }

  /** The finalizing transaction of this closer. */
  function Final(c: Cell, w: Id, reason: string, durationMs: nat, at: Time): Result<Row, StoreError>
    requires w in c.closers
  {
    match c.closers[w].kind
    case End => EndFinalized(c.row, at)
    case Reap(lease, _) => ExpiryFinalized(c.row, lease.id, at)
    case Recover => FailedAfterStop(c.row, c.closers[w].browser, reason, durationMs, c.closers[w].hasSource, at)
  }

  function FinalizeStep(c: Cell, w: Id, reason: string, durationMs: nat, at: Time): Cell
    requires w in c.closers
  {
    var next := Final(c, w, reason, durationMs, at);
    if next.Ok? then Without(c.(row := next.value), w) else GivesUp(c, w)
  }

  function RegisterStep(c: Cell, w: Id, durationMs: nat, at: Time): Cell
    requires w in c.closers
  {
    var k := c.closers[w];
    var next := if k.hasSource then MarkedPending(c.row, durationMs, 0, at)
                else ResolutionQueued(c.row, durationMs, at);
    if next.Ok? then WithCloser(c.(row := next.value), w, k.(stage := Finalizing)) else GivesUp(c, w)
  }

  function MeterStep(c: Cell, w: Id, sample: Sample): Cell
    requires w in c.closers
  {
    var k := c.closers[w];
    var next := UsageRecorded(c.row.session, c.usage, sample, true);
    if next.Ok? then
      WithCloser(c.(usage := next.value), w, k.(stage := if k.kind.Recover? then Finalizing else Registering))
    else GivesUp(c, w)
  }

  function ReadStep(c: Cell, w: Id): Cell {
    var runtime := EndingRuntime(c.row);
    if runtime.Ok? then WithCloser(c, w, Closer(End, runtime.value.id, Stopping, runtime.value.url.Some?))
    else Without(c, w)
  }

  function ReapStep(c: Cell, now: Time, a: Action): Cell
    requires a.StartReaping? || a.Validate? || a.Release?
    requires a.w in c.closers && c.closers[a.w].kind.Reap?
  {
    var k := c.closers[a.w];
    match a
    case StartReaping(w) => WithCloser(c, w, k.(stage := Validating, kind := k.kind.(startedAt := Some(now))))
    case Validate(w, at) =>
      if LeaseCurrent(c.row, k.kind.lease.id, at) then WithCloser(c, w, k.(stage := Stopping)) else Without(c, w)
    case Release(w) => Without(c.(row := Released(c.row, k.kind.lease.id)), w)
  }

  predicate LookupAction(a: Action) {
    a.Ask? || a.Reply? || a.Complete? || a.GiveUp? || a.Defer? || a.TimeOut? || a.LookupVanishes?
  }

  function StepFor(answer: Answer): Step {
    match answer
    case Found(url) => Completing(url)
    case Unavailable => Failing
    case NotYet => Deferring
  }

  predicate LookupReady(c: Cell, a: Action) {
    LookupAction(a) && a.attempt in c.lookups && (a.Complete? ==> c.lookups[a.attempt].step.Completing?)
  }

  function LookupStep(c: Cell, a: Action): Cell
    requires LookupReady(c, a)
  {
    var n := a.attempt;
    var l := c.lookups[n];
    match a
    case Ask(_) =>
      if n > MAX_LOOKUPS then c.(lookups := c.lookups[n := l.(step := Deferring)])
      else c.(lookups := c.lookups[n := l.(step := Asked)], queried := c.queried + [n])
    case Reply(_, answer) =>
      c.(lookups := c.lookups[n := l.(step := StepFor(answer))])
    case Complete(_, at, replyLost) =>
      var next := LookupCompleted(c.row, l.provider, n, l.step.url, at);
      var c' := if next.Ok? then c.(row := next.value.0) else c;
      c'.(lookups := if replyLost then c.lookups[n := l.(step := Deferring)] else c.lookups - {n})
    case GiveUp(_, at) => c.(row := LookupFailed(c.row, l.provider, n, at), lookups := c.lookups - {n})
    case Defer(_, nextAt) => c.(row := Rescheduled(c.row, n, nextAt), lookups := c.lookups - {n})
    case TimeOut(_) => c.(lookups := c.lookups[n := l.(step := Deferring)])
    case LookupVanishes(_) => c.(lookups := c.lookups - {n})
  }

  predicate CloserAction(a: Action) {
    a.BeginEnd? || a.ReadRuntime? || a.StartReaping? || a.Validate? || a.Release? || a.Stop? || a.Snapshot? || a.Learn?
    || a.Meter? || a.Register? || a.Finalize? || a.Break? || a.Vanish?
  }

  function CloserStep(c: Cell, now: Time, a: Action): Cell
    requires CloserAction(a) && Enabled(c, now, a)
  {
    match a
    case BeginEnd(w, note) => WithCloser(c.(row := EndBegun(c.row, note)), w, Closer(End, 0, Reading, false))
    case ReadRuntime(w) => ReadStep(c, w)
    case Stop(w, reply) => StopStep(c, w, reply)
    case Snapshot(w, url) =>
      if url.Some? then WithCloser(c, w, AfterSnapshot(c.closers[w], url.value)) else GivesUp(c, w)
    case Learn(w) =>
      WithCloser(c.(row := Remembered(c.row, c.closers[w].stage.url)), w,
                 c.closers[w].(stage := Metering, hasSource := true))
    case Meter(w, sample) => MeterStep(c, w, sample)
    case Register(w, durationMs, at) => RegisterStep(c, w, durationMs, at)
    case Finalize(w, reason, durationMs, at) => FinalizeStep(c, w, reason, durationMs, at)
    case Break(w) => GivesUp(c, w)
    case Vanish(w) => Without(c, w)
    case StartReaping(_) => ReapStep(c, now, a)
    case Validate(_, _) => ReapStep(c, now, a)
    case Release(_) => ReapStep(c, now, a)
  }

  function SideStep(c: Cell, now: Time, a: Action): Cell
    requires (a.BrowserAppears? || a.BrowserStops? || a.SampleActive? || a.Hide? || a.ClaimLookup?)
    requires Enabled(c, now, a)
  {
    match a
    case BrowserAppears(b) => c.(browser := Some(Browser(b, false)), inFlight := false)
    case BrowserStops => c.(browser := Some(c.browser.value.(stopped := true)))
    case SampleActive(sample) =>
      var next := UsageRecorded(c.row.session, c.usage, sample, false);
      if next.Ok? then c.(usage := next.value) else c
    case Hide(at) => (var next := Hidden(c.row, at); if next.Ok? then c.(row := next.value) else c)
    case ClaimLookup(_, leaseUntil) =>
      var row := LookupClaimed(c.row, leaseUntil);
      c.(row := row, lookups := c.lookups[row.resolve.value.attempts := Lookup(c.row.session.provider.value, Ready)])
  }

  function Apply(c: Cell, now: Time, a: Action): Cell
    requires Enabled(c, now, a)
  {
    if CreatorAction(a) then CreatorStep(c, a)
    else if CloserAction(a) then CloserStep(c, now, a)
    else if LookupAction(a) then LookupStep(c, a)
    else SideStep(c, now, a)
  }

  /** This cell's part of one reaper batch: the bulk updates, and a lease and worker if selected. */
  function ApplyClaim(c: Cell, at: Time, claim: Option<(Id, Lease)>): Cell {
    if claim.None? then c.(row := Claimed(c.row, at, None))
    else
      var (w, lease) := claim.value;
      var row := Claimed(c.row, at, Some(lease));
      var c' := c.(row := row, leases := c.leases + {lease.id});
      if Reapable(TtlReached(c.row, at), at) then
        WithCloser(c', w, Closer(Reap(lease, None), row.session.provider.value, Waiting, row.session.url.Some?))
      else c'
  }

  predicate ClaimEnabled(c: Cell, now: Time, at: Time, claim: Option<(Id, Lease)>) {
    at <= now &&
    (claim.Some? ==>
      && claim.value.0 !in c.closers && claim.value.1.id !in c.leases
      && claim.value.1.until == at + STOP_LEASE)
  }
}
