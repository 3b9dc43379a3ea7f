/** The invariant of a session cell, and its preservation by every action. */
module LifecycleLaws {
  import opened Wrappers
  import opened Rows
  import opened RowLaws
  import opened UsageRows
  import opened Lifecycle

  // ------------------------------------------------------------- invariant

  /** A recorded browser is the real one, and a session past its end has seen it stop; a session
      failed without one never had any and will get none. */
  predicate BrowserOk(c: Cell) {
    && (c.row.session.provider.Some? ==> HasBrowser(c, c.row.session.provider.value))
    && (c.row.session.status.Failed? && c.row.session.provider.None? ==> c.browser.None?)
    && (c.inFlight ==> c.browser.None? && !c.row.session.status.Failed?)
    && (!IsLive(c.row.session.status) && c.row.session.provider.Some? ==> Stopped(c))
  }

  /** Until its creator is done, a session cannot have failed, and only the creator's own steps can
      have given it a runtime. */
  predicate CreatorOk(c: Cell) {
    !c.creator.Done? ==>
      && !c.row.session.status.Failed?
      && (c.row.session.status.Starting? ==> c.row.session.url.None?)
      && match c.creator
         case Calling => c.browser.None? && !c.inFlight
         case Refused => c.browser.None? && !c.inFlight
         case Searching => c.row.session.provider.None?
         case Activating(p, _) => HasBrowser(c, p.id) && c.row.session.provider.None?
         case Rereading(p, _, _) => HasBrowser(c, p.id) && c.row.session.provider.None?
         case FallingBack(p, _) => HasBrowser(c, p.id) && c.row.session.provider.None?
         case Retaining(p) => HasBrowser(c, p.id)
         case Done => true
  }

  /** Stages reached only through a validated stopped snapshot. */
  predicate PastStop(s: Stage) {
    s.Learning? || s.Metering? || s.Registering? || s.Finalizing?
  }

  /** A reaper's session is past its limit. Its lease is the session's lease for as long as it has not
      elapsed, and its attempt starts early enough to end before that. */
  predicate ReapOk(c: Cell, now: Time, k: Closer)
    requires k.kind.Reap?
  {
    var lease := k.kind.lease;
    && lease.id in c.leases && c.row.session.expiresAt <= now
    && (now < lease.until ==> c.row.session.lease == Some(lease))
    && (k.kind.startedAt.Some? ==> k.kind.startedAt.value < lease.until - STOP_LEASE + START_SLACK)
    && (k.stage.Waiting? <==> k.kind.startedAt.None?)
  }

  predicate CloserOk(c: Cell, now: Time, k: Closer) {
    && (PastStop(k.stage) ==> Stopped(c))
    && (k.hasSource ==> c.row.session.url.Some?)
    && match k.kind
       case Recover =>
         && c.creator.Done? && HasBrowser(c, k.browser) && !c.row.session.status.Failed?
         && (k.stage.Stopping? || k.stage.LookingUp? || (PastStop(k.stage) && !k.stage.Registering?))
       case End =>
         && (k.stage.Reading? || k.stage.Stopping? || k.stage.LookingUp? || PastStop(k.stage))
         && (!k.stage.Reading? ==> c.row.session.provider == Some(k.browser))
         && (k.stage.Finalizing? ==> !c.row.recording.status.Recording?)
       case Reap(_, _) =>
         && c.row.session.provider == Some(k.browser)
         && !k.stage.Reading?
         && (k.stage.Finalizing? ==> !c.row.recording.status.Recording?)
         && ReapOk(c, now, k)
  }

  /** At most one recovery, and no two reapers share a lease. */
  predicate Apart(j: Closer, k: Closer) {
    && !(j.kind.Recover? && k.kind.Recover?)
    && (j.kind.Reap? && k.kind.Reap? ==> j.kind.lease.id != k.kind.lease.id)
  }

  predicate LookupOk(c: Cell, n: nat, l: Lookup) {
    && c.row.resolve.Some? && 1 <= n <= c.row.resolve.value.attempts
    && c.row.session.provider == Some(l.provider) && !IsLive(c.row.session.status)
    && (l.step.Ready? ==> n !in c.queried)
  }

  predicate QueriedOk(c: Cell) {
    && NoRepeats(c.queried)
    && forall n | n in c.queried :: 1 <= n <= MAX_LOOKUPS && c.row.resolve.Some? && n <= c.row.resolve.value.attempts
  }

  ghost predicate CellOk(c: Cell, now: Time) {
    && RowOk(c.row) && UsageOk(c.usage)
    && BrowserOk(c) && CreatorOk(c) && QueriedOk(c)
    && (c.row.session.lease.Some? ==> c.row.session.lease.value.id in c.leases)
    && (forall w | w in c.closers :: CloserOk(c, now, c.closers[w]))
    && (forall v, w | v in c.closers && w in c.closers && v != w :: Apart(c.closers[v], c.closers[w]))
    && (forall n | n in c.lookups :: LookupOk(c, n, c.lookups[n]))
  }

  lemma UsageIs(c: Cell, now: Time)
    requires CellOk(c, now)
    ensures UsageOk(c.usage)
  {
    hide Readable, RowOk;
  }

  lemma CloserIs(c: Cell, now: Time, w: Id)
    requires CellOk(c, now) && w in c.closers
    ensures CloserOk(c, now, c.closers[w])
  {
  }

  lemma QueriesAre(c: Cell, now: Time)
    requires CellOk(c, now)
    ensures QueriedOk(c)
  {
    hide Readable, RowOk;
  }

  lemma LookupIs(c: Cell, now: Time, n: nat)
    requires CellOk(c, now) && n in c.lookups
    ensures LookupOk(c, n, c.lookups[n])
  {
  }

  lemma CreatorIs(c: Cell, now: Time)
    requires CellOk(c, now)
    ensures RowOk(c.row) && CreatorOk(c) && BrowserOk(c)
    ensures !c.creator.Done? && !c.creator.Retaining? ==> c.row.session.provider.None?
  {
    hide Readable, RowOk;
  }

  // --------------------------------------------------------- generic moves

  lemma FreshIsOk(profile: Option<Id>, at: Time, ttl: Time, now: Time)
    ensures CellOk(Fresh(profile, at, ttl), now)
  {
    ReservedIsOk(profile, at, ttl);
    ReservedUsageIsOk(profile, at);
  }

  lemma TimePasses(c: Cell, now: Time, later: Time)
    requires CellOk(c, now) && now <= later
    ensures CellOk(c, later)
  {
    hide Readable;
    forall w | w in c.closers ensures CloserOk(c, later, c.closers[w]) { assert CloserOk(c, now, c.closers[w]); }
  }

  /** What every transaction but the creator's own and the lease steps leaves as it was. */
  predicate Quiet(c: Cell, row: Row) {
    && RowOk(row) && Up(c.row, row)
    && row.session.provider == c.row.session.provider && row.session.lease == c.row.session.lease
    && (row.session.status.Failed? ==> c.row.session.status.Failed?)
    && (row.session.status.Starting? && !c.creator.Done? ==> row.session.url == c.row.session.url)
    && (!IsLive(row.session.status) && row.session.provider.Some? ==> Stopped(c))
  }

  lemma QuietCloser(c: Cell, now: Time, row: Row, k: Closer)
    requires CloserOk(c, now, k) && Quiet(c, row)
    ensures CloserOk(c.(row := row), now, k)
  {
  }

  lemma QuietLookup(c: Cell, row: Row, n: nat, l: Lookup)
    requires LookupOk(c, n, l) && Quiet(c, row)
    ensures LookupOk(c.(row := row), n, l)
  {
  }

  lemma QuietCreator(c: Cell, row: Row)
    requires CreatorOk(c) && BrowserOk(c) && Quiet(c, row)
    ensures CreatorOk(c.(row := row)) && BrowserOk(c.(row := row))
  {
  }

  lemma RowMoves(c: Cell, now: Time, row: Row)
    requires CellOk(c, now) && Quiet(c, row)
    ensures CellOk(c.(row := row), now)
  {
    hide Readable, RowOk, NotOrphaned, ResolveOk, RuntimeOk;
    var c' := c.(row := row);
    QuietCreator(c, row);
    forall w | w in c'.closers ensures CloserOk(c', now, c'.closers[w]) { QuietCloser(c, now, row, c.closers[w]); }
    forall n | n in c'.lookups ensures LookupOk(c', n, c'.lookups[n]) { QuietLookup(c, row, n, c.lookups[n]); }
  }

  /** A closer may take any stage it satisfies, if it stays apart from the others. */
  lemma CloserMoves(c: Cell, now: Time, w: Id, k: Closer)
    requires CellOk(c, now) && CloserOk(c, now, k)
    requires forall v | v in c.closers && v != w :: Apart(c.closers[v], k) && Apart(k, c.closers[v])
    ensures CellOk(WithCloser(c, w, k), now)
  {
    hide Readable, RowOk;
    var c' := WithCloser(c, w, k);
    forall v | v in c'.closers ensures CloserOk(c', now, c'.closers[v]) {
      if v != w { assert CloserOk(c, now, c.closers[v]); }
      SameCloser(c, c', now, c'.closers[v]);
    }
    forall n | n in c'.lookups ensures LookupOk(c', n, c'.lookups[n]) { assert LookupOk(c, n, c.lookups[n]); }
  }

  lemma SameCloser(c: Cell, c': Cell, now: Time, k: Closer)
    requires c'.row == c.row && c'.browser == c.browser && c'.creator == c.creator && c'.leases == c.leases
    ensures CloserOk(c', now, k) == CloserOk(c, now, k)
  {
  }

  /** The same closer at another stage stays apart from the others. */
  lemma CloserAdvances(c: Cell, now: Time, w: Id, k: Closer)
    requires CellOk(c, now) && CloserOk(c, now, k) && w in c.closers
    requires match c.closers[w].kind
             case End => k.kind.End?
             case Recover => k.kind.Recover?
             case Reap(lease, _) => k.kind.Reap? && k.kind.lease == lease
    ensures CellOk(WithCloser(c, w, k), now)
  {
    forall v | v in c.closers && v != w ensures Apart(c.closers[v], k) && Apart(k, c.closers[v]) {
      assert Apart(c.closers[v], c.closers[w]) && Apart(c.closers[w], c.closers[v]);
    }
    CloserMoves(c, now, w, k);
  }

  lemma CloserLeaves(c: Cell, now: Time, w: Id)
    requires CellOk(c, now)
    ensures CellOk(Without(c, w), now)
  {
    hide Readable, RowOk;
    var c' := Without(c, w);
    forall v | v in c'.closers ensures CloserOk(c', now, c'.closers[v]) {
      assert CloserOk(c, now, c.closers[v]);
      SameCloser(c, c', now, c.closers[v]);
    }
    forall n | n in c'.lookups ensures LookupOk(c', n, c'.lookups[n]) { assert LookupOk(c, n, c.lookups[n]); }
  }

  lemma FailureKeeps(c: Cell, now: Time, w: Id)
    requires CellOk(c, now) && w in c.closers && !c.closers[w].stage.Waiting?
    ensures CellOk(GivesUp(c, w), now)
  {
    hide CellOk, Readable, RowOk;
    var k := c.closers[w];
    CloserIs(c, now, w);
    if k.kind.Reap? && !k.stage.Releasing? {
      CloserAdvances(c, now, w, k.(stage := Releasing));
    } else {
      CloserLeaves(c, now, w);
    }
  }

  /** The browser stopping helps every invariant. */
  lemma HaltKeeps(c: Cell, now: Time)
    requires CellOk(c, now) && c.browser.Some?
    ensures CellOk(c.(browser := Some(c.browser.value.(stopped := true))), now)
  {
    hide Readable, RowOk;
    var c' := c.(browser := Some(c.browser.value.(stopped := true)));
    forall v | v in c'.closers ensures CloserOk(c', now, c'.closers[v]) { assert CloserOk(c, now, c.closers[v]); }
    forall n | n in c'.lookups ensures LookupOk(c', n, c'.lookups[n]) { assert LookupOk(c, n, c.lookups[n]); }
  }

  lemma NoLookupsUnrecorded(c: Cell, now: Time)
    requires CellOk(c, now) && c.row.session.provider.None?
    ensures c.lookups == map[]
  {
    hide CellOk;
    forall n | n in c.lookups ensures false { LookupIs(c, now, n); }
  }

  /** A browser that a lost start creates late belongs to a session that has recorded none: nobody can
      have taken it for stopped. */
  lemma AppearanceKeeps(c: Cell, now: Time, b: Id)
    requires CellOk(c, now) && c.inFlight
    ensures CellOk(c.(browser := Some(Browser(b, false)), inFlight := false), now)
  {
    hide Readable, RowOk;
    var c' := c.(browser := Some(Browser(b, false)), inFlight := false);
    forall v | v in c'.closers ensures CloserOk(c', now, c'.closers[v]) { assert CloserOk(c, now, c.closers[v]); }
    NoLookupsUnrecorded(c, now);
  }

  lemma UsageMoves(c: Cell, now: Time, usage: Usage)
    requires CellOk(c, now) && UsageOk(usage)
    ensures CellOk(c.(usage := usage), now)
  {
    hide Readable, RowOk, UsageOk;
    var c' := c.(usage := usage);
    forall v | v in c'.closers ensures CloserOk(c', now, c'.closers[v]) {
      assert CloserOk(c, now, c.closers[v]);
      SameCloser(c, c', now, c.closers[v]);
    }
    forall n | n in c'.lookups ensures LookupOk(c', n, c'.lookups[n]) { assert LookupOk(c, n, c.lookups[n]); }
  }

  // ------------------------------------------------------------- the creator

  /** With no recovery and no provider there is no closer past reading, so a new browser or runtime
      disturbs nobody. */
  lemma OnlyReaders(c: Cell, now: Time)
    requires CellOk(c, now) && !c.creator.Done? && c.row.session.provider.None?
    ensures forall w | w in c.closers :: c.closers[w].kind.End? && c.closers[w].stage.Reading?
    ensures c.lookups == map[]
  {
    hide CellOk, Readable, RowOk;
    CreatorIs(c, now);
    forall w | w in c.closers ensures c.closers[w].kind.End? && c.closers[w].stage.Reading? {
      CloserIs(c, now, w);
    }
    forall n | n in c.lookups ensures false { LookupIs(c, now, n); }
  }

  /** A step of the creator that leaves the rows alone. */
  lemma CreatorMoves(c: Cell, now: Time, browser: Option<Browser>, inFlight: bool, creator: Creator)
    requires CellOk(c, now) && !c.creator.Done? && c.row.session.provider.None?
    requires CreatorOk(c.(browser := browser, inFlight := inFlight, creator := creator))
    requires inFlight ==> browser.None?
    ensures CellOk(c.(browser := browser, inFlight := inFlight, creator := creator), now)
  {
    hide Readable, RowOk;
    var c' := c.(browser := browser, inFlight := inFlight, creator := creator);
    OnlyReaders(c, now);
    forall w | w in c'.closers ensures CloserOk(c', now, c'.closers[w]) { assert CloserOk(c, now, c.closers[w]); }
  }

  /** A creator that is done leaves its session to others. */
  lemma CreatorLeaves(c: Cell, now: Time)
    requires CellOk(c, now)
    ensures CellOk(c.(creator := Done), now)
  {
    hide Readable, RowOk;
    var c' := c.(creator := Done);
    forall w | w in c'.closers ensures CloserOk(c', now, c'.closers[w]) { assert CloserOk(c, now, c.closers[w]); }
    forall n | n in c'.lookups ensures LookupOk(c', n, c'.lookups[n]) { assert LookupOk(c, n, c.lookups[n]); }
  }

  /** While the creator is not done there is no recovery. */
  lemma NoRecoveryYet(c: Cell, now: Time, w: Id)
    requires CellOk(c, now) && !c.creator.Done? && w in c.closers
    ensures !c.closers[w].kind.Recover?
  {
    assert CloserOk(c, now, c.closers[w]);
  }

  lemma RecoveryStarts(c: Cell, now: Time, before: Cell, w: Id, k: Closer)
    requires CellOk(c, now) && CellOk(before, now) && !before.creator.Done? && c.closers == before.closers
    requires k.kind.Recover? && CloserOk(c, now, k) && w !in c.closers
    ensures CellOk(WithCloser(c, w, k), now)
  {
    forall v | v in c.closers && v != w ensures Apart(c.closers[v], k) && Apart(k, c.closers[v]) {
      NoRecoveryYet(before, now, v);
    }
    CloserMoves(c, now, w, k);
  }

  /** A started browser whose response failed validation goes straight to recovery. */
  lemma MalformedStartKeeps(c: Cell, now: Time, b: Id, stopped: bool, w: Id)
    requires CellOk(c, now) && Enabled(c, now, StartSucceeds(b, None, stopped, w))
    ensures CellOk(Apply(c, now, StartSucceeds(b, None, stopped, w)), now)
  {
    hide CellOk, Readable, RowOk;
    CreatorIs(c, now);
    var browser := Some(Browser(b, stopped));
    CreatorMoves(c, now, browser, false, Done);
    RecoveryStarts(c.(browser := browser, creator := Done), now, c, w, Closer(Recover, b, Stopping, false));
  }

  lemma StartReplyKeeps(c: Cell, now: Time, a: Action)
    requires CellOk(c, now) && Enabled(c, now, a)
    requires (a.StartSucceeds? && a.p.Some?) || a.StartRefused? || a.StartLost? || a.Find?
    ensures CellOk(Apply(c, now, a), now)
  {
    hide CellOk, Readable, RowOk;
    CreatorIs(c, now);
    match a
    case StartSucceeds(b, p, stopped, w) => 
      CreatorMoves(c, now, Some(Browser(b, stopped)), false, Activating(p.value, false));
    case StartRefused => CreatorMoves(c, now, c.browser, c.inFlight, Refused);
    case StartLost(b) =>
      CreatorMoves(c, now, if b.Some? then Some(Browser(b.value, false)) else None, b.None?, Searching);
    case Find(p) =>
      if p.Some? { CreatorMoves(c, now, c.browser, c.inFlight, Activating(p.value, true)); }
      else { CreatorLeaves(c, now); }
  }

  /** The creator's own transactions: the only ones that give a session its runtime. */
  lemma RuntimeArrives(c: Cell, now: Time, row: Row, creator: Creator)
    requires CellOk(c, now) && !c.creator.Done? && c.row.session.provider.None?
    requires RowOk(row) && Up(c.row, row) && row.session.lease == c.row.session.lease
    requires IsLive(row.session.status)
    requires row.resolve == c.row.resolve
    requires BrowserOk(c.(row := row)) && CreatorOk(c.(row := row, creator := creator))
    ensures CellOk(c.(row := row, creator := creator), now)
  {
    hide Readable, RowOk;
    var c' := c.(row := row, creator := creator);
    OnlyReaders(c, now);
    forall w | w in c'.closers ensures CloserOk(c', now, c'.closers[w]) { assert CloserOk(c, now, c.closers[w]); }
  }

  lemma ActivateStepKeeps(c: Cell, now: Time, at: Time, replyLost: bool)
    requires CellOk(c, now) && Enabled(c, now, Activate(at, replyLost))
    ensures CellOk(Apply(c, now, Activate(at, replyLost)), now)
  {
    hide CellOk, Readable, RowOk;
    CreatorIs(c, now);
    var p, found := c.creator.p, c.creator.found;
    ActivationKeeps(c.row, p, at);
    var next := Activated(c.row, p, at);
    if next.Some? {
      RuntimeArrives(c, now, next.value, if replyLost then ActivationLost(p, found) else Done);
    } else {
      CreatorMoves(c, now, c.browser, c.inFlight, Rereading(p, found, at));
    }
  }

  lemma LateRuntimeArrives(c: Cell, now: Time)
    requires CellOk(c, now) && c.creator.FallingBack? && c.row.session.status.Starting?
    ensures CellOk(c.(row := LateActivated(c.row, c.creator.p),
                      creator := ActivationLost(c.creator.p, c.creator.found)), now)
  {
    hide CellOk, Readable, RowOk;
    CreatorIs(c, now);
    ActivationKeeps(c.row, c.creator.p, now);
    RuntimeArrives(c, now, LateActivated(c.row, c.creator.p), ActivationLost(c.creator.p, c.creator.found));
  }

  lemma FallBackStepKeeps(c: Cell, now: Time)
    requires CellOk(c, now) && Enabled(c, now, FallBack)
    ensures CellOk(Apply(c, now, FallBack), now)
  {
    hide CellOk, Readable, RowOk;
    CreatorIs(c, now);
    var p, found := c.creator.p, c.creator.found;
    if c.row.session.status.Starting? {
      LateRuntimeArrives(c, now);
    } else {
      CreatorMoves(c, now, c.browser, c.inFlight, ActivationLost(p, found));
    }
  }

  lemma ActivationStepKeeps(c: Cell, now: Time, a: Action)
    requires CellOk(c, now) && Enabled(c, now, a) && (a.Reread? || a.ActivationBreaks?)
    ensures CellOk(Apply(c, now, a), now)
  {
    hide CellOk, Readable, RowOk;
    CreatorIs(c, now);
    var p, found := c.creator.p, c.creator.found;
    match a
    case Reread =>
      CreatorMoves(c, now, c.browser, c.inFlight,
                   if ActivationExpired(c.row, c.creator.at) then FallingBack(p, found) else ActivationLost(p, found));
    case ActivationBreaks => CreatorMoves(c, now, c.browser, c.inFlight, ActivationLost(p, found));
  }

  /** Retaining sets the very runtime the creator started, so nobody else's browser changes. */
  lemma RetainRowKeeps(c: Cell, now: Time, reason: string)
    requires CellOk(c, now) && c.creator.Retaining? && Retained(c.row, c.creator.p, reason).Ok?
    ensures CellOk(c.(row := Retained(c.row, c.creator.p, reason).value, creator := Done), now)
  {
    hide CellOk, Readable, RowOk;
    CreatorIs(c, now);
    var row := Retained(c.row, c.creator.p, reason).value;
    RetentionKeeps(c.row, c.creator.p, reason);
    if c.row.session.provider.None? {
      RuntimeArrives(c, now, row, Done);
    } else {
      RowMoves(c, now, row);
      CreatorLeaves(c.(row := row), now);
    }
  }

  lemma RetainStepKeeps(c: Cell, now: Time, reason: string, broken: bool, w: Id)
    requires CellOk(c, now) && Enabled(c, now, Retain(reason, broken, w))
    ensures CellOk(Apply(c, now, Retain(reason, broken, w)), now)
  {
    hide CellOk, Readable, RowOk;
    CreatorIs(c, now);
    var p := c.creator.p;
    var next := Retained(c.row, p, reason);
    if broken || next.Err? {
      CreatorLeaves(c, now);
      RecoveryStarts(c.(creator := Done), now, c, w, Closer(Recover, p.id, Stopping, false));
    } else {
      RetainRowKeeps(c, now, reason);
      RetentionKeeps(c.row, p, reason);
      RecoveryStarts(c.(row := next.value, creator := Done), now, c, w, Closer(Recover, p.id, Stopping, p.url.Some?));
    }
  }

  /** A refused start: no browser was ever created, so failing the session frees nothing real. */
  lemma FailStartKeeps(c: Cell, now: Time, reason: string, at: Time)
    requires CellOk(c, now) && Enabled(c, now, FailStart(reason, at))
    ensures CellOk(Apply(c, now, FailStart(reason, at)), now)
  {
    hide Readable;
    FailedStartKeeps(c.row, reason, at);
    OnlyReaders(c, now);
    var c' := c.(row := FailedStart(c.row, reason, at), creator := Done);
    forall w | w in c'.closers ensures CloserOk(c', now, c'.closers[w]) { assert CloserOk(c, now, c.closers[w]); }
  }

  lemma CreatorVanishKeeps(c: Cell, now: Time)
    requires CellOk(c, now) && Enabled(c, now, CreatorVanishes)
    ensures CellOk(Apply(c, now, CreatorVanishes), now)
  {
    hide CellOk;
    CreatorLeaves(c, now);
  }

  lemma CreatorStepKeeps(c: Cell, now: Time, a: Action)
    requires CellOk(c, now) && Enabled(c, now, a)
    requires a.StartSucceeds? || a.StartRefused? || a.StartLost? || a.FailStart? || a.Find? || a.Activate? || a.Reread?
          || a.FallBack? || a.ActivationBreaks? || a.Retain? || a.CreatorVanishes?
    ensures CellOk(Apply(c, now, a), now)
  {
    hide CellOk, CreatorStep;
    match a
    case FailStart(reason, at) => FailStartKeeps(c, now, reason, at);
    case Retain(reason, broken, w) => RetainStepKeeps(c, now, reason, broken, w);
    case CreatorVanishes => CreatorVanishKeeps(c, now);
    case Activate(at, replyLost) => ActivateStepKeeps(c, now, at, replyLost);
    case FallBack => FallBackStepKeeps(c, now);
    case StartSucceeds(b, p, stopped, w) =>
      if p.Some? { StartReplyKeeps(c, now, a); } else { MalformedStartKeeps(c, now, b, stopped, w); }
    case StartRefused => StartReplyKeeps(c, now, a);
    case StartLost(_) => StartReplyKeeps(c, now, a);
    case Find(_) => StartReplyKeeps(c, now, a);
    case _ => ActivationStepKeeps(c, now, a);
  }

  // ------------------------------------------------------------- the closers

  lemma BeginEndStepKeeps(c: Cell, now: Time, w: Id, note: string)
    requires CellOk(c, now) && Enabled(c, now, BeginEnd(w, note))
    ensures CellOk(Apply(c, now, BeginEnd(w, note)), now)
  {
    hide CellOk, Readable, RowOk;
    CreatorIs(c, now);
    EndBegunKeeps(c.row, note);
    var row := EndBegun(c.row, note);
    RowMoves(c, now, row);
    ReaderJoins(c.(row := row), now, w);
  }

  lemma ReaderJoins(c: Cell, now: Time, w: Id)
    requires CellOk(c, now) && w !in c.closers
    ensures CellOk(WithCloser(c, w, Closer(End, 0, Reading, false)), now)
  {
    hide CellOk;
    CloserMoves(c, now, w, Closer(End, 0, Reading, false));
  }

  lemma ReadStepKeeps(c: Cell, now: Time, w: Id)
    requires CellOk(c, now) && Enabled(c, now, ReadRuntime(w))
    ensures CellOk(Apply(c, now, ReadRuntime(w)), now)
  {
    hide CellOk, Readable, RowOk;
    CloserIs(c, now, w);
    var runtime := EndingRuntime(c.row);
    if runtime.Ok? {
      CloserAdvances(c, now, w, Closer(End, runtime.value.id, Stopping, runtime.value.url.Some?));
    } else {
      CloserLeaves(c, now, w);
    }
  }

  lemma SnapshotKeeps(c: Cell, now: Time, w: Id, url: Option<Secret>)
    requires CellOk(c, now) && w in c.closers && Stopped(c)
    requires c.closers[w].stage.Stopping? || c.closers[w].stage.LookingUp?
    ensures CellOk(WithCloser(c, w, AfterSnapshot(c.closers[w], url)), now)
  {
    hide CellOk, Readable, RowOk;
    CloserIs(c, now, w);
    CloserAdvances(c, now, w, AfterSnapshot(c.closers[w], url));
  }

  lemma StopStepKeeps(c: Cell, now: Time, w: Id, reply: StopReply)
    requires CellOk(c, now) && Enabled(c, now, Stop(w, reply))
    ensures CellOk(Apply(c, now, Stop(w, reply)), now)
  {
    hide CellOk, Readable, RowOk;
    var k := c.closers[w];
    CloserIs(c, now, w);
    var halted := if HasBrowser(c, k.browser) then c.(browser := Some(c.browser.value.(stopped := true))) else c;
    if HasBrowser(c, k.browser) { HaltKeeps(c, now); }
    match reply
    case Confirmed(url) => SnapshotKeeps(halted, now, w, url);
    case Ambiguous(committed) =>
      var c1 := if committed then halted else c;
      CloserIs(c1, now, w);
      CloserAdvances(c1, now, w, k.(stage := LookingUp));
    case Declined => FailureKeeps(c, now, w);
  }

  lemma LearnStepKeeps(c: Cell, now: Time, w: Id)
    requires CellOk(c, now) && Enabled(c, now, Learn(w))
    ensures CellOk(Apply(c, now, Learn(w)), now)
  {
    hide CellOk, Readable, RowOk;
    var k := c.closers[w];
    CloserIs(c, now, w);
    CreatorIs(c, now);
    var row := Remembered(c.row, k.stage.url);
    RememberKeeps(c.row, k.stage.url);
    LearnerIsAllowed(c, now, w);
    RowMoves(c, now, row);
    CloserIs(c.(row := row), now, w);
    CloserAdvances(c.(row := row), now, w, k.(stage := Metering, hasSource := true));
  }

  /** A source is learned only for a session whose creator is done or which already has a runtime. */
  lemma LearnerIsAllowed(c: Cell, now: Time, w: Id)
    requires CellOk(c, now) && w in c.closers && c.closers[w].stage.Learning?
    ensures c.creator.Done? || !c.row.session.status.Starting?
  {
    assert CloserOk(c, now, c.closers[w]);
  }

  lemma MeterStepKeeps(c: Cell, now: Time, w: Id, sample: Sample)
    requires CellOk(c, now) && Enabled(c, now, Meter(w, sample))
    ensures CellOk(Apply(c, now, Meter(w, sample)), now)
  {
    hide UsageRecorded, Readable, CellOk, RowOk;
    var k := c.closers[w];
    CloserIs(c, now, w);
    UsageIs(c, now);
    var next := UsageRecorded(c.row.session, c.usage, sample, true);
    if next.Ok? {
      SampleKeeps(c.row.session, c.usage, sample, true);
      UsageMoves(c, now, next.value);
      var c1 := c.(usage := next.value);
      var k1 := k.(stage := if k.kind.Recover? then Finalizing else Registering);
      SameCloser(c, c1, now, k1);
      CloserAdvances(c1, now, w, k1);
    } else {
      FailureKeeps(c, now, w);
    }
  }

  lemma RegisterStepKeeps(c: Cell, now: Time, w: Id, durationMs: nat, at: Time)
    requires CellOk(c, now) && Enabled(c, now, Register(w, durationMs, at))
    ensures CellOk(Apply(c, now, Register(w, durationMs, at)), now)
  {
    hide CellOk, Readable, RowOk;
    var k := c.closers[w];
    CloserIs(c, now, w);
    CreatorIs(c, now);
    MarkKeeps(c.row, durationMs, 0, at);
    QueueKeeps(c.row, durationMs, at);
    var next := if k.hasSource then MarkedPending(c.row, durationMs, 0, at)
                else ResolutionQueued(c.row, durationMs, at);
    if next.Ok? {
      RowMoves(c, now, next.value);
      QuietCloser(c, now, next.value, k);
      CloserAdvances(c.(row := next.value), now, w, k.(stage := Finalizing));
    } else {
      FailureKeeps(c, now, w);
    }
  }

  /** Finalizing an end or an expiry: the stop was confirmed, so the freed slot is really free. */
  lemma FinalizeStepKeeps(c: Cell, now: Time, w: Id, reason: string, durationMs: nat, at: Time)
    requires w in c.closers && !c.closers[w].kind.Recover?
    requires CellOk(c, now) && Enabled(c, now, Finalize(w, reason, durationMs, at))
    ensures CellOk(Apply(c, now, Finalize(w, reason, durationMs, at)), now)
  {
    hide CellOk, Readable, RowOk;
    var k := c.closers[w];
    CloserIs(c, now, w);
    CreatorIs(c, now);
    EndFinalizedKeeps(c.row, at);
    if k.kind.Reap? { ExpiryFinalizedKeeps(c.row, k.kind.lease.id, at); }
    var next := if k.kind.End? then EndFinalized(c.row, at) else ExpiryFinalized(c.row, k.kind.lease.id, at);
    if next.Ok? {
      RowMoves(c, now, next.value);
      CloserLeaves(c.(row := next.value), now, w);
    } else {
      FailureKeeps(c, now, w);
    }
  }

  /** The one recovery fails its session; everyone else who is still closing it only reads. */
  lemma RecoveryFinalizes(c: Cell, now: Time, w: Id, reason: string, durationMs: nat, at: Time)
    requires w in c.closers && c.closers[w].kind.Recover?
    requires CellOk(c, now) && Enabled(c, now, Finalize(w, reason, durationMs, at))
    ensures CellOk(Apply(c, now, Finalize(w, reason, durationMs, at)), now)
  {
    hide CellOk, Readable, RowOk;
    var k := c.closers[w];
    CloserIs(c, now, w);
    CreatorIs(c, now);
    var next := FailedAfterStop(c.row, k.browser, reason, durationMs, k.hasSource, at);
    if next.Ok? {
      FailedAfterStopKeeps(c.row, k.browser, reason, durationMs, k.hasSource, at);
      CloserLeaves(c, now, w);
      FailedRowKeeps(Without(c, w), now, w, c, next.value);
    } else {
      FailureKeeps(c, now, w);
    }
  }

  lemma FailedRowKeeps(c: Cell, now: Time, w: Id, before: Cell, row: Row)
    requires CellOk(before, now) && w in before.closers && before.closers[w].kind.Recover? && c == Without(before, w)
    requires CellOk(c, now) && RowOk(row) && Up(c.row, row) && Stopped(c) && c.creator.Done?
    requires row.session.lease == c.row.session.lease
    requires row.session.provider.Some? && HasBrowser(c, row.session.provider.value)
    ensures CellOk(c.(row := row), now)
  {
    hide Readable, RowOk;
    var c' := c.(row := row);
    forall v | v in c'.closers ensures CloserOk(c', now, c'.closers[v]) {
      assert CloserOk(c, now, c.closers[v]) && Apart(before.closers[v], before.closers[w]);
    }
    forall n | n in c'.lookups ensures LookupOk(c', n, c'.lookups[n]) { assert LookupOk(c, n, c.lookups[n]); }
  }

  lemma ReapStepKeeps(c: Cell, now: Time, a: Action)
    requires CellOk(c, now) && Enabled(c, now, a) && (a.StartReaping? || a.Validate?)
    ensures CellOk(Apply(c, now, a), now)
  {
    hide CellOk, Readable, RowOk;
    var k := c.closers[a.w];
    CloserIs(c, now, a.w);
    match a
    case StartReaping(w) => CloserAdvances(c, now, w, k.(stage := Validating, kind := k.kind.(startedAt := Some(now))));
    case Validate(w, at) =>
      if LeaseCurrent(c.row, k.kind.lease.id, at) { CloserAdvances(c, now, w, k.(stage := Stopping)); }
      else { CloserLeaves(c, now, w); }
  }

  /** Releasing takes effect only for the holder, so no other reaper loses its lease by it. */
  lemma ReleaseStepKeeps(c: Cell, now: Time, w: Id)
    requires CellOk(c, now) && w in c.closers && c.closers[w].kind.Reap?
    ensures CellOk(Without(c.(row := Released(c.row, c.closers[w].kind.lease.id)), w), now)
  {
    hide Readable;
    var lease := c.closers[w].kind.lease.id;
    var c' := Without(c.(row := Released(c.row, lease)), w);
    ReleaseKeeps(c.row, lease);
    forall v | v in c'.closers ensures CloserOk(c', now, c'.closers[v]) {
      assert CloserOk(c, now, c.closers[v]) && Apart(c.closers[v], c.closers[w]);
    }
    forall n | n in c'.lookups ensures LookupOk(c', n, c'.lookups[n]) { assert LookupOk(c, n, c.lookups[n]); }
  }

  lemma CloserStepKeeps(c: Cell, now: Time, a: Action)
    requires CellOk(c, now) && Enabled(c, now, a)
    requires a.BeginEnd? || a.ReadRuntime? || a.StartReaping? || a.Validate? || a.Stop? || a.Snapshot? || a.Learn?
          || a.Meter? || a.Register? || a.Finalize? || a.Release? || a.Break? || a.Vanish?
    ensures CellOk(Apply(c, now, a), now)
  {
    hide CellOk, ReadStep, StopStep, MeterStep, RegisterStep, FinalizeStep;
    match a
    case BeginEnd(w, note) => BeginEndStepKeeps(c, now, w, note);
    case ReadRuntime(w) => ReadStepKeeps(c, now, w);
    case Stop(w, reply) => StopStepKeeps(c, now, w, reply);
    case Snapshot(w, url) =>
      if url.Some? { SnapshotKeeps(c, now, w, url.value); } else { FailureKeeps(c, now, w); }
    case Learn(w) => LearnStepKeeps(c, now, w);
    case Meter(w, sample) => MeterStepKeeps(c, now, w, sample);
    case Register(w, durationMs, at) => RegisterStepKeeps(c, now, w, durationMs, at);
    case Finalize(w, reason, durationMs, at) =>
      if c.closers[w].kind.Recover? { RecoveryFinalizes(c, now, w, reason, durationMs, at); }
      else { FinalizeStepKeeps(c, now, w, reason, durationMs, at); }
    case Break(w) => FailureKeeps(c, now, w);
    case Vanish(w) => CloserLeaves(c, now, w);
    case Release(w) => ReleaseStepKeeps(c, now, w);
    case _ => ReapStepKeeps(c, now, a);
  }

  // ------------------------------------------------------------- the lookups

  /** Attempt numbers only grow, so a claimed attempt is new to lookups and queries alike. */
  lemma ClaimLookupKeeps(c: Cell, now: Time, at: Time, leaseUntil: Time)
    requires CellOk(c, now) && Enabled(c, now, ClaimLookup(at, leaseUntil))
    ensures CellOk(Apply(c, now, ClaimLookup(at, leaseUntil)), now)
  {
    hide CellOk, Readable, RowOk;
    CreatorIs(c, now);
    QueriesAre(c, now);
    LookupClaimKeeps(c.row, at, leaseUntil);
    var row := LookupClaimed(c.row, leaseUntil);
    RowMoves(c, now, row);
    LookupMoves(c.(row := row), now, c.queried, row.resolve.value.attempts,
                Lookup(c.row.session.provider.value, Ready));
  }

  lemma LookupMoves(c: Cell, now: Time, queried: seq<nat>, n: nat, l: Lookup)
    requires CellOk(c, now) && QueriedOk(c.(queried := queried)) && LookupOk(c.(queried := queried), n, l)
    requires forall m | m in c.lookups && m != n :: m in queried ==> m in c.queried
    ensures CellOk(c.(lookups := c.lookups[n := l], queried := queried), now)
  {
    hide Readable, RowOk;
    var c' := c.(lookups := c.lookups[n := l], queried := queried);
    forall w | w in c'.closers ensures CloserOk(c', now, c'.closers[w]) {
      assert CloserOk(c, now, c.closers[w]);
      SameCloser(c, c', now, c.closers[w]);
    }
    forall m | m in c'.lookups ensures LookupOk(c', m, c'.lookups[m]) {
      if m != n { assert LookupOk(c, m, c.lookups[m]); }
    }
  }

  lemma LookupLeaves(c: Cell, now: Time, n: nat)
    requires CellOk(c, now)
    ensures CellOk(c.(lookups := c.lookups - {n}), now)
  {
    hide Readable, RowOk;
    var c' := c.(lookups := c.lookups - {n});
    forall w | w in c'.closers ensures CloserOk(c', now, c'.closers[w]) {
      assert CloserOk(c, now, c.closers[w]);
      SameCloser(c, c', now, c.closers[w]);
    }
    forall m | m in c'.lookups ensures LookupOk(c', m, c'.lookups[m]) { assert LookupOk(c, m, c.lookups[m]); }
  }

  /** One provider query per attempt, and none beyond the cap. */
  lemma AskKeeps(c: Cell, now: Time, n: nat)
    requires CellOk(c, now) && Enabled(c, now, Ask(n))
    ensures CellOk(Apply(c, now, Ask(n)), now)
  {
    hide CellOk, Readable, RowOk;
    var l := c.lookups[n];
    LookupIs(c, now, n);
    QueriesAre(c, now);
    if n > MAX_LOOKUPS {
      LookupMoves(c, now, c.queried, n, l.(step := Deferring));
      assert c.(lookups := c.lookups[n := l.(step := Deferring)], queried := c.queried)
          == c.(lookups := c.lookups[n := l.(step := Deferring)]);
    } else {
      LookupMoves(c, now, c.queried + [n], n, l.(step := Asked));
    }
  }

  lemma LookupRowKeeps(c: Cell, now: Time, n: nat, at: Time, nextAt: Time, url: Secret)
    requires CellOk(c, now) && n in c.lookups
    ensures CellOk(c.(row := Rescheduled(c.row, n, nextAt)), now)
    ensures CellOk(c.(row := LookupFailed(c.row, c.lookups[n].provider, n, at)), now)
    ensures LookupCompleted(c.row, c.lookups[n].provider, n, url, at).Ok? ==>
              CellOk(c.(row := LookupCompleted(c.row, c.lookups[n].provider, n, url, at).value.0), now)
  {
    hide CellOk, Readable, RowOk;
    var l := c.lookups[n];
    LookupIs(c, now, n);
    CreatorIs(c, now);
    RescheduleKeeps(c.row, n, nextAt);
    RowMoves(c, now, Rescheduled(c.row, n, nextAt));
    LookupFailedKeeps(c.row, l.provider, n, at);
    RowMoves(c, now, LookupFailed(c.row, l.provider, n, at));
    LookupCompletedKeeps(c.row, l.provider, n, url, at);
    if LookupCompleted(c.row, l.provider, n, url, at).Ok? {
      RowMoves(c, now, LookupCompleted(c.row, l.provider, n, url, at).value.0);
    }
  }

  lemma StepMoves(c: Cell, now: Time, n: nat, step: Step)
    requires CellOk(c, now) && n in c.lookups && !step.Ready?
    ensures CellOk(c.(lookups := c.lookups[n := c.lookups[n].(step := step)]), now)
  {
    hide CellOk, Readable, RowOk;
    var l := c.lookups[n];
    LookupIs(c, now, n);
    QueriesAre(c, now);
    LookupMoves(c, now, c.queried, n, l.(step := step));
    assert c.(lookups := c.lookups[n := l.(step := step)], queried := c.queried)
        == c.(lookups := c.lookups[n := l.(step := step)]);
  }

  lemma LookupStepKeeps(c: Cell, now: Time, a: Action)
    requires CellOk(c, now) && Enabled(c, now, a)
    requires a.Reply? || a.Complete? || a.GiveUp? || a.Defer? || a.TimeOut? || a.LookupVanishes?
    ensures CellOk(Apply(c, now, a), now)
  {
    hide CellOk, Readable, RowOk;
    var n := a.attempt;
    match a
    case Reply(_, answer) =>
      StepMoves(c, now, n, StepFor(answer));
    case Complete(_, at, replyLost) =>
      var l := c.lookups[n];
      LookupRowKeeps(c, now, n, at, at, l.step.url);
      var next := LookupCompleted(c.row, l.provider, n, l.step.url, at);
      var c1 := if next.Ok? then c.(row := next.value.0) else c;
      if replyLost { StepMoves(c1, now, n, Deferring); } else { LookupLeaves(c1, now, n); }
    case GiveUp(_, at) =>
      LookupRowKeeps(c, now, n, at, at, 0);
      LookupLeaves(c.(row := LookupFailed(c.row, c.lookups[n].provider, n, at)), now, n);
    case Defer(_, nextAt) =>
      LookupRowKeeps(c, now, n, now, nextAt, 0);
      LookupLeaves(c.(row := Rescheduled(c.row, n, nextAt)), now, n);
    case TimeOut(_) => StepMoves(c, now, n, Deferring);
    case LookupVanishes(_) => LookupLeaves(c, now, n);
  }

  // ------------------------------------------------------------- every action

  lemma SideStepKeeps(c: Cell, now: Time, a: Action)
    requires CellOk(c, now) && Enabled(c, now, a)
    requires (a.BrowserAppears? || a.BrowserStops? || a.SampleActive? || a.Hide?)
    ensures CellOk(Apply(c, now, a), now)
  {
    hide UsageRecorded, Readable, CellOk, RowOk;
    CreatorIs(c, now);
    UsageIs(c, now);
    match a
    case BrowserAppears(b) => AppearanceKeeps(c, now, b);
    case BrowserStops => HaltKeeps(c, now);
    case SampleActive(sample) =>
      if UsageRecorded(c.row.session, c.usage, sample, false).Ok? {
        SampleKeeps(c.row.session, c.usage, sample, false);
        UsageMoves(c, now, UsageRecorded(c.row.session, c.usage, sample, false).value);
      }
    case Hide(at) =>
      HidingKeeps(c.row, at);
      if Hidden(c.row, at).Ok? { RowMoves(c, now, Hidden(c.row, at).value); }
  }

  /** Every action of every worker keeps the cell's invariant. */
  lemma ActionKeeps(c: Cell, now: Time, a: Action)
    requires CellOk(c, now) && Enabled(c, now, a)
    ensures CellOk(Apply(c, now, a), now)
  {
    hide CellOk, Apply, Enabled;
    if a.BrowserAppears? || a.BrowserStops? || a.SampleActive? || a.Hide? {
      SideStepKeeps(c, now, a);
    } else if a.ClaimLookup? {
      ClaimLookupKeeps(c, now, a.at, a.leaseUntil);
    } else if a.Ask? {
      AskKeeps(c, now, a.attempt);
    } else if a.Reply? || a.Complete? || a.GiveUp? || a.Defer? || a.TimeOut? || a.LookupVanishes? {
      LookupStepKeeps(c, now, a);
    } else if a.BeginEnd? || a.ReadRuntime? || a.StartReaping? || a.Validate? || a.Stop? || a.Snapshot? || a.Learn?
      || a.Meter? || a.Register? || a.Finalize? || a.Release? || a.Break? || a.Vanish? {
      CloserStepKeeps(c, now, a);
    } else {
      CreatorStepKeeps(c, now, a);
    }
  }

  /** The bulk updates of a claim are quiet for everyone already working on the session. */
  lemma ExpiryIsQuiet(c: Cell, now: Time, at: Time)
    requires CellOk(c, now)
    ensures Quiet(c, TtlReached(c.row, at)) && Claimed(c.row, at, None) == TtlReached(c.row, at)
  {
    hide CellOk, Readable, NotOrphaned, ResolveOk;
    CreatorIs(c, now);
    ClaimKeeps(c.row, at, None);
  }

  /** A claim keeps the invariant: it takes only a free or elapsed lease, so no running reaper's
      lease is ever replaced. */
  lemma ClaimStepKeeps(c: Cell, now: Time, at: Time, claim: Option<(Id, Lease)>)
    requires CellOk(c, now) && ClaimEnabled(c, now, at, claim)
    ensures CellOk(ApplyClaim(c, at, claim), now)
  {
    hide CellOk, Readable, RowOk;
    ExpiryIsQuiet(c, now, at);
    var row := TtlReached(c.row, at);
    RowMoves(c, now, row);
    if claim.Some? {
      var (w, lease) := claim.value;
      forall v | v in c.closers && c.closers[v].kind.Reap? ensures c.closers[v].kind.lease.id != lease.id {
        CloserIs(c, now, v);
      }
      LeaseDrawn(c.(row := row), now, lease.id);
      if Reapable(row, at) {
        LeaseTaken(c.(row := row, leases := c.leases + {lease.id}), now, at, w, lease);
      }
    }
  }

  lemma NoLookupsWhileLive(c: Cell, now: Time)
    requires CellOk(c, now) && IsLive(c.row.session.status)
    ensures c.lookups == map[]
  {
    hide CellOk;
    forall n | n in c.lookups ensures false { LookupIs(c, now, n); }
  }

  lemma LeaseDrawn(c: Cell, now: Time, id: Id)
    requires CellOk(c, now)
    ensures CellOk(c.(leases := c.leases + {id}), now)
  {
    hide Readable, RowOk;
    var c' := c.(leases := c.leases + {id});
    forall w | w in c'.closers ensures CloserOk(c', now, c'.closers[w]) { assert CloserOk(c, now, c.closers[w]); }
    forall n | n in c'.lookups ensures LookupOk(c', n, c'.lookups[n]) { assert LookupOk(c, n, c.lookups[n]); }
  }

  lemma LeaseTaken(c: Cell, now: Time, at: Time, w: Id, lease: Lease)
    requires CellOk(c, now) && Reapable(c.row, at) && at <= now && lease.id in c.leases
    requires lease.until == at + STOP_LEASE && w !in c.closers
    requires forall v | v in c.closers && c.closers[v].kind.Reap? :: c.closers[v].kind.lease.id != lease.id
    ensures var row := c.row.(session := c.row.session.(lease := Some(lease)));
            CellOk(WithCloser(c.(row := row), w, Closer(Reap(lease, None), c.row.session.provider.value, Waiting,
                                                        c.row.session.url.Some?)), now)
  {
    hide Readable;
    var row := c.row.(session := c.row.session.(lease := Some(lease)));
    var c1 := c.(row := row);
    forall v | v in c1.closers ensures CloserOk(c1, now, c1.closers[v]) { assert CloserOk(c, now, c.closers[v]); }
    NoLookupsWhileLive(c, now);
    CloserMoves(c1, now, w, Closer(Reap(lease, None), c.row.session.provider.value, Waiting, c.row.session.url.Some?));
  }
}
