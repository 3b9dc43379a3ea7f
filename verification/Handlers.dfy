/** The service's own procedures over the store, statement by statement (crates/backend/src/server.rs):
    starting a browser, an explicit end, one claimed reap and one recording lookup.

    Each procedure carries the session's ghost cell along and notes every store transaction and
    provider exchange as an action of it, so an uninterrupted run of the procedure is proved to be a
    run of the cell machine of module Lifecycle. What the provider answers is a parameter. */
module Handlers {
  import opened Wrappers
  import opened Rows
  import opened Numbers
  import opened RowLaws
  import opened RowOutcomes
  import opened UsageRows
  import opened Lifecycle
  import opened LifecycleLaws
  import opened LifecycleMoves
  import S = Store

  // ---------------------------------------------------------------- provider

  datatype ProviderError = Transport | InvalidResponse | Http(status: nat) | Misconfigured

  /** A browser as the provider reports it; `runtime` is what validation makes of its endpoints. */
  datatype Snapshot = Snapshot(id: Id, stopped: bool, runtime: Option<Runtime>, url: Option<Secret>,
                               available: Option<bool>)

  /** `provider_mutation_may_have_committed`. */
  predicate MayHaveCommitted(e: ProviderError) {
    e.Transport? || e.InvalidResponse? || (e.Http? && 500 <= e.status <= 599)
  }

  /** `validated_terminal_provider_session`. */
  predicate Terminal(s: Result<Snapshot, ProviderError>, id: Id) {
    s.Ok? && s.value.id == id && s.value.stopped
  }

  predicate AmbiguousStop(e: ProviderError) {
    MayHaveCommitted(e) || e == Http(404) || e == Http(409)
  }

  /** An answer that leaves no doubt that nothing was done: the request was never sent, or the provider refused it. */
  predicate Definite(e: ProviderError) {
    e.Misconfigured? || (e.Http? && (e.status < 500 || e.status > 599))
  }

  /** Every other failure leaves the outcome open; for a stop also one that may mean the browser is gone already. */
  lemma OutcomeIsOpenExactly(e: ProviderError)
    ensures MayHaveCommitted(e) <==> !Definite(e)
    ensures AmbiguousStop(e) <==> !Definite(e) || e == Http(404) || e == Http(409)
  {
  }

  /** `stop_browser_confirmed`, given the answer to the stop and, if it comes to that, to the lookup. */
  function Confirmation(id: Id, stop: Result<Snapshot, ProviderError>, lookup: Result<Snapshot, ProviderError>)
      : (confirmed: Result<Snapshot, ProviderError>)
    ensures confirmed.Ok? ==> Terminal(confirmed, id)
    ensures confirmed.Ok? <==> Terminal(stop, id) || (stop.Err? && AmbiguousStop(stop.error) && Terminal(lookup, id))
  {
    if stop.Ok? then (if Terminal(stop, id) then stop else Err(InvalidResponse))
    else if AmbiguousStop(stop.error) && Terminal(lookup, id) then lookup
    else stop
  }

  /** The provider's answers to one closer. */
  datatype Answers = Answers(stop: Result<Snapshot, ProviderError>, committed: bool,
                             lookup: Result<Snapshot, ProviderError>,
                             sample: Sample, durationMs: nat)

  /** What is assumed of a provider: it reports a browser stopped only if that browser has stopped. */
  predicate Honest(c: Cell, b: Id, r: Answers) {
    && (Terminal(r.stop, b) ==> HasBrowser(c, b))
    && (Terminal(r.lookup, b) ==> HasBrowser(c, b) && (Stopped(c) || r.committed))
  }

  function ReplyOf(b: Id, r: Answers): StopReply {
    if Terminal(r.stop, b) then Confirmed(r.stop.value.url)
    else if r.stop.Err? && AmbiguousStop(r.stop.error) then Ambiguous(r.committed)
    else Declined
  }

  // -------------------------------------------------------------------- runs

  /** The cell after these actions at one instant, if each was enabled. */
  function Ran(c: Cell, now: Time, run: seq<Action>): Option<Cell> {
    if run == [] then Some(c)
    else
      var before := Ran(c, now, run[..|run| - 1]);
      var last := run[|run| - 1];
      if before.Some? && Enabled(before.value, now, last) then Some(Apply(before.value, now, last)) else None
  }

  lemma RanExtends(c: Cell, now: Time, run: seq<Action>, d: Cell, a: Action)
    requires Ran(c, now, run) == Some(d) && Enabled(d, now, a)
    ensures Ran(c, now, run + [a]) == Some(Apply(d, now, a))
  {
    hide Enabled, Apply;
    assert (run + [a])[..|run + [a]| - 1] == run;
  }

  class Saga {
    const store: S.Store
    const id: Id
    const now: Time
    ghost const start: Cell
    ghost var cell: Cell
    ghost var run: seq<Action>

    /** The store's rows for this session are the cell's, and the cell is where the noted actions lead. */
    ghost predicate Tied()
      reads this, store
    {
      && store.Valid() && id in store.usages && id in store.Rows()
      && store.Rows()[id] == cell.row && store.usages[id] == cell.usage
      && Following()
    }

    ghost predicate Following()
      reads this
    {
      Ran(start, now, run) == Some(cell) && CellOk(cell, now)
    }

    constructor (store: S.Store, id: Id, now: Time, ghost cell: Cell)
      requires store.Valid() && id in store.sessions && CellOk(cell, now)
      requires store.Rows()[id] == cell.row && store.usages[id] == cell.usage
      ensures Tied() && this.store == store && this.id == id && this.now == now
      ensures this.cell == cell && start == cell && run == []
    {
      hide CellOk;
      this.store, this.id, this.now, this.start, this.cell, this.run := store, id, now, cell, cell, [];
    }

    ghost method Note(a: Action)
      requires Following() && Enabled(cell, now, a)
      modifies this`cell, this`run
      ensures Following() && cell == Apply(old(cell), now, a) && run == old(run) + [a]
    {
      hide CellOk, Enabled, Apply;
      RanExtends(start, now, run, cell, a);
      ActionKeeps(cell, now, a);
      cell, run := Apply(cell, now, a), run + [a];
    }

    // ------------------------------------------------------- a closer's steps

    ghost method NoteStop(w: Id, browser: Id, r: Answers)
      requires Tied() && At(cell, now, w, Stopping) && cell.closers[w].browser == browser && Honest(cell, browser, r)
      modifies this`cell, this`run
      ensures Tied() && cell.row == old(cell.row) && cell.usage == old(cell.usage)
      ensures cell.creator == old(cell.creator)
      ensures match ReplyOf(browser, r)
              case Confirmed(url) => w in cell.closers && cell.closers[w] == AfterSnapshot(old(cell).closers[w], url)
              case Ambiguous(_) =>
                && At(cell, now, w, LookingUp) && cell.closers[w] == old(cell).closers[w].(stage := LookingUp)
                && (Terminal(r.lookup, browser) ==> HasBrowser(cell, browser) && Stopped(cell))
              case Declined => GaveUp(old(cell), cell, w)
    {
      hide S.Joined, CellOk, RowOk, MeterStep, RegisterStep, FinalizeStep, ReadStep, ReapStep, LookupStep, CreatorStep;
      Note(Stop(w, ReplyOf(browser, r)));
    }

    ghost method NoteLookup(w: Id, browser: Id, lookup: Result<Snapshot, ProviderError>)
      requires Tied() && At(cell, now, w, LookingUp) && cell.closers[w].browser == browser
      requires Terminal(lookup, browser) ==> HasBrowser(cell, browser) && Stopped(cell)
      modifies this`cell, this`run
      ensures Tied() && cell.row == old(cell.row) && cell.usage == old(cell.usage)
      ensures cell.creator == old(cell.creator)
      ensures if Terminal(lookup, browser)
              then w in cell.closers && cell.closers[w] == AfterSnapshot(old(cell).closers[w], lookup.value.url)
              else GaveUp(old(cell), cell, w)
    {
      hide S.Joined, CellOk, RowOk, StopStep, MeterStep, RegisterStep, FinalizeStep, ReadStep, ReapStep, LookupStep;
      hide CreatorStep;
      Note(Action.Snapshot(w, if Terminal(lookup, browser) then Some(lookup.value.url) else None));
    }

    /** The stop and, if its outcome is ambiguous, the lookup that may prove it. */
    method ConfirmStop(ghost w: Id, browser: Id, r: Answers) returns (stopped: Result<Snapshot, ProviderError>)
      requires Tied() && At(cell, now, w, Stopping) && cell.closers[w].browser == browser && Honest(cell, browser, r)
      modifies this`cell, this`run
      ensures Tied() && cell.row == old(cell.row) && cell.usage == old(cell.usage)
      ensures cell.creator == old(cell.creator)
      ensures stopped == Confirmation(browser, r.stop, r.lookup)
      ensures stopped.Ok? ==>
                w in cell.closers && cell.closers[w] == AfterSnapshot(old(cell).closers[w], stopped.value.url)
      ensures stopped.Err? ==> GaveUp(old(cell), cell, w)
    {
      hide S.Joined, CellOk, RowOk;
      stopped := Confirmation(browser, r.stop, r.lookup);
      NoteStop(w, browser, r);
      if ReplyOf(browser, r).Ambiguous? {
        NoteLookup(w, browser, r.lookup);
      }
    }

    method Learn(ghost w: Id, url: Secret)
      requires Tied() && At(cell, now, w, Stage.Learning(url))
      modifies this`cell, this`run, store
      ensures Tied() && cell.row == Remembered(old(cell.row), url) && cell.usage == old(cell.usage)
      ensures cell.creator == old(cell.creator)
      ensures w in cell.closers && cell.closers[w] == old(cell).closers[w].(stage := Metering, hasSource := true)
    {
      hide S.Joined, CellOk, RowOk, StopStep, MeterStep, RegisterStep, FinalizeStep, ReadStep, ReapStep, LookupStep;
      hide CreatorStep;
      var reply := store.RememberRecordingUrl(id, url);
      Note(Action.Learn(w));
    }

    method Meter(ghost w: Id, sample: Sample) returns (reply: Result<(), StoreError>)
      requires Tied() && At(cell, now, w, Metering)
      modifies this`cell, this`run, store
      ensures Tied() && cell.row == old(cell.row) && cell.creator == old(cell.creator)
      ensures var metered := UsageRecorded(old(cell.row.session), old(cell.usage), sample, true);
              && (reply.Ok? <==> metered.Ok?)
              && cell.usage == if metered.Ok? then metered.value else old(cell.usage)
      ensures reply.Ok? ==> w in cell.closers && cell.closers[w] == Metered(old(cell).closers[w])
      ensures reply.Err? ==> GaveUp(old(cell), cell, w)
    {
      hide CellOk, RowOk, UsageRecorded, StopStep, RegisterStep, FinalizeStep;
      hide ReadStep, ReapStep, LookupStep, CreatorStep;
      reply := store.RecordUsage(id, sample, true);
      Note(Action.Meter(w, sample));
    }

    /** The recording's hand-over: its source is known, or a lookup for it is queued. */
    method Register(ghost w: Id, hasSource: bool, durationMs: nat) returns (reply: Result<(), StoreError>)
      requires Tied() && At(cell, now, w, Registering) && cell.closers[w].hasSource == hasSource
      modifies this`cell, this`run, store
      ensures Tied() && cell.usage == old(cell.usage) && cell.creator == old(cell.creator)
      ensures var handed := Handed(old(cell.row), hasSource, durationMs, now);
              && (reply.Ok? <==> handed.Ok?)
              && cell.row == if handed.Ok? then handed.value else old(cell.row)
      ensures reply.Ok? ==> w in cell.closers && cell.closers[w] == old(cell).closers[w].(stage := Finalizing)
      ensures reply.Err? ==> GaveUp(old(cell), cell, w)
    {
      hide S.Joined, CellOk, RowOk, Apply, Enabled, MarkedPending, ResolutionQueued;
      if hasSource {
        reply := store.MarkRecordingPending(id, durationMs, 0, now);
      } else {
        reply := store.QueueSourceResolution(id, durationMs, now);
      }
      NoteRegister(w, durationMs);
    }

    /** What an explicit end and a reaper both do once the stop is confirmed: keep the source it
        brought, take the final sample, hand the recording over. */
    method SettleStopped(ghost w: Id, stopped: Snapshot, known: bool, r: Answers) returns (settled: bool)
      requires Tied() && w in cell.closers && !cell.closers[w].kind.Recover? && cell.closers[w].hasSource == known
      requires Awake(cell.closers[w], now) && cell.closers[w] == AfterSnapshot(cell.closers[w], stopped.url)
      modifies this`cell, this`run, store
      ensures Tied() && w in old(cell).closers
      ensures var sourced, known := Sourced(old(cell.row), stopped.url), known || stopped.url.Some?;
              var metered := UsageRecorded(sourced.session, old(cell.usage), r.sample, true);
              var handed := Handed(sourced, known, r.durationMs, now);
              && (settled <==> metered.Ok? && handed.Ok?)
              && cell.row == (if settled then handed.value else sourced)
              && cell.usage == if metered.Ok? then metered.value else old(cell.usage)
      ensures settled ==> At(cell, now, w, Finalizing) && cell.closers[w].kind == old(cell).closers[w].kind
      ensures !settled ==> if old(cell).closers[w].kind.Reap?
                           then At(cell, now, w, Releasing) && cell.closers[w].kind == old(cell).closers[w].kind
                           else w !in cell.closers
    {
      hide CellOk, RowOk, Apply, Enabled, UsageRecorded, Handed;
      settled := false;
      var hasSource := known;
      if stopped.url.Some? {
        Learn(w, stopped.url.value);
        hasSource := true;
      }
      var metered := Meter(w, r.sample);
      if metered.Err? {
        return;
      }
      var registered := Register(w, hasSource, r.durationMs);
      settled := registered.Ok?;
    }

    ghost method NoteRegister(w: Id, durationMs: nat)
      requires Following() && At(cell, now, w, Registering)
      modifies this`cell, this`run
      ensures Following() && cell.usage == old(cell.usage) && cell.creator == old(cell.creator)
      ensures var next := if old(cell).closers[w].hasSource then MarkedPending(old(cell).row, durationMs, 0, now)
                          else ResolutionQueued(old(cell).row, durationMs, now);
              if next.Ok? then && cell.row == next.value && w in cell.closers
                               && cell.closers[w] == old(cell).closers[w].(stage := Finalizing)
              else cell.row == old(cell.row) && GaveUp(old(cell), cell, w)
    {
      hide CellOk, RowOk, StopStep, MeterStep, FinalizeStep, ReadStep, ReapStep, LookupStep, CreatorStep;
      hide MarkedPending, ResolutionQueued;
      Note(Action.Register(w, durationMs, now));
    }

    /** The last step, whatever the closer. */
    ghost method NoteFinalize(w: Id, reason: string, durationMs: nat)
      requires Following() && At(cell, now, w, Finalizing)
      modifies this`cell, this`run
      ensures Following() && cell.usage == old(cell.usage) && cell.creator == old(cell.creator) && Stopped(cell)
      ensures var next := Final(old(cell), w, reason, durationMs, now);
              if next.Ok? then cell.row == next.value && w !in cell.closers
              else cell.row == old(cell.row) && GaveUp(old(cell), cell, w)
    {
      hide CellOk, RowOk, StopStep, MeterStep, RegisterStep, ReadStep, ReapStep, LookupStep, CreatorStep;
      hide EndFinalized, ExpiryFinalized, FailedAfterStop;
      CloserIs(cell, now, w);
      Note(Finalize(w, reason, durationMs, now));
    }

    // ------------------------------------------------------------ explicit end

    method Begin(ghost w: Id, note: string) returns (reply: Result<Runtime, StoreError>)
      requires Tied() && w !in cell.closers
      modifies this`cell, this`run, store
      ensures Tied() && cell.row == EndBegun(old(cell.row), note)
      ensures cell.creator == old(cell.creator) && cell.browser == old(cell.browser) && cell.usage == old(cell.usage)
      ensures reply == EndingRuntime(cell.row)
      ensures reply.Ok? ==>
                w in cell.closers && cell.closers[w] == Closer(End, reply.value.id, Stopping, reply.value.url.Some?)
      ensures reply.Err? ==> w !in cell.closers
    {
      hide S.Joined, CellOk, RowOk, StopStep, MeterStep, RegisterStep, FinalizeStep, ReapStep, LookupStep, CreatorStep;
      hide EndBegun, EndingRuntime;
      reply := store.BeginEndSession(id, note);
      NoteBegin(w, note);
    }

    ghost method NoteBegin(w: Id, note: string)
      requires Following() && w !in cell.closers
      modifies this`cell, this`run
      ensures Following() && cell.row == EndBegun(old(cell.row), note)
      ensures cell.creator == old(cell.creator) && cell.browser == old(cell.browser) && cell.usage == old(cell.usage)
      ensures var runtime := EndingRuntime(cell.row);
              if runtime.Ok? then w in cell.closers
                                  && cell.closers[w] == Closer(End, runtime.value.id, Stopping, runtime.value.url.Some?)
              else w !in cell.closers
    {
      hide CellOk, RowOk, StopStep, MeterStep, RegisterStep, FinalizeStep;
      hide ReapStep, LookupStep, CreatorStep, EndBegun, EndingRuntime;
      Note(BeginEnd(w, note));
      Note(ReadRuntime(w));
    }

    method FinalizeEnd(ghost w: Id) returns (reply: Result<(), StoreError>)
      requires Tied() && At(cell, now, w, Finalizing) && cell.closers[w].kind.End?
      modifies this`cell, this`run, store
      ensures Tied() && w !in cell.closers && cell.usage == old(cell.usage) && Stopped(cell)
      ensures var done := EndFinalized(old(cell.row), now);
              (reply.Ok? <==> done.Ok?) && cell.row == if done.Ok? then done.value else old(cell.row)
    {
      hide S.Joined, CellOk, RowOk, Apply, Enabled, EndFinalized;
      reply := store.FinalizeEndSession(id, now);
      NoteFinalize(w, "", 0);
    }

    /** `end_session`. It ends the session exactly if there is one to end, its browser's stop is proved, the final
        sample is accepted and the recording can be handed over; every early return leaves the slot held. */
    method EndSession(ghost w: Id, note: string, r: Answers) returns (ended: bool)
      requires Tied() && w !in cell.closers
      requires cell.row.session.provider.Some? ==> Honest(cell, cell.row.session.provider.value, r)
      modifies this`cell, this`run, store
      ensures Tied() && w !in cell.closers
      ensures ended <==> Endable(old(cell.row)) && CanClose(old(cell.row), old(cell.usage), r)
      ensures ended ==> Stopped(cell) && EndedWith(old(cell.row), cell.row, note, r, now)
                        && Taken(old(cell.usage), r.sample, cell.usage)
      ensures !ended ==> cell.row == LeftEnding(old(cell.row), note, r)
    {
      hide S.Joined, CellOk, RowOk, Apply, Enabled, RuntimeOf, EndBegun, EndingRuntime, UsageRecorded, Handed;
      hide EndFinalized, CanClose, EndedWith, LeftEnding, Taken, UsageOk;
      ended := false;
      ghost var row, usage := cell.row, cell.usage;
      CellIsOk();
      EndComposes(row, usage, note, r, now);
      var runtime := Begin(w, note);
      if runtime.Err? {
        return;
      }
      var stopped := ConfirmStop(w, runtime.value.id, r);
      if stopped.Err? {
        return;
      }
      var settled := SettleStopped(w, stopped.value, runtime.value.url.Some?, r);
      if !settled {
        return;
      }
      var finalized := FinalizeEnd(w);
      ended := finalized.Ok?;
    }

    lemma CellIsOk()
      requires Following()
      ensures RowOk(cell.row) && UsageOk(cell.usage)
    {
      hide RowOk, UsageOk;
    }

    // ------------------------------------------------------------------ reaping

    method Revalidate(ghost w: Id, lease: Lease) returns (current: bool)
      requires Tied() && w in cell.closers && cell.closers[w].kind == Reap(lease, None)
      requires cell.closers[w].stage.Waiting?
      requires now < lease.until - STOP_LEASE + START_SLACK
      modifies this`cell, this`run
      ensures Tied() && cell.row == old(cell.row) && cell.creator == old(cell.creator)
      ensures cell.browser == old(cell.browser) && cell.usage == old(cell.usage)
      ensures current <==> LeaseCurrent(cell.row, lease.id, now)
      ensures current ==> w in cell.closers && cell.closers[w] ==
                                              old(cell).closers[w].(stage := Stopping, kind := Reap(lease, Some(now)))
      ensures !current ==> w !in cell.closers
    {
      hide S.Joined, CellOk, RowOk, StopStep, MeterStep, RegisterStep, FinalizeStep, ReadStep, LookupStep, CreatorStep;
      current := store.ExpiredClaimIsCurrent(id, lease.id, now);
      Note(StartReaping(w));
      Note(Validate(w, now));
    }

    method Release(ghost w: Id, lease: Lease)
      requires Tied() && At(cell, now, w, Releasing) && cell.closers[w].kind.Reap?
      requires cell.closers[w].kind.lease == lease
      modifies this`cell, this`run, store
      ensures Tied() && cell.row == Released(old(cell.row), lease.id) && w !in cell.closers
      ensures cell.usage == old(cell.usage)
    {
      hide S.Joined, CellOk, RowOk, StopStep, MeterStep, RegisterStep, FinalizeStep, ReadStep, LookupStep, CreatorStep;
      store.ReleaseExpiredClaim(id, lease.id);
      Note(Action.Release(w));
    }

    method FinalizeExpiry(ghost w: Id, lease: Lease) returns (reply: Result<(), StoreError>)
      requires Tied() && At(cell, now, w, Finalizing) && cell.closers[w].kind.Reap?
      requires cell.closers[w].kind.lease == lease
      modifies this`cell, this`run, store
      ensures Tied() && (reply.Ok? ==> w !in cell.closers) && cell.usage == old(cell.usage) && Stopped(cell)
      ensures var done := ExpiryFinalized(old(cell.row), lease.id, now);
              (reply.Ok? <==> done.Ok?) && cell.row == if done.Ok? then done.value else old(cell.row)
      ensures reply.Err? ==> GaveUp(old(cell), cell, w)
    {
      hide S.Joined, CellOk, RowOk, Apply, Enabled, ExpiryFinalized;
      reply := store.FinalizeExpiredSession(id, lease.id, now);
      NoteFinalize(w, "", 0);
    }

    /** `reap_claimed_session`. A claim no longer current stops nothing; every failure after that
        releases the lease, so the session can be claimed again at once. */
    method ReapClaimed(ghost w: Id, claim: Closer, lease: Lease, r: Answers) returns (reaped: bool)
      requires Tied() && w in cell.closers && cell.closers[w] == claim
      requires claim.kind == Reap(lease, None) && claim.stage.Waiting? && now < lease.until - STOP_LEASE + START_SLACK
      requires Honest(cell, claim.browser, r)
      modifies this`cell, this`run, store
      ensures Tied() && w !in cell.closers
      ensures reaped <==> && LeaseCurrent(old(cell.row), lease.id, now)
                          && CanClose(old(cell.row), old(cell.usage), r) && KnowsSource(old(cell.row), claim, r)
      ensures reaped ==> Stopped(cell) && ExpiredWith(old(cell.row), cell.row, claim, r, now)
                         && Taken(old(cell.usage), r.sample, cell.usage)
      ensures !reaped ==> cell.row == if LeaseCurrent(old(cell.row), lease.id, now)
                                      then LeftClaimable(old(cell.row), r) else old(cell.row)
    {
      hide S.Joined, CellOk, RowOk, Apply, Enabled, LeaseCurrent, UsageRecorded, Handed, ExpiryFinalized, Released;
      hide CanClose, KnowsSource, ExpiredWith, LeftClaimable, Taken, UsageOk;
      reaped := false;
      ghost var row, usage := cell.row, cell.usage;
      CellIsOk();
      ClaimNamesBrowser(w);
      if LeaseCurrent(row, lease.id, now) {
        ReapComposes(row, usage, claim, lease.id, r, now);
      }
      var current := Revalidate(w, lease);
      if !current {
        return;
      }
      var stopped := ConfirmStop(w, claim.browser, r);
      if stopped.Err? {
        Release(w, lease);
        return;
      }
      var settled := SettleStopped(w, stopped.value, claim.hasSource, r);
      if !settled {
        Release(w, lease);
        return;
      }
      var finalized := FinalizeExpiry(w, lease);
      // An error here would release the lease too, but with the lease held the transaction is never refused.
      reaped := finalized.Ok?;
    }

    lemma ClaimNamesBrowser(w: Id)
      requires Following() && w in cell.closers && cell.closers[w].kind.Reap?
      ensures cell.row.session.provider == Some(cell.closers[w].browser) && cell.row.session.expiresAt <= now
      ensures cell.closers[w].hasSource ==> cell.row.session.url.Some?
    {
      hide CellOk, RowOk;
      CloserIs(cell, now, w);
    }

    // ----------------------------------------------------------- starting one

    ghost method NoteCreator(a: Action)
      requires CreatorReady(cell, a) && Following() && Enabled(cell, now, a)
      modifies this`cell, this`run
      ensures Following() && cell == CreatorStep(old(cell), a)
    {
      hide CellOk, CreatorStep, Enabled;
      Note(a);
      CreatorApplies(old(cell), now, a);
    }

    /** `activate_session`, whose three statements the cell takes as three actions. */
    method Activate(p: Runtime, ghost found: bool) returns (active: bool)
      requires Tied() && cell.creator == Activating(p, found)
      modifies this`cell, this`run, store
      ensures Tied() && cell.closers == old(cell.closers) && cell.browser == old(cell.browser)
      ensures cell.usage == old(cell.usage) && HasBrowser(cell, p.id)
      ensures IsLive(cell.row.session.status) == IsLive(old(cell.row.session.status))
      ensures active <==> Startable(old(cell.row), now)
      ensures active ==> cell.creator.Done? && StartedWith(old(cell.row), cell.row, p)
      ensures !active ==> cell.creator == ActivationLost(p, found) && cell.row == LeftUnstarted(old(cell.row), p, now)
    {
      hide S.Joined, CellOk, RowOk, Apply;
      ActivatingHasBrowser(p, found);
      ActivationIsReadBack(cell.row, p, now, TTL_NOTE);
      var reply := store.ActivateSession(id, p, now);
      NoteActivation(p, found);
      active := reply.Ok?;
    }

    lemma ActivatingHasBrowser(p: Runtime, found: bool)
      requires Following() && cell.creator == Activating(p, found)
      ensures HasBrowser(cell, p.id)
    {
      hide CellOk, RowOk;
      CreatorIs(cell, now);
    }

    ghost method NoteActivation(p: Runtime, found: bool)
      requires Following() && cell.creator == Activating(p, found)
      modifies this`cell, this`run
      ensures Following() && cell.closers == old(cell.closers)
      ensures cell.browser == old(cell.browser) && cell.usage == old(cell.usage)
      ensures var before := old(cell.row);
              if Activated(before, p, now).Some? then cell.row == Activated(before, p, now).value && cell.creator.Done?
              else && cell.row == (if ActivationExpired(before, now) then LateActivated(before, p) else before)
                   && cell.creator == ActivationLost(p, found)
    {
      hide CellOk, RowOk, Apply;
      NoteCreator(Action.Activate(now, false));
      if Activated(old(cell.row), p, now).None? {
        NoteCreator(Reread);
        if cell.creator.FallingBack? {
          NoteCreator(FallBack);
        }
      }
    }

    /** The first half of `recover_failed_session_start`: hold the slot with the runtime it knows. */
    method Retain(ghost w: Id, p: Runtime, reason: string) returns (hasSource: bool)
      requires Tied() && cell.creator == Retaining(p) && w !in cell.closers
      modifies this`cell, this`run, store
      ensures Tied() && cell.creator.Done? && cell.browser == old(cell.browser) && cell.usage == old(cell.usage)
      ensures w in cell.closers && cell.closers[w] == Closer(Recover, p.id, Stopping, hasSource)
      ensures var kept := Retained(old(cell.row), p, reason);
              && cell.row == (if kept.Ok? then kept.value else old(cell.row))
              && (hasSource <==> kept.Ok? && p.url.Some?)
      ensures IsLive(cell.row.session.status) == IsLive(old(cell.row.session.status))
    {
      hide S.Joined, CellOk, RowOk, Apply;
      var reply := store.RetainRuntime(id, p, reason);
      hasSource := reply.Ok? && p.url.Some?;
      NoteCreator(Action.Retain(reason, false, w));
    }

    /** The second half: only a confirmed stop lets the session fail. */
    method RecoverStart(ghost w: Id, browser: Id, retained: bool, reason: string, r: Answers)
      requires Tied() && w in cell.closers && cell.closers[w] == Closer(Recover, browser, Stopping, retained)
      requires Honest(cell, browser, r)
      modifies this`cell, this`run, store
      ensures Tied() && w !in cell.closers && cell.creator == old(cell.creator)
      ensures IsLive(cell.row.session.status) == IsLive(old(cell.row.session.status))
              || (cell.row.session.status.Failed? && cell.row.session.provider == Some(browser) && Stopped(cell))
      ensures (cell.row, cell.usage) == Recovered(old(cell.row), old(cell.usage), browser, retained, reason, r, now)
    {
      hide CellOk, RowOk, Apply, Enabled, UsageRecorded, FailedAfterStop;
      var stopped := ConfirmStop(w, browser, r);
      if stopped.Err? {
        return;
      }
      var hasSource := retained;
      if stopped.value.url.Some? {
        Learn(w, stopped.value.url.value);
        hasSource := true;
      }
      var metered := Meter(w, r.sample);
      if metered.Err? {
        return;
      }
      FinalizeFailed(w, browser, reason, r.durationMs, hasSource);
    }

    method FinalizeFailed(ghost w: Id, browser: Id, reason: string, durationMs: nat, hasSource: bool)
      requires Tied() && At(cell, now, w, Finalizing)
      requires cell.closers[w].kind.Recover? && cell.closers[w].browser == browser
      requires cell.closers[w].hasSource == hasSource
      modifies this`cell, this`run, store
      ensures Tied() && w !in cell.closers && cell.creator == old(cell.creator) && cell.usage == old(cell.usage)
      ensures var failed := FailedAfterStop(old(cell.row), browser, reason, durationMs, hasSource, now);
              cell.row == if failed.Ok? then failed.value else old(cell.row)
      ensures cell.row == old(cell.row)
              || (cell.row.session.status.Failed? && cell.row.session.provider == Some(browser) && Stopped(cell))
    {
      hide S.Joined, CellOk, RowOk, Apply, Enabled;
      CloserIs(cell, now, w);
      FailureNamesBrowser(cell.row, browser, reason, durationMs, hasSource, now);
      hide FailedAfterStop;
      var reply := store.FinalizeFailedAfterStop(id, browser, reason, durationMs, hasSource, now);
      NoteFinalize(w, reason, durationMs);
    }

    /** The arm of `create_session` for a start whose outcome is unknown: adopt the browser if the
        provider finds it, and otherwise leave the reservation to its time limit. */
    method AdoptIfFound(found: Result<Option<Snapshot>, ProviderError>, ghost created: Option<Id>)
        returns (active: bool)
      requires Tied() && cell.creator.Calling?
      requires FoundRuntime(found).Some? ==> created == Some(FoundRuntime(found).value.id)
      modifies this`cell, this`run, store
      ensures Tied() && cell.creator.Done? && cell.closers == old(cell.closers) && cell.usage == old(cell.usage)
      ensures active <==> FoundRuntime(found).Some? && Startable(old(cell.row), now)
      ensures active ==> HasBrowser(cell, FoundRuntime(found).value.id)
                         && StartedWith(old(cell.row), cell.row, FoundRuntime(found).value)
      ensures !active ==> cell.row == if FoundRuntime(found).Some?
                                      then LeftUnstarted(old(cell.row), FoundRuntime(found).value, now)
                                      else old(cell.row)
    {
      hide CellOk, RowOk, Apply, StartedWith, LeftUnstarted, Startable;
      active := false;
      NoteCreator(StartLost(created));
      if found.Ok? && found.value.Some? && found.value.value.runtime.Some? {
        NoteCreator(Find(found.value.value.runtime));
        active := Activate(found.value.value.runtime.value, true);
      } else {
        NoteCreator(Find(None));
      }
    }

    /** Its arm for a started browser: activate it, or see to it that it is stopped. */
    method ActivateOrRecover(ghost w: Id, started: Snapshot, reason: string, r: Answers) returns (active: bool)
      requires Tied() && cell.creator.Calling? && w !in cell.closers
      requires started.runtime.Some? ==> started.runtime.value.id == started.id && !started.stopped
      requires Terminal(r.lookup, started.id) ==> started.stopped || r.committed
      modifies this`cell, this`run, store
      ensures Tied() && cell.creator.Done? && w !in cell.closers
      ensures active <==> started.runtime.Some? && Startable(old(cell.row), now)
      ensures active ==> HasBrowser(cell, started.id) && cell.usage == old(cell.usage)
                         && StartedWith(old(cell.row), cell.row, started.runtime.value)
      ensures !active ==> StartUndone(old(cell.row), old(cell.usage), started, reason, r, now, cell.row, cell.usage)
      ensures Frees(old(cell), cell) ==> Stopped(cell)
    {
      hide CellOk, RowOk, Apply, StartedWith, LeftUnstarted, UsageOk, StartUndone, Recovered, Retained;
      active := false;
      ghost var row, usage := cell.row, cell.usage;
      CallingIsUnstarted();
      if started.runtime.None? {
        UndoComposes(row, usage, started, reason, r, now);
        NoteCreator(StartSucceeds(started.id, None, started.stopped, w));
        RecoverStart(w, started.id, false, reason, r);
        return;
      }
      var p := started.runtime.value;
      NoteCreator(StartSucceeds(p.id, Some(p), false, w));
      active := Activate(p, false);
      if !active {
        UndoComposes(row, usage, started, reason, r, now);
        var retained := Retain(w, p, reason);
        RecoverStart(w, p.id, retained, reason, r);
      }
    }

    lemma CallingIsUnstarted()
      requires Following() && cell.creator.Calling?
      ensures RowOk(cell.row) && UsageOk(cell.usage)
      ensures cell.row.session.status.Starting? || cell.row.session.status.Expired?
      ensures cell.row.session.provider.None? && (cell.row.session.status.Starting? ==> cell.row.session.url.None?)
    {
      hide UsageOk;
      CreatorIs(cell, now);
    }

    /** `create_session` from the provider's start on. The session becomes active exactly if the provider's reply,
        or after an ambiguous failure its search, yields a runtime and the reservation's time is not over. Its
        slot is freed only if no browser was created or the one created has stopped; an ambiguous start always
        keeps it. */
    method StartBrowser(ghost w: Id, start: Result<Snapshot, ProviderError>, ghost created: Option<Id>,
                        found: Result<Option<Snapshot>, ProviderError>, reason: string, r: Answers)
        returns (active: bool)
      requires Tied() && cell.creator.Calling? && w !in cell.closers
      requires start.Ok? && start.value.runtime.Some? ==>
                start.value.runtime.value.id == start.value.id && !start.value.stopped
      requires start.Ok? && Terminal(r.lookup, start.value.id) ==> start.value.stopped || r.committed
      requires FoundRuntime(found).Some? ==> created == Some(FoundRuntime(found).value.id)
      modifies this`cell, this`run, store
      ensures Tied() && cell.creator.Done? && w !in cell.closers
      ensures active <==> StartedRuntime(start, found).Some? && Startable(old(cell.row), now)
      ensures active ==> InUse(cell) && StartedWith(old(cell.row), cell.row, StartedRuntime(start, found).value)
      ensures start.Ok? && !active ==>
                StartUndone(old(cell.row), old(cell.usage), start.value, reason, r, now, cell.row, cell.usage)
      ensures start.Err? && !Definite(start.error) && !active ==>
                cell.row == if FoundRuntime(found).Some?
                            then LeftUnstarted(old(cell.row), FoundRuntime(found).value, now) else old(cell.row)
      ensures start.Err? && Definite(start.error) ==> cell.row == FailedStart(old(cell.row), reason, now)
      ensures Frees(old(cell), cell) ==> cell.browser.None? || Stopped(cell)
      ensures start.Err? && !Definite(start.error) ==> !Frees(old(cell), cell)
    {
      hide CellOk, RowOk, Apply, CreatorStep, StartUndone, FailedStart;
      if start.Err? { OutcomeIsOpenExactly(start.error); }
      active := false;
      if start.Ok? {
        active := ActivateOrRecover(w, start.value, reason, r);
      } else if MayHaveCommitted(start.error) {
        active := AdoptIfFound(found, created);
      } else {
        RefuseStart(reason);
      }
    }

    method RefuseStart(reason: string)
      requires Tied() && cell.creator.Calling?
      modifies this`cell, this`run, store
      ensures Tied() && cell.creator.Done? && cell.closers == old(cell.closers) && cell.browser.None?
      ensures cell.row == FailedStart(old(cell.row), reason, now)
    {
      hide CellOk, RowOk, Apply, FailedStart;
      CreatorIs(cell, now);
      NoteCreator(StartRefused);
      FailRefused(reason);
    }

    method FailRefused(reason: string)
      requires Tied() && cell.creator.Refused?
      modifies this`cell, this`run, store
      ensures Tied() && cell.creator.Done? && cell.browser == old(cell.browser) && cell.closers == old(cell.closers)
      ensures cell.row == FailedStart(old(cell.row), reason, now)
    {
      hide S.Joined, CellOk, RowOk, Apply, FailedStart;
      var reply := store.FailSession(id, reason, now);
      NoteCreator(FailStart(reason, now));
    }

    // -------------------------------------------------------------- one lookup

    ghost method NoteLookupStep(a: Action)
      requires LookupReady(cell, a) && Following() && Enabled(cell, now, a)
      modifies this`cell, this`run
      ensures Following() && cell == LookupStep(old(cell), a)
    {
      hide CellOk, LookupStep, Enabled;
      Note(a);
      LookupApplies(old(cell), now, a);
    }

    method FailLookup(provider: Id, attempt: nat)
      requires Tied() && attempt in cell.lookups && cell.lookups[attempt].provider == provider
      requires LookupAt(cell, attempt, Failing) || (LookupAt(cell, attempt, Deferring) && attempt >= MAX_LOOKUPS)
      modifies this`cell, this`run, store
      ensures Tied() && attempt !in cell.lookups && cell.queried == old(cell.queried)
      ensures cell.row == LookupFailed(old(cell.row), provider, attempt, now)
    {
      hide S.Joined, CellOk, RowOk, Apply, LookupFailed;
      var owned := store.FailResolution(id, provider, attempt, now);
      NoteLookupStep(GiveUp(attempt, now));
    }

    method Reschedule(attempt: nat, nextAt: Time)
      requires Tied() && LookupAt(cell, attempt, Deferring) && attempt < MAX_LOOKUPS
      modifies this`cell, this`run, store
      ensures Tied() && attempt !in cell.lookups && cell.queried == old(cell.queried)
      ensures cell.row == Rescheduled(old(cell.row), attempt, nextAt)
    {
      hide S.Joined, CellOk, RowOk, Apply, Rescheduled;
      var owned := store.RescheduleResolution(id, attempt, nextAt);
      NoteLookupStep(Defer(attempt, nextAt));
    }

    /** `defer_or_exhaust_recording_source`: the tenth attempt is the last. */
    method DeferOrExhaust(provider: Id, attempt: nat, nextAt: Time)
      requires Tied() && LookupAt(cell, attempt, Deferring) && cell.lookups[attempt].provider == provider
      modifies this`cell, this`run, store
      ensures Tied() && attempt !in cell.lookups && cell.queried == old(cell.queried)
      ensures cell.row == if attempt >= MAX_LOOKUPS then LookupFailed(old(cell.row), provider, attempt, now)
                          else Rescheduled(old(cell.row), attempt, nextAt)
    {
      hide S.Joined, CellOk, RowOk, LookupFailed, Rescheduled;
      if attempt >= MAX_LOOKUPS {
        FailLookup(provider, attempt);
      } else {
        Reschedule(attempt, nextAt);
      }
    }

    method CompleteLookup(provider: Id, attempt: nat, url: Secret)
      requires Tied() && LookupAt(cell, attempt, Completing(url)) && cell.lookups[attempt].provider == provider
      modifies this`cell, this`run, store
      ensures Tied() && attempt !in cell.lookups && cell.queried == old(cell.queried)
      ensures var done := LookupCompleted(old(cell.row), provider, attempt, url, now);
              cell.row == if done.Ok? then done.value.0 else old(cell.row)
    {
      hide S.Joined, CellOk, RowOk, Apply, LookupCompleted;
      var reply := store.CompleteResolution(id, provider, attempt, url, now);
      NoteLookupStep(Complete(attempt, now, false));
    }

    /** One provider exchange, within the cap. */
    ghost method NoteAnswer(attempt: nat, answer: Answer)
      requires Following() && LookupAt(cell, attempt, Ready) && attempt <= MAX_LOOKUPS
      modifies this`cell, this`run
      ensures Following() && cell.row == old(cell.row) && cell.usage == old(cell.usage)
      ensures cell.queried == old(cell.queried) + [attempt]
      ensures attempt in cell.lookups && cell.lookups[attempt] == old(cell).lookups[attempt].(step := StepFor(answer))
    {
      hide CellOk, RowOk, Apply;
      NoteLookupStep(Action.Ask(attempt));
      NoteLookupStep(Reply(attempt, answer));
    }

    ghost method NoteOverLimit(attempt: nat)
      requires Following() && LookupAt(cell, attempt, Ready) && attempt > MAX_LOOKUPS
      modifies this`cell, this`run
      ensures Following() && cell.row == old(cell.row)
      ensures cell.usage == old(cell.usage) && cell.queried == old(cell.queried)
      ensures attempt in cell.lookups && cell.lookups[attempt] == old(cell).lookups[attempt].(step := Deferring)
    {
      hide CellOk, RowOk, Apply;
      NoteLookupStep(Action.Ask(attempt));
    }

    /** `reconcile_recording_source`. The provider is asked only within the cap; a claim that has been
        overtaken changes nothing, whatever it was told. */
    method Reconcile(provider: Id, attempt: nat, answer: Result<Snapshot, ProviderError>, nextAt: Time)
      requires Tied() && LookupAt(cell, attempt, Ready) && cell.lookups[attempt].provider == provider
      modifies this`cell, this`run, store
      ensures Tied() && attempt !in cell.lookups
      ensures cell.queried == old(cell.queried) + (if attempt <= MAX_LOOKUPS then [attempt] else [])
      ensures cell.row == Reconciled(old(cell.row), provider, attempt, answer, nextAt, now)
      ensures !OwnsAttempt(old(cell.row), attempt) ==> cell.row == old(cell.row)
    {
      hide S.Joined, CellOk, RowOk, Apply, LookupCompleted, LookupFailed, Rescheduled, OwnsAttempt;
      if !OwnsAttempt(cell.row, attempt) { StaleAnswerIsHarmless(cell.row, provider, attempt, answer, nextAt, now); }
      if attempt > MAX_LOOKUPS {
        NoteOverLimit(attempt);
        DeferOrExhaust(provider, attempt, nextAt);
        return;
      }
      if Terminal(answer, provider) {
        if answer.value.url.Some? {
          NoteAnswer(attempt, Found(answer.value.url.value));
          CompleteLookup(provider, attempt, answer.value.url.value);
          return;
        }
        if answer.value.available == Some(false) {
          NoteAnswer(attempt, Unavailable);
          FailLookup(provider, attempt);
          return;
        }
      }
      NoteAnswer(attempt, NotYet);
      DeferOrExhaust(provider, attempt, nextAt);
    }
  }

  lemma LookupApplies(c: Cell, now: Time, a: Action)
    requires Enabled(c, now, a) && LookupAction(a)
    ensures Apply(c, now, a) == LookupStep(c, a)
  {
  }

  /** What one lookup does to the rows, from what the provider said of the browser. */
  function Reconciled(r: Row, provider: Id, attempt: nat, answer: Result<Snapshot, ProviderError>,
                      nextAt: Time, at: Time): Row
  {
    var asked := attempt <= MAX_LOOKUPS && Terminal(answer, provider);
    if asked && answer.value.url.Some? then
      var done := LookupCompleted(r, provider, attempt, answer.value.url.value, at);
      if done.Ok? then done.value.0 else r
    else if attempt >= MAX_LOOKUPS || (asked && answer.value.available == Some(false))
    then LookupFailed(r, provider, attempt, at)
    else Rescheduled(r, attempt, nextAt)
  }

  lemma StaleAnswerIsHarmless(r: Row, provider: Id, attempt: nat, answer: Result<Snapshot, ProviderError>,
            nextAt: Time, at: Time)
    requires !OwnsAttempt(r, attempt)
    ensures Reconciled(r, provider, attempt, answer, nextAt, at) == r
  {
    if answer.Ok? && answer.value.url.Some? {
      StaleAttemptIsHarmless(r, provider, attempt, answer.value.url.value, at, nextAt);
    }
  }

  /** What an answered lookup comes to, for the attempt that owns its event: a source found is stored and delivered;
      a browser that will never have one, or the tenth answer without one, loses the recording; every other answer
      leaves the lookup with the same attempt, due again exactly from the new time on. */
  lemma LookupComesToItsOutcome(r: Row, provider: Id, attempt: nat, answer: Result<Snapshot, ProviderError>,
                                nextAt: Time, at: Time, later: Time)
    requires OwnsAttempt(r, attempt) && attempt <= 10 && Resolvable(r, at) && r.session.provider == Some(provider)
    ensures var after := Reconciled(r, provider, attempt, answer, nextAt, at);
            var stopped := answer.Ok? && answer.value.id == provider && answer.value.stopped;
            if stopped && answer.value.url.Some?
            then && after.session.url == answer.value.url && after.deliver.Some? && !Open(after.resolve)
                 && (Undelivered(r.recording.status) ==> after.recording.status.Pending?)
            else if attempt == 10 || (stopped && answer.value.available == Some(false))
            then && !Open(after.resolve) && after.session == r.session && after.deliver == r.deliver
                 && (Undelivered(r.recording.status) ==> after.recording.status.Lost?)
            else && OwnsAttempt(after, attempt) && after == r.(resolve := after.resolve)
                 && (Resolvable(after, later) <==> nextAt <= later)
  {
  }

  /** The last attempt settles its event: whatever the provider said, nothing is left to retry, unless
      the found source contradicts the rows. */
  lemma TenthAttemptSettles(r: Row, provider: Id, attempt: nat, answer: Result<Snapshot, ProviderError>,
            nextAt: Time, at: Time)
    requires attempt >= MAX_LOOKUPS && OwnsAttempt(r, attempt)
    requires r.session.provider == Some(provider) && !IsLive(r.session.status) && !r.recording.status.Available?
    ensures var after := Reconciled(r, provider, attempt, answer, nextAt, at);
            && !Open(after.resolve) && after.resolve.Some?
            && (!(Terminal(answer, provider) && answer.value.url.Some?) || attempt > MAX_LOOKUPS ==>
                  after.recording.status == if Undelivered(r.recording.status) then Lost else r.recording.status)
  {
  }

  lemma FailureNamesBrowser(r: Row, provider: Id, reason: string, durationMs: nat, hasSource: bool, at: Time)
    requires !r.session.status.Failed?
    ensures var next := FailedAfterStop(r, provider, reason, durationMs, hasSource, at);
            next.Ok? ==> next.value.session.status.Failed? && next.value.session.provider == Some(provider)
  {
  }

  /** The session is active with the very browser the provider has. */
  predicate InUse(c: Cell) {
    c.row.session.status.Active? && c.row.session.provider.Some? && HasBrowser(c, c.row.session.provider.value)
  }

  function StopOf(b: Id, a: Answers): Result<Snapshot, ProviderError> {
    Confirmation(b, a.stop, a.lookup)
  }

  /** The source the confirmed stop brought, if it was confirmed and brought one. */
  function ConfirmedUrl(b: Id, a: Answers): Option<Secret> {
    if StopOf(b, a).Ok? then StopOf(b, a).value.url else None
  }

  // --------------------------------------------------- what a start comes to

  /** The browser an ambiguous start turns out to have created, if the search finds one that validates. */
  function FoundRuntime(found: Result<Option<Snapshot>, ProviderError>): Option<Runtime> {
    if found.Ok? && found.value.Some? then found.value.value.runtime else None
  }

  /** The browser a start has to show: the reply's, or the one found when the reply was lost. */
  function StartedRuntime(start: Result<Snapshot, ProviderError>, found: Result<Option<Snapshot>, ProviderError>)
      : Option<Runtime>
  {
    if start.Ok? then start.value.runtime else if Definite(start.error) then None else FoundRuntime(found)
  }

  predicate Startable(r: Row, now: Time) {
    r.session.status.Starting? && now < r.session.expiresAt
  }

  /** The session is active with this runtime, readable by an end, and nothing else has changed. */
  predicate StartedWith(before: Row, after: Row, p: Runtime) {
    && after.session.status.Active? && after.session.note == before.session.note
    && RuntimeOf(after.session) == Ok(p) && Unstarted(after) == Unstarted(before)
  }

  /** Too late to start: the session ends with the runtime kept for its reaper, if it was starting still. */
  function LeftUnstarted(r: Row, p: Runtime, now: Time): Row {
    if !r.session.status.Starting? || now < r.session.expiresAt then r
    else r.(session := r.session.(status := Ending, note := Some(TTL_NOTE), provider := Some(p.id), cdp := Some(p.cdp),
                                  live := Some(p.live), url := p.url))
  }

  /** `recover_failed_session_start` after its first half, for a given answer of the provider. */
  function Recovered(r: Row, u: Usage, browser: Id, retained: bool, reason: string, a: Answers, at: Time)
      : (Row, Usage)
  {
    var stop := StopOf(browser, a);
    if stop.Err? then (r, u)
    else
      var sourced := Sourced(r, stop.value.url);
      var metered := UsageRecorded(sourced.session, u, a.sample, true);
      if metered.Err? then (sourced, u)
      else
        var failed := FailedAfterStop(sourced, browser, reason, a.durationMs, retained || stop.value.url.Some?, at);
        (if failed.Ok? then failed.value else sourced, metered.value)
  }

  /** What a session that still was starting fails with, told column by column. */
  predicate FailedWith(before: Row, after: Row, started: Snapshot, reason: string, a: Answers, at: Time) {
    var p, url := started.runtime, ConfirmedUrl(started.id, a);
    var source := if url.Some? then url else if p.Some? then p.value.url else None;
    && after.session == before.session.(
         status := Failed, endedAt := Some(at), note := Some(reason), provider := Some(started.id),
         cdp := if p.Some? then Some(p.value.cdp) else None, live := if p.Some? then Some(p.value.live) else None,
         url := source)
    && (if Undelivered(before.recording.status)
        then HandedOver(before, after, source.Some?, a.durationMs, SizeOr(before, 0), at)
        else after.recording == before.recording)
  }

  /** A start that could not be activated is undone: the session fails exactly if it still was starting, the
      stop of its browser is proved and the final sample is good. If not, it keeps its slot and, as far as it is
      known, the runtime; a session expired meanwhile stays expired. */
  predicate StartUndone(r: Row, u: Usage, started: Snapshot, reason: string, a: Answers, at: Time, after: Row, v: Usage)
  {
    var stop := StopOf(started.id, a);
    var kept := if started.runtime.Some? then LeftUnstarted(r, started.runtime.value, at) else r;
    && (after.session.status.Failed? <==>
          r.session.status.Starting? && stop.Ok? && GoodSample(r, u, a.sample) && a.durationMs <= MAX_I64)
    && (after.session.status.Failed? ==>
          FailedWith(r, after, started, reason, a, at) && Taken(u, a.sample, v))
    && (!after.session.status.Failed? ==>
          after == Sourced(kept, ConfirmedUrl(started.id, a)))
  }

  lemma UndoComposes(r: Row, u: Usage, started: Snapshot, reason: string, a: Answers, at: Time)
    requires RowOk(r) && UsageOk(u) && (r.session.status.Starting? || r.session.status.Expired?)
    requires r.session.provider.None? && (r.session.status.Starting? ==> r.session.url.None?)
    requires started.runtime.Some? ==> started.runtime.value.id == started.id && !Startable(r, at)
    ensures var p := started.runtime;
            var kept := if p.Some? then LeftUnstarted(r, p.value, at) else r;
            var retained := if p.Some? then Retained(kept, p.value, reason) else Err(NotFound);
            var row := if retained.Ok? then retained.value else kept;
            var (after, v) := Recovered(row, u, started.id, retained.Ok? && p.value.url.Some?, reason, a, at);
            StartUndone(r, u, started, reason, a, at, after, v)
  {
    hide ValidSample, UsageOk, Readable, UsageRecorded, Decreases, Taken, Confirmation, FailedAfterStop;
    var p := started.runtime;
    var kept := if p.Some? then LeftUnstarted(r, p.value, at) else r;
    var stop := StopOf(started.id, a);
    if p.Some? { assert r.session.status.Starting? ==> Retained(kept, p.value, reason) == Ok(kept); }
    if stop.Ok? {
      var sourced := Sourced(kept, stop.value.url);
      var known := (r.session.status.Starting? && p.Some? && p.value.url.Some?) || stop.value.url.Some?;
      SampleIsTakenExactly(sourced.session, u, a.sample, true);
      FailureAfterStopIsExact(sourced, started.id, reason, a.durationMs, known, at);
    }
  }

  // ------------------------------------------------- what a closing comes to

  /** The final sample is good: readable, in the session's currency, and with traffic if it has a profile. */
  predicate GoodSample(r: Row, u: Usage, s: Sample) {
    && ValidSample(s) && Upper(s.currency) == u.currency
    && (r.session.profile.Some? ==> s.proxyIn.Some? || s.proxyOut.Some? || s.proxyUnclassified.Some?)
  }

  /** What a closer needs beside a session of the right status. */
  predicate CanClose(r: Row, u: Usage, a: Answers) {
    && r.session.provider.Some? && StopOf(r.session.provider.value, a).Ok? && GoodSample(r, u, a.sample)
    && Undelivered(r.recording.status) && a.durationMs <= MAX_I64
  }

  function StopUrl(r: Row, a: Answers): Option<Secret> {
    if r.session.provider.Some? then ConfirmedUrl(r.session.provider.value, a) else None
  }

  /** An ending session keeps the note it was first ended with. */
  function EndNote(s: Session, note: string): Option<string> {
    if s.status.Active? then Some(note) else s.note
  }

  predicate EndedWith(before: Row, after: Row, note: string, a: Answers, at: Time) {
    ClosedAs(before, after, Ended, EndNote(before.session, note), StopUrl(before, a),
             before.session.url.Some? || StopUrl(before, a).Some?, a.durationMs, at)
  }

  /** What an end that failed on the way leaves: the session holds its slot, with its runtime, for a retry. */
  function LeftEnding(r: Row, note: string, a: Answers): Row {
    if !Endable(r) then r
    else r.(session := r.session.(status := Ending, note := EndNote(r.session, note),
                                  url := if StopUrl(r, a).Some? then StopUrl(r, a) else r.session.url))
  }

  /** An end's five transactions together. */
  lemma EndComposes(r: Row, u: Usage, note: string, a: Answers, at: Time)
    requires RowOk(r) && UsageOk(u)
    ensures var begun := EndBegun(r, note);
            && (EndingRuntime(begun).Ok? <==> Endable(r))
            && (!Endable(r) ==> begun == LeftEnding(r, note, a))
            && (Endable(r) ==>
                  && r.session.provider == Some(EndingRuntime(begun).value.id)
                  && var stop, known := StopOf(r.session.provider.value, a), EndingRuntime(begun).value.url.Some?;
                     && (stop.Err? ==> !CanClose(r, u, a) && begun == LeftEnding(r, note, a))
                     && (stop.Ok? ==> EndSettles(r, u, note, begun, stop.value.url, known, a, at)))
  {
    hide EndSettles, ValidSample, UsageOk, UsageRecorded;
    if Endable(r) {
      var begun, stop := EndBegun(r, note), StopOf(r.session.provider.value, a);
      if stop.Ok? { EndSettlesIndeed(r, u, note, stop.value.url, a, at); }
    }
  }

  predicate EndSettles(r: Row, u: Usage, note: string, begun: Row, url: Option<Secret>, known: bool, a: Answers,
                       at: Time)
  {
    var sourced, known := Sourced(begun, url), known || url.Some?;
    var metered := UsageRecorded(sourced.session, u, a.sample, true);
    var handed := Handed(sourced, known, a.durationMs, at);
    && (metered.Ok? && handed.Ok? <==> CanClose(r, u, a))
    && sourced == LeftEnding(r, note, a)
    && (metered.Ok? && handed.Ok? ==>
          && EndFinalized(handed.value, at).Ok? && Taken(u, a.sample, metered.value)
          && EndedWith(r, EndFinalized(handed.value, at).value, note, a, at))
  }

  lemma EndSettlesIndeed(r: Row, u: Usage, note: string, url: Option<Secret>, a: Answers, at: Time)
    requires RowOk(r) && UsageOk(u) && Endable(r)
    requires StopOf(r.session.provider.value, a).Ok? && url == StopOf(r.session.provider.value, a).value.url
    ensures EndSettles(r, u, note, EndBegun(r, note), url, r.session.url.Some?, a, at)
  {
    hide ValidSample, UsageOk, Readable, UsageRecorded, Decreases, Taken, Handed, Confirmation;
    var begun := EndBegun(r, note);
    var sourced, known := Sourced(begun, url), begun.session.url.Some? || url.Some?;
    SampleIsTakenExactly(sourced.session, u, a.sample, true);
    HandOverIsExact(begun, url, known, a.durationMs, at);
    if Handed(sourced, known, a.durationMs, at).Ok? {
      HandedOverSessionCloses(begun, url, known, a.durationMs, 0, at);
    }
  }

  /** A reaper goes by what its claim was told of the source; one stored since then it does not know of. */
  predicate KnowsSource(r: Row, claim: Closer, a: Answers) {
    claim.hasSource || StopUrl(r, a).Some? || r.session.url.None?
  }

  predicate ExpiredWith(before: Row, after: Row, claim: Closer, a: Answers, at: Time) {
    ClosedAs(before, after, Expired, Some(TTL_NOTE), StopUrl(before, a),
             claim.hasSource || StopUrl(before, a).Some?, a.durationMs, at)
  }

  /** What a reap that failed after its validation leaves: the session still ending, with no lease. */
  function LeftClaimable(r: Row, a: Answers): Row {
    r.(session := r.session.(lease := None, url := if StopUrl(r, a).Some? then StopUrl(r, a) else r.session.url))
  }

  /** A reap's transactions together, from a current claim on. */
  lemma ReapComposes(r: Row, u: Usage, claim: Closer, lease: Id, a: Answers, at: Time)
    requires RowOk(r) && UsageOk(u) && LeaseCurrent(r, lease, at) && r.session.expiresAt <= at
    requires r.session.provider == Some(claim.browser)
    requires claim.hasSource ==> r.session.url.Some?
    ensures var stop := StopOf(claim.browser, a);
            && (stop.Err? ==> !CanClose(r, u, a) && Released(r, lease) == LeftClaimable(r, a))
            && (stop.Ok? ==> ReapSettles(r, u, claim, lease, stop.value.url, a, at))
  {
    hide ValidSample, UsageOk, Readable, UsageRecorded, Decreases, Taken, Handed, Confirmation;
    var stop := StopOf(claim.browser, a);
    if stop.Ok? {
      var url := stop.value.url;
      var sourced, known := Sourced(r, url), claim.hasSource || url.Some?;
      SampleIsTakenExactly(sourced.session, u, a.sample, true);
      HandOverIsExact(r, url, known, a.durationMs, at);
      if Handed(sourced, known, a.durationMs, at).Ok? {
        HandedOverSessionCloses(r, url, known, a.durationMs, lease, at);
      }
    }
  }

  predicate ReapSettles(r: Row, u: Usage, claim: Closer, lease: Id, url: Option<Secret>, a: Answers, at: Time) {
    var sourced, known := Sourced(r, url), claim.hasSource || url.Some?;
    var metered := UsageRecorded(sourced.session, u, a.sample, true);
    var handed := Handed(sourced, known, a.durationMs, at);
    && (metered.Ok? && handed.Ok? <==> CanClose(r, u, a) && KnowsSource(r, claim, a))
    && Released(sourced, lease) == LeftClaimable(r, a)
    && (metered.Ok? && handed.Ok? ==>
          && ExpiryFinalized(handed.value, lease, at).Ok? && Taken(u, a.sample, metered.value)
          && ExpiredWith(r, ExpiryFinalized(handed.value, lease, at).value, claim, a, at))
  }

  function Metered(k: Closer): Closer {
    k.(stage := if k.kind.Recover? then Finalizing else Registering)
  }

  /** A closer's error path was taken: a reaper still has its lease to release. */
  predicate GaveUp(c: Cell, d: Cell, w: Id) {
    && w in c.closers
    && if c.closers[w].kind.Reap? then w in d.closers && d.closers[w] == c.closers[w].(stage := Releasing)
       else w !in d.closers
  }
}
