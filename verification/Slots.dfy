/** Profiles and the one-live-session-per-profile guard (crates/backend/src/store.rs). */
module Slots {
  import opened Wrappers
  import opened Rows
  import opened RowLaws

  datatype ProfileStatus = Provisioning | Ready | Retired | Unusable

  datatype Tables = Tables(profiles: map<Id, ProfileStatus>, rows: map<Id, Row>)

  predicate Occupies(r: Row, profile: Id) {
    IsLive(r.session.status) && r.session.profile == Some(profile)
  }

  predicate Busy(t: Tables, profile: Id) {
    exists s :: s in t.rows && Occupies(t.rows[s], profile)
  }

  // ------------------------------------------------------------ transactions

  function ProfileReserved(t: Tables, profile: Id): Tables {
    t.(profiles := t.profiles[profile := Provisioning])
  }

  /** `activate_profile` and `fail_profile` complete exactly one reservation; the error carries no
      session status because none is involved. */
  function ProfileSettled(t: Tables, profile: Id, ready: bool): Result<Tables, StoreError> {
    if profile !in t.profiles then Err(NotFound)
    else if !t.profiles[profile].Provisioning? then Err(ProfileNotReady)
    else Ok(t.(profiles := t.profiles[profile := if ready then Ready else Unusable]))
  }

  function ProfileEnded(t: Tables, profile: Id, owner: bool): Result<Tables, StoreError> {
    if profile !in t.profiles then Err(NotFound)
    else if !owner then Err(Forbidden)
    else if Busy(t, profile) then Err(ProfileBusy)
    else Ok(t.(profiles := t.profiles[profile := Retired]))
  }

  /** `reserve_session`: the profile checks, then the insert under the uniqueness guard. */
  function SessionReserved(t: Tables, id: Id, profile: Option<Id>, allowed: bool, at: Time, ttl: Time)
      : Result<Tables, StoreError>
  {
    if profile.Some? && profile.value !in t.profiles then Err(NotFound)
    else if profile.Some? && (t.profiles[profile.value].Retired? || t.profiles[profile.value].Unusable?)
    then Err(ProfileRetired)
    else if profile.Some? && !t.profiles[profile.value].Ready? then Err(ProfileNotReady)
    else if profile.Some? && !allowed then Err(NotFound)
    else if profile.Some? && Busy(t, profile.value) then Err(ProfileBusy)
    else Ok(t.(rows := t.rows[id := Reserved(profile, at, ttl)]))
  }

  /** A committed transaction on one session. */
  function RowChanged(t: Tables, id: Id, r: Row): Tables {
    t.(rows := t.rows[id := r])
  }

  // --------------------------------------------------- claiming many at once

  predicate Due(t: Tables, id: Id, at: Time) {
    id in t.rows && Reapable(TtlReached(t.rows[id], at), at)
  }

  function DueSet(t: Tables, at: Time): set<Id> {
    set id | id in t.rows && Due(t, id, at)
  }

  /** `ORDER BY expires_at, id`. */
  predicate Sooner(t: Tables, a: Id, b: Id)
    requires a in t.rows && b in t.rows
  {
    var x, y := t.rows[a].session.expiresAt, t.rows[b].session.expiresAt;
    x < y || (x == y && a < b)
  }

  /** The first `limit` due sessions in that order. */
  ghost predicate FirstDue(t: Tables, at: Time, chosen: set<Id>, limit: nat) {
    && chosen <= DueSet(t, at)
    && |chosen| == (if |DueSet(t, at)| <= limit then |DueSet(t, at)| else limit)
    && forall c, d | c in chosen && d in DueSet(t, at) - chosen :: Sooner(t, c, d)
  }

  function SessionsClaimed(t: Tables, at: Time, chosen: set<Id>, lease: Lease): Tables {
    t.(rows := map id | id in t.rows :: Claimed(t.rows[id], at, if id in chosen then Some(lease) else None))
  }

  // ------------------------------------------------------------------- laws

  /** At most one live session per profile, and none on a profile that is not ready. */
  ghost predicate SlotsOk(t: Tables) {
    && (forall s | s in t.rows && IsLive(t.rows[s].session.status) && t.rows[s].session.profile.Some? ::
          var p := t.rows[s].session.profile.value; p in t.profiles && t.profiles[p].Ready?)
    && (forall s, u, p | s in t.rows && u in t.rows && Occupies(t.rows[s], p) && Occupies(t.rows[u], p) :: s == u)
  }

  lemma ProfileStepsKeepSlots(t: Tables, profile: Id, ready: bool, owner: bool)
    requires SlotsOk(t)
    ensures profile !in t.profiles ==> SlotsOk(ProfileReserved(t, profile))
    ensures ProfileSettled(t, profile, ready).Ok? ==> SlotsOk(ProfileSettled(t, profile, ready).value)
    ensures ProfileEnded(t, profile, owner).Ok? ==> SlotsOk(ProfileEnded(t, profile, owner).value)
  {
  }

  lemma ReservationKeepsSlots(t: Tables, id: Id, profile: Option<Id>, allowed: bool, at: Time, ttl: Time)
    requires SlotsOk(t) && id !in t.rows
    ensures var next := SessionReserved(t, id, profile, allowed, at, ttl); next.Ok? ==> SlotsOk(next.value)
  {
    var next := SessionReserved(t, id, profile, allowed, at, ttl);
    if next.Ok? && profile.Some? {
      assert !Busy(t, profile.value);
    }
  }

  /** Whatever a transaction does to one session's rows, if it only moves them forward it can free a
      slot but never take one. */
  lemma ForwardKeepsSlots(t: Tables, id: Id, r: Row)
    requires SlotsOk(t) && id in t.rows && Up(t.rows[id], r)
    ensures SlotsOk(RowChanged(t, id, r))
  {
    var t' := RowChanged(t, id, r);
    forall s | s in t'.rows ensures IsLive(t'.rows[s].session.status) ==> IsLive(t.rows[s].session.status)
    {
    }
    forall s, p | s in t'.rows && Occupies(t'.rows[s], p) ensures Occupies(t.rows[s], p) {}
  }

  /** Exactly when a profile's slot is given away: the profile is ready, the caller may use it and nobody holds
      it. Everything else stays as it was. */
  lemma SlotIsGivenExactly(t: Tables, id: Id, profile: Option<Id>, allowed: bool, at: Time, ttl: Time)
    requires id !in t.rows
    ensures var next := SessionReserved(t, id, profile, allowed, at, ttl);
            && (next.Ok? <==> profile.Some? ==>
                  && profile.value in t.profiles && t.profiles[profile.value].Ready? && allowed
                  && forall s | s in t.rows :: !Occupies(t.rows[s], profile.value))
            && (next.Ok? ==>
                  && next.value.profiles == t.profiles && next.value.rows.Keys == t.rows.Keys + {id}
                  && (forall s | s in t.rows :: next.value.rows[s] == t.rows[s])
                  && next.value.rows[id].session.status.Starting?
                  && next.value.rows[id].session.startedAt == at && next.value.rows[id].session.expiresAt == at + ttl
                  && forall p: Id :: Occupies(next.value.rows[id], p) <==> profile == Some(p))
  {
  }

  /** A taken slot refuses the next reservation and the profile's end until its session is over, whatever
      happened to that session in between; then both are possible again. */
  lemma SlotIsHeldUntilFreed(t: Tables, id: Id, p: Id, at: Time, ttl: Time, r: Row, other: Id)
    requires SlotsOk(t) && id !in t.rows && other !in t.rows && other != id
    requires SessionReserved(t, id, Some(p), true, at, ttl).Ok? && r.session.profile == Some(p)
    ensures var held := RowChanged(SessionReserved(t, id, Some(p), true, at, ttl).value, id, r);
            if IsLive(r.session.status)
            then && SessionReserved(held, other, Some(p), true, at, ttl) == Err(ProfileBusy)
                 && ProfileEnded(held, p, true) == Err(ProfileBusy)
            else && SessionReserved(held, other, Some(p), true, at, ttl).Ok? && ProfileEnded(held, p, true).Ok?
                 && ProfileEnded(held, p, true).value == held.(profiles := t.profiles[p := Retired])
                 && SessionReserved(ProfileEnded(held, p, true).value, other, Some(p), true, at, ttl)
                    == Err(ProfileRetired)
  {
    var held := RowChanged(SessionReserved(t, id, Some(p), true, at, ttl).value, id, r);
    if IsLive(r.session.status) {
      assert Occupies(held.rows[id], p);
    } else {
      assert !Busy(t, p);
      forall s | s in held.rows ensures !Occupies(held.rows[s], p) {}
    }
  }

  /** A profile can be used exactly once its provider profile is there, is settled once, and a failed one never
      can; only its owner ends it. */
  lemma ProfileIsSettledOnce(t: Tables, p: Id, ready: bool, again: bool, id: Id, at: Time, ttl: Time)
    requires p !in t.profiles && id !in t.rows && SlotsOk(t)
    ensures SessionReserved(t, id, Some(p), true, at, ttl) == Err(NotFound)
    ensures ProfileSettled(t, p, ready) == Err(NotFound) && ProfileEnded(t, p, true) == Err(NotFound)
    ensures var made := ProfileReserved(t, p);
            && SessionReserved(made, id, Some(p), true, at, ttl) == Err(ProfileNotReady)
            && ProfileSettled(made, p, ready).Ok?
            && var settled := ProfileSettled(made, p, ready).value;
               && ProfileSettled(settled, p, again) == Err(ProfileNotReady)
               && ProfileEnded(settled, p, false) == Err(Forbidden)
               && (if ready then SessionReserved(settled, id, Some(p), true, at, ttl).Ok?
                   else SessionReserved(settled, id, Some(p), true, at, ttl) == Err(ProfileRetired))
               && SessionReserved(settled, id, Some(p), false, at, ttl) ==
                  Err(if ready then NotFound else ProfileRetired)
               && settled.rows == t.rows && settled.profiles.Keys == t.profiles.Keys + {p}
               && forall q | q in t.profiles :: settled.profiles[q] == t.profiles[q]
  {
  }

  lemma ClaimKeepsSlots(t: Tables, at: Time, chosen: set<Id>, lease: Lease)
    requires SlotsOk(t)
    ensures SlotsOk(SessionsClaimed(t, at, chosen, lease))
  {
    var t' := SessionsClaimed(t, at, chosen, lease);
    forall s | s in t'.rows ensures IsLive(t'.rows[s].session.status) ==> IsLive(t.rows[s].session.status) {}
    forall s, p | s in t'.rows && Occupies(t'.rows[s], p) ensures Occupies(t.rows[s], p) {}
  }

  /** Right after a claim, exactly the sessions left out are still due. */
  lemma ClaimLeavesTheRest(t: Tables, at: Time, chosen: set<Id>, lease: Lease)
    requires chosen <= DueSet(t, at) && lease.until > at
    ensures DueSet(SessionsClaimed(t, at, chosen, lease), at) == DueSet(t, at) - chosen
  {
    var t' := SessionsClaimed(t, at, chosen, lease);
    forall id ensures id in DueSet(t', at) <==> id in DueSet(t, at) - chosen {
      if id in t.rows {
        ClaimedDue(t.rows[id], at, if id in chosen then Some(lease) else None);
      }
    }
  }

  lemma SplitSize(whole: set<Id>, part: set<Id>)
    requires part <= whole
    ensures |whole - part| == |whole| - |part|
  {
    assert whole == (whole - part) + part;
  }

  lemma ChosenAreLeased(t: Tables, at: Time, chosen: set<Id>, lease: Lease, id: Id)
    requires chosen <= DueSet(t, at) && lease.until > at && id in chosen
    ensures LeaseCurrent(SessionsClaimed(t, at, chosen, lease).rows[id], lease.id, at)
  {
    assert Due(t, id, at);
  }

  /** A claim serves exactly `limit` due sessions, or all of them, soonest expiry first; those left
      out are still due right after it, and those served are not until the lease elapses. */
  lemma ClaimServesTheSoonest(t: Tables, at: Time, chosen: set<Id>, limit: nat, lease: Lease)
    requires FirstDue(t, at, chosen, limit) && lease.until > at
    ensures var t' := SessionsClaimed(t, at, chosen, lease);
            && DueSet(t', at) == DueSet(t, at) - chosen
            && |DueSet(t', at)| == (if |DueSet(t, at)| <= limit then 0 else |DueSet(t, at)| - limit)
            && (forall c | c in chosen :: LeaseCurrent(t'.rows[c], lease.id, at))
            && forall c, d | c in chosen && d in DueSet(t', at) ::
                 t.rows[c].session.expiresAt <= t.rows[d].session.expiresAt
  {
    hide Reapable, TtlReached, Claimed, LeaseCurrent, Due;
    ClaimLeavesTheRest(t, at, chosen, lease);
    SplitSize(DueSet(t, at), chosen);
    forall c, d | c in chosen && d in DueSet(t, at) - chosen
      ensures t.rows[c].session.expiresAt <= t.rows[d].session.expiresAt
    {
      assert Sooner(t, c, d);
    }
    forall c | c in chosen ensures LeaseCurrent(SessionsClaimed(t, at, chosen, lease).rows[c], lease.id, at) {
      ChosenAreLeased(t, at, chosen, lease, c);
    }
  }

  function DueBefore(t: Tables, at: Time, id: Id): set<Id>
    requires id in t.rows
  {
    set other | other in t.rows && Due(t, other, at) && Sooner(t, other, id)
  }

  /** The tables after one round of a reaper: a claim, then for every claimed session its outcome. In
      `failed` are those whose stop failed, so that their lease was released; the others' leases still
      run, or their sessions are finished. */
  ghost predicate RoundEnds(t: Tables, at: Time, chosen: set<Id>, lease: Lease, failed: set<Id>, t': Tables) {
    && failed <= chosen && t'.rows.Keys == t.rows.Keys
    && forall id | id in t.rows ::
         && t'.rows[id].session.expiresAt == t.rows[id].session.expiresAt
         && (id !in chosen ==> t'.rows[id] == Claimed(t.rows[id], at, None))
         && (id in failed ==> t'.rows[id] == Released(Claimed(t.rows[id], at, Some(lease)), lease.id))
         && (id in chosen - failed ==> !Due(t', id, at))
  }

  /** What is due after a round: everything that was, but for the sessions served. */
  lemma RoundLeavesUnserved(t: Tables, at: Time, chosen: set<Id>, lease: Lease, failed: set<Id>, t': Tables)
    requires RoundEnds(t, at, chosen, lease, failed, t') && chosen <= DueSet(t, at)
    ensures DueSet(t', at) == DueSet(t, at) - (chosen - failed)
  {
    forall id ensures id in DueSet(t', at) <==> id in DueSet(t, at) - (chosen - failed) {
      if id in t.rows {
        ClaimedDue(t.rows[id], at, None);
        if id in failed { ReleasedIsDue(t.rows[id], at, lease); }
      }
    }
  }

  /** A released session is due at once. */
  lemma ReleasedIsDue(r: Row, at: Time, lease: Lease)
    requires Reapable(TtlReached(r, at), at)
    ensures Reapable(TtlReached(Released(Claimed(r, at, Some(lease)), lease.id), at), at)
  {
  }

  /** How a round moves the queue ahead of a session it did not choose: by what it served, no more. The
      queue stands still exactly if every stop of the round failed. */
  lemma RoundShortensTheQueueByWhatItServes(t: Tables, at: Time, chosen: set<Id>, limit: nat, lease: Lease,
                                            failed: set<Id>, t': Tables, id: Id)
    requires FirstDue(t, at, chosen, limit) && RoundEnds(t, at, chosen, lease, failed, t')
    requires id in DueSet(t, at) - chosen
    ensures id in DueSet(t', at)
    ensures DueBefore(t', at, id) == DueBefore(t, at, id) - (chosen - failed)
    ensures |DueBefore(t', at, id)| == |DueBefore(t, at, id)| - (limit - |failed|)
    ensures DueBefore(t', at, id) == DueBefore(t, at, id) <==> failed == chosen
  {
    hide Reapable, TtlReached, Claimed, Released;
    var served := chosen - failed;
    RoundLeavesUnserved(t, at, chosen, lease, failed, t');
    forall c | c in chosen ensures c in DueBefore(t, at, id) { assert Sooner(t, c, id); }
    forall other ensures other in DueBefore(t', at, id) <==> other in DueBefore(t, at, id) - served {
      assert other in DueSet(t', at) <==> other in DueSet(t, at) - served;
    }
    SplitSize(DueBefore(t, at, id), served);
    SplitSize(chosen, failed);
    if |chosen| < limit { NothingLeft(DueSet(t, at), chosen, id); }
    if failed != chosen { Nonempty(chosen, failed); }
  }

  lemma Nonempty(whole: set<Id>, part: set<Id>)
    requires part <= whole && part != whole
    ensures |whole - part| > 0
  {
    assert whole == part + (whole - part);
  }

  /** After a round whose stops all failed, the next claim chooses the very same sessions. */
  lemma FailedRoundRepeats(t: Tables, at: Time, chosen: set<Id>, limit: nat, lease: Lease, t': Tables)
    requires FirstDue(t, at, chosen, limit) && RoundEnds(t, at, chosen, lease, chosen, t')
    ensures FirstDue(t', at, chosen, limit) && DueSet(t', at) == DueSet(t, at)
  {
    hide Reapable, TtlReached, Claimed, Released;
    RoundLeavesUnserved(t, at, chosen, lease, chosen, t');
    assert DueSet(t, at) - (chosen - chosen) == DueSet(t, at);
    forall c, d | c in chosen && d in DueSet(t', at) - chosen ensures Sooner(t', c, d) { assert Sooner(t, c, d); }
  }

  lemma NothingLeft(whole: set<Id>, part: set<Id>, id: Id)
    requires part <= whole && id in whole - part
    ensures |part| < |whole|
  {
    SplitSize(whole, part);
    assert whole - part != {};
  }

  lemma ClaimedDue(r: Row, at: Time, lease: Option<Lease>)
    requires lease.Some? ==> lease.value.until > at
    ensures var r' := Claimed(r, at, lease);
            && TtlReached(r', at) == r'
            && (lease.None? ==> r' == TtlReached(r, at))
            && (lease.Some? ==> !Reapable(r', at))
  {
  }
}
