/** The SQLite store (crates/backend/src/store.rs) as an object over its tables. Every method is one
    transaction, statement by statement: guarded updates, the re-read that explains a zero-row
    update, rollback. Each is proved equal to the row functions of modules Rows, UsageRows and Slots. */
module Store {
  import opened Wrappers
  import opened Numbers
  import opened Rows
  import opened UsageRows
  import opened Slots
  import opened LookupClaims
  import Decimal

  /** `recording.resolve:{session}` and `recording.store:{session}`. */
  datatype EventKey = ResolveKey(session: Id) | DeliverKey(session: Id)

  function EventAt(outbox: map<EventKey, Event>, key: EventKey): Option<Event> {
    if key in outbox then Some(outbox[key]) else None
  }

  function Joined(sessions: map<Id, Session>, recordings: map<Id, RecordingRow>, outbox: map<EventKey, Event>)
      : map<Id, Row>
    requires sessions.Keys == recordings.Keys
  {
    map id | id in sessions ::
      Row(sessions[id], recordings[id], EventAt(outbox, ResolveKey(id)), EventAt(outbox, DeliverKey(id)))
  }

  /** What a transaction on session `id` did, given what it should do to that session's row. */
  ghost predicate Commits(before: map<Id, Row>, after: map<Id, Row>, id: Id, outcome: Result<Row, StoreError>,
                          reply: Result<(), StoreError>)
  {
    match outcome
    case Ok(row) => after == before[id := row] && reply == Ok(())
    case Err(error) => after == before && reply == Err(error)
  }

  /** Two sort columns; ties go by id. */
  datatype SortKey = SortKey(first: Time, second: Time)

  predicate Earlier(keys: map<Id, SortKey>, a: Id, b: Id)
    requires a in keys && b in keys
  {
    var x, y := keys[a], keys[b];
    x.first < y.first || (x.first == y.first && (x.second < y.second || (x.second == y.second && a < b)))
  }

  /** `ORDER BY .., id LIMIT ?`. */
  method SelectFirst(due: set<Id>, keys: map<Id, SortKey>, limit: nat) returns (chosen: set<Id>)
    requires due <= keys.Keys
    ensures chosen <= due && |chosen| == (if |due| <= limit then |due| else limit)
    ensures forall c, d | c in chosen && d in due - chosen :: Earlier(keys, c, d)
  {
    chosen := {};
    var rest := due;
    while |chosen| < limit && rest != {}
      invariant chosen + rest == due && chosen !! rest && |chosen| <= limit
      invariant forall c, d | c in chosen && d in rest :: Earlier(keys, c, d)
      decreases |rest|
    {
      var first :| first in rest && forall d | d in rest - {first} :: Earlier(keys, first, d)
        by { EarliestExists(keys, rest); }
      chosen := chosen + {first};
      rest := rest - {first};
    }
    assert due - chosen == rest;
    assert |due| == |chosen| + |rest| by { assert due == chosen + rest; }
  }

  lemma EarliestExists(keys: map<Id, SortKey>, rest: set<Id>)
    requires rest <= keys.Keys && rest != {}
    ensures exists first :: first in rest && forall d | d in rest - {first} :: Earlier(keys, first, d)
    decreases |rest|
  {
    var x :| x in rest;
    if rest == {x} {
      assert rest - {x} == {};
    } else {
      var others := rest - {x};
      EarliestExists(keys, others);
      var y :| y in others && forall d | d in others - {y} :: Earlier(keys, y, d);
      var first := if Earlier(keys, x, y) then x else y;
      forall d | d in rest - {first} ensures Earlier(keys, first, d) {
        if d != x && d != y { assert Earlier(keys, y, d); }
      }
    }
  }

  class Store {
    var profiles: map<Id, ProfileStatus>
    var sessions: map<Id, Session>
    var recordings: map<Id, RecordingRow>
    var usages: map<Id, Usage>
    var outbox: map<EventKey, Event>

    predicate Valid()
      reads this
    {
      sessions.Keys == recordings.Keys == usages.Keys
    }

    function Rows(): (rows: map<Id, Row>)
      requires Valid()
      reads this
    {
      Joined(sessions, recordings, outbox)
    }

    function Snapshot(): Tables
      requires Valid()
      reads this
    {
      Tables(profiles, Rows())
    }

    constructor ()
      ensures Valid() && Snapshot() == Tables(map[], map[]) && usages == map[]
    {
      profiles, sessions, recordings, usages, outbox := map[], map[], map[], map[], map[];
    }

    // ------------------------------------------------------- single statements

    method SetSession(id: Id, s: Session)
      requires Valid() && id in sessions
      modifies this`sessions
      ensures Valid() && Rows() == old(Rows())[id := old(Rows())[id].(session := s)]
    {
      sessions := sessions[id := s];
    }

    method SetRecording(id: Id, r: RecordingRow)
      requires Valid() && id in sessions
      modifies this`recordings
      ensures Valid() && Rows() == old(Rows())[id := old(Rows())[id].(recording := r)]
    {
      recordings := recordings[id := r];
    }

    /** `INSERT OR IGNORE INTO outbox`. */
    method InsertEvent(key: EventKey, nextAt: Time, createdAt: Time)
      requires Valid() && key.session in sessions
      modifies this`outbox
      ensures Valid()
      ensures var row := old(Rows())[key.session];
              Rows() == old(Rows())[key.session :=
                if key.ResolveKey? then row.(resolve := Ensured(row.resolve, nextAt, createdAt))
                else row.(deliver := Ensured(row.deliver, nextAt, createdAt))]
    {
      if key !in outbox {
        outbox := outbox[key := Event(0, nextAt, createdAt, None)];
      }
    }

    /** `UPDATE outbox SET done_at = COALESCE(done_at, ?) WHERE id = ?`. */
    method CloseEvent(key: EventKey, at: Time)
      requires Valid() && key.session in sessions
      modifies this`outbox
      ensures Valid()
      ensures var row := old(Rows())[key.session];
              Rows() == old(Rows())[key.session :=
                if key.ResolveKey? then row.(resolve := Closed(row.resolve, at))
                else row.(deliver := Closed(row.deliver, at))]
    {
      if key in outbox {
        outbox := outbox[key := outbox[key].(doneAt := Coalesce(outbox[key].doneAt, Some(at)))];
      }
    }

    // ---------------------------------------------------------------- profiles

    method ReserveProfile(profile: Id)
      requires Valid() && profile !in profiles
      modifies this`profiles
      ensures Valid() && Snapshot() == ProfileReserved(old(Snapshot()), profile)
    {
      profiles := profiles[profile := Provisioning];
    }

    /** `activate_profile` when `ready`, `fail_profile` otherwise. */
    method SettleProfile(profile: Id, ready: bool) returns (reply: Result<(), StoreError>)
      requires Valid()
      modifies this`profiles
      ensures Valid()
      ensures match ProfileSettled(old(Snapshot()), profile, ready)
              case Ok(after) => Snapshot() == after && reply == Ok(())
              case Err(error) => Snapshot() == old(Snapshot()) && reply == Err(error)
    {
      if profile in profiles && profiles[profile].Provisioning? {
        profiles := profiles[profile := if ready then Ready else Unusable];
        return Ok(());
      }
      reply := if profile !in profiles then Err(NotFound) else Err(ProfileNotReady);
    }

    /** The live-session probe of `end_profile` and `profile_busy`. */
    method HasLiveSession(profile: Id) returns (busy: bool)
      requires Valid()
      ensures busy == Busy(Snapshot(), profile)
    {
      var live := set id | id in sessions && IsLive(sessions[id].status) && sessions[id].profile == Some(profile);
      busy := live != {};
      if busy {
        var id :| id in live;
        assert Occupies(Rows()[id], profile);
      } else {
        forall id | id in Rows() ensures !Occupies(Rows()[id], profile) { assert id !in live; }
      }
    }

    method EndProfile(profile: Id, owner: bool) returns (reply: Result<(), StoreError>)
      requires Valid()
      modifies this`profiles
      ensures Valid()
      ensures match ProfileEnded(old(Snapshot()), profile, owner)
              case Ok(after) => Snapshot() == after && reply == Ok(())
              case Err(error) => Snapshot() == old(Snapshot()) && reply == Err(error)
    {
      if profile !in profiles {
        return Err(NotFound);
      }
      if !owner {
        return Err(Forbidden);
      }
      var busy := HasLiveSession(profile);
      if busy {
        return Err(ProfileBusy);
      }
      profiles := profiles[profile := Retired];
      reply := Ok(());
    }

    // ------------------------------------------------------------ reservation

    /** The profile checks and, through the unique index on live sessions, the insert's own guard. */
    method ReservationRefused(id: Id, profile: Option<Id>, allowed: bool, at: Time, ttl: Time)
        returns (refusal: Option<StoreError>)
      requires Valid()
      ensures SessionReserved(Snapshot(), id, profile, allowed, at, ttl) ==
              if refusal.Some? then Err(refusal.value)
              else Ok(Tables(profiles, Rows()[id := Reserved(profile, at, ttl)]))
    {
      refusal := None;
      if profile.Some? {
        if profile.value !in profiles {
          return Some(NotFound);
        }
        var status := profiles[profile.value];
        if status.Retired? || status.Unusable? {
          return Some(ProfileRetired);
        }
        if !status.Ready? {
          return Some(ProfileNotReady);
        }
        if !allowed {
          return Some(NotFound);
        }
        var busy := HasLiveSession(profile.value);
        if busy {
          return Some(ProfileBusy);
        }
      }
    }

    method ReserveSession(id: Id, profile: Option<Id>, allowed: bool, at: Time, ttl: Time)
        returns (reply: Result<(), StoreError>)
      requires Valid() && id !in sessions && ResolveKey(id) !in outbox && DeliverKey(id) !in outbox
      modifies this`sessions, this`recordings, this`usages
      ensures Valid()
      ensures match SessionReserved(old(Snapshot()), id, profile, allowed, at, ttl)
              case Ok(after) =>
                Snapshot() == after && reply == Ok(()) && usages == old(usages)[id := ReservedUsage(profile, at)]
              case Err(error) => Snapshot() == old(Snapshot()) && usages == old(usages) && reply == Err(error)
    {
      var refusal := ReservationRefused(id, profile, allowed, at, ttl);
      if refusal.Some? {
        return Err(refusal.value);
      }
      InsertSession(id, Reserved(profile, at, ttl), ReservedUsage(profile, at));
      reply := Ok(());
    }

    method InsertSession(id: Id, row: Row, usage: Usage)
      requires Valid() && id !in sessions && ResolveKey(id) !in outbox && DeliverKey(id) !in outbox
      requires row.resolve.None? && row.deliver.None?
      modifies this`sessions, this`recordings, this`usages
      ensures Valid() && Rows() == old(Rows())[id := row] && usages == old(usages)[id := usage]
    {
      sessions := sessions[id := row.session];
      recordings := recordings[id := row.recording];
      usages := usages[id := usage];
    }

    // ------------------------------------------------------------- activation

    /** Both updates of `activate_session`, with the read between them. */
    method ActivateSession(id: Id, p: Runtime, at: Time) returns (reply: Result<(), StoreError>)
      requires Valid()
      modifies this`sessions
      ensures Valid()
      ensures id !in old(Rows()) ==> Rows() == old(Rows()) && reply == Err(NotFound)
      ensures id in old(Rows()) ==>
                var before := old(Rows())[id];
                if Activated(before, p, at).Some?
                then Commits(old(Rows()), Rows(), id, Ok(Activated(before, p, at).value), reply)
                else if ActivationExpired(before, at) then
                  Rows() == old(Rows())[id := LateActivated(before, p)] && reply == Err(WrongState(Ending))
                else Rows() == old(Rows()) && reply == Err(WrongState(before.session.status))
    {
      if id in sessions && sessions[id].status.Starting? && sessions[id].expiresAt > at {
        SetSession(id, WithRuntime(sessions[id], Active, p));
        return Ok(());
      }
      if id !in sessions {
        return Err(NotFound);
      }
      var row := sessions[id];
      if row.expiresAt <= at && IsLive(row.status) {
        if row.status.Starting? {
          SetSession(id, WithRuntime(row, Ending, p).(note := Some(TTL_NOTE)));
        } else {
          assert Rows() == Rows()[id := Rows()[id]];
        }
        return Err(WrongState(Ending));
      }
      reply := Err(WrongState(row.status));
    }

    method RetainRuntime(id: Id, p: Runtime, reason: string) returns (reply: Result<(), StoreError>)
      requires Valid()
      modifies this`sessions
      ensures Valid()
      ensures id !in old(Rows()) ==> Rows() == old(Rows()) && reply == Err(NotFound)
      ensures id in old(Rows()) ==> Commits(old(Rows()), Rows(), id, Retained(old(Rows())[id], p, reason), reply)
    {
      if id !in sessions {
        return Err(NotFound);
      }
      var s := sessions[id];
      if IsLive(s.status) && (s.provider.None? || s.provider == Some(p.id)) {
        SetSession(id, s.(status := Ending, note := Coalesce(s.note, Some(reason)),
                          provider := Coalesce(s.provider, Some(p.id)), cdp := Coalesce(s.cdp, Some(p.cdp)),
                          live := Coalesce(s.live, Some(p.live)), url := Coalesce(s.url, p.url)));
        return Ok(());
      }
      if s.provider.Some? && s.provider.value != p.id {
        return Err(Corrupt);
      }
      reply := Err(WrongState(s.status));
    }

    method FailSession(id: Id, reason: string, at: Time) returns (reply: Result<(), StoreError>)
      requires Valid()
      modifies this`sessions, this`recordings
      ensures Valid()
      ensures id !in old(Rows()) ==> Rows() == old(Rows()) && reply == Err(NotFound)
      ensures id in old(Rows()) ==>
                Commits(old(Rows()), Rows(), id, Ok(FailedStart(old(Rows())[id], reason, at)), reply)
    {
      if id !in sessions {
        return Err(NotFound);
      }
      if IsLive(sessions[id].status) {
        SetSession(id, sessions[id].(status := Failed, endedAt := Some(at), note := Some(reason)));
        if recordings[id].status.Recording? {
          SetRecording(id, recordings[id].(status := Lost));
        }
      } else {
        assert Rows() == Rows()[id := Rows()[id]];
      }
      reply := Ok(());
    }

    method FinalizeFailedAfterStop(id: Id, provider: Id, reason: string, durationMs: nat, hasSource: bool, at: Time)
        returns (reply: Result<(), StoreError>)
      requires Valid()
      modifies this`sessions, this`recordings, this`outbox
      ensures Valid()
      ensures id !in old(Rows()) ==> Rows() == old(Rows()) && reply == Err(NotFound)
      ensures id in old(Rows()) ==>
                Commits(old(Rows()), Rows(), id,
                        FailedAfterStop(old(Rows())[id], provider, reason, durationMs, hasSource, at), reply)
    {
      if id !in sessions {
        return Err(NotFound);
      }
      var saved := sessions;
      var s := sessions[id];
      if IsLive(s.status) && (s.provider.None? || s.provider == Some(provider)) {
        SetSession(id, s.(status := Failed, endedAt := Some(at), note := Some(reason),
                          provider := Coalesce(s.provider, Some(provider))));
      } else {
        if s.provider.Some? && s.provider.value != provider {
          return Err(Corrupt);
        }
        if !s.status.Failed? {
          return Err(WrongState(s.status));
        }
      }
      if durationMs > MAX_I64 {
        sessions := saved;  // rollback
        return Err(Invalid);
      }
      var r := recordings[id];
      if Undelivered(r.status) {
        SetRecording(id, RecordingRow(Pending, Some(durationMs), Coalesce(r.sizeBytes, Some(0))));
      }
      if hasSource {
        InsertEvent(DeliverKey(id), at, at);
      } else {
        InsertEvent(ResolveKey(id), at + SOURCE_INITIAL_DELAY, at);
      }
      reply := Ok(());
    }

    // ------------------------------------------------------------ explicit end

    method BeginEndSession(id: Id, note: string) returns (reply: Result<Runtime, StoreError>)
      requires Valid()
      modifies this`sessions
      ensures Valid()
      ensures id !in old(Rows()) ==> Rows() == old(Rows()) && reply == Err(NotFound)
      ensures id in old(Rows()) ==>
                && Rows() == old(Rows())[id := EndBegun(old(Rows())[id], note)]
                && reply == EndingRuntime(Rows()[id])
    {
      if id in sessions && sessions[id].status.Active? {
        SetSession(id, sessions[id].(status := Ending, note := Some(note)));
      }
      if id !in sessions {
        return Err(NotFound);
      }
      var row := sessions[id];
      if !row.status.Ending? {
        assert Rows() == Rows()[id := Rows()[id]];
        return Err(WrongState(row.status));
      }
      reply := RuntimeOf(row);
    }

    method FinalizeEndSession(id: Id, at: Time) returns (reply: Result<(), StoreError>)
      requires Valid()
      modifies this`sessions, this`recordings
      ensures Valid()
      ensures id !in old(Rows()) ==> Rows() == old(Rows()) && reply == Err(NotFound)
      ensures id in old(Rows()) ==> Commits(old(Rows()), Rows(), id, EndFinalized(old(Rows())[id], at), reply)
    {
      if id !in sessions {
        return Err(NotFound);
      }
      if sessions[id].status.Ending? {
        SetSession(id, sessions[id].(status := Ended, endedAt := Some(at)));
      } else if !sessions[id].status.Ended? {
        return Err(WrongState(sessions[id].status));
      }
      SetRecording(id, FromRecording(recordings[id], Pending));
      reply := Ok(());
    }

    // ----------------------------------------------------------------- expiry

    /** The sessions the claiming update selects, before ordering. */
    function DueNow(at: Time): (due: set<Id>)
      reads this
      ensures due <= sessions.Keys
    {
      set id | id in sessions && sessions[id].status.Ending? && sessions[id].expiresAt <= at
               && sessions[id].provider.Some? && LeaseFree(sessions[id], at)
    }

    function ExpiryKeys(due: set<Id>): map<Id, SortKey>
      requires due <= sessions.Keys
      reads this
    {
      map id | id in due :: SortKey(sessions[id].expiresAt, 0)
    }

    method SelectDue(ghost before: Tables, at: Time, limit: nat) returns (chosen: set<Id>)
      requires Valid() && AllExpired(before, at)
      ensures FirstDue(before, at, chosen, limit)
    {
      hide AllExpired;
      DueAgrees(before, at);
      chosen := SelectFirst(DueNow(at), ExpiryKeys(DueNow(at)), limit);
      OrderAgrees(before, at, chosen);
    }

    method LeaseSessions(chosen: set<Id>, lease: Lease)
      requires Valid()
      modifies this`sessions
      ensures Valid() && Rows().Keys == old(Rows()).Keys
      ensures forall id | id in Rows() ::
                Rows()[id] == if id in chosen
                              then old(Rows())[id].(session := old(Rows())[id].session.(lease := Some(lease)))
                              else old(Rows())[id]
    {
      sessions := map id | id in sessions :: if id in chosen then sessions[id].(lease := Some(lease)) else sessions[id];
    }

    method ClaimExpiredSessions(at: Time, until: Time, limit: nat, lease: Id)
        returns (reply: Result<set<Id>, StoreError>)
      requires Valid()
      modifies this`sessions, this`recordings
      ensures Valid()
      ensures limit == 0 || limit > 100 || until <= at ==> Snapshot() == old(Snapshot()) && reply == Err(Invalid)
      ensures 0 < limit <= 100 && until > at ==>
                && reply.Ok?
                && FirstDue(old(Snapshot()), at, reply.value, limit)
                && Snapshot() == SessionsClaimed(old(Snapshot()), at, reply.value, Lease(lease, until))
    {
      if limit == 0 || limit > 100 || until <= at {
        return Err(Invalid);
      }
      ghost var before := Snapshot();
      ExpireAll(at);
      var chosen := SelectDue(before, at, limit);
      LeaseSessions(chosen, Lease(lease, until));
      ClaimedAgrees(before, at, chosen, Lease(lease, until));
      reply := Ok(chosen);
    }

    ghost predicate AllExpired(before: Tables, at: Time)
      requires Valid()
      reads this
    {
      && profiles == before.profiles && Rows().Keys == before.rows.Keys
      && forall id | id in before.rows :: Rows()[id] == TtlReached(before.rows[id], at)
    }

    function ExpiredStart(s: Session, at: Time): Session {
      if s.status.Starting? && s.expiresAt <= at
      then s.(status := Expired, endedAt := Some(at), note := Some(TTL_NOTE)) else s
    }

    function EndedActive(s: Session, at: Time): Session {
      if s.status.Active? && s.expiresAt <= at
      then s.(status := Ending, note := Coalesce(s.note, Some(TTL_NOTE))) else s
    }

    /** `UPDATE .. WHERE status = 'starting' .. RETURNING id`. */
    method ExpireStarting(at: Time) returns (starting: set<Id>)
      modifies this`sessions
      ensures starting == set id | id in old(sessions) && old(sessions)[id].status.Starting?
                                   && old(sessions)[id].expiresAt <= at
      ensures sessions == map id | id in old(sessions) :: ExpiredStart(old(sessions)[id], at)
    {
      starting := set id | id in sessions && sessions[id].status.Starting? && sessions[id].expiresAt <= at;
      sessions := map id | id in sessions :: ExpiredStart(sessions[id], at);
    }

    /** The source's loop over the returned ids. */
    method LoseRecordings(ids: set<Id>)
      requires ids <= recordings.Keys
      modifies this`recordings
      ensures recordings.Keys == old(recordings).Keys
      ensures forall id | id in recordings ::
                recordings[id] == if id in ids then FromRecording(old(recordings)[id], Lost) else old(recordings)[id]
    {
      var rest := ids;
      while rest != {}
        invariant rest <= ids && recordings.Keys == old(recordings).Keys
        invariant forall id | id in recordings ::
                    recordings[id] == if id in ids && id !in rest then FromRecording(old(recordings)[id], Lost)
                                      else old(recordings)[id]
        decreases rest
      {
        var id :| id in rest;
        recordings := recordings[id := FromRecording(recordings[id], Lost)];
        rest := rest - {id};
      }
    }

    /** The two bulk updates around that loop. */
    method ExpireAll(at: Time)
      requires Valid()
      modifies this`sessions, this`recordings
      ensures Valid() && AllExpired(old(Snapshot()), at)
    {
      var starting := ExpireStarting(at);
      LoseRecordings(starting);
      EndActive(at);
      forall id | id in old(Rows()) ensures Rows()[id] == TtlReached(old(Rows())[id], at) {
        ExpiredRow(old(Rows())[id], at);
      }
    }

    method EndActive(at: Time)
      modifies this`sessions
      ensures sessions == map id | id in old(sessions) :: EndedActive(old(sessions)[id], at)
    {
      sessions := map id | id in sessions :: EndedActive(sessions[id], at);
    }

    lemma ExpiredRow(r: Row, at: Time)
      ensures var starts := r.session.status.Starting? && r.session.expiresAt <= at;
              r.(session := EndedActive(ExpiredStart(r.session, at), at),
                 recording := if starts then FromRecording(r.recording, Lost) else r.recording) == TtlReached(r, at)
    {
    }

    lemma DueAgrees(before: Tables, at: Time)
      requires Valid() && AllExpired(before, at)
      ensures DueNow(at) == DueSet(before, at)
    {
      forall id ensures id in DueNow(at) <==> id in DueSet(before, at) {
        if id in sessions { assert Rows()[id].session == sessions[id]; }
      }
    }

    lemma OrderAgrees(before: Tables, at: Time, chosen: set<Id>)
      requires Valid() && AllExpired(before, at) && DueNow(at) == DueSet(before, at) && chosen <= DueNow(at)
      requires forall c, d | c in chosen && d in DueNow(at) - chosen :: Earlier(ExpiryKeys(DueNow(at)), c, d)
      ensures forall c, d | c in chosen && d in DueSet(before, at) - chosen :: Sooner(before, c, d)
    {
      forall c, d | c in chosen && d in DueSet(before, at) - chosen ensures Sooner(before, c, d) {
        assert Earlier(ExpiryKeys(DueNow(at)), c, d);
        assert Rows()[c].session == sessions[c] && Rows()[d].session == sessions[d];
      }
    }

    lemma ClaimedAgrees(before: Tables, at: Time, chosen: set<Id>, lease: Lease)
      requires Valid() && chosen <= DueSet(before, at)
      requires profiles == before.profiles && Rows().Keys == before.rows.Keys
      requires forall id | id in before.rows ::
                 Rows()[id] == var e := TtlReached(before.rows[id], at);
                               if id in chosen then e.(session := e.session.(lease := Some(lease))) else e
      ensures Snapshot() == SessionsClaimed(before, at, chosen, lease)
    {
      forall id | id in before.rows
        ensures Rows()[id] == Claimed(before.rows[id], at, if id in chosen then Some(lease) else None)
      {
        if id in chosen { assert Due(before, id, at); }
      }
      assert Rows() == SessionsClaimed(before, at, chosen, lease).rows;
    }

    method ExpiredClaimIsCurrent(id: Id, lease: Id, at: Time) returns (current: bool)
      requires Valid()
      ensures current <==> id in Rows() && LeaseCurrent(Rows()[id], lease, at)
    {
      current := id in sessions && sessions[id].status.Ending? && HoldsLease(sessions[id], lease)
                 && sessions[id].lease.value.until > at;
    }

    method ReleaseExpiredClaim(id: Id, lease: Id)
      requires Valid()
      modifies this`sessions
      ensures Valid()
      ensures Rows() == if id in old(Rows()) then old(Rows())[id := Released(old(Rows())[id], lease)] else old(Rows())
    {
      if id in sessions && HoldsLease(sessions[id], lease) {
        SetSession(id, sessions[id].(lease := None));
      } else if id in sessions {
        assert Rows() == Rows()[id := Rows()[id]];
      }
    }

    method FinalizeExpiredSession(id: Id, lease: Id, at: Time) returns (reply: Result<(), StoreError>)
      requires Valid()
      modifies this`sessions, this`recordings
      ensures Valid()
      ensures id !in old(Rows()) ==> Rows() == old(Rows()) && reply == Err(NotFound)
      ensures id in old(Rows()) ==> Commits(old(Rows()), Rows(), id, ExpiryFinalized(old(Rows())[id], lease, at), reply)
    {
      if id !in sessions {
        return Err(NotFound);
      }
      var s := sessions[id];
      if s.status.Ending? && s.expiresAt <= at && HoldsLease(s, lease) {
        SetSession(id, s.(status := Expired, endedAt := Some(at), note := Some(TTL_NOTE)));
      } else if !s.status.Expired? {
        return Err(WrongState(s.status));
      }
      SetRecording(id, FromRecording(recordings[id], Pending));
      reply := Ok(());
    }

    // -------------------------------------------------------------- recordings

    method RememberRecordingUrl(id: Id, url: Secret) returns (reply: Result<(), StoreError>)
      requires Valid()
      modifies this`sessions
      ensures Valid()
      ensures id !in old(Rows()) ==> Rows() == old(Rows()) && reply == Err(NotFound)
      ensures id in old(Rows()) ==> Commits(old(Rows()), Rows(), id, Ok(Remembered(old(Rows())[id], url)), reply)
    {
      if id !in sessions {
        return Err(NotFound);
      }
      SetSession(id, sessions[id].(url := Some(url)));
      reply := Ok(());
    }

    method MarkRecordingPending(id: Id, durationMs: nat, sizeBytes: nat, at: Time)
        returns (reply: Result<(), StoreError>)
      requires Valid()
      modifies this`recordings, this`outbox
      ensures Valid()
      ensures id !in old(Rows()) ==> Rows() == old(Rows()) && (reply == Err(NotFound) || reply == Err(Invalid))
      ensures id in old(Rows()) ==>
                Commits(old(Rows()), Rows(), id, MarkedPending(old(Rows())[id], durationMs, sizeBytes, at), reply)
    {
      if durationMs > MAX_I64 || sizeBytes > MAX_I64 {
        return Err(Invalid);
      }
      if id !in sessions || !Undelivered(recordings[id].status) || !Winding(sessions[id].status)
        || sessions[id].url.None?
      {
        return Err(NotFound);
      }
      SetRecording(id, RecordingRow(Pending, Some(durationMs), Some(sizeBytes)));
      InsertEvent(DeliverKey(id), at, at);
      reply := Ok(());
    }

    method QueueSourceResolution(id: Id, durationMs: nat, at: Time) returns (reply: Result<(), StoreError>)
      requires Valid()
      modifies this`recordings, this`outbox
      ensures Valid()
      ensures id !in old(Rows()) ==> Rows() == old(Rows()) && (reply == Err(NotFound) || reply == Err(Invalid))
      ensures id in old(Rows()) ==>
                Commits(old(Rows()), Rows(), id, ResolutionQueued(old(Rows())[id], durationMs, at), reply)
    {
      if durationMs > MAX_I64 {
        return Err(Invalid);
      }
      if id !in sessions || !Undelivered(recordings[id].status) || !Winding(sessions[id].status)
        || sessions[id].provider.None? || sessions[id].url.Some?
      {
        return Err(NotFound);
      }
      SetRecording(id, RecordingRow(Pending, Some(durationMs), Coalesce(recordings[id].sizeBytes, Some(0))));
      InsertEvent(ResolveKey(id), at + SOURCE_INITIAL_DELAY, at);
      reply := Ok(());
    }

    /** The selection of `claim_recording_source_resolutions`, a join of three tables. */
    function LookupsDue(at: Time): (due: set<Id>)
      reads this
      ensures due <= sessions.Keys && forall id | id in due :: ResolveKey(id) in outbox && sessions[id].provider.Some?
    {
      set id | id in sessions && id in recordings && ResolveKey(id) in outbox
               && outbox[ResolveKey(id)].doneAt.None? && outbox[ResolveKey(id)].nextAt <= at
               && sessions[id].provider.Some? && sessions[id].url.None? && !IsLive(sessions[id].status)
               && (Undelivered(recordings[id].status) || recordings[id].status.Lost?)
    }

    function LookupKeys(due: set<Id>): map<Id, SortKey>
      requires forall id | id in due :: ResolveKey(id) in outbox
      reads this
    {
      map id | id in due :: SortKey(outbox[ResolveKey(id)].nextAt, outbox[ResolveKey(id)].createdAt)
    }

    method ClaimResolutions(at: Time, until: Time, limit: nat) returns (reply: Result<map<Id, Claim>, StoreError>)
      requires Valid()
      modifies this`outbox
      ensures Valid()
      ensures limit == 0 || limit > 100 || until <= at ==> Snapshot() == old(Snapshot()) && reply == Err(Invalid)
      ensures 0 < limit <= 100 && until > at ==>
                && reply.Ok?
                && FirstLookups(old(Snapshot()), at, reply.value.Keys, limit)
                && reply.value == ClaimsOf(old(Snapshot()), at, reply.value.Keys)
                && Snapshot() == LookupsClaimed(old(Snapshot()), at, reply.value.Keys, until)
    {
      if limit == 0 || limit > 100 || until <= at {
        return Err(Invalid);
      }
      hide FirstLookups, LookupsDue, DueLookups, LookupClaimed;
      ghost var before := Snapshot();
      var chosen := SelectLookups(at, limit);
      DueFacts(at, chosen);
      LeaseLookups(chosen, until);
      assert Snapshot() == LookupsClaimed(before, at, chosen, until);
      var claims := ReadClaims(before, at, chosen);
      reply := Ok(claims);
    }

    method SelectLookups(at: Time, limit: nat) returns (chosen: set<Id>)
      requires Valid()
      ensures FirstLookups(Snapshot(), at, chosen, limit)
      ensures chosen <= LookupsDue(at) && chosen <= DueLookups(Snapshot(), at)
    {
      hide LookupsDue, DueLookups;
      LookupsAgree(at);
      LookupsAreQueued(at);
      chosen := SelectFirst(LookupsDue(at), LookupKeys(LookupsDue(at)), limit);
      LookupOrderAgrees(at, chosen);
    }

    lemma LookupsAreQueued(at: Time)
      ensures forall id | id in LookupsDue(at) :: ResolveKey(id) in outbox
    {
    }

    lemma DueFacts(at: Time, chosen: set<Id>)
      requires Valid() && chosen <= DueLookups(Snapshot(), at)
      ensures forall id | id in chosen ::
                && id in Snapshot().rows && Snapshot().rows[id].resolve.Some?
                && sessions[id].provider == Snapshot().rows[id].session.provider
                && ResolveKey(id) in outbox && outbox[ResolveKey(id)] == Snapshot().rows[id].resolve.value
    {
    }

    /** The details query for each returned event. */
    method ReadClaims(ghost before: Tables, at: Time, chosen: set<Id>) returns (claims: map<Id, Claim>)
      requires Valid() && chosen <= DueLookups(before, at) && chosen <= sessions.Keys
      requires forall id | id in chosen ::
                 && sessions[id].provider == before.rows[id].session.provider
                 && ResolveKey(id) in outbox
                 && outbox[ResolveKey(id)].attempts == before.rows[id].resolve.value.attempts + 1
      ensures claims.Keys == chosen && claims == ClaimsOf(before, at, chosen)
    {
      claims := map id | id in chosen :: Claim(sessions[id].provider.value, outbox[ResolveKey(id)].attempts);
    }

    lemma LookupsAgree(at: Time)
      requires Valid()
      ensures LookupsDue(at) == DueLookups(Snapshot(), at)
    {
      forall id ensures id in LookupsDue(at) <==> id in DueLookups(Snapshot(), at) {
        if id in sessions { assert Rows()[id].session == sessions[id] && Rows()[id].recording == recordings[id]; }
      }
    }

    lemma LookupOrderAgrees(at: Time, chosen: set<Id>)
      requires Valid() && chosen <= LookupsDue(at) == DueLookups(Snapshot(), at)
      requires forall c, d | c in chosen && d in LookupsDue(at) - chosen :: Earlier(LookupKeys(LookupsDue(at)), c, d)
      ensures forall c, d | c in chosen && d in DueLookups(Snapshot(), at) - chosen :: LookupSooner(Snapshot(), c, d)
    {
      forall c, d | c in chosen && d in DueLookups(Snapshot(), at) - chosen ensures LookupSooner(Snapshot(), c, d) {
        assert Earlier(LookupKeys(LookupsDue(at)), c, d);
        assert Rows()[c].resolve == Some(outbox[ResolveKey(c)]) && Rows()[d].resolve == Some(outbox[ResolveKey(d)]);
      }
    }

    /** `UPDATE outbox SET attempts = attempts + 1, next_attempt_at = ? WHERE id IN ..`. */
    method LeaseLookups(chosen: set<Id>, until: Time)
      requires Valid()
      requires forall id | id in chosen :: id in sessions && ResolveKey(id) in outbox
      modifies this`outbox
      ensures Valid()
      ensures forall id | id in chosen ::
                ResolveKey(id) in outbox && outbox[ResolveKey(id)].attempts == old(outbox)[ResolveKey(id)].attempts + 1
      ensures Rows().Keys == old(Rows()).Keys
      ensures forall id | id in Rows() ::
                Rows()[id] == if id in chosen then LookupClaimed(old(Rows())[id], until) else old(Rows())[id]
    {
      outbox := map key | key in outbox ::
        if key.ResolveKey? && key.session in chosen
        then outbox[key].(attempts := outbox[key].attempts + 1, nextAt := until) else outbox[key];
    }

    method RescheduleResolution(id: Id, attempt: nat, nextAt: Time) returns (owned: bool)
      requires Valid() && id in sessions
      modifies this`outbox
      ensures Valid()
      ensures owned <==> OwnsAttempt(old(Rows())[id], attempt)
      ensures Rows() == old(Rows())[id := Rescheduled(old(Rows())[id], attempt, nextAt)]
    {
      var key := ResolveKey(id);
      owned := key in outbox && outbox[key].attempts == attempt && outbox[key].doneAt.None?;
      if owned {
        outbox := outbox[key := outbox[key].(nextAt := nextAt)];
      }
    }

    method FailResolution(id: Id, provider: Id, attempt: nat, at: Time) returns (owned: bool)
      requires Valid() && id in sessions
      modifies this`outbox, this`recordings
      ensures Valid()
      ensures owned <==> OwnsAttempt(old(Rows())[id], attempt)
      ensures Rows() == old(Rows())[id := LookupFailed(old(Rows())[id], provider, attempt, at)]
    {
      var key := ResolveKey(id);
      owned := key in outbox && outbox[key].attempts == attempt && outbox[key].doneAt.None?;
      if !owned {
        assert Rows() == Rows()[id := Rows()[id]];
        return;
      }
      CloseEvent(key, at);
      if Undelivered(recordings[id].status) && sessions[id].provider == Some(provider) && !IsLive(sessions[id].status) {
        SetRecording(id, RecordingRow(Lost, recordings[id].durationMs, Coalesce(recordings[id].sizeBytes, Some(0))));
      }
    }

    method CompleteResolution(id: Id, provider: Id, attempt: nat, url: Secret, at: Time)
        returns (reply: Result<bool, StoreError>)
      requires Valid() && id in sessions
      modifies this`sessions, this`outbox, this`recordings
      ensures Valid()
      ensures match LookupCompleted(old(Rows())[id], provider, attempt, url, at)
              case Ok(done) => Rows() == old(Rows())[id := done.0] && reply == Ok(done.1)
              case Err(error) => Rows() == old(Rows()) && reply == Err(error)
    {
      var key := ResolveKey(id);
      if !(key in outbox && outbox[key].attempts == attempt && outbox[key].doneAt.None?) {
        assert Rows() == Rows()[id := Rows()[id]];
        return Ok(false);
      }
      var saved := outbox;
      CloseEvent(key, at);
      var s := sessions[id];
      if s.provider != Some(provider) || IsLive(s.status) {
        outbox := saved;  // rollback
        return Err(Corrupt);
      }
      if recordings[id].status.Trashed? {
        return Ok(false);
      }
      if recordings[id].status.Available? {
        outbox := saved;  // rollback
        return Err(Corrupt);
      }
      if s.url.None? {
        SetSession(id, s.(url := Some(url)));
      }
      if Undelivered(recordings[id].status) {
        SetRecording(id, recordings[id].(status := Pending));
      }
      InsertEvent(DeliverKey(id), at, at);
      reply := Ok(true);
    }

    method TrashRecording(id: Id, owner: bool, at: Time) returns (reply: Result<(), StoreError>)
      requires Valid()
      modifies this`recordings, this`outbox
      ensures Valid()
      ensures id !in old(Rows()) ==> Rows() == old(Rows()) && reply == Err(NotFound)
      ensures id in old(Rows()) && !owner ==> Rows() == old(Rows()) && reply == Err(Forbidden)
      ensures id in old(Rows()) && owner ==> Commits(old(Rows()), Rows(), id, Hidden(old(Rows())[id], at), reply)
    {
      if id !in sessions {
        return Err(NotFound);
      }
      if !owner {
        return Err(Forbidden);
      }
      if IsLive(sessions[id].status) || recordings[id].status.Recording? {
        return Err(WrongState(sessions[id].status));
      }
      SetRecording(id, recordings[id].(status := Trashed));
      CloseEvent(DeliverKey(id), at);
      CloseEvent(ResolveKey(id), at);
      reply := Ok(());
    }

    // ------------------------------------------------------------------- usage

    method RecordUsage(id: Id, sample: Sample, terminal: bool) returns (reply: Result<(), StoreError>)
      requires Valid()
      modifies this`usages
      ensures Valid() && Rows() == old(Rows())
      ensures id !in sessions ==> usages == old(usages) && (reply == Err(NotFound) || reply == Err(Invalid))
      ensures id in sessions ==>
                match UsageRecorded(sessions[id], old(usages)[id], sample, terminal)
                case Ok(next) => usages == old(usages)[id := next] && reply == Ok(())
                case Err(error) => usages == old(usages) && reply == Err(error)
    {
      hide Decimal.ToMillionths;
      if !ValidSample(sample) {
        return Err(Invalid);
      }
      if id !in sessions {
        return Err(NotFound);
      }
      var status, u := sessions[id].status, usages[id];
      assert usages == usages[id := u];
      if terminal {
        if !IsLive(status) {
          return Ok(());
        }
        if status.Active? {
          return Err(WrongState(status));
        }
      } else if !status.Active? {
        return Ok(());
      }
      if sessions[id].profile.Some? && sample.proxyIn.None? && sample.proxyOut.None? && sample.proxyUnclassified.None? {
        return Err(Invalid);
      }
      if !Readable(u) || (!terminal && Decreases(u, sample)) || Upper(u.currency) != Upper(sample.currency) {
        return Err(Invalid);
      }
      usages := usages[id := Sampled(u, sample, terminal)];
      reply := Ok(());
    }
  }
}
