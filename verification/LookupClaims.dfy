/** Leasing a batch of due recording lookups (crates/backend/src/store.rs). */
module LookupClaims {
  import opened Wrappers
  import opened Rows
  import opened Slots

  /** What a worker is told about one leased lookup. */
  datatype Claim = Claim(provider: Id, attempt: nat)

  function DueLookups(t: Tables, at: Time): set<Id> {
    set id | id in t.rows && Resolvable(t.rows[id], at)
  }

  /** `ORDER BY next_attempt_at, created_at, id`. */
  predicate LookupSooner(t: Tables, a: Id, b: Id)
    requires a in t.rows && t.rows[a].resolve.Some? && b in t.rows && t.rows[b].resolve.Some?
  {
    var x, y := t.rows[a].resolve.value, t.rows[b].resolve.value;
    || x.nextAt < y.nextAt
    || (x.nextAt == y.nextAt && (x.createdAt < y.createdAt || (x.createdAt == y.createdAt && a < b)))
  }

  ghost predicate FirstLookups(t: Tables, at: Time, chosen: set<Id>, limit: nat) {
    && chosen <= DueLookups(t, at)
    && |chosen| == (if |DueLookups(t, at)| <= limit then |DueLookups(t, at)| else limit)
    && forall c, d | c in chosen && d in DueLookups(t, at) - chosen :: LookupSooner(t, c, d)
  }

  function LookupsClaimed(t: Tables, at: Time, chosen: set<Id>, until: Time): Tables
    requires chosen <= DueLookups(t, at)
  {
    t.(rows := map id | id in t.rows :: if id in chosen then LookupClaimed(t.rows[id], until) else t.rows[id])
  }

  function ClaimsOf(t: Tables, at: Time, chosen: set<Id>): map<Id, Claim>
    requires chosen <= DueLookups(t, at)
  {
    map id | id in chosen :: Claim(t.rows[id].session.provider.value, t.rows[id].resolve.value.attempts + 1)
  }

  /** A batch leases the longest-due lookups: each gets the next attempt number, which its worker then
      owns; none of them is due again before the lease ends, and the others are due as before. */
  lemma ClaimLeasesTheLongestDue(t: Tables, at: Time, chosen: set<Id>, until: Time, limit: nat)
    requires FirstLookups(t, at, chosen, limit) && until > at
    ensures var t' := LookupsClaimed(t, at, chosen, until);
            && DueLookups(t', at) == DueLookups(t, at) - chosen
            && |DueLookups(t', at)| == (if |DueLookups(t, at)| <= limit then 0 else |DueLookups(t, at)| - limit)
            && (forall c | c in chosen ::
                 var claim := ClaimsOf(t, at, chosen)[c];
                 && OwnsAttempt(t'.rows[c], claim.attempt) && !OwnsAttempt(t.rows[c], claim.attempt)
                 && t'.rows[c].session == t.rows[c].session && t.rows[c].session.provider == Some(claim.provider))
            && forall c, d | c in chosen && d in DueLookups(t', at) ::
                 t.rows[c].resolve.value.nextAt <= t.rows[d].resolve.value.nextAt
  {
    hide LookupClaimed, OwnsAttempt;
    var t' := LookupsClaimed(t, at, chosen, until);
    forall id ensures id in DueLookups(t', at) <==> id in DueLookups(t, at) - chosen {
      if id in chosen { ClaimedLookup(t.rows[id], at, until); }
    }
    SplitSize(DueLookups(t, at), chosen);
    forall c | c in chosen
      ensures var claim := ClaimsOf(t, at, chosen)[c];
              && OwnsAttempt(t'.rows[c], claim.attempt) && !OwnsAttempt(t.rows[c], claim.attempt)
              && t'.rows[c].session == t.rows[c].session && t.rows[c].session.provider == Some(claim.provider)
    {
      ClaimedLookup(t.rows[c], at, until);
    }
    forall c, d | c in chosen && d in DueLookups(t', at)
      ensures t.rows[c].resolve.value.nextAt <= t.rows[d].resolve.value.nextAt
    {
      assert LookupSooner(t, c, d);
    }
  }

  lemma ClaimedLookup(r: Row, at: Time, until: Time)
    requires Resolvable(r, at) && until > at
    ensures var next := LookupClaimed(r, until);
            && !Resolvable(next, at) && next.session == r.session
            && OwnsAttempt(next, r.resolve.value.attempts + 1) && !OwnsAttempt(r, r.resolve.value.attempts + 1)
  {
  }

  /** A crashed worker's lookup comes back: once the lease has elapsed it is due again, unless it was
      settled meanwhile. */
  lemma ElapsedLookupIsDueAgain(t: Tables, at: Time, chosen: set<Id>, until: Time, id: Id, later: Time)
    requires chosen <= DueLookups(t, at) && id in chosen && later >= until
    ensures id in DueLookups(LookupsClaimed(t, at, chosen, until), later)
  {
  }

  lemma LookupClaimsKeepSlots(t: Tables, at: Time, chosen: set<Id>, until: Time)
    requires SlotsOk(t) && chosen <= DueLookups(t, at)
    ensures SlotsOk(LookupsClaimed(t, at, chosen, until))
  {
    var t' := LookupsClaimed(t, at, chosen, until);
    forall s | s in t'.rows ensures t'.rows[s].session == t.rows[s].session {}
    forall s, p | s in t'.rows && Occupies(t'.rows[s], p) ensures Occupies(t.rows[s], p) {}
  }
}
