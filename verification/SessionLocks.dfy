/** The per-session gates that order an explicit end and a reaper within one process
    (crates/backend/src/server.rs).

    The map holds weak references: a gate lives while some caller holds a strong one, and every call
    first forgets the gates nobody holds. */
module SessionLocks {
  type Gate = nat

  /** The map key: organization and session, separated by a NUL. */
  function Key(org: string, session: string): string {
    org + "\0" + session
  }

  /** The organization is what precedes the first NUL. */
  lemma KeySplits(org: string, session: string)
    requires '\0' !in org
    ensures var k := Key(org, session);
            && |org| < |k| && k[|org|] == '\0' && (forall i | 0 <= i < |org| :: k[i] != '\0')
            && k[..|org|] == org && k[|org| + 1..] == session
  {
  }

  /** Distinct sessions have distinct keys, because an organization id holds no NUL. */
  lemma KeyIsInjective(org: string, session: string, org': string, session': string)
    requires '\0' !in org && '\0' !in org'
    requires Key(org, session) == Key(org', session')
    ensures org == org' && session == session'
  {
    hide Key;
    KeySplits(org, session);
    KeySplits(org', session');
    assert |org| == |org'|;
  }

  class SessionLocks {
    /** The shared map of weak references. */
    var locks: map<string, Gate>
    /** How many strong references each gate has. */
    var strong: map<Gate, nat>
    /** The key each gate was made for. */
    ghost var madeFor: map<Gate, string>
    var made: nat

    predicate Held(g: Gate)
      reads this
    {
      g in strong && strong[g] > 0
    }

    ghost predicate Valid()
      reads this
    {
      && strong.Keys == madeFor.Keys
      && (forall g | g in madeFor :: g < made)
      && (forall k | k in locks :: locks[k] in madeFor && madeFor[locks[k]] == k)
      && (forall g | Held(g) :: madeFor[g] in locks && locks[madeFor[g]] == g)
    }

    constructor ()
      ensures Valid() && locks == map[] && forall g :: !Held(g)
    {
      locks, strong, madeFor, made := map[], map[], map[], 0;
    }

    /** `for_session`: the caller gets a strong reference to the session's one live gate. */
    method ForSession(org: string, session: string) returns (gate: Gate)
      requires Valid()
      modifies this
      ensures Valid() && Held(gate) && madeFor[gate] == Key(org, session)
      ensures strong[gate] == (if old(Held(gate)) then old(strong)[gate] else 0) + 1
      ensures forall g | g != gate :: Held(g) == old(Held(g)) && (Held(g) ==> strong[g] == old(strong)[g])
      ensures forall g | g in old(madeFor) :: g in madeFor && madeFor[g] == old(madeFor)[g]
      ensures (exists g :: old(Held(g)) && old(madeFor)[g] == Key(org, session)) ==> old(Held(gate))
      ensures forall k | k in locks :: Held(locks[k])
    {
      hide Key;
      var key := Key(org, session);
      ForgetUnheld();
      if key in locks {
        gate := locks[key];
        strong := strong[gate := strong[gate] + 1];
      } else {
        gate := MakeGate(key);
      }
    }

    method ForgetUnheld()
      requires Valid()
      modifies this`locks
      ensures Valid() && forall k | k in locks :: Held(locks[k])
    {
      locks := map k | k in locks && Held(locks[k]) :: locks[k];
    }

    method MakeGate(key: string) returns (gate: Gate)
      requires Valid() && key !in locks
      modifies this
      ensures Valid() && gate !in old(madeFor)
      ensures locks == old(locks)[key := gate] && strong == old(strong)[gate := 1]
      ensures madeFor == old(madeFor)[gate := key]
    {
      gate := made;
      made := made + 1;
      madeFor := madeFor[gate := key];
      strong := strong[gate := 1];
      locks := locks[key := gate];
    }

    /** A caller drops its reference. */
    method Drop(gate: Gate)
      requires Valid() && Held(gate)
      modifies this`strong
      ensures Valid() && strong == old(strong)[gate := old(strong)[gate] - 1]
    {
      strong := strong[gate := strong[gate] - 1];
    }

    /** All the callers working on one session hold the same gate, so its lock excludes them from each
        other; callers on different sessions never share one. */
    lemma OneGatePerSession(g: Gate, h: Gate)
      requires Valid() && Held(g) && Held(h)
      ensures madeFor[g] == madeFor[h] <==> g == h
    {
    }
  }
}
