/** Sign-ins shared by browser tabs (frontend/src/lib/session.ts): rotating refresh tokens in one
    storage slot, renewed under a Web Lock.

    `BrowserSession` is the source's class; a renewal awaits the network, so `refresh` appears as
    its two synchronous halves. */
module TabSession {
  import opened Wrappers

  type Token = nat
  type Account = nat
  type Tab = nat

  /** `details` stands for the access token, expiry and services, which nothing here inspects. */
  datatype AuthSession = AuthSession(account: Account, refresh: Token, details: nat)

  datatype Saved = Saved(active: Option<Account>, sessions: seq<AuthSession>, refreshing: map<Account, Token>)

  const EMPTY: Saved := Saved(None, [], map[])

  /** The second argument of `save`: missing, `null`, or a session. */
  datatype Previous = Missing | Nobody | Was(session: AuthSession)

  // ------------------------------------------------------------ the stored slot

  function Find(sessions: seq<AuthSession>, account: Account): Option<AuthSession> {
    if sessions == [] then None
    else if sessions[0].account == account then Some(sessions[0])
    else Find(sessions[1..], account)
  }

  function Without(sessions: seq<AuthSession>, account: Account): seq<AuthSession> {
    if sessions == [] then []
    else (if sessions[0].account == account then [] else [sessions[0]]) + Without(sessions[1..], account)
  }

  function Replace(sessions: seq<AuthSession>, renewed: AuthSession): seq<AuthSession> {
    if sessions == [] then []
    else [if sessions[0].account == renewed.account then renewed else sessions[0]] + Replace(sessions[1..], renewed)
  }

  /** Reading drops renewal marks of accounts that have no saved session. */
  function Read(st: Saved): Saved {
    st.(refreshing := map a | a in st.refreshing && Find(st.sessions, a).Some? :: st.refreshing[a])
  }

  function Unmark(refreshing: map<Account, Token>, account: Account): map<Account, Token> {
    refreshing - {account}
  }

  predicate Marked(st: Saved, account: Account, token: Token) {
    account in st.refreshing && st.refreshing[account] == token
  }

  predicate Holds(st: Saved, account: Account, token: Token) {
    var found := Find(st.sessions, account);
    found.Some? && found.value.refresh == token
  }

  function Removed(st: Saved, account: Account): Saved {
    Saved(if st.active == Some(account) then None else st.active,
          Without(st.sessions, account), Unmark(st.refreshing, account))
  }

  /** `save(session, previous)` when the write succeeds. */
  function SavedAs(st: Saved, session: Option<AuthSession>, previous: Previous): Saved {
    var value := Read(st);
    match session
    case Some(s) =>
      Saved(Some(s.account), Without(value.sessions, s.account) + [s],
            if Holds(value, s.account, s.refresh) then value.refreshing else Unmark(value.refreshing, s.account))
    case None =>
      match previous
      case Nobody => st
      case Was(p) => if Holds(value, p.account, p.refresh) then Removed(value, p.account) else st
      case Missing => if value.active.Some? then Removed(value, value.active.value) else value
  }

  function Forgotten(st: Saved, session: AuthSession): Saved {
    Removed(Read(st), session.account)
  }

  /** What the first half of `refresh` decides. */
  datatype Begun =
    | SignInChanged                 // throws
    | Interrupted                   // throws, after removing the half-renewed sign-in
    | AlreadyRenewed(latest: AuthSession)
    | NotWritten                    // throws: the mark could not be stored
    | Renew(latest: AuthSession)    // the mark is stored; the token may now be sent

  function Begin(st: Saved, session: AuthSession, writable: bool): (Saved, Begun) {
    var value := Read(st);
    var latest := Find(value.sessions, session.account);
    if value.active != Some(session.account) || latest.None? then (st, SignInChanged)
    else if Marked(value, session.account, latest.value.refresh) then
      (if writable then SavedAs(st, None, Was(latest.value)) else st, Interrupted)
    else if latest.value.refresh != session.refresh then (st, AlreadyRenewed(latest.value))
    else if !writable then (st, NotWritten)
    else (value.(refreshing := value.refreshing[session.account := latest.value.refresh]), Renew(latest.value))
  }

  /** The second half: store the renewed session if the sign-in is still the one that was sent,
      otherwise (or on any failure) remove that sign-in if it is still there. */
  function Finish(st: Saved, latest: AuthSession, reply: Option<AuthSession>, writable: bool, removable: bool)
      : (Saved, Option<AuthSession>)
  {
    var current := Read(st);
    if reply.Some? && reply.value.account == latest.account
      && Holds(current, latest.account, latest.refresh) && Marked(current, latest.account, latest.refresh)
      && writable
    then
      (current.(sessions := Replace(current.sessions, reply.value),
                refreshing := Unmark(current.refreshing, latest.account)), reply)
    else
      (if removable then SavedAs(st, None, Was(latest)) else st, None)
  }

  class BrowserSession {
    var stored: Saved

    constructor ()
      ensures stored == EMPTY
    {
      stored := EMPTY;
    }

    /** `filter` by account, as a loop over the list. */
    method Filter(sessions: seq<AuthSession>, account: Account) returns (kept: seq<AuthSession>)
      ensures kept == Without(sessions, account)
    {
      kept := [];
      for i := 0 to |sessions|
        invariant kept == Without(sessions[..i], account)
      {
        WithoutAppend(sessions[..i], sessions[i], account);
        assert sessions[..i + 1] == sessions[..i] + [sessions[i]];
        if sessions[i].account != account {
          kept := kept + [sessions[i]];
        }
      }
      assert sessions[..|sessions|] == sessions;
    }

    method Save(session: Option<AuthSession>, previous: Previous)
      modifies this
      ensures stored == SavedAs(old(stored), session, previous)
    {
      if session.None? && previous.Nobody? {
        return;
      }
      var value := Read(stored);
      var account := if session.Some? then Some(session.value.account)
                     else if previous.Was? then Some(previous.session.account) else value.active;
      if session.None? && previous.Was? && !Holds(value, previous.session.account, previous.session.refresh) {
        return;
      }
      if account.Some? {
        var kept := Filter(value.sessions, account.value);
        if session.None? || !Holds(value, account.value, session.value.refresh) {
          value := value.(refreshing := value.refreshing - {account.value});
        }
        if session.Some? {
          value := value.(sessions := kept + [session.value], active := account);
        } else {
          value := value.(sessions := kept, active := if value.active == account then None else value.active);
        }
      }
      stored := value;
    }

    method Forget(session: AuthSession)
      modifies this
      ensures stored == Forgotten(old(stored), session)
    {
      var value := Read(stored);
      var kept := Filter(value.sessions, session.account);
      value := value.(sessions := kept, refreshing := value.refreshing - {session.account});
      if value.active == Some(session.account) {
        value := value.(active := None);
      }
      stored := value;
    }

    /** `refresh` up to the point where the token is sent. */
    method RefreshBegin(session: AuthSession, writable: bool) returns (begun: Begun)
      modifies this
      ensures (stored, begun) == Begin(old(stored), session, writable)
    {
      var value := Read(stored);
      var latest := Find(value.sessions, session.account);
      if value.active != Some(session.account) || latest.None? {
        return SignInChanged;
      }
      if Marked(value, session.account, latest.value.refresh) {
        if writable {
          Save(None, Was(latest.value));
        }
        return Interrupted;
      }
      if latest.value.refresh != session.refresh {
        return AlreadyRenewed(latest.value);
      }
      if !writable {
        return NotWritten;
      }
      stored := value.(refreshing := value.refreshing[session.account := latest.value.refresh]);
      begun := Renew(latest.value);
    }

    /** `refresh` from the reply on. */
    method RefreshFinish(latest: AuthSession, reply: Option<AuthSession>, writable: bool, removable: bool)
        returns (renewed: Option<AuthSession>)
      modifies this
      ensures (stored, renewed) == Finish(old(stored), latest, reply, writable, removable)
    {
      var current := Read(stored);
      if reply.Some? && reply.value.account == latest.account {
        if Holds(current, latest.account, latest.refresh) && Marked(current, latest.account, latest.refresh)
          && writable
        {
          stored := current.(sessions := Replace(current.sessions, reply.value),
                             refreshing := current.refreshing - {latest.account});
          return reply;
        }
      }
      if removable {
        Save(None, Was(latest));
      }
      renewed := None;
    }
  }

  // ------------------------------------------------------------ list laws

  lemma {:induction false} WithoutAppend(sessions: seq<AuthSession>, s: AuthSession, account: Account)
    ensures Without(sessions + [s], account) == Without(sessions, account) + if s.account == account then [] else [s]
  {
    var all := sessions + [s];
    if sessions != [] {
      assert all[0] == sessions[0] && all[1..] == sessions[1..] + [s];
      WithoutAppend(sessions[1..], s, account);
    } else {
      assert all[1..] == [];
    }
  }

  lemma {:induction false} FindWithout(sessions: seq<AuthSession>, gone: Account, account: Account)
    ensures Find(Without(sessions, gone), account) == if account == gone then None else Find(sessions, account)
  {
    if sessions != [] {
      FindWithout(sessions[1..], gone, account);
      if sessions[0].account != gone {
        assert Without(sessions, gone)[1..] == Without(sessions[1..], gone);
      } else {
        assert Without(sessions, gone) == Without(sessions[1..], gone);
      }
    }
  }

  lemma {:induction false} FindAppend(sessions: seq<AuthSession>, s: AuthSession, account: Account)
    ensures Find(sessions + [s], account) ==
            if Find(sessions, account).Some? then Find(sessions, account)
            else if s.account == account then Some(s) else None
  {
    if sessions == [] {
      assert (sessions + [s])[1..] == [];
    } else {
      assert (sessions + [s])[1..] == sessions[1..] + [s];
      FindAppend(sessions[1..], s, account);
    }
  }

  lemma {:induction false} FindReplace(sessions: seq<AuthSession>, renewed: AuthSession, account: Account)
    ensures Find(Replace(sessions, renewed), account) ==
            if account == renewed.account && Find(sessions, account).Some? then Some(renewed)
            else Find(sessions, account)
  {
    if sessions != [] {
      assert Replace(sessions, renewed)[1..] == Replace(sessions[1..], renewed);
      FindReplace(sessions[1..], renewed, account);
    }
  }

  lemma {:induction false} FoundAccount(sessions: seq<AuthSession>, account: Account)
    ensures Find(sessions, account).Some? ==> Find(sessions, account).value.account == account
  {
    if sessions != [] { FoundAccount(sessions[1..], account); }
  }

  /** Saving a sign-in makes it the active, findable one, and leaves every other account alone. */
  lemma SaveStores(st: Saved, s: AuthSession, account: Account)
    ensures var after := SavedAs(st, Some(s), Missing);
            && after.active == Some(s.account)
            && Find(after.sessions, account) == if account == s.account then Some(s) else Find(st.sessions, account)
  {
    FindWithout(st.sessions, s.account, account);
    FindAppend(Without(st.sessions, s.account), s, account);
  }

  lemma RemovedFinds(st: Saved, gone: Account, account: Account)
    ensures Find(Removed(st, gone).sessions, account) == if account == gone then None else Find(st.sessions, account)
  {
    FindWithout(st.sessions, gone, account);
  }

  /** A finished or failed renewal touches only the sign-in whose token it sent: any account, or any
      newer sign-in of the same account, saved meanwhile under a different token survives intact. */
  lemma FinishSparesOtherSignIns(st: Saved, latest: AuthSession, reply: Option<AuthSession>, writable: bool,
                                 removable: bool, account: Account)
    requires !(account == latest.account && Holds(st, account, latest.refresh))
    ensures var (after, _) := Finish(st, latest, reply, writable, removable);
            && Find(after.sessions, account) == Find(st.sessions, account)
            && (account != latest.account && st.active == Some(account) ==> after.active == Some(account))
  {
    if reply.Some? { FindReplace(st.sessions, reply.value, account); }
    RemovedFinds(st, latest.account, account);
  }

  /** A renewal that reports success has stored its reply in place of exactly the sign-in it sent,
      and has cleared the mark. */
  lemma FinishStoresItsReply(st: Saved, latest: AuthSession, reply: Option<AuthSession>, writable: bool,
                             removable: bool)
    requires Finish(st, latest, reply, writable, removable).1.Some?
    ensures var (after, renewed) := Finish(st, latest, reply, writable, removable);
            && renewed == reply && Holds(st, latest.account, latest.refresh)
            && Find(after.sessions, latest.account) == reply && latest.account !in after.refreshing
            && after.active == st.active
  {
    FindReplace(st.sessions, reply.value, latest.account);
  }

  /** Exactly when a renewal that got a reply succeeds: the reply is for this account, the sign-in is still the one
      sent and still marked, and storage can be written. Otherwise that very sign-in is signed out, if it is still
      there and storage can be written. */
  lemma FinishSucceedsExactly(st: Saved, latest: AuthSession, reply: Option<AuthSession>, writable: bool,
                              removable: bool)
    ensures var (after, renewed) := Finish(st, latest, reply, writable, removable);
            var stored := Find(st.sessions, latest.account);
            var held := stored.Some? && stored.value.refresh == latest.refresh;
            && (renewed.Some? <==>
                  && reply.Some? && reply.value.account == latest.account && writable && held
                  && latest.account in st.refreshing && st.refreshing[latest.account] == latest.refresh)
            && (renewed.None? ==>
                  if removable && held
                  then && Find(after.sessions, latest.account).None? && latest.account !in after.refreshing
                       && after.active == if st.active == Some(latest.account) then None else st.active
                  else after == st)
  {
    RemovedFinds(st, latest.account, latest.account);
  }

  /** Exactly when a renewal may send its token: the tab shows the active account, storage holds the very token the
      tab has, nobody marked it as sent and the mark can be written. Otherwise storage stays as it was, unless a
      token was sent already, whose sign-in is removed. */
  lemma BeginsExactly(st: Saved, session: AuthSession, writable: bool)
    ensures var (after, begun) := Begin(st, session, writable);
            var account := session.account;
            var shown := st.active == Some(account) && Find(st.sessions, account).Some?;
            var held := Find(st.sessions, account);
            && (begun.Renew? <==> && shown && held.value.refresh == session.refresh && writable
                                  && !Marked(st, account, session.refresh))
            && (begun.Renew? ==>
                  && held == Some(begun.latest) && Marked(after, account, session.refresh)
                  && after.sessions == st.sessions && after.active == st.active)
            && (begun.Interrupted? <==> shown && Marked(st, account, held.value.refresh))
            && (begun.Interrupted? && writable ==> Find(after.sessions, account).None? && after.active.None?)
            && (!begun.Renew? && !(begun.Interrupted? && writable) ==> after == st)
            && (begun.SignInChanged? <==> !shown)
  {
    FoundAccount(st.sessions, session.account);
    RemovedFinds(st, session.account, session.account);
  }

  /** A renewal with nothing in between stores its reply; a tab that still has the old sign-in then gets exactly
      that reply without sending anything, and a tab that has it can renew it in turn. */
  lemma RenewalReachesEveryTab(st: Saved, session: AuthSession, reply: AuthSession, writable: bool)
    requires Begin(st, session, true).1.Renew? && reply.account == session.account && reply.refresh != session.refresh
    ensures var (begun, started) := Begin(st, session, true);
            var (after, renewed) := Finish(begun, started.latest, Some(reply), true, true);
            && renewed == Some(reply) && Find(after.sessions, session.account) == Some(reply)
            && Begin(after, session, writable) == (after, AlreadyRenewed(reply))
            && Begin(after, reply, true).1 == Renew(reply)
  {
    var (begun, started) := Begin(st, session, true);
    FoundAccount(st.sessions, session.account);
    FindReplace(st.sessions, reply, session.account);
  }

  /** Until the reply is there, another tab's renewal is refused and takes the sign-in away, and the first one then
      fails too: nobody is left with a token that may be spent. */
  lemma SecondRenewalInterrupts(st: Saved, session: AuthSession, reply: Option<AuthSession>)
    requires Begin(st, session, true).1.Renew?
    ensures var (begun, started) := Begin(st, session, true);
            var (after, second) := Begin(begun, session, true);
            && second == Interrupted && Find(after.sessions, session.account).None?
            && Finish(after, started.latest, reply, true, true) == (after, None)
  {
    FoundAccount(st.sessions, session.account);
    RemovedFinds(st, session.account, session.account);
  }

  /** A forgotten account is gone, and with it only its own mark and, if it was active, the active account. */
  lemma ForgottenIsGone(st: Saved, session: AuthSession, account: Account)
    ensures var after := Forgotten(st, session);
            && Find(after.sessions, account) ==
               (if account == session.account then None else Find(st.sessions, account))
            && after.active == (if st.active == Some(session.account) then None else st.active)
            && (account in after.refreshing <==>
                  account in st.refreshing && account != session.account && Find(st.sessions, account).Some?)
  {
    RemovedFinds(Read(st), session.account, account);
  }

  /** A sign-out takes away the active account, or the given sign-in if it is still stored under its token. */
  lemma SignOutRemovesExactly(st: Saved, p: AuthSession, account: Account)
    ensures SavedAs(st, None, Nobody) == st
    ensures var after, stored := SavedAs(st, None, Was(p)), Find(st.sessions, p.account);
            if stored.Some? && stored.value.refresh == p.refresh then after == Forgotten(st, p) else after == st
    ensures var after := SavedAs(st, None, Missing);
            && after.active.None?
            && Find(after.sessions, account) ==
               if st.active == Some(account) then None else Find(st.sessions, account)
  {
    if st.active.Some? { RemovedFinds(Read(st), st.active.value, account); }
  }

  /** A saved sign-in keeps the mark of its token, if that was being renewed, and loses any older one. */
  lemma SaveKeepsItsMark(st: Saved, s: AuthSession)
    ensures var after := SavedAs(st, Some(s), Missing);
            s.account in after.refreshing <==> s.account in st.refreshing && Holds(st, s.account, s.refresh)
    ensures forall previous :: SavedAs(st, Some(s), previous) == SavedAs(st, Some(s), Missing)
  {
  }
}
