/** Any number of tabs over one storage slot (frontend/src/lib/session.ts): sign-ins, sign-outs,
    renewals, failed writes and crashes in any order. Each refresh token is sent at most once, for as
    long as no write loses the mark of a token that was sent.

    Storage is shared by tabs that run side by side, so every read-modify-write is two steps here. A
    renewal takes both under the Web Lock; `save` and `forget` take no lock at all. */
module TabRenewal {
  import opened Wrappers
  import opened TabSession

  /** A renewal in progress. `seen` is what it last read. */
  datatype Renewal =
    | Claiming(seen: Saved, session: AuthSession)
    | ToSend(latest: AuthSession)
    | Sent(latest: AuthSession)
    | Storing(latest: AuthSession, reply: AuthSession, seen: Saved)

  /** `holder` is the renewal inside the Web Lock, `readers` what tabs about to write without it have
      read; `sent` lists every refresh token submitted, in order; `issued` is every token Accounts ever
      handed out, with its account. */
  datatype Tabs = Tabs(stored: Saved, holder: Option<Renewal>, readers: map<Tab, Saved>,
                       sent: seq<Token>, issued: map<Token, Account>)

  /** What a tab writes without the lock: `save` of a sign-in, `save(null, ..)` and `forget`. */
  datatype Change = Save(session: AuthSession) | SignOut(previous: Previous) | Forget(session: AuthSession)

  datatype Action =
    | Look(tab: Tab)
    | Write(tab: Tab, change: Change)
    | Abandon(tab: Tab)                     // the write failed, or the tab is gone
    | Reset                                 // unreadable storage is replaced by an empty slot
    | Claim(session: AuthSession)           // the lock is taken and storage read
    | Mark(writable: bool)
    | Submit
    | Answer(reply: Option<AuthSession>)    // the reply is in and storage read again
    | Store(writable: bool)
    | Crash                                 // the lock holder disappears; its lock is released

  /** What this change writes over what it read, if it writes at all. */
  function Written(seen: Saved, change: Change): Option<Saved> {
    match change
    case Save(s) => Some(SavedAs(seen, Some(s), Missing))
    case SignOut(Nobody) => None
    case SignOut(Was(p)) =>
      if Holds(Read(seen), p.account, p.refresh) then Some(SavedAs(seen, None, Was(p))) else None
    case SignOut(Missing) => Some(SavedAs(seen, None, Missing))
    case Forget(s) => Some(Forgotten(seen, s))
  }

  /** A token belongs to one account, whoever saves it and however old it is. */
  predicate Owned(t: Tabs, s: AuthSession) {
    s.refresh in t.issued && t.issued[s.refresh] == s.account
  }

  predicate Enabled(t: Tabs, a: Action) {
    match a
    case Look(tab) => tab !in t.readers
    case Write(tab, change) =>
      tab in t.readers && (change.Save? ==> change.session.refresh !in t.issued || Owned(t, change.session))
    case Abandon(tab) => tab in t.readers
    case Reset => true
    case Claim(_) => t.holder.None?
    case Mark(_) => t.holder.Some? && t.holder.value.Claiming?
    case Submit => t.holder.Some? && t.holder.value.ToSend?
    case Answer(reply) =>
      t.holder.Some? && t.holder.value.Sent? && (reply.Some? ==> reply.value.refresh !in t.issued)
    case Store(_) => t.holder.Some? && t.holder.value.Storing?
    case Crash => t.holder.Some?
  }

  function Issue(t: Tabs, s: AuthSession): Tabs {
    if s.refresh in t.issued then t else t.(issued := t.issued[s.refresh := s.account])
  }

  /** The second half of a renewal finds the sign-in it sent, still marked. */
  predicate StillSent(st: Saved, latest: AuthSession, reply: AuthSession) {
    && reply.account == latest.account
    && Holds(st, latest.account, latest.refresh) && Marked(st, latest.account, latest.refresh)
  }

  /** A renewal that fails gives the lock back; removing its sign-in is a change like any other. */
  function Apply(t: Tabs, a: Action): Tabs
    requires Enabled(t, a)
  {
    match a
    case Look(tab) => t.(readers := t.readers[tab := t.stored])
    case Write(tab, change) =>
      var value := Written(t.readers[tab], change);
      var issuing := if change.Save? then Issue(t, change.session) else t;
      issuing.(readers := t.readers - {tab}, stored := if value.Some? then value.value else t.stored)
    case Abandon(tab) => t.(readers := t.readers - {tab})
    case Reset => t.(stored := EMPTY)
    case Claim(s) => t.(holder := Some(Claiming(t.stored, s)))
    case Mark(writable) =>
      var (value, begun) := Begin(t.holder.value.seen, t.holder.value.session, writable);
      if begun.Renew? then t.(stored := value, holder := Some(ToSend(begun.latest))) else t.(holder := None)
    case Submit =>
      var latest := t.holder.value.latest;
      t.(holder := Some(Sent(latest)), sent := t.sent + [latest.refresh])
    case Answer(reply) =>
      var latest := t.holder.value.latest;
      if reply.None? then t.(holder := None)
      else if StillSent(Read(t.stored), latest, reply.value)
      then Issue(t, reply.value).(holder := Some(Storing(latest, reply.value, t.stored)))
      else Issue(t, reply.value).(holder := None)
    case Store(writable) =>
      var h := t.holder.value;
      t.(stored := if writable then Finish(h.seen, h.latest, Some(h.reply), true, false).0 else t.stored,
         holder := None)
    case Crash => t.(holder := None)
  }

  /** The state after a run of actions, or `None` if some action was not possible. */
  function After(actions: seq<Action>): Option<Tabs> {
    if actions == [] then Some(Tabs(EMPTY, None, map[], [], map[]))
    else
      var before := After(actions[..|actions| - 1]);
      var last := actions[|actions| - 1];
      if before.Some? && Enabled(before.value, last) then Some(Apply(before.value, last)) else None
  }

  predicate Reachable(t: Tabs, actions: seq<Action>) {
    After(actions) == Some(t)
  }

  // ------------------------------------------------------------- undisturbed steps

  /** A renewal's five steps with nothing in between are the two halves of `refresh`: its token is sent once, and the
      slot ends as they leave it. */
  lemma UndisturbedRenewalIsRefresh(t: Tabs, s: AuthSession, reply: AuthSession)
    requires t.holder.None? && Begin(t.stored, s, true).1.Renew?
    requires reply.refresh !in t.issued && reply.account == s.account
    ensures var t1 := Apply(t, Claim(s));
            Enabled(t, Claim(s)) && Enabled(t1, Mark(true)) && Enabled(Apply(t1, Mark(true)), Submit)
    ensures var t3 := Apply(Apply(Apply(t, Claim(s)), Mark(true)), Submit);
            && Enabled(t3, Answer(Some(reply))) && Enabled(Apply(t3, Answer(Some(reply))), Store(true))
            && var t5 := Apply(Apply(t3, Answer(Some(reply))), Store(true));
               var (begun, started) := Begin(t.stored, s, true);
               && (t5.stored, Some(reply)) == Finish(begun, started.latest, Some(reply), true, true)
               && t5.sent == t.sent + [s.refresh] && t5.holder.None?
  {
    FoundAccount(t.stored.sessions, s.account);
  }

  /** A read and a write with nothing in between are `save` and `forget`. */
  lemma UndisturbedChangeIsAtomic(t: Tabs, tab: Tab, change: Change)
    requires tab !in t.readers && Enabled(Apply(t, Look(tab)), Write(tab, change))
    ensures Apply(Apply(t, Look(tab)), Write(tab, change)).stored ==
            match change
            case Save(s) => SavedAs(t.stored, Some(s), Missing)
            case SignOut(previous) => SavedAs(t.stored, None, previous)
            case Forget(s) => Forgotten(t.stored, s)
  {
  }

  // ------------------------------------------------------------ losing a mark

  /** A token that was sent, or that the lock holder is about to send. */
  predicate Spent(t: Tabs, token: Token) {
    token in t.sent || (t.holder.Some? && t.holder.value.ToSend? && t.holder.value.latest.refresh == token)
  }

  /** This account's sign-in, if its token is spent, carries a renewal mark. */
  predicate MarkKept(t: Tabs, value: Saved, account: Account) {
    var found := Find(value.sessions, account);
    found.Some? && Spent(t, found.value.refresh) ==> Marked(value, account, found.value.refresh)
  }

  ghost predicate MarksKept(t: Tabs, value: Saved) {
    forall account :: MarkKept(t, value, account)
  }

  /** Whether this action is a write that would leave a spent token stored without its mark. */
  ghost predicate Loses(t: Tabs, a: Action)
    requires Enabled(t, a)
  {
    a.Write? && var value := Written(t.readers[a.tab], a.change); value.Some? && !MarksKept(t, value.value)
  }

  /** A run in which no write loses a mark. */
  ghost predicate Clean(actions: seq<Action>)
    requires After(actions).Some?
  {
    actions == [] ||
    (Clean(actions[..|actions| - 1]) && !Loses(After(actions[..|actions| - 1]).value, actions[|actions| - 1]))
  }

  // -------------------------------------------------------------- invariant

  ghost predicate AllOwned(t: Tabs, value: Saved) {
    forall account :: Find(value.sessions, account).Some? ==> Owned(t, Find(value.sessions, account).value)
  }

  ghost predicate HolderOk(t: Tabs, h: Renewal) {
    match h
    case Claiming(seen, _) => AllOwned(t, seen) && MarksKept(t, seen)
    case ToSend(latest) => Owned(t, latest) && latest.refresh !in t.sent
    case Sent(latest) => true
    case Storing(latest, reply, seen) =>
      && AllOwned(t, seen) && MarksKept(t, seen)
      && Owned(t, reply) && reply.refresh !in t.sent && StillSent(Read(seen), latest, reply)
  }

  ghost predicate Invariant(t: Tabs) {
    && AllOwned(t, t.stored) && MarksKept(t, t.stored)
    && (forall tab | tab in t.readers :: AllOwned(t, t.readers[tab]))
    && (t.holder.Some? ==> HolderOk(t, t.holder.value))
    && (forall token | token in t.sent :: token in t.issued)
    && NoRepeats(t.sent)
  }

  // ------------------------------------------------------------ each action

  lemma IssuingKeeps(t: Tabs, s: AuthSession)
    requires Invariant(t)
    ensures Invariant(Issue(t, s))
  {
    var t' := Issue(t, s);
    forall value: Saved | AllOwned(t, value) ensures AllOwned(t', value) {}
    forall value: Saved | MarksKept(t, value) ensures MarksKept(t', value) {
      forall a ensures MarkKept(t', value, a) { assert MarkKept(t, value, a); }
    }
  }

  /** What a change writes holds only sign-ins it read, or the one it saves. */
  lemma WrittenIsOwned(t: Tabs, seen: Saved, change: Change)
    requires AllOwned(t, seen) && Written(seen, change).Some?
    requires change.Save? ==> Owned(t, change.session)
    ensures AllOwned(t, Written(seen, change).value)
  {
    var value := Written(seen, change).value;
    forall a | Find(value.sessions, a).Some? ensures Owned(t, Find(value.sessions, a).value) {
      WrittenFinds(seen, change, a);
    }
  }

  lemma WrittenFinds(seen: Saved, change: Change, account: Account)
    requires Written(seen, change).Some?
    ensures var found := Find(Written(seen, change).value.sessions, account);
            || found.None? || found == Find(seen.sessions, account)
            || (change.Save? && found == Some(change.session) && account == change.session.account)
  {
    match change
    case Save(s) => SaveStores(seen, s, account);
    case SignOut(Nobody) =>
    case SignOut(Was(p)) => RemovedFinds(seen, p.account, account);
    case SignOut(Missing) => if seen.active.Some? { RemovedFinds(seen, seen.active.value, account); }
    case Forget(s) => RemovedFinds(seen, s.account, account);
  }

  lemma WriteKeeps(t: Tabs, tab: Tab, change: Change)
    requires Invariant(t) && Enabled(t, Write(tab, change)) && !Loses(t, Write(tab, change))
    ensures Invariant(Apply(t, Write(tab, change)))
  {
    var t1 := if change.Save? then Issue(t, change.session) else t;
    if change.Save? { IssuingKeeps(t, change.session); }
    var t' := Apply(t, Write(tab, change));
    var seen := t.readers[tab];
    if Written(seen, change).Some? {
      WrittenIsOwned(t1, seen, change);
      forall a ensures MarkKept(t', t'.stored, a) { assert MarkKept(t, t'.stored, a); }
    }
    SameMarks(t1, t');
  }

  /** Storage and readers do not decide which tokens are spent or whose they are. */
  lemma SameMarks(t: Tabs, t': Tabs)
    requires t'.holder == t.holder && t'.sent == t.sent && t'.issued == t.issued
    ensures forall value: Saved :: AllOwned(t', value) == AllOwned(t, value)
    ensures forall value: Saved :: MarksKept(t', value) == MarksKept(t, value)
  {
    forall value: Saved ensures MarksKept(t', value) == MarksKept(t, value) {
      forall a ensures MarkKept(t', value, a) == MarkKept(t, value, a) {}
    }
  }

  /** Taking the lock, and giving it up at any point, spend nothing new. */
  lemma LockKeeps(t: Tabs, a: Action)
    requires Invariant(t) && Enabled(t, a) && (a.Look? || a.Abandon? || a.Reset? || a.Claim? || a.Crash?)
    ensures Invariant(Apply(t, a))
  {
    var t' := Apply(t, a);
    if a.Crash? {
      ReleaseKeeps(t);
    } else {
      forall value: Saved
        ensures AllOwned(t', value) == AllOwned(t, value) && MarksKept(t', value) == MarksKept(t, value)
      {
        forall b ensures MarkKept(t', value, b) == MarkKept(t, value, b) {}
      }
    }
  }

  lemma ReleaseKeeps(t: Tabs)
    requires Invariant(t)
    ensures Invariant(t.(holder := None))
  {
    var t' := t.(holder := None);
    forall a ensures MarkKept(t', t.stored, a) { assert MarkKept(t, t.stored, a); }
  }

  /** Marking precedes sending, and what is claimed unmarked was never sent: the lock holder read every
      earlier mark, and only the lock holder spends tokens. */
  lemma MarkingKeeps(t: Tabs, writable: bool)
    requires Invariant(t) && Enabled(t, Mark(writable))
    ensures Invariant(Apply(t, Mark(writable)))
  {
    var seen, s := t.holder.value.seen, t.holder.value.session;
    var t' := Apply(t, Mark(writable));
    ReleaseKeeps(t);
    var (value, begun) := Begin(seen, s, writable);
    if begun.Renew? {
      FoundAccount(seen.sessions, s.account);
      assert MarkKept(t, seen, s.account);
      forall a ensures MarkKept(t', value, a) {
        assert MarkKept(t, seen, a);
        FoundAccount(seen.sessions, a);
      }
    }
  }

  lemma SubmitKeeps(t: Tabs)
    requires Invariant(t) && Enabled(t, Submit)
    ensures Invariant(Apply(t, Submit))
  {
    var t' := Apply(t, Submit);
    forall a ensures MarkKept(t', t.stored, a) { assert MarkKept(t, t.stored, a); }
  }

  lemma AnswerKeeps(t: Tabs, reply: Option<AuthSession>)
    requires Invariant(t) && Enabled(t, Answer(reply))
    ensures Invariant(Apply(t, Answer(reply)))
  {
    ReleaseKeeps(t);
    if reply.Some? {
      IssuingKeeps(t, reply.value);
      var t1 := Issue(t, reply.value);
      ReleaseKeeps(t1);
      var latest := t.holder.value.latest;
      if StillSent(Read(t.stored), latest, reply.value) {
        var t' := Apply(t, Answer(reply));
        forall a ensures MarkKept(t', t.stored, a) { assert MarkKept(t, t.stored, a); }
      }
    }
  }

  lemma StoreKeeps(t: Tabs, writable: bool)
    requires Invariant(t) && Enabled(t, Store(writable))
    ensures Invariant(Apply(t, Store(writable)))
  {
    var h := t.holder.value;
    var t' := Apply(t, Store(writable));
    ReleaseKeeps(t);
    if writable {
      forall a ensures MarkKept(t', t'.stored, a)
      {
        assert MarkKept(t, h.seen, a);
        FindReplace(h.seen.sessions, h.reply, a);
      }
      forall a | Find(t'.stored.sessions, a).Some? ensures Owned(t', Find(t'.stored.sessions, a).value) {
        FindReplace(h.seen.sessions, h.reply, a);
      }
    }
  }

  lemma StepKeeps(t: Tabs, a: Action)
    requires Invariant(t) && Enabled(t, a) && !Loses(t, a)
    ensures Invariant(Apply(t, a))
  {
    match a
    case Write(tab, change) => WriteKeeps(t, tab, change);
    case Mark(writable) => MarkingKeeps(t, writable);
    case Submit => SubmitKeeps(t);
    case Answer(reply) => AnswerKeeps(t, reply);
    case Store(writable) => StoreKeeps(t, writable);
    case _ => LockKeeps(t, a);
  }

  lemma {:induction false} CleanKeeps(t: Tabs, actions: seq<Action>)
    requires Reachable(t, actions) && Clean(actions)
    ensures Invariant(t)
    decreases |actions|
  {
    if actions != [] {
      CleanKeeps(After(actions[..|actions| - 1]).value, actions[..|actions| - 1]);
      StepKeeps(After(actions[..|actions| - 1]).value, actions[|actions| - 1]);
    }
  }

  // ------------------------------------------------------------ main results

  /** Over every run in which no write loses a mark, no refresh token is ever submitted twice. */
  lemma EachTokenIsSentOnce(t: Tabs, actions: seq<Action>)
    requires Reachable(t, actions) && Clean(actions)
    ensures NoRepeats(t.sent)
  {
    CleanKeeps(t, actions);
  }

  /** This account's sign-in, as the tab read it before the renewal marked it. */
  predicate ReadUnmarked(t: Tabs, seen: Saved, account: Account) {
    var found := Find(seen.sessions, account);
    found.Some? && Spent(t, found.value.refresh) && !Marked(seen, account, found.value.refresh)
  }

  /** Exactly when saving a sign-in loses a mark: some other account's token was marked after this tab
      read storage, or the saved token itself is spent and this tab did not read its mark. */
  lemma SaveLosesExactly(t: Tabs, tab: Tab, s: AuthSession)
    requires Enabled(t, Write(tab, Save(s)))
    ensures var seen := t.readers[tab];
            Loses(t, Write(tab, Save(s))) <==>
              || (exists a: Account :: a != s.account && ReadUnmarked(t, seen, a))
              || (Spent(t, s.refresh) && !(Holds(seen, s.account, s.refresh) && Marked(seen, s.account, s.refresh)))
  {
    var seen := t.readers[tab];
    var value := SavedAs(seen, Some(s), Missing);
    SaveStores(seen, s, s.account);
    if a: Account :| a != s.account && ReadUnmarked(t, seen, a) {
      SaveStores(seen, s, a);
      assert !MarkKept(t, value, a);
    }
    if !MarksKept(t, value) {
      var a :| !MarkKept(t, value, a);
      SaveStores(seen, s, a);
      assert a != s.account ==> ReadUnmarked(t, seen, a);
    }
    assert MarkKept(t, value, s.account) ==
           !(Spent(t, s.refresh) && !(Holds(seen, s.account, s.refresh) && Marked(seen, s.account, s.refresh)));
  }

  /** The account a removal is about, if it writes. */
  function Gone(seen: Saved, change: Change): Option<Account>
    requires !change.Save?
  {
    match change
    case SignOut(Nobody) => None
    case SignOut(Was(p)) => Some(p.account)
    case SignOut(Missing) => seen.active
    case Forget(s) => Some(s.account)
  }

  /** Exactly when a removal does: some account it does not remove was marked after it read storage. */
  lemma RemovalLosesExactly(t: Tabs, tab: Tab, change: Change)
    requires Enabled(t, Write(tab, change)) && !change.Save?
    ensures var seen := t.readers[tab];
            Loses(t, Write(tab, change)) <==>
              && Written(seen, change).Some?
              && exists a: Account :: Gone(seen, change) != Some(a) && ReadUnmarked(t, seen, a)
  {
    var seen := t.readers[tab];
    if Written(seen, change).Some? {
      var value := Written(seen, change).value;
      forall a: Account ensures MarkKept(t, value, a) == !(Gone(seen, change) != Some(a) && ReadUnmarked(t, seen, a)) {
        RemovalMarks(t, seen, change, a);
      }
    }
  }

  lemma RemovalMarks(t: Tabs, seen: Saved, change: Change, a: Account)
    requires !change.Save? && Written(seen, change).Some?
    ensures MarkKept(t, Written(seen, change).value, a) == !(Gone(seen, change) != Some(a) && ReadUnmarked(t, seen, a))
  {
    match change
    case SignOut(Nobody) =>
    case SignOut(Was(p)) => RemovedFinds(seen, p.account, a);
    case SignOut(Missing) => if seen.active.Some? { RemovedFinds(seen, seen.active.value, a); }
    case Forget(s) => RemovedFinds(seen, s.account, a);
  }

  /** For a write whose read is still current, only one thing can go wrong: saving a sign-in whose token
      is spent and no longer stored. */
  lemma CurrentWriteLosesExactly(t: Tabs, actions: seq<Action>, tab: Tab, change: Change)
    requires Reachable(t, actions) && Clean(actions)
    requires Enabled(t, Write(tab, change)) && t.readers[tab] == t.stored
    ensures Loses(t, Write(tab, change)) <==>
              change.Save? && Spent(t, change.session.refresh)
              && !Holds(t.stored, change.session.account, change.session.refresh)
  {
    CleanKeeps(t, actions);
    forall a: Account ensures !ReadUnmarked(t, t.stored, a) { assert MarkKept(t, t.stored, a); }
    if change.Save? {
      SaveLosesExactly(t, tab, change.session);
      assert MarkKept(t, t.stored, change.session.account);
    } else {
      RemovalLosesExactly(t, tab, change);
    }
  }

  /** The same, as the next renewal sees it: a saved sign-in whose token was sent is sent again exactly
      if storage did not hold it just before it was saved. */
  lemma StaleSaveResendsExactlyUnlessHeld(t: Tabs, actions: seq<Action>, s: AuthSession)
    requires Reachable(t, actions) && Clean(actions) && t.holder.None? && s.refresh in t.sent
    ensures Begin(SavedAs(t.stored, Some(s), Missing), s, true).1 == Renew(s) <==>
              !Holds(t.stored, s.account, s.refresh)
  {
    CleanKeeps(t, actions);
    assert MarkKept(t, t.stored, s.account);
    SaveStores(t.stored, s, s.account);
  }

  /** After a crash mid-renewal the half-spent sign-in can never be renewed again: the next attempt
      reports the interruption and, when storage is writable, removes it. */
  lemma InterruptedRenewalIsNotResent(t: Tabs, actions: seq<Action>, s: AuthSession, writable: bool)
    requires Reachable(t, actions) && Clean(actions) && t.holder.None?
    requires Find(t.stored.sessions, s.account).Some? && t.stored.active == Some(s.account)
    requires Find(t.stored.sessions, s.account).value.refresh in t.sent
    ensures Begin(t.stored, s, writable).1 == Interrupted
    ensures writable ==> Find(Begin(t.stored, s, writable).0.sessions, s.account) == None
  {
    CleanKeeps(t, actions);
    assert MarkKept(t, t.stored, s.account);
    FoundAccount(t.stored.sessions, s.account);
    RemovedFinds(t.stored, s.account, s.account);
  }

  /** A sign-in now stored that this renewal has no business with: of another account, or a newer one of
      its own account. */
  predicate Foreign(t: Tabs, latest: AuthSession, account: Account, x: AuthSession) {
    Find(t.stored.sessions, account) == Some(x) && (account == latest.account ==> x.refresh != latest.refresh)
  }

  /** A finished renewal puts back what it read. A sign-in saved meanwhile, of any account, survives its
      write exactly if the renewal's read already showed it (or it is the reply itself). */
  lemma RenewalSparesExactlyWhatItRead(t: Tabs, account: Account, x: AuthSession)
    requires Enabled(t, Store(true)) && Foreign(t, t.holder.value.latest, account, x)
    requires StillSent(Read(t.holder.value.seen), t.holder.value.latest, t.holder.value.reply)
    ensures var h, after := t.holder.value, Apply(t, Store(true)).stored;
            Find(after.sessions, account) == Some(x) <==>
              Find(h.seen.sessions, account) == Some(x) || (account == h.latest.account && x == h.reply)
  {
    FindReplace(t.holder.value.seen.sessions, t.holder.value.reply, account);
  }

  /** A failed renewal removes its sign-in from what it read. A sign-in saved meanwhile survives that
      write exactly if it is another account's and the removal's read already showed it; one of the renewed
      account never does. */
  lemma RemovalSparesExactlyWhatItRead(t: Tabs, tab: Tab, latest: AuthSession, account: Account, x: AuthSession)
    requires Enabled(t, Write(tab, SignOut(Was(latest)))) && Foreign(t, latest, account, x)
    requires Written(t.readers[tab], SignOut(Was(latest))).Some?
    ensures var after := Apply(t, Write(tab, SignOut(Was(latest)))).stored;
            Find(after.sessions, account) == Some(x) <==>
              account != latest.account && Find(t.readers[tab].sessions, account) == Some(x)
  {
    RemovedFinds(t.readers[tab], latest.account, account);
  }

  /** Both writes spare every such sign-in if nothing was written since their read; the removal then does
      not even write once its own account has a newer sign-in. */
  lemma CurrentReadsSpareAll(t: Tabs, tab: Tab, latest: AuthSession, account: Account, x: AuthSession)
    requires Foreign(t, latest, account, x)
    ensures Enabled(t, Store(true)) && t.holder.value.latest == latest && t.holder.value.seen == t.stored
            && StillSent(Read(t.stored), latest, t.holder.value.reply) ==>
              Find(Apply(t, Store(true)).stored.sessions, account) == Some(x)
    ensures Enabled(t, Write(tab, SignOut(Was(latest)))) && t.readers[tab] == t.stored ==>
              Find(Apply(t, Write(tab, SignOut(Was(latest)))).stored.sessions, account) == Some(x)
  {
    if Enabled(t, Store(true)) && t.holder.value.latest == latest && t.holder.value.seen == t.stored
      && StillSent(Read(t.stored), latest, t.holder.value.reply)
    {
      RenewalSparesExactlyWhatItRead(t, account, x);
    }
    if Enabled(t, Write(tab, SignOut(Was(latest)))) && t.readers[tab] == t.stored
      && Written(t.stored, SignOut(Was(latest))).Some?
    {
      RemovalSparesExactlyWhatItRead(t, tab, latest, account, x);
    }
  }

  // ---------------------------------------------------- what a lost mark costs

  lemma AfterOne(actions: seq<Action>, t: Tabs, a: Action)
    requires After(actions) == Some(t) && Enabled(t, a)
    ensures After(actions + [a]) == Some(Apply(t, a))
  {
    hide Enabled, Apply;
    assert (actions + [a])[..|actions + [a]| - 1] == actions;
  }

  /** A renewal of the active, unmarked sign-in goes as far as sending its token. */
  lemma ActiveIsSent(actions: seq<Action>, t: Tabs, s: AuthSession)
    requires After(actions) == Some(t) && t.holder.None? && t.stored.active == Some(s.account)
    requires Find(t.stored.sessions, s.account) == Some(s) && !Marked(t.stored, s.account, s.refresh)
    ensures var marked := Read(t.stored).refreshing[s.account := s.refresh];
            After(actions + [Claim(s)] + [Mark(true)] + [Submit]) ==
              Some(t.(stored := t.stored.(refreshing := marked), holder := Some(Sent(s)), sent := t.sent + [s.refresh]))
  {
    AfterOne(actions, t, Claim(s));
    var t1 := Apply(t, Claim(s));
    AfterOne(actions + [Claim(s)], t1, Mark(true));
    AfterOne(actions + [Claim(s)] + [Mark(true)], Apply(t1, Mark(true)), Submit);
  }

  /** From a state with no renewal under way, a stored sign-in that was sent and is not marked is sent
      again: any tab that makes it the active one can renew it. */
  lemma UnmarkedIsResent(actions: seq<Action>, t: Tabs, tab: Tab, s: AuthSession) returns (more: seq<Action>)
    requires After(actions) == Some(t) && t.holder.None? && tab !in t.readers
    requires Find(t.stored.sessions, s.account) == Some(s) && Owned(t, s)
    requires s.refresh in t.sent && !Marked(t.stored, s.account, s.refresh)
    ensures After(actions + more).Some? && After(actions + more).value.sent == t.sent + [s.refresh]
  {
    more := [Look(tab), Write(tab, Save(s)), Claim(s), Mark(true), Submit];
    AfterOne(actions, t, more[0]);
    var t1 := Apply(t, more[0]);
    AfterOne(actions + [more[0]], t1, more[1]);
    SaveStores(t.stored, s, s.account);
    ActiveIsSent(actions + [more[0]] + [more[1]], Apply(t1, more[1]), s);
    assert actions + more == actions + [more[0]] + [more[1]] + [Claim(s)] + [Mark(true)] + [Submit];
  }

  lemma RepeatedAtEnd(tokens: seq<Token>, token: Token)
    requires token in tokens
    ensures !NoRepeats(tokens + [token])
  {
    var i :| 0 <= i < |tokens| && tokens[i] == token;
    assert (tokens + [token])[i] == (tokens + [token])[|tokens|];
  }

  /** Let the renewal under way send what it was about to, and disappear. */
  lemma HolderDisappears(actions: seq<Action>, t: Tabs) returns (more: seq<Action>, after: Tabs)
    requires After(actions) == Some(t)
    ensures After(actions + more) == Some(after) && after.holder.None?
    ensures after.stored == t.stored && after.readers == t.readers && after.issued == t.issued
    ensures forall token | Spent(t, token) :: token in after.sent
  {
    more, after := [], t;
    assert actions + [] == actions;
    if t.holder.Some? && t.holder.value.ToSend? {
      AfterOne(actions, t, Submit);
      more, after := [Submit], Apply(t, Submit);
    }
    if t.holder.Some? {
      AfterOne(actions + more, after, Crash);
      assert actions + more + [Crash] == actions + (more + [Crash]);
      more, after := more + [Crash], Apply(after, Crash);
    }
  }

  /** What a losing write leaves in storage: a spent sign-in without its mark. */
  lemma LosingWriteLeaves(t: Tabs, tab: Tab, change: Change) returns (s: AuthSession)
    requires Invariant(t) && Enabled(t, Write(tab, change)) && Loses(t, Write(tab, change))
    ensures var t1 := Apply(t, Write(tab, change));
            && Find(t1.stored.sessions, s.account) == Some(s) && Owned(t1, s) && tab !in t1.readers
            && Spent(t1, s.refresh) && !Marked(t1.stored, s.account, s.refresh)
  {
    var value := Written(t.readers[tab], change).value;
    var a :| !MarkKept(t, value, a);
    s := Find(value.sessions, a).value;
    FoundAccount(value.sessions, a);
    var issued := if change.Save? then Issue(t, change.session) else t;
    if change.Save? { IssuingKeeps(t, change.session); }
    WrittenIsOwned(issued, t.readers[tab], change);
  }

  /** Losing a mark is exactly what breaks the promise: after any write that loses one there is a run in
      which the token is submitted twice. */
  lemma LostMarkIsResent(t: Tabs, actions: seq<Action>, tab: Tab, change: Change) returns (more: seq<Action>)
    requires Reachable(t, actions) && Clean(actions)
    requires Enabled(t, Write(tab, change)) && Loses(t, Write(tab, change))
    ensures var run := actions + [Write(tab, change)] + more; After(run).Some? && !NoRepeats(After(run).value.sent)
  {
    hide Apply, Enabled, After, Clean, Invariant, Loses, Written;
    CleanKeeps(t, actions);
    var s := LosingWriteLeaves(t, tab, change);
    var written := actions + [Write(tab, change)];
    AfterOne(actions, t, Write(tab, change));
    var first, quiet := HolderDisappears(written, Apply(t, Write(tab, change)));
    var second := UnmarkedIsResent(written + first, quiet, tab, s);
    more := first + second;
    assert written + first + second == actions + [Write(tab, change)] + more;
    RepeatedAtEnd(quiet.sent, s.refresh);
  }

  // -------------------------------------------------------------- two such runs

  /** A sign-in is saved, and a second tab reads storage. */
  function Signing(s: AuthSession): seq<Action> {
    [Look(0), Write(0, Save(s)), Look(1)]
  }

  function Signed(s: AuthSession): Tabs {
    var value := Saved(Some(s.account), [s], map[]);
    Tabs(value, None, map[1 := value], [], map[s.refresh := s.account])
  }

  lemma SigningRuns(s: AuthSession)
    ensures After(Signing(s)) == Some(Signed(s))
  {
    var run := Signing(s);
    var t0 := Tabs(EMPTY, None, map[], [], map[]);
    var t1 := t0.(readers := map[0 := EMPTY]);
    var t2 := Signed(s).(readers := map[]);
    assert After(run[..0]) == Some(t0);
    AfterOne(run[..0], t0, run[0]);
    assert run[..0] + [run[0]] == run[..1] && Apply(t0, run[0]) == t1;
    AfterOne(run[..1], t1, run[1]);
    assert Read(EMPTY).refreshing == map[];
    assert run[..1] + [run[1]] == run[..2] && Apply(t1, run[1]) == t2;
    AfterOne(run[..2], t2, run[2]);
    assert run[..2] + [run[2]] == run;
  }

  /** A renewal of it claims, marks and sends. */
  function Sending(s: AuthSession): seq<Action> {
    Signing(s) + [Claim(s)] + [Mark(true)] + [Submit]
  }

  function SendingEnds(s: AuthSession): Tabs {
    Signed(s).(stored := Saved(Some(s.account), [s], map[s.account := s.refresh]),
               holder := Some(Sent(s)), sent := [s.refresh])
  }

  lemma SendingRuns(s: AuthSession)
    ensures After(Sending(s)) == Some(SendingEnds(s))
  {
    SigningRuns(s);
    ActiveIsSent(Signing(s), Signed(s), s);
    assert Read(Signed(s).stored).refreshing == map[];
    assert Signed(s).sent + [s.refresh] == [s.refresh];
  }

  /** A sign-in is renewed, then a tab that still has the old one saves it: its token is sent again. */
  lemma StaleSaveResends(stale: AuthSession, renewed: AuthSession) returns (run: seq<Action>)
    requires stale.account == renewed.account && stale.refresh != renewed.refresh
    ensures After(run).Some? && After(run).value.sent == [stale.refresh, stale.refresh]
  {
    var t0 := SendingEnds(stale);
    SendingRuns(stale);
    run := Sending(stale);
    var t1 := Apply(t0, Answer(Some(renewed)));
    AfterOne(run, t0, Answer(Some(renewed)));
    run := run + [Answer(Some(renewed))];
    var t2 := Apply(t1, Store(true));
    AfterOne(run, t1, Store(true));
    run := run + [Store(true)];
    assert Find(t2.stored.sessions, stale.account) == Some(renewed);
    var t3 := Apply(t2, Look(0));
    AfterOne(run, t2, Look(0));
    run := run + [Look(0)];
    var t4 := Apply(t3, Write(0, Save(stale)));
    AfterOne(run, t3, Write(0, Save(stale)));
    run := run + [Write(0, Save(stale))];
    SaveStores(t2.stored, stale, stale.account);
    var more := UnmarkedIsResent(run, t4, 0, stale);
    run := run + more;
  }

  /** Every saved sign-in is fresh, yet a token is sent twice: another tab reads storage before the
      renewal marks it, the renewing tab disappears after sending, and the other tab then writes. */
  lemma RacingSaveResends(s: AuthSession, other: AuthSession) returns (run: seq<Action>)
    requires s.account != other.account && s.refresh != other.refresh
    ensures After(run).Some? && After(run).value.sent == [s.refresh, s.refresh]
  {
    var t0 := SendingEnds(s);
    SendingRuns(s);
    run := Sending(s);
    var t1 := t0.(holder := None);
    AfterOne(run, t0, Crash);
    run := run + [Crash];
    var t2 := Apply(t1, Write(1, Save(other)));
    AfterOne(run, t1, Write(1, Save(other)));
    run := run + [Write(1, Save(other))];
    SaveStores(t1.readers[1], other, s.account);
    var more := UnmarkedIsResent(run, t2, 0, s);
    run := run + more;
  }

  /** The sent renewal is answered, another tab reads storage and saves a newer sign-in. */
  lemma NewerIsSaved(actions: seq<Action>, t: Tabs, newer: AuthSession)
    requires After(actions) == Some(t) && 0 !in t.readers && newer.refresh !in t.issued
    ensures var saved := t.(stored := SavedAs(t.stored, Some(newer), Missing),
                            issued := t.issued[newer.refresh := newer.account]);
            After(actions + [Look(0)] + [Write(0, Save(newer))]) == Some(saved)
    ensures Find(SavedAs(t.stored, Some(newer), Missing).sessions, newer.account) == Some(newer)
  {
    AfterOne(actions, t, Look(0));
    var t1 := Apply(t, Look(0));
    AfterOne(actions + [Look(0)], t1, Write(0, Save(newer)));
    assert t1.readers - {0} == t.readers;
    SaveStores(t.stored, newer, newer.account);
  }

  function AnswerEnds(s: AuthSession, reply: AuthSession): Tabs {
    var t := SendingEnds(s);
    t.(holder := Some(Storing(s, reply, t.stored)), issued := t.issued[reply.refresh := reply.account])
  }

  lemma AnswerRuns(s: AuthSession, reply: AuthSession)
    requires s.account == reply.account && s.refresh != reply.refresh
    ensures After(Sending(s) + [Answer(Some(reply))]) == Some(AnswerEnds(s, reply))
    ensures StillSent(Read(SendingEnds(s).stored), s, reply)
  {
    SendingRuns(s);
    AfterOne(Sending(s), SendingEnds(s), Answer(Some(reply)));
  }

  lemma StorePutsReplyBack(actions: seq<Action>, t: Tabs)
    requires After(actions) == Some(t) && Enabled(t, Store(true))
    requires StillSent(Read(t.holder.value.seen), t.holder.value.latest, t.holder.value.reply)
    ensures After(actions + [Store(true)]).Some?
    ensures var after := After(actions + [Store(true)]).value;
            && Find(after.stored.sessions, t.holder.value.latest.account) == Some(t.holder.value.reply)
            && after.sent == t.sent
  {
    AfterOne(actions, t, Store(true));
    FindReplace(t.holder.value.seen.sessions, t.holder.value.reply, t.holder.value.latest.account);
  }

  /** No token is sent twice, yet a newer sign-in of the renewed account is destroyed: it is saved between
      the finished renewal's read and its write. */
  lemma FinishedRenewalDestroysNewerSignIn(s: AuthSession, reply: AuthSession, newer: AuthSession)
      returns (run: seq<Action>, before: Tabs)
    requires s.account == reply.account == newer.account
    requires s.refresh != reply.refresh && s.refresh != newer.refresh && newer.refresh != reply.refresh
    ensures After(run) == Some(before) && Find(before.stored.sessions, s.account) == Some(newer)
    ensures After(run + [Store(true)]).Some?
    ensures var after := After(run + [Store(true)]).value;
            Find(after.stored.sessions, s.account) == Some(reply) && NoRepeats(after.sent)
  {
    hide After, Apply, Sending, SavedAs;
    AnswerRuns(s, reply);
    var answered := Sending(s) + [Answer(Some(reply))];
    NewerIsSaved(answered, AnswerEnds(s, reply), newer);
    run := answered + [Look(0)] + [Write(0, Save(newer))];
    before := After(run).value;
    StorePutsReplyBack(run, before);
  }

  /** The same for a failed renewal: the newer sign-in is saved between the removal's read and its write. */
  lemma FailedRenewalDestroysNewerSignIn(s: AuthSession, newer: AuthSession) returns (run: seq<Action>, before: Tabs)
    requires s.account == newer.account && s.refresh != newer.refresh
    ensures After(run) == Some(before) && Find(before.stored.sessions, s.account) == Some(newer)
    ensures After(run + [Write(2, SignOut(Was(s)))]).Some?
    ensures var after := After(run + [Write(2, SignOut(Was(s)))]).value;
            Find(after.stored.sessions, s.account) == None && NoRepeats(after.sent)
  {
    var t0 := SendingEnds(s);
    SendingRuns(s);
    AfterOne(Sending(s), t0, Answer(None));
    var t1 := Apply(t0, Answer(None));
    var failed := Sending(s) + [Answer(None)];
    AfterOne(failed, t1, Look(2));
    var t2 := Apply(t1, Look(2));
    hide After, Apply, Enabled, Sending, SavedAs;
    NewerIsSaved(failed + [Look(2)], t2, newer);
    run := failed + [Look(2)] + [Look(0)] + [Write(0, Save(newer))];
    before := After(run).value;
    RemovalTakesIt(run, before, 2, s);
  }

  lemma RemovalTakesIt(actions: seq<Action>, t: Tabs, tab: Tab, s: AuthSession)
    requires After(actions) == Some(t) && tab in t.readers && Holds(t.readers[tab], s.account, s.refresh)
    ensures After(actions + [Write(tab, SignOut(Was(s)))]).Some?
    ensures var after := After(actions + [Write(tab, SignOut(Was(s)))]).value;
            Find(after.stored.sessions, s.account) == None && after.sent == t.sent
  {
    AfterOne(actions, t, Write(tab, SignOut(Was(s))));
    RemovedFinds(t.readers[tab], s.account, s.account);
  }
}
