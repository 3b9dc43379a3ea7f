/** CLI processes sharing one saved sign-in (crates/cli/src/main.rs, crates/cli/src/state.rs).

    `SavedLogin` is the state file: each method is one closure run under the state lock.
    `Processes` interleaves refreshes, rejected-access recovery, logins, logouts and crashes; the
    refresh lock admits one refresh or recovery at a time, but logins and logouts do not take it. */
module CliSession {
  import opened Wrappers

  type Token = nat
  type Backend = nat
  type Generation = nat
  type Time = int

  const REFRESH_MARGIN: Time := 60_000

  /** A stored identity is an Accounts id, or a handle from before accounts had ids. */
  datatype Identity = Account(id: nat) | Handle(name: nat)

  datatype Login = Login(backend: Backend, access: Option<Token>, refresh: Option<Token>, expiresAt: Option<Time>,
                         identity: Option<Identity>, generation: Option<Generation>)

  /** What Accounts returns for a sign-in or a refresh. */
  datatype AuthSession = AuthSession(access: Token, refresh: Token, expiresAt: Time, account: nat)

  datatype Binding = Binding(backend: Backend, identity: Option<Identity>, generation: Option<Generation>)

  function BindingOf(s: Login): Binding {
    Binding(s.backend, s.identity, s.generation)
  }

  predicate NeedsRefresh(s: Login, now: Time) {
    && (s.access.Some? || s.refresh.Some?)
    && (|| s.access.None?
        || s.identity.None? || s.identity.value.Handle?
        || s.expiresAt.None? || s.expiresAt.value <= now + REFRESH_MARGIN)
  }

  // ---------------------------------------------------- the locked closures

  datatype Kind = Refresh | Recover

  datatype Claim = Claim(kind: Kind, binding: Binding, token: Token)

  predicate Claimable(s: Login, c: Claim) {
    BindingOf(s) == c.binding && s.refresh == Some(c.token)
  }

  predicate Applicable(s: Login, c: Claim) {
    BindingOf(s) == c.binding && s.refresh.None?
  }

  function Consumed(s: Login): Login {
    s.(refresh := None)
  }

  function Applied(s: Login, c: Claim, reply: AuthSession): Login {
    var tokens := s.(access := Some(reply.access), refresh := Some(reply.refresh), expiresAt := Some(reply.expiresAt));
    if c.kind.Refresh? then tokens.(identity := Some(Account(reply.account))) else tokens
  }

  /** The reply must name the identity the credential was bound to: always for recovery, and for a
      refresh whenever the stored identity already is an account id. */
  predicate ReplyMatches(c: Claim, reply: AuthSession) {
    match c.kind
    case Recover => c.binding.identity == Some(Account(reply.account))
    case Refresh => c.binding.identity.Some? && c.binding.identity.value.Account? ==>
                      c.binding.identity.value == Account(reply.account)
  }

  function LoggedIn(auth: AuthSession, generation: Generation, backend: Backend): Login {
    Login(backend, Some(auth.access), Some(auth.refresh), Some(auth.expiresAt), Some(Account(auth.account)),
          Some(generation))
  }

  function LoggedOut(s: Login): Login {
    Login(s.backend, None, None, None, None, None)
  }

  class SavedLogin {
    var backend: Backend
    var access: Option<Token>
    var refresh: Option<Token>
    var expiresAt: Option<Time>
    var identity: Option<Identity>
    var generation: Option<Generation>

    function Value(): Login
      reads this
    {
      Login(backend, access, refresh, expiresAt, identity, generation)
    }

    /** Take the refresh token out of the file, if the file still is what was loaded. */
    method Consume(c: Claim) returns (claimed: bool)
      modifies this`refresh
      ensures claimed <==> Claimable(old(Value()), c)
      ensures Value() == if claimed then Consumed(old(Value())) else old(Value())
    {
      claimed := false;
      if refresh == Some(c.token) && generation == c.binding.generation && identity == c.binding.identity
        && backend == c.binding.backend
      {
        refresh := None;
        claimed := true;
      }
    }

    /** Store a reply, if nobody replaced the credential while the request was in flight. */
    method Apply(c: Claim, reply: AuthSession) returns (applied: bool)
      modifies this
      ensures applied <==> Applicable(old(Value()), c)
      ensures Value() == if applied then Applied(old(Value()), c, reply) else old(Value())
    {
      applied := false;
      if refresh.None? && generation == c.binding.generation && identity == c.binding.identity
        && backend == c.binding.backend
      {
        access, refresh, expiresAt := Some(reply.access), Some(reply.refresh), Some(reply.expiresAt);
        if c.kind.Refresh? {
          identity := Some(Account(reply.account));
        }
        applied := true;
      }
    }

    method ApplyAuthSession(auth: AuthSession, drawn: Generation, issuer: Backend)
      modifies this
      ensures Value() == LoggedIn(auth, drawn, issuer)
    {
      access, refresh, expiresAt := Some(auth.access), Some(auth.refresh), Some(auth.expiresAt);
      identity := Some(Account(auth.account));
      generation := Some(drawn);
      backend := issuer;
    }

    method ClearLogin()
      modifies this
      ensures Value() == LoggedOut(old(Value()))
    {
      access, refresh, expiresAt := None, None, None;
      identity := None;
      generation := None;
    }
  }

  // ------------------------------------------------------ the two entry points

  /** `refresh_if_needed` under the refresh lock, up to the claim; `mine` is the caller's snapshot. */
  function RefreshEntry(file: Login, mine: Login, now: Time): Option<Claim> {
    if BindingOf(file) != BindingOf(mine) || !NeedsRefresh(file, now) || file.refresh.None? then None
    else Some(Claim(Refresh, BindingOf(file), file.refresh.value))
  }

  /** `recover_rejected_access` under the refresh lock: only for the very token that was rejected. */
  function RecoverEntry(file: Login, binding: Binding, rejected: Token): Option<Claim> {
    if binding.identity.None? || BindingOf(file) != binding || file.access != Some(rejected) || file.refresh.None?
    then None
    else Some(Claim(Recover, binding, file.refresh.value))
  }

  /** Whether recovery answers with a token another process has stored meanwhile. */
  predicate RecoverReuses(file: Login, binding: Binding, rejected: Token, now: Time) {
    && binding.identity.Some? && BindingOf(file) == binding && file.access != Some(rejected)
    && binding.generation.Some? && !NeedsRefresh(file, now)
  }

  // ------------------------------------------------------------- many processes

  /** The process holding the refresh lock: about to claim, about to send, or awaiting the reply.
      `since` is the sign-in epoch in which its token was taken, `origin` the sign-in it came from. */
  datatype Holder =
    | Ready(claim: Claim)
    | Taken(claim: Claim, since: nat, origin: nat)
    | Sent(claim: Claim, since: nat, origin: nat)

  /** A command at work with the access token and the binding it found in the file. `since` is the epoch it
      read the file in, `origin` the sign-in that token came from. */
  datatype Client = Client(binding: Binding, token: Token, since: nat, origin: nat)

  /** `epoch` counts logins and logouts; `used` holds every generation ever drawn; `origin` is the epoch of
      the login that the file's tokens come from, through however many refreshes. */
  datatype Processes = Processes(file: Login, holder: Option<Holder>, clients: map<nat, Client>, epoch: nat,
                                 origin: nat, used: set<Generation>, sent: seq<Token>, issued: set<Token>)

  datatype Action =
    | LogIn(auth: AuthSession, generation: Generation, backend: Backend)
    | LogOut
    | NameGeneration(generation: Generation)          // a stored token without a generation gets one
    | SetIdentity(expected: Login, identity: Identity)  // `setup`, after validating the stored token
    | EnterRefresh(mine: Login, now: Time)
    | EnterRecover(binding: Binding, rejected: Token)
    | OpenClient(pid: nat)                            // a command loads the file
    | Reuse(pid: nat, now: Time)                      // its token is rejected; it goes on with the stored one
    | Take
    | Send
    | Conclude(reply: Option<AuthSession>)
    | Crash

  predicate Enabled(p: Processes, a: Action) {
    match a
    case LogIn(auth, generation, _) => auth.refresh !in p.issued && generation !in p.used
    case LogOut => true
    case NameGeneration(generation) => generation !in p.used && p.file.access.Some? && p.file.generation.None?
    case SetIdentity(expected, _) => expected.access.Some?
    case EnterRefresh(mine, now) => p.holder.None? && RefreshEntry(p.file, mine, now).Some?
    case EnterRecover(binding, rejected) => p.holder.None? && RecoverEntry(p.file, binding, rejected).Some?
    case OpenClient(_) => p.file.access.Some?
    case Reuse(pid, now) =>
      && p.holder.None? && pid in p.clients && p.file.access.Some?
      && RecoverReuses(p.file, p.clients[pid].binding, p.clients[pid].token, now)
    case Take => p.holder.Some? && p.holder.value.Ready?
    case Send => p.holder.Some? && p.holder.value.Taken?
    case Conclude(reply) => p.holder.Some? && p.holder.value.Sent? && (reply.Some? ==> reply.value.refresh !in p.issued)
    case Crash => p.holder.Some?
  }

  /** Whether a concluding process stores its reply. */
  predicate Stores(p: Processes, reply: AuthSession)
    requires p.holder.Some?
  {
    ReplyMatches(p.holder.value.claim, reply) && Applicable(p.file, p.holder.value.claim)
  }

  function Apply(p: Processes, a: Action): Processes
    requires Enabled(p, a)
  {
    match a
    case LogIn(auth, generation, backend) =>
      p.(file := LoggedIn(auth, generation, backend), epoch := p.epoch + 1, origin := p.epoch + 1,
         used := p.used + {generation}, issued := p.issued + {auth.refresh})
    case LogOut => p.(file := LoggedOut(p.file), epoch := p.epoch + 1)
    case NameGeneration(generation) =>
      p.(file := p.file.(generation := Some(generation)), used := p.used + {generation})
    case SetIdentity(expected, identity) =>
      if p.file.generation == expected.generation && p.file.access == expected.access
        && p.file.backend == expected.backend
      then p.(file := p.file.(identity := Some(identity))) else p
    case EnterRefresh(mine, now) => p.(holder := Some(Ready(RefreshEntry(p.file, mine, now).value)))
    case EnterRecover(binding, rejected) => p.(holder := Some(Ready(RecoverEntry(p.file, binding, rejected).value)))
    case OpenClient(pid) =>
      p.(clients := p.clients[pid := Client(BindingOf(p.file), p.file.access.value, p.epoch, p.origin)])
    case Reuse(pid, _) => p.(clients := p.clients[pid := p.clients[pid].(token := p.file.access.value)])
    case Take =>
      var c := p.holder.value.claim;
      if Claimable(p.file, c) then p.(file := Consumed(p.file), holder := Some(Taken(c, p.epoch, p.origin)))
      else p.(holder := None)
    case Send =>
      var h := p.holder.value;
      p.(holder := Some(Sent(h.claim, h.since, h.origin)), sent := p.sent + [h.claim.token])
    case Conclude(reply) =>
      if reply.None? then p.(holder := None)
      else
        var stores := Stores(p, reply.value);
        p.(file := if stores then Applied(p.file, p.holder.value.claim, reply.value) else p.file,
           origin := if stores then p.holder.value.origin else p.origin,
           holder := None, issued := p.issued + {reply.value.refresh})
    case Crash => p.(holder := None)
  }

  /** Any initial file, however old. */
  function Start(file: Login): Processes {
    Processes(file, None, map[], 0, 0, if file.generation.Some? then {file.generation.value} else {}, [],
              if file.refresh.Some? then {file.refresh.value} else {})
  }

  /** The state after a run of actions, or `None` if some action was not possible. */
  function After(actions: seq<Action>, file: Login): Option<Processes> {
    if actions == [] then Some(Start(file))
    else
      var before := After(actions[..|actions| - 1], file);
      var last := actions[|actions| - 1];
      if before.Some? && Enabled(before.value, last) then Some(Apply(before.value, last)) else None
  }

  predicate Reachable(p: Processes, actions: seq<Action>, file: Login) {
    After(actions, file) == Some(p)
  }

  // -------------------------------------------------------------- invariant

  predicate TokensOk(p: Processes) {
    && NoRepeats(p.sent)
    && (forall t | t in p.sent :: t in p.issued)
    && (p.file.refresh.Some? ==> p.file.refresh.value in p.issued && p.file.refresh.value !in p.sent)
    && (p.holder.Some? && p.holder.value.Taken? ==>
          && p.holder.value.claim.token in p.issued
          && p.holder.value.claim.token !in p.sent
          && p.file.refresh != Some(p.holder.value.claim.token))
  }

  predicate GenerationsOk(p: Processes) {
    && (p.file.generation.Some? ==> p.file.generation.value in p.used)
    && (p.holder.Some? ==>
          && (p.holder.value.claim.binding.generation.Some? ==> p.holder.value.claim.binding.generation.value in p.used)
          && (p.holder.value.claim.kind.Recover? ==> p.holder.value.claim.binding.identity.Some?))
  }

  /** A taken claim from an earlier epoch can match the file only through two missing values. */
  predicate EpochsOk(p: Processes) {
    p.holder.Some? && !p.holder.value.Ready? ==>
      var binding, since := p.holder.value.claim.binding, p.holder.value.since;
      && since <= p.epoch
      && (since < p.epoch ==>
            && (binding.generation.Some? ==> p.file.generation != binding.generation)
            && (p.file.generation.None? ==> p.file.identity.None? && p.file.access.None?))
  }

  /** A generation is drawn for one sign-in: what carries the file's generation carries its origin. */
  predicate ClientOk(p: Processes, c: Client) {
    && c.since <= p.epoch
    && (c.binding.generation.Some? ==>
          && c.binding.generation.value in p.used
          && (p.file.generation == c.binding.generation ==> c.since == p.epoch && c.origin == p.origin))
  }

  predicate OriginOk(p: Processes) {
    && (p.holder.Some? && !p.holder.value.Ready? && p.file.generation.Some? ==>
          (p.holder.value.claim.binding.generation == p.file.generation ==> p.holder.value.origin == p.origin))
    && (forall pid | pid in p.clients :: ClientOk(p, p.clients[pid]))
  }

  predicate Invariant(p: Processes) {
    TokensOk(p) && GenerationsOk(p) && EpochsOk(p) && OriginOk(p)
  }

  lemma StepKeepsTokens(p: Processes, a: Action)
    requires Invariant(p) && Enabled(p, a)
    ensures TokensOk(Apply(p, a))
  {
  }

  lemma StepKeepsEpochs(p: Processes, a: Action)
    requires Invariant(p) && Enabled(p, a)
    ensures GenerationsOk(Apply(p, a)) && EpochsOk(Apply(p, a))
  {
  }

  lemma StepKeepsOrigin(p: Processes, a: Action)
    requires Invariant(p) && Enabled(p, a)
    ensures OriginOk(Apply(p, a))
  {
    var p' := Apply(p, a);
    forall pid | pid in p'.clients ensures ClientOk(p', p'.clients[pid]) {
      if pid in p.clients { assert ClientOk(p, p.clients[pid]); }
    }
  }

  lemma {:induction false} ReachableKeeps(p: Processes, actions: seq<Action>, file: Login)
    requires Reachable(p, actions, file)
    ensures Invariant(p)
    decreases |actions|
  {
    if actions != [] {
      var before := After(actions[..|actions| - 1], file).value;
      ReachableKeeps(before, actions[..|actions| - 1], file);
      StepKeepsTokens(before, actions[|actions| - 1]);
      StepKeepsEpochs(before, actions[|actions| - 1]);
      StepKeepsOrigin(before, actions[|actions| - 1]);
    }
  }

  // ------------------------------------------------------------ main results

  /** Over every run from every initial file, each stored refresh token is sent at most once, and a
      token still in the file was never sent. */
  lemma EachTokenIsSentOnce(p: Processes, actions: seq<Action>, file: Login)
    requires Reachable(p, actions, file)
    ensures NoRepeats(p.sent)
    ensures p.file.refresh.Some? ==> p.file.refresh.value !in p.sent
  {
    ReachableKeeps(p, actions, file);
  }

  /** A reply is stored only onto the sign-in its token came from, with no login or logout in
      between, whenever the claim carried a generation or an identity. Recovery always does. */
  lemma ReplyJoinsItsOwnSignIn(p: Processes, actions: seq<Action>, file: Login, reply: AuthSession)
    requires Reachable(p, actions, file) && Enabled(p, Conclude(Some(reply))) && Stores(p, reply)
    requires p.holder.value.claim.kind.Recover?
          || p.holder.value.claim.binding.generation.Some? || p.holder.value.claim.binding.identity.Some?
    ensures p.holder.value.since == p.epoch
    ensures BindingOf(p.file) == p.holder.value.claim.binding && p.file.refresh.None?
  {
    ReachableKeeps(p, actions, file);
  }

  /** The steps that undo a logout: claim, log out while the request is in flight, conclude. */
  function LogoutRace(mine: Login, reply: AuthSession): seq<Action> {
    [EnterRefresh(mine, 0), Take, Send, LogOut, Conclude(Some(reply))]
  }

  /** With neither generation nor identity the promise fails: the reply is stored after a logout,
      signing the user back in. A saved login from before both fields existed is such a file. */
  lemma LegacyLogoutIsUndone(backend: Backend, access: Token, refresh: Token, reply: AuthSession)
    requires reply.refresh != refresh
    ensures var file := Login(backend, Some(access), Some(refresh), None, None, None);
            var end := After(LogoutRace(file, reply), file);
            end.Some? && end.value.epoch == 1 && end.value.file.access == Some(reply.access)
  {
    var file := Login(backend, Some(access), Some(refresh), None, None, None);
    var race := LogoutRace(file, reply);
    var s0 := Start(file);
    var s1 := Apply(s0, race[0]);
    var s2 := Apply(s1, race[1]);
    var s3 := Apply(s2, race[2]);
    var s4 := Apply(s3, race[3]);
    assert After(race[..0], file) == Some(s0);
    assert race[..1][..0] == race[..0] && After(race[..1], file) == Some(s1);
    assert race[..2][..1] == race[..1] && After(race[..2], file) == Some(s2);
    assert race[..3][..2] == race[..2] && After(race[..3], file) == Some(s3);
    assert race[..4][..3] == race[..3] && After(race[..4], file) == Some(s4);
    assert race[..4] == race[..|race| - 1];
  }

  /** Exactly when a logout between the claim and the reply is undone, for a saved login without
      other sign-ins in between: the claim carried neither a generation nor an identity. */
  lemma LogoutIsRespectedExactlyWhenBound(file: Login, c: Claim, reply: AuthSession)
    requires Claimable(file, c) && ReplyMatches(c, reply)
    ensures Applicable(LoggedOut(Consumed(file)), c) <==> c.binding.generation.None? && c.binding.identity.None?
  {
  }

  /** Over every run, a command whose token is rejected goes on only with a different token of the very
      same sign-in: no login or logout came between its read of the file and the reuse, and both tokens
      come from one login, through whatever refreshes. */
  lemma ReuseStaysInItsSignIn(p: Processes, actions: seq<Action>, file: Login, pid: nat, now: Time)
    requires Reachable(p, actions, file) && Enabled(p, Reuse(pid, now))
    ensures var c := p.clients[pid];
            && c.since == p.epoch && c.origin == p.origin
            && Apply(p, Reuse(pid, now)).clients[pid].token != c.token
  {
    ReachableKeeps(p, actions, file);
    assert ClientOk(p, p.clients[pid]);
  }

  // ------------------------------------------------- what a sign-in is good for

  /** The saved sign-in is this one: every credential is where the next command looks for it. It is due for
      renewal exactly from a minute before its expiry on, the next renewal by a command that saw it sends its
      refresh token, and a
      rejected access token is recovered with that token, or with its own access token if another was rejected. */
  ghost predicate SignedInWith(file: Login, auth: AuthSession, now: Time) {
    var binding := BindingOf(file);
    && file.access == Some(auth.access) && file.identity == Some(Account(auth.account))
    && (NeedsRefresh(file, now) <==> auth.expiresAt - 60_000 <= now)
    && (forall mine: Login ::
          RefreshEntry(file, mine, now) ==
            if BindingOf(mine) == binding && auth.expiresAt - 60_000 <= now
            then Some(Claim(Refresh, binding, auth.refresh)) else None)
    && RecoverEntry(file, binding, auth.access) == Some(Claim(Recover, binding, auth.refresh))
    && (forall rejected: Token | rejected != auth.access ::
          && RecoverEntry(file, binding, rejected).None?
          && (RecoverReuses(file, binding, rejected, now) <==>
                binding.generation.Some? && now < auth.expiresAt - 60_000))
  }

  /** A stored reply is the new sign-in in full, for the same account, backend and generation: only an identity
      from before accounts had ids is replaced. */
  lemma StoredReplyIsTheSignIn(file: Login, c: Claim, reply: AuthSession, now: Time)
    requires Applicable(file, c) && ReplyMatches(c, reply)
    ensures var after := Applied(file, c, reply);
            && SignedInWith(after, reply, now)
            && after.backend == file.backend && after.generation == file.generation
            && (file.identity.Some? && file.identity.value.Account? ==> after.identity == file.identity)
  {
  }

  /** So is a login, under its own generation and backend. */
  lemma LoginIsTheSignIn(auth: AuthSession, generation: Generation, backend: Backend, now: Time)
    ensures SignedInWith(LoggedIn(auth, generation, backend), auth, now)
    ensures LoggedIn(auth, generation, backend).backend == backend
    ensures LoggedIn(auth, generation, backend).generation == Some(generation)
  {
  }

  /** Exactly which replies are refused: one that names another account than the sign-in's account id, and for
      recovery also any reply to a sign-in without an account id. */
  lemma ReplyIsRefusedExactly(file: Login, c: Claim, reply: AuthSession)
    requires Claimable(file, c)
    ensures ReplyMatches(c, reply) <==>
              if file.identity.Some? && file.identity.value.Account? then file.identity.value.id == reply.account
              else c.kind.Refresh?
  {
  }

  /** A consumed token and a logged-out file offer nothing to send: after a crash in mid-refresh the user has to
      sign in again, and the spent token is not tried. */
  lemma NothingLeftToSend(file: Login, mine: Login, binding: Binding, rejected: Token, now: Time)
    ensures RefreshEntry(Consumed(file), mine, now).None? && RecoverEntry(Consumed(file), binding, rejected).None?
    ensures Consumed(file).(refresh := file.refresh) == file
    ensures RefreshEntry(LoggedOut(file), mine, now).None? && RecoverEntry(LoggedOut(file), binding, rejected).None?
    ensures !NeedsRefresh(LoggedOut(file), now) && LoggedOut(file).access.None? && LoggedOut(file).expiresAt.None?
    ensures BindingOf(LoggedOut(file)) == Binding(file.backend, None, None)
  {
  }

  /** A sign-in from before accounts had ids is renewed whenever a command finds it, whatever its expiry. */
  lemma OldSignInsAreRenewed(file: Login, mine: Login, now: Time)
    requires file.refresh.Some? && BindingOf(mine) == BindingOf(file)
    requires file.identity.None? || file.identity.value.Handle? || file.access.None? || file.expiresAt.None?
    ensures RefreshEntry(file, mine, now) == Some(Claim(Refresh, BindingOf(file), file.refresh.value))
  {
  }

  /** A login from before generations and identities is out of reach of `LegacyLogoutIsUndone` once its generation is
      named: no reply to a claim made after that is stored over a logout. */
  lemma NamedSignInIsBound(p: Processes, generation: Generation, c: Claim)
    requires Enabled(p, NameGeneration(generation))
    ensures var file := Apply(p, NameGeneration(generation)).file;
            && file.(generation := None) == p.file && file.generation == Some(generation)
            && (Claimable(file, c) ==> !Applicable(LoggedOut(Consumed(file)), c))
  {
  }

  /** `setup` names the account of exactly the sign-in whose access token it validated: after another login, which has
      its own generation, it changes nothing. */
  lemma SetupNamesItsOwnSignIn(p: Processes, expected: Login, identity: Identity, auth: AuthSession,
                               generation: Generation, backend: Backend)
    requires Enabled(p, SetIdentity(expected, identity))
    ensures p.file == expected ==> Apply(p, SetIdentity(expected, identity)).file == p.file.(identity := Some(identity))
    ensures Enabled(p, LogIn(auth, generation, backend)) && expected.generation != Some(generation) ==>
              var after := Apply(p, LogIn(auth, generation, backend));
              Apply(after, SetIdentity(expected, identity)) == after
    ensures Apply(Apply(p, LogOut), SetIdentity(expected, identity)) == Apply(p, LogOut)
    ensures p.file.backend != expected.backend ==> Apply(p, SetIdentity(expected, identity)) == p
  {
  }

  /** Over any run: once a reply is stored, the next refresh, with nothing in between, sends exactly that reply's
      token, and its own reply becomes the sign-in in turn. */
  lemma NextRefreshSendsTheReply(p: Processes, actions: seq<Action>, file: Login, reply: AuthSession, mine: Login,
                                 now: Time, next: AuthSession)
    requires Reachable(p, actions, file) && Enabled(p, Conclude(Some(reply))) && Stores(p, reply)
    requires BindingOf(mine) == BindingOf(Apply(p, Conclude(Some(reply))).file)
    requires reply.expiresAt - 60_000 <= now && next.refresh !in p.issued && next.refresh != reply.refresh
    requires next.account == reply.account
    ensures var p1 := Apply(p, Conclude(Some(reply)));
            && Enabled(p1, EnterRefresh(mine, now))
            && var p2 := Apply(p1, EnterRefresh(mine, now));
            && Enabled(p2, Take) && Enabled(Apply(p2, Take), Send)
            && var p3 := Apply(Apply(p2, Take), Send);
            && p3.sent == p.sent + [reply.refresh] && p3.file.refresh.None? && p3.file.access == Some(reply.access)
            && Enabled(p3, Conclude(Some(next)))
            && SignedInWith(Apply(p3, Conclude(Some(next))).file, next, now)
  {
    ReachableKeeps(p, actions, file);
    var p1 := Apply(p, Conclude(Some(reply)));
    StoredReplyIsTheSignIn(p.file, p.holder.value.claim, reply, now);
    var p2 := Apply(p1, EnterRefresh(mine, now));
    var p3 := Apply(Apply(p2, Take), Send);
    StoredReplyIsTheSignIn(p3.file, p3.holder.value.claim, next, now);
  }
}
