/** Login sessions, the audit log and the session history. */
module Sessions {
  import opened Schema

  /** Seconds a session lives from the clock reading of its login. */
  const TTL: int := 15 * 60

  datatype Role = Admin | Customer

  datatype User = User(email: string, password: string, role: Role, registeredIp: Option<string>)

  /** The stored digest of a token, an injective function of it; a logout without a session stores a blank. */
  datatype TokenDigest = Sha256(token: nat) | Blank

  datatype Session = Session(digest: TokenDigest, expiresAt: int, ip: Option<string>)

  datatype AuditAction = AuditLogin | AuditLogout | AuditLoginFailed

  datatype AuditEntry = AuditEntry(user: UserId, action: AuditAction, ip: Option<string>)

  datatype SessionEvent = LoggedIn | LoggedOut | Expired

  datatype HistoryEntry = HistoryEntry(
    user: UserId, event: SessionEvent, digest: TokenDigest, ip: Option<string>, at: int)

  /** One session row per user: the user is the table's unique key. */
  datatype Tables = Tables(sessions: map<UserId, Session>, audit: seq<AuditEntry>, history: seq<HistoryEntry>)

  const EMPTY_TABLES := Tables(map[], [], [])

  // ----- The blocks -----

  function LoginBlock(t: Tables, user: UserId, ip: Option<string>, token: nat, readAt: int, at: int): Tables {
    Tables(t.sessions[user := Session(Sha256(token), readAt + TTL, ip)],
           t.audit + [AuditEntry(user, AuditLogin, ip)],
           t.history + [HistoryEntry(user, LoggedIn, Sha256(token), ip, at)])
  }

  function BlockedBlock(t: Tables, user: UserId, ip: Option<string>): Tables {
    t.(audit := t.audit + [AuditEntry(user, AuditLoginFailed, ip)])
  }

  function DigestOf(t: Tables, user: UserId): TokenDigest {
    if user in t.sessions then t.sessions[user].digest else Blank
  }

  function LogoutBlock(t: Tables, user: UserId, ip: Option<string>, at: int): Tables {
    Tables(t.sessions - {user},
           t.audit + [AuditEntry(user, AuditLogout, ip)],
           t.history + [HistoryEntry(user, LoggedOut, DigestOf(t, user), ip, at)])
  }

  function CleanupBlock(t: Tables, user: UserId, at: int): Tables {
    Tables(t.sessions - {user}, t.audit, t.history + [HistoryEntry(user, Expired, DigestOf(t, user), None, at)])
  }

  /** The registered address, when there is one and it is not empty, is enforced. */
  predicate IpBlocked(user: User, ip: Option<string>) {
    user.registeredIp.Some? && user.registeredIp.value != "" && ip != user.registeredIp
  }

  predicate Authentic(user: User, email: string, password: string, role: Role) {
    user.email == email && user.password == password && user.role == role
  }

  /** The bearer's token is accepted for the user at the given moment. */
  predicate AcceptedFor(t: Tables, token: nat, now: int, user: UserId) {
    user in t.sessions && t.sessions[user].digest == Sha256(token) && now <= t.sessions[user].expiresAt
  }

  predicate Accepts(t: Tables, token: nat, now: int) {
    exists u :: u in t.sessions && AcceptedFor(t, token, now, u)
  }

  // ----- The service -----

  datatype LoginResult = LoggedInAs(user: UserId, session: Session) | BadCredentials | IpRejected | SessionLost

  datatype Access = Granted(user: UserId) | NoSession | SessionExpired(user: UserId)

  class AuthService {
    var users: map<UserId, User>
    var sessions: map<UserId, Session>
    var audit: seq<AuditEntry>
    var history: seq<HistoryEntry>

    function State(): Tables
      reads this
    {
      Tables(sessions, audit, history)
    }

    constructor (users: map<UserId, User>)
      ensures this.users == users && State() == EMPTY_TABLES
    {
      this.users := users;
      sessions, audit, history := map[], [], [];
    }

    method CreateAudit(user: UserId, action: AuditAction, ip: Option<string>)
      modifies this`audit
      ensures audit == old(audit) + [AuditEntry(user, action, ip)]
    {
      audit := audit + [AuditEntry(user, action, ip)];
    }

    method CreateHistory(user: UserId, event: SessionEvent, digest: TokenDigest, ip: Option<string>, at: int)
      modifies this`history
      ensures history == old(history) + [HistoryEntry(user, event, digest, ip, at)]
    {
      history := history + [HistoryEntry(user, event, digest, ip, at)];
    }

    /** Insert the user's session, or replace the one there is. */
    method Upsert(user: UserId, digest: TokenDigest, expiresAt: int, ip: Option<string>)
      modifies this`sessions
      ensures sessions == old(sessions)[user := Session(digest, expiresAt, ip)]
    {
      if user in sessions {
        sessions := sessions[user := sessions[user].(digest := digest, expiresAt := expiresAt, ip := ip)];
      } else {
        sessions := sessions[user := Session(digest, expiresAt, ip)];
      }
    }

    method GetByUserId(user: UserId) returns (session: Option<Session>)
      ensures session == if user in sessions then Some(sessions[user]) else None
    {
      session := if user in sessions then Some(sessions[user]) else None;
    }

    method GetByTokenHash(digest: TokenDigest) returns (user: Option<UserId>)
      ensures user.Some? ==> user.value in sessions && sessions[user.value].digest == digest
      ensures user.None? ==> forall u :: u in sessions ==> sessions[u].digest != digest
    {
      if u :| u in sessions && sessions[u].digest == digest {
        return Some(u);
      }
      return None;
    }

    method Delete(user: UserId)
      modifies this`sessions
      ensures sessions == old(sessions) - {user}
    {
      var session := GetByUserId(user);
      if session.Some? {
        sessions := sessions - {user};
      }
    }

    /** The user with the e-mail address, if the password and the role are right. */
    method Authenticate(email: string, password: string, role: Role) returns (user: Option<UserId>)
      requires forall u, v :: u in users && v in users && users[u].email == users[v].email ==> u == v
      ensures user.Some? ==> user.value in users && Authentic(users[user.value], email, password, role)
      ensures user.None? ==> forall u :: u in users ==> !Authentic(users[u], email, password, role)
    {
      if u :| u in users && users[u].email == email {
        return if users[u].password == password && users[u].role == role then Some(u) else None;
      }
      return None;
    }

    /** A login: the credentials and the address are judged in one block, the session is made in another. */
    method Login(email: string, password: string, role: Role, ip: Option<string>, token: nat, readAt: int, at: int)
      returns (r: LoginResult)
      requires forall u, v :: u in users && v in users && users[u].email == users[v].email ==> u == v
      modifies this`sessions, this`audit, this`history
      ensures r.BadCredentials? <==>
                forall u :: u in users ==>
                  users[u].email != email || users[u].password != password || users[u].role != role
      ensures r.BadCredentials? ==> State() == old(State())
      ensures forall u :: u in users && users[u].email == email && users[u].password == password &&
                          users[u].role == role ==>
                var registered := users[u].registeredIp;
                && (r.LoggedInAs? <==> registered.None? || registered == Some("") || ip == registered)
                && (r.LoggedInAs? ==>
                      && r == LoggedInAs(u, Session(Sha256(token), readAt + 900, ip))
                      && sessions == old(sessions)[u := Session(Sha256(token), readAt + 900, ip)]
                      && audit == old(audit) + [AuditEntry(u, AuditLogin, ip)]
                      && history == old(history) + [HistoryEntry(u, LoggedIn, Sha256(token), ip, at)]
                      && State() == LoginBlock(old(State()), u, ip, token, readAt, at))
                && (!r.LoggedInAs? ==>
                      && r.IpRejected? && sessions == old(sessions) && history == old(history)
                      && audit == old(audit) + [AuditEntry(u, AuditLoginFailed, ip)]
                      && State() == BlockedBlock(old(State()), u, ip))
    {
      var user := Authenticate(email, password, role);
      if user.None? {
        return BadCredentials;
      }
      var id := user.value;
      if IpBlocked(users[id], ip) {
        CreateAudit(id, AuditLoginFailed, ip);
        assert Authentic(users[id], email, password, role);
        return IpRejected;
      }
      var digest := Sha256(token);
      CreateAudit(id, AuditLogin, ip);
      Upsert(id, digest, readAt + TTL, ip);
      CreateHistory(id, LoggedIn, digest, ip, at);
      var session := GetByUserId(id);
      assert Authentic(users[id], email, password, role);
      if session.None? {
        return SessionLost;
      }
      return LoggedInAs(id, session.value);
    }

    method Logout(user: UserId, ip: Option<string>, at: int)
      modifies this`sessions, this`audit, this`history
      ensures State() == LogoutBlock(old(State()), user, ip, at)
    {
      var session := GetByUserId(user);
      var digest := if session.Some? then session.value.digest else Blank;
      CreateAudit(user, AuditLogout, ip);
      Delete(user);
      CreateHistory(user, LoggedOut, digest, ip, at);
    }

    /** The background deletion of an expired session. */
    method CleanupExpiredSession(user: UserId, at: int)
      modifies this`sessions, this`history
      ensures State() == CleanupBlock(old(State()), user, at)
    {
      var session := GetByUserId(user);
      var digest := if session.Some? then session.value.digest else Blank;
      Delete(user);
      CreateHistory(user, Expired, digest, None, at);
    }

    /** The check made for every request: the token's session exists and has not expired. */
    method GetCurrentUser(token: nat, now: int) returns (r: Access)
      requires UniqueDigests(sessions)
      ensures forall u :: r == Granted(u) <==>
                u in sessions && sessions[u].digest == Sha256(token) && now <= sessions[u].expiresAt
      ensures r.NoSession? <==> forall u :: u in sessions ==> sessions[u].digest != Sha256(token)
      ensures r.SessionExpired? ==> r.user in sessions && sessions[r.user].expiresAt < now
    {
      var user := GetByTokenHash(Sha256(token));
      if user.None? {
        return NoSession;
      }
      if sessions[user.value].expiresAt < now {
        return SessionExpired(user.value);
      }
      return Granted(user.value);
    }
  }

  ghost predicate UniqueDigests(sessions: map<UserId, Session>) {
    forall u, v :: u in sessions && v in sessions && sessions[u].digest == sessions[v].digest ==> u == v
  }

  // ----- Runs -----

  datatype Act =
    | LoginFails(user: UserId, ip: Option<string>)
    | Login(user: UserId, ip: Option<string>, token: nat, readAt: int)
    | Logout(user: UserId, ip: Option<string>)
    | Cleanup(user: UserId)
    | Check(token: nat)

  datatype Event = Event(at: int, act: Act)

  datatype State = State(tables: Tables, issued: set<nat>, clock: int)

  const INIT := State(EMPTY_TABLES, {}, 0)

  /** The clock never goes back, and a login's token was never issued before. */
  predicate Enabled(s: State, e: Event) {
    s.clock <= e.at && (e.act.Login? ==> e.act.token !in s.issued && e.act.readAt <= e.at)
  }

  function Next(s: State, e: Event): State {
    match e.act
    case LoginFails(u, ip) => State(BlockedBlock(s.tables, u, ip), s.issued, e.at)
    case Login(u, ip, token, readAt) =>
      State(LoginBlock(s.tables, u, ip, token, readAt, e.at), s.issued + {token}, e.at)
    case Logout(u, ip) => State(LogoutBlock(s.tables, u, ip, e.at), s.issued, e.at)
    case Cleanup(u) => State(CleanupBlock(s.tables, u, e.at), s.issued, e.at)
    case Check(_) => s.(clock := e.at)
  }

  function After(events: seq<Event>): State {
    if events == [] then INIT else Next(After(events[..|events| - 1]), events[|events| - 1])
  }

  predicate IsRun(events: seq<Event>) {
    events == [] || (IsRun(events[..|events| - 1]) && Enabled(After(events[..|events| - 1]), events[|events| - 1]))
  }

  // ----- The session table equals the history -----

  /** The user's last entry in the history. */
  function LastOf(history: seq<HistoryEntry>, user: UserId): Option<HistoryEntry> {
    if history == [] then None
    else if history[|history| - 1].user == user then Some(history[|history| - 1])
    else LastOf(history[..|history| - 1], user)
  }

  lemma LastOfAppend(history: seq<HistoryEntry>, e: HistoryEntry, user: UserId)
    ensures LastOf(history + [e], user) == if e.user == user then Some(e) else LastOf(history, user)
  {
    assert (history + [e])[..|history|] == history;
  }

  /** The user's session is the one of their last login, and lives at most the TTL from it. */
  predicate Mirrors(t: Tables, user: UserId) {
    var last := LastOf(t.history, user);
    if user in t.sessions
    then last.Some? && last.value.event.LoggedIn? && t.sessions[user].digest == last.value.digest
         && t.sessions[user].expiresAt <= last.value.at + TTL
    else last.None? || !last.value.event.LoggedIn?
  }

  ghost predicate DigestsOk(s: State) {
    && (forall u :: u in s.tables.sessions ==>
          s.tables.sessions[u].digest.Sha256? && s.tables.sessions[u].digest.token in s.issued)
    && UniqueDigests(s.tables.sessions)
  }

  ghost predicate TableInv(s: State) {
    (forall u :: Mirrors(s.tables, u)) && DigestsOk(s)
  }

  lemma StepMirrors(s: State, e: Event, user: UserId)
    requires Mirrors(s.tables, user) && Enabled(s, e)
    ensures Mirrors(Next(s, e).tables, user)
  {
    hide LastOf;
    var t := s.tables;
    match e.act
    case Login(u, ip, token, _) =>
      LastOfAppend(t.history, HistoryEntry(u, LoggedIn, Sha256(token), ip, e.at), user);
    case Logout(u, ip) => LastOfAppend(t.history, HistoryEntry(u, LoggedOut, DigestOf(t, u), ip, e.at), user);
    case Cleanup(u) => LastOfAppend(t.history, HistoryEntry(u, Expired, DigestOf(t, u), None, e.at), user);
    case LoginFails(_, _) =>
    case Check(_) =>
  }

  lemma StepKeepsDigests(s: State, e: Event)
    requires DigestsOk(s) && Enabled(s, e)
    ensures DigestsOk(Next(s, e))
  {
  }

  lemma StepKeepsTable(s: State, e: Event)
    requires TableInv(s) && Enabled(s, e)
    ensures TableInv(Next(s, e))
  {
    hide Mirrors, Next, Enabled;
    StepKeepsDigests(s, e);
    forall u ensures Mirrors(Next(s, e).tables, u) {
      StepMirrors(s, e, u);
    }
  }

  lemma {:induction false} RunKeepsTable(events: seq<Event>)
    requires IsRun(events)
    ensures TableInv(After(events))
  {
    if events != [] {
      RunKeepsTable(events[..|events| - 1]);
      StepKeepsTable(After(events[..|events| - 1]), events[|events| - 1]);
    }
  }

  /**
   The session table equals the history: a session with a digest exists for a user exactly when the
   user's last history event is a login with that digest.
   */
  lemma {:induction false} SessionsEqualHistory(events: seq<Event>, user: UserId, digest: TokenDigest)
    requires IsRun(events)
    ensures var t := After(events).tables;
            (user in t.sessions && t.sessions[user].digest == digest) <==>
            var last := LastOf(t.history, user);
            last.Some? && last.value.event.LoggedIn? && last.value.digest == digest
  {
    RunKeepsTable(events);
    assert Mirrors(After(events).tables, user);
  }

  // ----- The audit log matches the history -----

  datatype Trace = Trace(user: UserId, login: bool, ip: Option<string>)

  function AuditTrace(audit: seq<AuditEntry>): seq<Trace> {
    if audit == [] then []
    else
      var init, e := audit[..|audit| - 1], audit[|audit| - 1];
      AuditTrace(init) + if e.action.AuditLoginFailed? then [] else [Trace(e.user, e.action.AuditLogin?, e.ip)]
  }

  function HistoryTrace(history: seq<HistoryEntry>): seq<Trace> {
    if history == [] then []
    else
      var init, e := history[..|history| - 1], history[|history| - 1];
      HistoryTrace(init) + if e.event.Expired? then [] else [Trace(e.user, e.event.LoggedIn?, e.ip)]
  }

  lemma AuditTraceAppend(audit: seq<AuditEntry>, e: AuditEntry)
    ensures AuditTrace(audit + [e]) ==
            AuditTrace(audit) + if e.action.AuditLoginFailed? then [] else [Trace(e.user, e.action.AuditLogin?, e.ip)]
  {
    assert (audit + [e])[..|audit|] == audit;
  }

  lemma HistoryTraceAppend(history: seq<HistoryEntry>, e: HistoryEntry)
    ensures HistoryTrace(history + [e]) ==
            HistoryTrace(history) + if e.event.Expired? then [] else [Trace(e.user, e.event.LoggedIn?, e.ip)]
  {
    assert (history + [e])[..|history|] == history;
  }

  /** The logins and logouts of the audit log are those of the history, one for one and in order. */
  lemma {:induction false} AuditMatchesHistory(events: seq<Event>)
    requires IsRun(events)
    ensures AuditTrace(After(events).tables.audit) == HistoryTrace(After(events).tables.history)
  {
    if events != [] {
      AuditMatchesHistory(events[..|events| - 1]);
      var t, e := After(events[..|events| - 1]).tables, events[|events| - 1];
      match e.act
      case LoginFails(u, ip) => AuditTraceAppend(t.audit, AuditEntry(u, AuditLoginFailed, ip));
      case Login(u, ip, token, _) =>
        AuditTraceAppend(t.audit, AuditEntry(u, AuditLogin, ip));
        HistoryTraceAppend(t.history, HistoryEntry(u, LoggedIn, Sha256(token), ip, e.at));
      case Logout(u, ip) =>
        AuditTraceAppend(t.audit, AuditEntry(u, AuditLogout, ip));
        HistoryTraceAppend(t.history, HistoryEntry(u, LoggedOut, DigestOf(t, u), ip, e.at));
      case Cleanup(u) => HistoryTraceAppend(t.history, HistoryEntry(u, Expired, DigestOf(t, u), None, e.at));
      case Check(_) =>
    }
  }

  // ----- When a token is accepted -----

  /**
   An accepted token came from its user's latest login, no logout or expiry followed it, and at most
   fifteen minutes have passed since.
   */
  lemma {:induction false} AcceptedTokenIsCurrent(events: seq<Event>, token: nat, now: int, user: UserId)
    requires IsRun(events) && AcceptedFor(After(events).tables, token, now, user)
    ensures var last := LastOf(After(events).tables.history, user);
            last.Some? && last.value.event.LoggedIn? && last.value.digest == Sha256(token) && now <= last.value.at + 900
  {
    RunKeepsTable(events);
    assert Mirrors(After(events).tables, user);
  }

  /** The event ends or replaces the user's session. */
  predicate Touches(e: Event, user: UserId) {
    match e.act
    case Login(u, _, _, _) => u == user
    case Logout(u, _) => u == user
    case Cleanup(u) => u == user
    case _ => false
  }

  /**
   A login's token is accepted for exactly fifteen minutes from its clock reading, as long as its user
   neither logs in again nor out and no clean-up removes the session.
   */
  lemma {:induction false} TokenLives(events: seq<Event>, i: nat, now: int)
    requires IsRun(events) && i < |events| && events[i].act.Login?
    requires forall k :: i < k < |events| ==> !Touches(events[k], events[i].act.user)
    ensures var t, login := After(events).tables, events[i].act;
            && login.user in t.sessions && t.sessions[login.user].digest == Sha256(login.token)
            && (AcceptedFor(t, login.token, now, login.user) <==> now <= login.readAt + 900)
  {
    var init := events[..|events| - 1];
    if i < |init| {
      assert init[i] == events[i];
      assert forall k :: i < k < |init| ==> init[k] == events[k];
      TokenLives(init, i, now);
      assert !Touches(events[|init|], events[i].act.user);
    }
  }

  lemma RefusalIsStable(s: State, e: Event, token: nat, now: int)
    requires Enabled(s, e) && token in s.issued && !Accepts(s.tables, token, now)
    ensures token in Next(s, e).issued && !Accepts(Next(s, e).tables, token, now)
  {
    var t, t' := s.tables, Next(s, e).tables;
    if u :| u in t'.sessions && AcceptedFor(t', token, now, u) {
      assert AcceptedFor(t, token, now, u);
    }
  }

  lemma {:induction false} StaysRefused(events: seq<Event>, i: nat, token: nat, now: int)
    requires IsRun(events) && i <= |events|
    requires token in After(events[..i]).issued && !Accepts(After(events[..i]).tables, token, now)
    ensures token in After(events).issued && !Accepts(After(events).tables, token, now)
  {
    if i < |events| {
      var init := events[..|events| - 1];
      assert init[..i] == events[..i];
      StaysRefused(init, i, token, now);
      RefusalIsStable(After(init), events[|events| - 1], token, now);
    } else {
      assert events[..i] == events;
    }
  }

  lemma {:induction false} ClockGrows(events: seq<Event>, i: nat)
    requires IsRun(events) && i < |events|
    ensures IsRun(events[..i]) && events[i].at <= After(events).clock
  {
    var init := events[..|events| - 1];
    if i < |events| - 1 {
      ClockGrows(init, i);
      assert init[..i] == events[..i];
    } else {
      assert events[..i] == init;
    }
  }

  /** A token once issued and then refused is never accepted again. */
  lemma {:induction false} OnceRefusedNeverAccepted(events: seq<Event>, i: nat, j: nat, token: nat)
    requires IsRun(events) && i < j < |events|
    requires events[i].act == Check(token) && events[j].act == Check(token)
    requires token in After(events[..i]).issued && !Accepts(After(events[..i]).tables, token, events[i].at)
    ensures !Accepts(After(events[..j]).tables, token, events[j].at)
  {
    ClockGrows(events, j);
    var upto := events[..j];
    assert upto[..i] == events[..i] && upto[i] == events[i];
    StaysRefused(upto, i, token, events[i].at);
    RunPrefix(events, j + 1);
    assert events[..j + 1][..j] == upto;
    ClockGrows(upto, i);
    var t := After(upto).tables;
    if u :| u in t.sessions && AcceptedFor(t, token, events[j].at, u) {
      assert AcceptedFor(t, token, events[i].at, u);
    }
  }

  lemma {:induction false} RunPrefix(events: seq<Event>, i: nat)
    requires IsRun(events) && i <= |events|
    ensures IsRun(events[..i])
  {
    if i < |events| {
      RunPrefix(events[..|events| - 1], i);
      assert events[..|events| - 1][..i] == events[..i];
    } else {
      assert events[..i] == events;
    }
  }
}
