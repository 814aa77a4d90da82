/**
 Sessions: the authentication service, and which refresh tokens it accepts read off the
 transcript of its calls alone.

 Times are whole seconds, as in the `iat` and `exp` claims.  Token hashing is injective
 and a password matches only its own hash.
 */
module Session {
  import opened Wrappers
  import opened Keys

  datatype RefreshToken = RefreshToken(sub: Id, iat: int, exp: int)

  /** What a caller may present: a token signed by this service, one without subject, or anything else. */
  datatype Presented = Signed(token: RefreshToken) | SignedWithoutSubject(exp: int) | NotSigned

  datatype Digest = Digest(token: RefreshToken)

  datatype PasswordHash = Bcrypt(password: string)

  datatype UserRow = UserRow(email: string, passwordHash: PasswordHash, refreshTokenHash: Option<Digest>)

  /** The `users` table with its unique index on the email address. */
  datatype Table = Table(rows: map<Id, UserRow>, emails: map<string, Id>)

  datatype Op =
    | Register(email: string, password: string, newId: Id, now: int)
    | Login(email: string, password: string, now: int)
    | Refresh(presented: Presented, now: int)
    | Logout(userId: Id)
    | ChangePassword(userId: Id, currentPassword: string, newPassword: string)

  datatype Reply = Ok | Tokens(userId: Id, refreshToken: RefreshToken) | Error(code: string)

  datatype Answer = Answer(table: Table, reply: Reply)

  const EMPTY := Table(map[], map[])

  ghost predicate TableOk(t: Table) {
    && (forall e | e in t.emails :: t.emails[e] in t.rows && t.rows[t.emails[e]].email == e)
    && (forall u | u in t.rows :: t.rows[u].email in t.emails && t.emails[t.rows[u].email] == u)
  }

  function Sign(userId: Id, now: int, ttl: nat): RefreshToken {
    RefreshToken(userId, now, now + ttl)
  }

  /** Section 4.1.4 of RFC 7519: not accepted on or after the expiration time. */
  predicate Verifies(p: Presented, now: int) {
    match p
    case Signed(t) => now < t.exp
    case SignedWithoutSubject(exp) => now < exp
    case NotSigned => false
  }

  function SetHash(t: Table, userId: Id, hash: Option<Digest>): Table {
    if userId in t.rows then t.(rows := t.rows[userId := t.rows[userId].(refreshTokenHash := hash)]) else t
  }

  function Issue(t: Table, userId: Id, now: int, ttl: nat): Answer {
    var token := Sign(userId, now, ttl);
    Answer(SetHash(t, userId, Some(Digest(token))), Tokens(userId, token))
  }

  function DoRegister(t: Table, email: string, password: string, newId: Id, now: int, ttl: nat): Answer {
    if email in t.emails then Answer(t, Error("EMAIL_TAKEN"))
    else
      Issue(Table(t.rows[newId := UserRow(email, Bcrypt(password), None)], t.emails[email := newId]), newId, now, ttl)
  }

  function DoLogin(t: Table, email: string, password: string, now: int, ttl: nat): Answer {
    if email !in t.emails || t.emails[email] !in t.rows then Answer(t, Error("INVALID_CREDENTIALS"))
    else if t.rows[t.emails[email]].passwordHash != Bcrypt(password) then Answer(t, Error("INVALID_CREDENTIALS"))
    else Issue(t, t.emails[email], now, ttl)
  }

  function DoRefresh(t: Table, p: Presented, now: int): Answer {
    if !Verifies(p, now) || !p.Signed? then Answer(t, Error("INVALID_REFRESH_TOKEN"))
    else
      var userId := p.token.sub;
      if userId !in t.rows || t.rows[userId].refreshTokenHash.None? then Answer(t, Error("INVALID_REFRESH_TOKEN"))
      else if t.rows[userId].refreshTokenHash.value != Digest(p.token) then
        Answer(SetHash(t, userId, None), Error("INVALID_REFRESH_TOKEN"))
      else Answer(t, Ok)
  }

  function DoChangePassword(t: Table, userId: Id, currentPassword: string, newPassword: string): Answer {
    if userId !in t.rows then Answer(t, Error("USER_NOT_FOUND"))
    else if t.rows[userId].passwordHash != Bcrypt(currentPassword) then Answer(t, Error("INVALID_CURRENT_PASSWORD"))
    else Answer(t.(rows := t.rows[userId := t.rows[userId].(passwordHash := Bcrypt(newPassword))]), Ok)
  }

  function Do(t: Table, op: Op, ttl: nat): Answer {
    match op
    case Register(email, password, newId, now) => DoRegister(t, email, password, newId, now, ttl)
    case Login(email, password, now) => DoLogin(t, email, password, now, ttl)
    case Refresh(p, now) => DoRefresh(t, p, now)
    case Logout(userId) => Answer(SetHash(t, userId, None), Ok)
    case ChangePassword(userId, old_, new_) => DoChangePassword(t, userId, old_, new_)
  }

  // ---- The service -----------------------------------------------------------

  class AuthService {
    var rows: map<Id, UserRow>
    var emails: map<string, Id>
    const refreshTtlSeconds: nat

    function View(): Table
      reads this
    {
      Table(rows, emails)
    }

    constructor (refreshTtlSeconds: nat)
      ensures View() == EMPTY && this.refreshTtlSeconds == refreshTtlSeconds
    {
      this.rows, this.emails, this.refreshTtlSeconds := map[], map[], refreshTtlSeconds;
    }

    method SetRefreshTokenHash(userId: Id, hash: Option<Digest>)
      modifies this
      ensures View() == SetHash(old(View()), userId, hash)
    {
      if userId in rows {
        rows := rows[userId := rows[userId].(refreshTokenHash := hash)];
      }
    }

    method Register(email: string, password: string, newId: Id, now: int) returns (reply: Reply)
      modifies this
      ensures Answer(View(), reply) == Do(old(View()), Op.Register(email, password, newId, now), refreshTtlSeconds)
    {
      if email in emails {
        return Error("EMAIL_TAKEN");
      }
      rows := rows[newId := UserRow(email, Bcrypt(password), None)];
      emails := emails[email := newId];
      var refreshToken := Sign(newId, now, refreshTtlSeconds);
      SetRefreshTokenHash(newId, Some(Digest(refreshToken)));
      reply := Tokens(newId, refreshToken);
    }

    method Login(email: string, password: string, now: int) returns (reply: Reply)
      modifies this
      ensures Answer(View(), reply) == Do(old(View()), Op.Login(email, password, now), refreshTtlSeconds)
    {
      if email !in emails || emails[email] !in rows {
        return Error("INVALID_CREDENTIALS");
      }
      var userId := emails[email];
      if rows[userId].passwordHash != Bcrypt(password) {
        return Error("INVALID_CREDENTIALS");
      }
      var refreshToken := Sign(userId, now, refreshTtlSeconds);
      SetRefreshTokenHash(userId, Some(Digest(refreshToken)));
      reply := Tokens(userId, refreshToken);
    }

    method Refresh(presented: Presented, now: int) returns (reply: Reply)
      modifies this
      ensures Answer(View(), reply) == Do(old(View()), Op.Refresh(presented, now), refreshTtlSeconds)
    {
      if !Verifies(presented, now) {
        return Error("INVALID_REFRESH_TOKEN");
      }
      if !presented.Signed? {
        return Error("INVALID_REFRESH_TOKEN");
      }
      var userId := presented.token.sub;
      if userId !in rows || rows[userId].refreshTokenHash.None? {
        return Error("INVALID_REFRESH_TOKEN");
      }
      if rows[userId].refreshTokenHash.value != Digest(presented.token) {
        SetRefreshTokenHash(userId, None);
        return Error("INVALID_REFRESH_TOKEN");
      }
      reply := Ok;
    }

    method Logout(userId: Id) returns (reply: Reply)
      modifies this
      ensures Answer(View(), reply) == Do(old(View()), Op.Logout(userId), refreshTtlSeconds) && reply == Ok
    {
      SetRefreshTokenHash(userId, None);
      reply := Ok;
    }

    method ChangePassword(userId: Id, currentPassword: string, newPassword: string) returns (reply: Reply)
      modifies this
      ensures Answer(View(), reply) == Do(old(View()), Op.ChangePassword(userId, currentPassword, newPassword), refreshTtlSeconds)
    {
      if userId !in rows {
        return Error("USER_NOT_FOUND");
      }
      if rows[userId].passwordHash != Bcrypt(currentPassword) {
        return Error("INVALID_CURRENT_PASSWORD");
      }
      rows := rows[userId := rows[userId].(passwordHash := Bcrypt(newPassword))];
      reply := Ok;
    }
  }

  // ---- Transcripts -----------------------------------------------------------

  datatype Exchange = Exchange(op: Op, reply: Reply)

  /** The service's replies to `ops`, called one after the other. */
  function Transcript(ops: seq<Op>, ttl: nat): seq<Exchange> {
    if ops == [] then []
    else
      var rest, last := ops[..|ops| - 1], ops[|ops| - 1];
      Transcript(rest, ttl) + [Exchange(last, Do(TableAfter(rest, ttl), last, ttl).reply)]
  }

  function TableAfter(ops: seq<Op>, ttl: nat): Table {
    if ops == [] then EMPTY else Do(TableAfter(ops[..|ops| - 1], ttl), ops[|ops| - 1], ttl).table
  }

  /** New users get ids that no user has yet. */
  predicate IdsAreNew(ops: seq<Op>, ttl: nat) {
    ops != [] ==>
      var rest, last := ops[..|ops| - 1], ops[|ops| - 1];
      IdsAreNew(rest, ttl) && (last.Register? ==> last.newId !in TableAfter(rest, ttl).rows)
  }

  predicate Opens(x: Exchange, u: Id) {
    (x.op.Register? || x.op.Login?) && x.reply.Tokens? && x.reply.userId == u
  }

  /** A logout, or a refused refresh with a genuine, unexpired token of the user. */
  predicate Ends(x: Exchange, u: Id) {
    || (x.op.Logout? && x.op.userId == u)
    || (x.op.Refresh? && x.reply.Error? && x.op.presented.Signed?
        && Verifies(x.op.presented, x.op.now) && x.op.presented.token.sub == u)
  }

  /** The token of the session that user `u` has open, if any, read off the transcript. */
  function OpenSession(t: seq<Exchange>, u: Id): Option<RefreshToken> {
    if t == [] then None
    else
      var rest, last := t[..|t| - 1], t[|t| - 1];
      if Opens(last, u) then Some(last.reply.refreshToken)
      else if Ends(last, u) then None
      else OpenSession(rest, u)
  }

  function StoredSession(t: Table, u: Id): Option<RefreshToken> {
    if u in t.rows && t.rows[u].refreshTokenHash.Some? then Some(t.rows[u].refreshTokenHash.value.token) else None
  }

  lemma DoKeepsTable(t: Table, op: Op, ttl: nat)
    requires TableOk(t) && (op.Register? ==> op.newId !in t.rows)
    ensures TableOk(Do(t, op, ttl).table)
  {}

  lemma {:induction false} TableStaysOk(ops: seq<Op>, ttl: nat)
    requires IdsAreNew(ops, ttl)
    ensures TableOk(TableAfter(ops, ttl))
  {
    if ops != [] {
      TableStaysOk(ops[..|ops| - 1], ttl);
      DoKeepsTable(TableAfter(ops[..|ops| - 1], ttl), ops[|ops| - 1], ttl);
    }
  }

  lemma TranscriptEnd(ops: seq<Op>, ttl: nat)
    requires ops != []
    ensures var t := Transcript(ops, ttl);
            && t[..|t| - 1] == Transcript(ops[..|ops| - 1], ttl)
            && t[|t| - 1] == Exchange(ops[|ops| - 1], Do(TableAfter(ops[..|ops| - 1], ttl), ops[|ops| - 1], ttl).reply)
  {}

  /** How one call moves the stored session of a user. */
  lemma DoMovesSession(t: Table, op: Op, ttl: nat, u: Id)
    requires TableOk(t) && (op.Register? ==> op.newId !in t.rows)
    ensures var a := Do(t, op, ttl);
            var x := Exchange(op, a.reply);
            StoredSession(a.table, u)
            == if Opens(x, u) then Some(x.reply.refreshToken) else if Ends(x, u) then None else StoredSession(t, u)
  {}

  /** The stored hash is that of the session the transcript shows as open. */
  lemma {:induction false} StoredSessionIsOpenSession(ops: seq<Op>, ttl: nat, u: Id)
    requires IdsAreNew(ops, ttl)
    ensures StoredSession(TableAfter(ops, ttl), u) == OpenSession(Transcript(ops, ttl), u)
  {
    if ops != [] {
      var rest, last := ops[..|ops| - 1], ops[|ops| - 1];
      StoredSessionIsOpenSession(rest, ttl, u);
      TableStaysOk(rest, ttl);
      DoMovesSession(TableAfter(rest, ttl), last, ttl, u);
      TranscriptEnd(ops, ttl);
    }
  }

  predicate RefreshAccepted(ops: seq<Op>, ttl: nat, p: Presented, now: int) {
    Do(TableAfter(ops, ttl), Refresh(p, now), ttl).reply.Ok?
  }

  /**
   After any history of calls a token refreshes exactly if it is genuine, unexpired and
   the one issued by the registration or login that opened its subject's session.
   */
  lemma RefreshAcceptsTheOpenSession(ops: seq<Op>, ttl: nat, p: Presented, now: int)
    requires IdsAreNew(ops, ttl)
    ensures RefreshAccepted(ops, ttl, p, now)
            <==> p.Signed? && now < p.token.exp && OpenSession(Transcript(ops, ttl), p.token.sub) == Some(p.token)
    ensures !RefreshAccepted(ops, ttl, p, now)
            ==> Do(TableAfter(ops, ttl), Refresh(p, now), ttl).reply == Error("INVALID_REFRESH_TOKEN")
  {
    if p.Signed? {
      StoredSessionIsOpenSession(ops, ttl, p.token.sub);
    }
  }

  /** A user has at most one accepted token at a time. */
  lemma OneSessionPerUser(ops: seq<Op>, ttl: nat, p: Presented, q: Presented, now: int, later: int)
    requires IdsAreNew(ops, ttl) && p.Signed? && q.Signed? && p.token.sub == q.token.sub
    requires RefreshAccepted(ops, ttl, p, now) && RefreshAccepted(ops, ttl, q, later)
    ensures p == q
  {
    RefreshAcceptsTheOpenSession(ops, ttl, p, now);
    RefreshAcceptsTheOpenSession(ops, ttl, q, later);
  }

  predicate ReopensNothing(ops: seq<Op>, more: seq<Op>, ttl: nat, u: Id) {
    more != [] ==>
      var rest, last := more[..|more| - 1], more[|more| - 1];
      && ReopensNothing(ops, rest, ttl, u)
      && !Opens(Exchange(last, Do(TableAfter(ops + rest, ttl), last, ttl).reply), u)
  }

  lemma {:induction false} StaysEnded(ops: seq<Op>, more: seq<Op>, ttl: nat, u: Id)
    requires IdsAreNew(ops + more, ttl) && OpenSession(Transcript(ops, ttl), u) == None
    requires ReopensNothing(ops, more, ttl, u)
    ensures OpenSession(Transcript(ops + more, ttl), u) == None
    decreases |more|
  {
    if more == [] {
      assert ops + more == ops;
    } else {
      var all := ops + more;
      assert all[..|all| - 1] == ops + more[..|more| - 1];
      StaysEnded(ops, more[..|more| - 1], ttl, u);
      TranscriptEnd(all, ttl);
    }
  }

  lemma {:induction false} EarlierIdsAreNew(ops: seq<Op>, more: seq<Op>, ttl: nat)
    requires IdsAreNew(ops + more, ttl)
    ensures IdsAreNew(ops, ttl)
    decreases |more|
  {
    if more == [] {
      assert ops + more == ops;
    } else {
      assert (ops + more)[..|ops + more| - 1] == ops + more[..|more| - 1];
      EarlierIdsAreNew(ops, more[..|more| - 1], ttl);
    }
  }

  /**
   Presenting a genuine, unexpired token that is not the current one ends the session:
   from then on no token of that user refreshes until the next registration or login.
   */
  lemma ReplayEndsTheSession(ops: seq<Op>, replayed: RefreshToken, now: int, more: seq<Op>, ttl: nat, p: Presented, later: int)
    requires now < replayed.exp && OpenSession(Transcript(ops, ttl), replayed.sub) != Some(replayed)
    requires IdsAreNew(ops + [Refresh(Signed(replayed), now)] + more, ttl)
    requires ReopensNothing(ops + [Refresh(Signed(replayed), now)], more, ttl, replayed.sub)
    requires p.Signed? && p.token.sub == replayed.sub
    ensures !RefreshAccepted(ops + [Refresh(Signed(replayed), now)] + more, ttl, p, later)
  {
    var then_ := ops + [Refresh(Signed(replayed), now)];
    EarlierIdsAreNew(then_, more, ttl);
    EarlierIdsAreNew(ops, [Refresh(Signed(replayed), now)], ttl);
    assert then_[..|then_| - 1] == ops;
    RefreshAcceptsTheOpenSession(ops, ttl, Signed(replayed), now);
    TranscriptEnd(then_, ttl);
    StaysEnded(then_, more, ttl, replayed.sub);
    RefreshAcceptsTheOpenSession(then_ + more, ttl, p, later);
  }

  // ---- Passwords ---------------------------------------------------------------

  /** The user registered under the address, read off the transcript. */
  function UserAt(t: seq<Exchange>, email: string): Option<Id> {
    if t == [] then None
    else
      var rest, last := t[..|t| - 1], t[|t| - 1];
      if last.op.Register? && last.op.email == email && last.reply.Tokens? then Some(last.reply.userId) else UserAt(rest, email)
  }

  /** The password of the user: that of the registration, or of the latest change, read off the transcript. */
  function PasswordOf(t: seq<Exchange>, u: Id): Option<string> {
    if t == [] then None
    else
      var rest, last := t[..|t| - 1], t[|t| - 1];
      if last.op.Register? && last.reply.Tokens? && last.reply.userId == u then Some(last.op.password)
      else if last.op.ChangePassword? && last.reply.Ok? && last.op.userId == u then Some(last.op.newPassword)
      else PasswordOf(rest, u)
  }

  ghost predicate TableKnows(table: Table, t: seq<Exchange>) {
    && (forall email :: UserAt(t, email) == if email in table.emails then Some(table.emails[email]) else None)
    && (forall u :: PasswordOf(t, u) == if u in table.rows then Some(table.rows[u].passwordHash.password) else None)
  }

  /** How one call moves what the table knows. */
  lemma DoMovesUsers(table: Table, op: Op, ttl: nat, email: string)
    requires TableOk(table) && (op.Register? ==> op.newId !in table.rows)
    ensures var a := Do(table, op, ttl);
            var before := if email in table.emails then Some(table.emails[email]) else None;
            (if email in a.table.emails then Some(a.table.emails[email]) else None)
            == if op.Register? && op.email == email && a.reply.Tokens? then Some(a.reply.userId) else before
  {}

  lemma DoMovesPasswords(table: Table, op: Op, ttl: nat, u: Id)
    requires TableOk(table) && (op.Register? ==> op.newId !in table.rows)
    ensures var a := Do(table, op, ttl);
            var before := if u in table.rows then Some(table.rows[u].passwordHash.password) else None;
            (if u in a.table.rows then Some(a.table.rows[u].passwordHash.password) else None)
            == if op.Register? && a.reply.Tokens? && a.reply.userId == u then Some(op.password)
               else if op.ChangePassword? && a.reply.Ok? && op.userId == u then Some(op.newPassword)
               else before
  {}

  lemma {:induction false} TableKnowsTranscript(ops: seq<Op>, ttl: nat)
    requires IdsAreNew(ops, ttl)
    ensures TableKnows(TableAfter(ops, ttl), Transcript(ops, ttl))
  {
    if ops != [] {
      var rest, last := ops[..|ops| - 1], ops[|ops| - 1];
      var table := TableAfter(rest, ttl);
      TableKnowsTranscript(rest, ttl);
      TableStaysOk(rest, ttl);
      TranscriptEnd(ops, ttl);
      forall email ensures UserAt(Transcript(ops, ttl), email)
                           == if email in TableAfter(ops, ttl).emails then Some(TableAfter(ops, ttl).emails[email]) else None {
        DoMovesUsers(table, last, ttl, email);
      }
      forall u ensures PasswordOf(Transcript(ops, ttl), u)
                       == if u in TableAfter(ops, ttl).rows then Some(TableAfter(ops, ttl).rows[u].passwordHash.password) else None {
        DoMovesPasswords(table, last, ttl, u);
      }
    }
  }

  /**
   After any history of calls a login is answered with a session exactly if the address is
   registered and the password is the one last set by its user; the session is that user's
   and lasts for the configured time.
   */
  lemma LoginNeedsThePassword(ops: seq<Op>, ttl: nat, email: string, password: string, now: int)
    requires IdsAreNew(ops, ttl)
    ensures var t := Transcript(ops, ttl);
            var reply := Do(TableAfter(ops, ttl), Login(email, password, now), ttl).reply;
            reply == match UserAt(t, email)
                     case None => Error("INVALID_CREDENTIALS")
                     case Some(u) =>
                       if PasswordOf(t, u) == Some(password) then Tokens(u, RefreshToken(u, now, now + ttl))
                       else Error("INVALID_CREDENTIALS")
  {
    TableKnowsTranscript(ops, ttl);
    TableStaysOk(ops, ttl);
    assert UserAt(Transcript(ops, ttl), email).Some? ==> email in TableAfter(ops, ttl).emails;
  }

  /** A registration succeeds exactly for an address that no one has registered. */
  lemma RegistrationNeedsAFreeAddress(ops: seq<Op>, ttl: nat, email: string, password: string, newId: Id, now: int)
    requires IdsAreNew(ops, ttl)
    ensures var reply := Do(TableAfter(ops, ttl), Register(email, password, newId, now), ttl).reply;
            reply == if UserAt(Transcript(ops, ttl), email).None? then Tokens(newId, RefreshToken(newId, now, now + ttl))
                     else Error("EMAIL_TAKEN")
  {
    TableKnowsTranscript(ops, ttl);
    assert UserAt(Transcript(ops, ttl), email).Some? <==> email in TableAfter(ops, ttl).emails;
  }

  /** A password is changed exactly if its user gives the one last set. */
  lemma ChangeNeedsThePassword(ops: seq<Op>, ttl: nat, u: Id, current: string, new_: string)
    requires IdsAreNew(ops, ttl)
    ensures var reply := Do(TableAfter(ops, ttl), ChangePassword(u, current, new_), ttl).reply;
            reply == match PasswordOf(Transcript(ops, ttl), u)
                     case None => Error("USER_NOT_FOUND")
                     case Some(password) => if password == current then Ok else Error("INVALID_CURRENT_PASSWORD")
  {
    TableKnowsTranscript(ops, ttl);
    assert PasswordOf(Transcript(ops, ttl), u).Some? <==> u in TableAfter(ops, ttl).rows;
  }
}
