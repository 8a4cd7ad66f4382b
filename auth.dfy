/** The auth controller (backend/src/controllers/authController.js): registration, login, profile
    update and the two-step password reset over the user collection. The collection is a map from
    ObjectId to user record; the handlers that write it are methods of `UserStore`, each proved
    equal to a pure outcome function whose properties are stated in its contract. */
module Auth {
  import opened Common
  import opened Tokens

  /** A bcrypt digest. Only `compare` observes a digest, so the model keeps the salt and the
      password it was computed from; the cost factor (10) and the hash itself are not modelled. */
  datatype Digest = Digest(salt: nat, plain: string)

  /** bcrypt.hash(password, 10) with a fresh salt. */
  function Hash(password: string, salt: nat): (d: Digest)
    ensures Matches(password, d)
  {
    Digest(salt, password)
  }

  /** bcrypt.compare(password, digest). */
  predicate Matches(password: string, d: Digest)
  {
    d.plain == password
  }

  lemma HashMatchesOnlyItsPassword(password: string, other: string, salt: nat)
    ensures Matches(other, Hash(password, salt)) <==> other == password
  {
  }

  /** A user document: the fields the controller reads and writes. */
  datatype User = User(name: string, email: string, password: Digest)

  /** The process environment the controller reads. JWT_SECRET is only tested for truthiness, so
      an unset JWT_SECRET is the empty string here. CLIENT_URL and EMAIL_USER are taken to be set:
      JavaScript would render an unset one as "undefined", which this model does not represent. */
  datatype Config = Config(jwtSecret: string, clientUrl: string, emailUser: string)

  /** resetPassword verifies with `JWT_SECRET || "jwt_secret_key"`, while every token is signed
      with JWT_SECRET alone. */
  function VerifyKey(cfg: Config): (k: string)
    ensures k != ""
    ensures cfg.jwtSecret != "" ==> k == cfg.jwtSecret
  {
    if cfg.jwtSecret != "" then cfg.jwtSecret else FallbackKey
  }

  /** A JSON response body: `{ message }` or the account summary `{ _id, name, email, token }`. */
  datatype Body = Message(text: string) | Account(id: UserId, name: string, email: string, token: Token)

  datatype Reply = Reply(status: nat, body: Body)

  const ServerError: Reply := Reply(500, Message("Server error"))
  const InvalidCredentials: Reply := Reply(401, Message("Invalid email or password"))
  const InvalidOrExpired: Reply := Reply(400, Message("Invalid or expired token"))
  const UserNotFound: Reply := Reply(404, Message("User not found"))

  /** What a handler that writes the collection answers, and the collection afterwards. */
  datatype Outcome = Outcome(reply: Reply, users: map<UserId, User>)

  /** The collection's unique index on email. */
  ghost predicate UniqueEmails(users: map<UserId, User>)
  {
    forall a, b :: a in users && b in users && users[a].email == users[b].email ==> a == b
  }

  predicate EmailInUse(users: map<UserId, User>, email: string)
  {
    exists id :: id in users && users[id].email == email
  }

  /** Some user other than `self` has this email. */
  predicate EmailHeldByOther(users: map<UserId, User>, self: UserId, email: string)
  {
    exists id :: id in users && id != self && users[id].email == email
  }

  /** User.findOne({ email }): an exact, case-sensitive match. */
  function FindByEmail(users: map<UserId, User>, email: string): (r: Option<UserId>)
    requires UniqueEmails(users)
    ensures r.Some? <==> EmailInUse(users, email)
    ensures r.Some? ==> r.value in users && users[r.value].email == email
  {
    if EmailInUse(users, email) then
      var id :| id in users && users[id].email == email; Some(id)
    else None
  }

  /** The user holding `email` accepts `password`. */
  predicate Authentic(users: map<UserId, User>, email: string, password: string)
  {
    exists id :: id in users && users[id].email == email && Matches(password, users[id].password)
  }

  /** The `name || old` rule of updateProfile: an empty (or absent) request value keeps the old one. */
  function OrElse(given: string, current: string): string
  {
    if given != "" then given else current
  }

  /** registerUser. `newId` is the ObjectId User.create assigns and `salt` the salt of the
      User model's hashing; the token is signed after the user was created, so an unset
      JWT_SECRET answers 500 with the user already stored. */
  function RegisterOutcome(users: map<UserId, User>, name: string, email: string, password: string,
                           newId: UserId, salt: nat, cfg: Config, now: nat): (o: Outcome)
    requires UniqueEmails(users) && newId !in users
    ensures UniqueEmails(o.users)
    ensures EmailInUse(users, email) <==> o.reply == Reply(400, Message("User already exists"))
    ensures EmailInUse(users, email) ==> o.users == users
    ensures !EmailInUse(users, email) ==>
              o.users.Keys == users.Keys + {newId}
              && (forall id :: id in users ==> o.users[id] == users[id])
              && o.users[newId] == User(name, email, Hash(password, salt))
    ensures o.reply.status == 201 <==> !EmailInUse(users, email) && cfg.jwtSecret != ""
    ensures !EmailInUse(users, email) && cfg.jwtSecret == "" ==> o.reply == ServerError
    ensures o.reply.status == 201 ==>
              o.reply.body.Account? && o.reply.body.id == newId
              && o.reply.body.name == name && o.reply.body.email == email
              && Verify(o.reply.body.token, cfg.jwtSecret, now) == Success(newId)
              && o.reply.body.token == SessionToken(cfg.jwtSecret, newId, now).value
  {
    if EmailInUse(users, email) then Outcome(Reply(400, Message("User already exists")), users)
    else
      var created := users[newId := User(name, email, Hash(password, salt))];
      assert created.Keys == users.Keys + {newId};
      match SessionToken(cfg.jwtSecret, newId, now)
      case None => Outcome(ServerError, created)
      case Some(t) => Outcome(Reply(201, Account(newId, name, email, t)), created)
  }

  /** loginUser. It never writes the collection. An unknown email and a wrong password give the
      very same reply. */
  function Login(users: map<UserId, User>, email: string, password: string, cfg: Config, now: nat): (r: Reply)
    requires UniqueEmails(users)
    ensures !Authentic(users, email, password) <==> r == InvalidCredentials
    ensures !EmailInUse(users, email) ==> r == InvalidCredentials
    ensures Authentic(users, email, password) ==> r.status == (if cfg.jwtSecret != "" then 200 else 500)
    ensures Authentic(users, email, password) && cfg.jwtSecret == "" ==> r == ServerError
    ensures r.status == 200 ==>
              r.body.Account? && r.body.id in users
              && users[r.body.id].email == email && r.body.email == email
              && r.body.name == users[r.body.id].name
              && Matches(password, users[r.body.id].password)
              && Verify(r.body.token, cfg.jwtSecret, now) == Success(r.body.id)
              && r.body.token == SessionToken(cfg.jwtSecret, r.body.id, now).value
  {
    var found := FindByEmail(users, email);
    if found.Some? && Matches(password, users[found.value].password) then
      var user := users[found.value];
      match SessionToken(cfg.jwtSecret, found.value, now)
      case None => ServerError
      case Some(t) => Reply(200, Account(found.value, user.name, user.email, t))
    else InvalidCredentials
  }

  /** updateProfile for the user the auth middleware resolved (`caller`). Name and email take the
      request value when it is non-empty and keep the old one otherwise; id and password digest are
      never touched. Saving an email another user holds violates the unique index (500). */
  function UpdateProfileOutcome(users: map<UserId, User>, caller: UserId, name: string, email: string,
                                cfg: Config, now: nat): (o: Outcome)
    requires UniqueEmails(users)
    ensures UniqueEmails(o.users)
    ensures caller !in users ==> o == Outcome(UserNotFound, users)
    ensures o.users.Keys == users.Keys
    ensures forall id :: id in users && id != caller ==> o.users[id] == users[id]
    ensures forall id :: id in users ==> o.users[id].password == users[id].password
    ensures caller in users && EmailHeldByOther(users, caller, OrElse(email, users[caller].email)) ==>
              o == Outcome(ServerError, users)
    ensures caller in users && !EmailHeldByOther(users, caller, OrElse(email, users[caller].email)) ==>
              o.users == users[caller := users[caller].(name := OrElse(name, users[caller].name),
                                                        email := OrElse(email, users[caller].email))]
    ensures caller in users && cfg.jwtSecret == ""
            && !EmailHeldByOther(users, caller, OrElse(email, users[caller].email)) ==>
              o.reply == ServerError
    ensures o.reply.status == 200 <==>
              caller in users && cfg.jwtSecret != ""
              && !EmailHeldByOther(users, caller, OrElse(email, users[caller].email))
    ensures o.reply.status == 200 ==>
              o.reply.body.Account?
              && o.reply.body == Account(caller, o.users[caller].name, o.users[caller].email, o.reply.body.token)
              && o.users[caller].name == OrElse(name, users[caller].name)
              && o.users[caller].email == OrElse(email, users[caller].email)
              && Verify(o.reply.body.token, cfg.jwtSecret, now) == Success(caller)
              && o.reply.body.token == SessionToken(cfg.jwtSecret, caller, now).value
  {
    if caller !in users then Outcome(UserNotFound, users)
    else
      var user := users[caller];
      var edited := user.(name := OrElse(name, user.name), email := OrElse(email, user.email));
      if EmailHeldByOther(users, caller, edited.email) then Outcome(ServerError, users)
      else
        var saved := users[caller := edited];
        match SessionToken(cfg.jwtSecret, caller, now)
        case None => Outcome(ServerError, saved)
        case Some(t) => Outcome(Reply(200, Account(caller, edited.name, edited.email, t)), saved)
  }

  /** The message forgotPassword hands to the mail transport. Its plain-text and HTML bodies are
      the reset templates filled in with `link`. */
  datatype Mail = Mail(from: string, to: string, subject: string, link: string)
  {
    function Text(): string
    {
      ResetText(link)
    }

    function Html(): string
    {
      ResetHtml(link)
    }
  }

  /** The reply of forgotPassword and the mail it sent, if it got that far. */
  datatype Forgot = Forgot(reply: Reply, mail: Option<Mail>)

  /** An ObjectId interpolated into a string, as a hexadecimal numeral. The real rendering is
      24 digits, zero-padded; this one drops leading zeros, which changes neither the absence of
      '/' nor the round trip through the reset route. */
  function IdText(id: UserId): (r: string)
    ensures r != [] && NoSlash(r)
  {
    NumeralHasNoSlash(id, 16);
    Numeral(id, 16)
  }

  /** `${CLIENT_URL}/reset-password/${user._id}/${token}` */
  function ResetLink(clientUrl: string, id: UserId, t: Token): string
  {
    clientUrl + "/reset-password/" + IdText(id) + "/" + TokenText(t)
  }

  function ResetText(link: string): string
  {
    "You requested a password reset. Click the link to reset your password:\n\n" + link
    + "\n\nIf you didn't request this, ignore this email."
  }

  function ResetHtml(link: string): string
  {
    "<p>You requested a password reset. Click the link to reset your password:</p>\n"
    + "             <p><a href=\"" + link + "\">" + link + "</a></p>\n"
    + "             <p>If you didn't request this, ignore this email.</p>"
  }

  /** forgotPassword. It never writes the collection. `delivered` is whether
      transporter.sendMail succeeded. */
  function ForgotPassword(users: map<UserId, User>, email: string, cfg: Config, now: nat, delivered: bool): (f: Forgot)
    requires UniqueEmails(users)
    ensures email == "" ==> f == Forgot(Reply(400, Message("Email required")), None)
    ensures email != "" && !EmailInUse(users, email) ==> f == Forgot(UserNotFound, None)
    ensures f.mail.Some? <==> email != "" && EmailInUse(users, email) && cfg.jwtSecret != ""
    ensures f.reply.status == 200 <==> f.mail.Some? && delivered
    ensures email != "" && EmailInUse(users, email) && (cfg.jwtSecret == "" || !delivered) ==>
              f.reply == ServerError
    ensures f.reply.status == 200 ==> f.reply == Reply(200, Message("Reset link sent to email"))
    ensures f.mail.Some? ==>
              var id := FindByEmail(users, email).value;
              var t := ResetToken(cfg.jwtSecret, id, now).value;
              var link := ResetLink(cfg.clientUrl, id, t);
              && f.mail.value.from == cfg.emailUser
              && f.mail.value.to == users[id].email
              && f.mail.value.subject == "TaskMind - Password reset"
              && f.mail.value.link == link
              && Verify(t, VerifyKey(cfg), now) == Success(id)
              && t.exp == now + ResetLifetime
  {
    if email == "" then Forgot(Reply(400, Message("Email required")), None)
    else
      match FindByEmail(users, email)
      case None => Forgot(UserNotFound, None)
      case Some(id) =>
        match ResetToken(cfg.jwtSecret, id, now)
        case None => Forgot(ServerError, None)
        case Some(t) =>
          var link := ResetLink(cfg.clientUrl, id, t);
          var mail := Mail(cfg.emailUser, users[id].email, "TaskMind - Password reset", link);
          if delivered then Forgot(Reply(200, Message("Reset link sent to email")), Some(mail))
          else Forgot(ServerError, Some(mail))
  }

  /** The index of the first '/' in `s`, if any. */
  function SlashIndex(s: string): (r: Option<nat>)
    ensures r.None? <==> NoSlash(s)
    ensures r.Some? ==> r.value < |s| && s[r.value] == '/' && NoSlash(s[..r.value])
  {
    if s == [] then None
    else if s[0] == '/' then Some(0)
    else
      match SlashIndex(s[1..])
      case None => None
      case Some(k) => assert s[1..][..k] == s[1..k + 1]; Some(k + 1)
  }

  /** The frontend route `/reset-password/:id/:token` under `clientUrl`: the two path segments of
      a link, when it has that shape. */
  function RouteParams(clientUrl: string, link: string): Option<(string, string)>
  {
    var prefix := clientUrl + "/reset-password/";
    if |link| < |prefix| || link[..|prefix|] != prefix then None
    else
      var rest := link[|prefix|..];
      match SlashIndex(rest)
      case None => None
      case Some(k) =>
        var id, token := rest[..k], rest[k + 1..];
        if id == [] || token == [] || !NoSlash(token) then None else Some((id, token))
  }

  /** The reset page receives, as its two route parameters, exactly the user id and the token
      forgotPassword put into the link. */
  lemma {:induction false} ResetLinkRoundTrip(clientUrl: string, id: UserId, t: Token)
    ensures RouteParams(clientUrl, ResetLink(clientUrl, id, t)) == Some((IdText(id), TokenText(t)))
  {
    var prefix := clientUrl + "/reset-password/";
    var a, b := IdText(id), TokenText(t);
    var link := ResetLink(clientUrl, id, t);
    assert link == prefix + (a + "/" + b);
    assert link[..|prefix|] == prefix;
    var rest := link[|prefix|..];
    assert rest == a + "/" + b;
    assert rest[|a|] == '/';
    var k := SlashIndex(rest).value;
    assert k == |a|;
    assert rest[..k] == a && rest[k + 1..] == b;
  }

  /** resetPassword. The `:id` path parameter is never consulted: the user whose digest changes is
      the one named inside the verified token. Every failure before the update, including a
      missing password that bcrypt rejects, is answered 400 "Invalid or expired token". */
  function ResetPasswordOutcome(users: map<UserId, User>, pathId: UserId, token: Token,
                                password: Option<string>, salt: nat, cfg: Config, now: nat): (o: Outcome)
    requires UniqueEmails(users)
    ensures UniqueEmails(o.users)
    ensures Verify(token, VerifyKey(cfg), now).Failure? || password.None? ==> o == Outcome(InvalidOrExpired, users)
    ensures o.reply.status == 404 <==>
              Verify(token, VerifyKey(cfg), now).Success? && password.Some? && token.id !in users
    ensures o.reply.status == 404 ==> o.reply == UserNotFound
    ensures o.reply.status == 200 <==>
              Verify(token, VerifyKey(cfg), now).Success? && password.Some? && token.id in users
    ensures o.reply.status != 200 ==> o.users == users
    ensures o.reply.status == 200 ==>
              o.reply == Reply(200, Message("Password reset successful"))
              && o.users == users[token.id := users[token.id].(password := Hash(password.value, salt))]
  {
    match Verify(token, VerifyKey(cfg), now)
    case Failure(_) => Outcome(InvalidOrExpired, users)
    case Success(id) =>
      if password.None? then Outcome(InvalidOrExpired, users)
      else if id !in users then Outcome(UserNotFound, users)
      else
        var updated := users[id := users[id].(password := Hash(password.value, salt))];
        assert forall u :: u in updated ==> updated[u].email == users[u].email;
        Outcome(Reply(200, Message("Password reset successful")), updated)
  }

  /** Nothing in a token marks it as a reset token: an unexpired session token resets the
      password, even after every reset token issued with it has expired. */
  lemma SessionTokenResetsPassword(users: map<UserId, User>, pathId: UserId, id: UserId, issued: nat,
                                   now: nat, password: string, salt: nat, cfg: Config)
    requires UniqueEmails(users) && id in users && cfg.jwtSecret != ""
    requires issued + ResetLifetime <= now < issued + SessionLifetime
    ensures Verify(ResetToken(cfg.jwtSecret, id, issued).value, VerifyKey(cfg), now) == Failure(Expired)
    ensures var o := ResetPasswordOutcome(users, pathId, SessionToken(cfg.jwtSecret, id, issued).value,
                                          Some(password), salt, cfg, now);
            o.reply.status == 200 && o.users[id].password == Hash(password, salt)
  {
  }

  /** With JWT_SECRET unset no token can be signed, yet resetPassword still verifies, with the
      fixed fallback key: a token anyone signs with that key resets any user's password. */
  lemma FallbackKeyAcceptsForgedToken(users: map<UserId, User>, pathId: UserId, victim: UserId,
                                      now: nat, password: string, salt: nat, cfg: Config)
    requires UniqueEmails(users) && victim in users && cfg.jwtSecret == ""
    ensures forall id :: SessionToken(cfg.jwtSecret, id, now).None?
    ensures var o := ResetPasswordOutcome(users, pathId, Token(victim, now, now + 1, "jwt_secret_key"),
                                          Some(password), salt, cfg, now);
            o.reply.status == 200 && o.users[victim].password == Hash(password, salt)
  {
  }

  /** Registering with a fresh email and then logging in with the same credentials succeeds, for
      the new user. */
  lemma LoginAfterRegister(users: map<UserId, User>, name: string, email: string, password: string,
                           newId: UserId, salt: nat, cfg: Config, now: nat, later: nat)
    requires UniqueEmails(users) && newId !in users && !EmailInUse(users, email) && cfg.jwtSecret != ""
    ensures var o := RegisterOutcome(users, name, email, password, newId, salt, cfg, now);
            var r := Login(o.users, email, password, cfg, later);
            r.status == 200 && r.body.id == newId && r.body.name == name
  {
    var o := RegisterOutcome(users, name, email, password, newId, salt, cfg, now);
    assert o.users[newId].email == email && Matches(password, o.users[newId].password);
    assert Authentic(o.users, email, password);
  }

  /** After a reset, the new password logs in and an old password that differs from it does not. */
  lemma LoginAfterReset(users: map<UserId, User>, email: string, oldPassword: string, newPassword: string,
                        pathId: UserId, token: Token, salt: nat, cfg: Config, now: nat, later: nat)
    requires UniqueEmails(users) && cfg.jwtSecret != ""
    requires token.id in users && users[token.id].email == email
    requires Verify(token, VerifyKey(cfg), now).Success?
    requires oldPassword != newPassword
    ensures var o := ResetPasswordOutcome(users, pathId, token, Some(newPassword), salt, cfg, now);
            Login(o.users, email, newPassword, cfg, later).status == 200
            && Login(o.users, email, oldPassword, cfg, later) == InvalidCredentials
  {
    var o := ResetPasswordOutcome(users, pathId, token, Some(newPassword), salt, cfg, now);
    assert o.users[token.id].email == email;
    assert Authentic(o.users, email, newPassword);
    assert !Authentic(o.users, email, oldPassword) by {
      forall id | id in o.users && o.users[id].email == email
        ensures !Matches(oldPassword, o.users[id].password)
      {
        assert id == token.id;
      }
    }
  }

  /** The user collection with the handlers that write it. */
  class UserStore {
    var users: map<UserId, User>

    ghost predicate Valid()
      reads this
    {
      UniqueEmails(users)
    }

    constructor ()
      ensures Valid() && users == map[]
    {
      users := map[];
    }

    method RegisterUser(name: string, email: string, password: string, newId: UserId, salt: nat,
                        cfg: Config, now: nat) returns (reply: Reply)
      requires Valid() && newId !in users
      modifies this
      ensures Valid()
      ensures Outcome(reply, users) == RegisterOutcome(old(users), name, email, password, newId, salt, cfg, now)
    {
      var existing := FindByEmail(users, email);
      if existing.Some? {
        reply := Reply(400, Message("User already exists"));
        return;
      }
      users := users[newId := User(name, email, Hash(password, salt))];
      var token := SessionToken(cfg.jwtSecret, newId, now);
      if token.None? {
        reply := ServerError;
        return;
      }
      reply := Reply(201, Account(newId, name, email, token.value));
    }

    method UpdateProfile(caller: UserId, name: string, email: string, cfg: Config, now: nat)
      returns (reply: Reply)
      requires Valid()
      modifies this
      ensures Valid()
      ensures Outcome(reply, users) == UpdateProfileOutcome(old(users), caller, name, email, cfg, now)
    {
      if caller !in users {
        reply := UserNotFound;
        return;
      }
      var user := users[caller];
      user := user.(name := OrElse(name, user.name));
      user := user.(email := OrElse(email, user.email));
      if EmailHeldByOther(users, caller, user.email) {
        reply := ServerError;
        return;
      }
      users := users[caller := user];
      var token := SessionToken(cfg.jwtSecret, caller, now);
      if token.None? {
        reply := ServerError;
        return;
      }
      reply := Reply(200, Account(caller, user.name, user.email, token.value));
    }

    method ResetPassword(pathId: UserId, token: Token, password: Option<string>, salt: nat,
                         cfg: Config, now: nat) returns (reply: Reply)
      requires Valid()
      modifies this
      ensures Valid()
      ensures Outcome(reply, users) == ResetPasswordOutcome(old(users), pathId, token, password, salt, cfg, now)
    {
      var decoded := Verify(token, VerifyKey(cfg), now);
      if decoded.Failure? || password.None? {
        reply := InvalidOrExpired;
        return;
      }
      var hashed := Hash(password.value, salt);
      var id := decoded.value;
      if id !in users {
        reply := UserNotFound;
        return;
      }
      users := users[id := users[id].(password := hashed)];
      reply := Reply(200, Message("Password reset successful"));
    }
  }
}
