/**
 * The user lifecycle of UserController: registration (`store`), field-wise
 * update with its email re-verification and admin guard (`update`), token
 * redemption (`verify`), re-delivery of the verification mail (`resend`) and
 * deletion (`destroy`).
 *
 * The users table is a map from id to record; the mailer is a log of every
 * send attempt. What the controller gets from outside is passed in: the
 * freshly generated verification code, the salt bcrypt would draw, and the
 * mailer's success or failure on each successive attempt.
 */
module UserAccounts {

  datatype Option<T> = None | Some(value: T)

  type UserId = nat

  /** The random salt of one bcrypt call. */
  type Salt = nat

  /** The REGULAR_USER value of the admin attribute. */
  const RegularUser: string := "false"

  /** `retry(5, ...)`: the number of times a mail is tried at most. */
  const MaxAttempts: nat := 5

  datatype User = User(
    name: string,
    email: string,
    passwordHash: string,
    verified: bool,
    token: Option<string>,
    admin: string)

  /** The fields `store` reads; a missing password confirmation is None. */
  datatype StoreRequest = StoreRequest(name: string, email: string, password: string, confirmation: Option<string>)

  /** The fields `update` looks at; a field absent from the request is None. */
  datatype UpdateRequest = UpdateRequest(
    name: Option<string>,
    email: Option<string>,
    password: Option<string>,
    admin: Option<string>)

  /** The HTTP status the controller answers with: 200, 201, 404, 409, 422. */
  datatype Status = Ok | Created | NotFound | Conflict | Unprocessable

  datatype MailKind = UserCreated | UserMailChanged

  /** One call of `Mail::to($user)->send(...)`, with the record the mail was built from. */
  datatype MailAttempt = MailAttempt(kind: MailKind, id: UserId, user: User)

  // ---------------------------------------------------------------------
  // Mail delivery with `retry`

  /** Attempt `i` (counting from 0) succeeds; the mailer fails every attempt past the end of `outcomes`. */
  predicate SendSucceeds(outcomes: seq<bool>, i: nat)
  {
    i < |outcomes| && outcomes[i]
  }

  /** The number of attempts `retry` makes when attempt `i` is the next one. */
  function AttemptsFrom(outcomes: seq<bool>, i: nat): (n: nat)
    requires i < MaxAttempts
    decreases MaxAttempts - i
    ensures i < n <= MaxAttempts
    ensures forall j :: i <= j < n - 1 ==> !SendSucceeds(outcomes, j)
    ensures SendSucceeds(outcomes, n - 1) || n == MaxAttempts
  {
    if SendSucceeds(outcomes, i) || i + 1 == MaxAttempts then i + 1
    else AttemptsFrom(outcomes, i + 1)
  }

  /**
   * The number of send attempts `retry(5, ...)` makes: it stops after the
   * first success, and after the fifth failure at the latest.
   */
  function AttemptCount(outcomes: seq<bool>): (n: nat)
    ensures 1 <= n <= MaxAttempts
    ensures forall j :: 0 <= j < n - 1 ==> !SendSucceeds(outcomes, j)
    ensures SendSucceeds(outcomes, n - 1) || n == MaxAttempts
  {
    AttemptsFrom(outcomes, 0)
  }

  /** The mail reached the mailer within the attempt budget. */
  ghost predicate Delivered(outcomes: seq<bool>)
  {
    exists j :: 0 <= j < MaxAttempts && SendSucceeds(outcomes, j)
  }

  /** The last attempt made is the one that succeeded exactly when some attempt in the budget succeeds. */
  lemma AttemptCountDelivers(outcomes: seq<bool>)
    ensures Delivered(outcomes) <==> SendSucceeds(outcomes, AttemptCount(outcomes) - 1)
  {
    var n := AttemptCount(outcomes);
    if Delivered(outcomes) {
      var j :| 0 <= j < MaxAttempts && SendSucceeds(outcomes, j);
      assert n - 1 <= j;
    }
  }

  /** The attempt log a `retry` leaves: `n` attempts of the same mail. */
  function Repeat(m: MailAttempt, n: nat): (r: seq<MailAttempt>)
    ensures |r| == n
    ensures forall i :: 0 <= i < n ==> r[i] == m
  {
    if n == 0 then [] else Repeat(m, n - 1) + [m]
  }

  // ---------------------------------------------------------------------
  // Validation of `store` and the rules of `update`

  /** No stored user has this email (`unique:users`). */
  predicate EmailFree(users: map<UserId, User>, email: string)
  {
    forall id :: id in users ==> users[id].email != email
  }

  /**
   * The `store` rules: name and email required, email unique, password of
   * at least six characters and confirmed. The email format rule is not part
   * of this model.
   */
  predicate StoreRequestValid(users: map<UserId, User>, req: StoreRequest)
  {
    && |req.name| > 0
    && |req.email| > 0
    && EmailFree(users, req.email)
    && |req.password| >= 6
    && req.confirmation == Some(req.password)
  }

  /** The request carries an email other than the stored one. */
  predicate EmailChanges(u: User, req: UpdateRequest)
  {
    req.email.Some? && req.email.value != u.email
  }

  /**
   * Every field the request carries equals the stored value; `digest` is the
   * hash bcrypt produced for the submitted password in this request.
   */
  predicate NothingDiffers(u: User, req: UpdateRequest, digest: string)
  {
    && (req.name.None? || req.name.value == u.name)
    && (req.email.None? || req.email.value == u.email)
    && (req.password.None? || digest == u.passwordHash)
    && (req.admin.None? || req.admin.value == u.admin)
  }

  datatype UpdateOutcome = Rejected(status: Status) | Saved(user: User, emailChanged: bool)

  /**
   * The outcome of `update` on the stored record `u`: the request's fields
   * applied in order name, email, password, admin to the loaded record; the
   * admin field refused while the record in memory is unverified; the save
   * refused when the record in memory equals the stored one.
   */
  function UpdateUser(u: User, req: UpdateRequest, freshToken: string, digest: string): (o: UpdateOutcome)
    // admin is refused exactly when the user is unverified once the email step has run
    ensures o == Rejected(Conflict) <==> req.admin.Some? && (!u.verified || EmailChanges(u, req))
    ensures o == Rejected(Unprocessable) <==>
      !(req.admin.Some? && (!u.verified || EmailChanges(u, req))) && NothingDiffers(u, req, digest)
    ensures o.Rejected? ==> o.status == Conflict || o.status == Unprocessable
    ensures o.Saved? ==> o.user != u
    // every field absent from the request keeps its stored value
    ensures o.Saved? ==>
      && o.user.name == (if req.name.Some? then req.name.value else u.name)
      && o.user.email == (if req.email.Some? then req.email.value else u.email)
      && o.user.passwordHash == (if req.password.Some? then digest else u.passwordHash)
      && o.user.admin == (if req.admin.Some? then req.admin.value else u.admin)
    // a new email re-arms verification; an unchanged one leaves it alone
    ensures o.Saved? ==> o.emailChanged == EmailChanges(u, req)
    ensures o.Saved? && o.emailChanged ==> !o.user.verified && o.user.token == Some(freshToken)
    ensures o.Saved? && !o.emailChanged ==> o.user.verified == u.verified && o.user.token == u.token
  {
    var named := if req.name.Some? then u.(name := req.name.value) else u;
    var changed := EmailChanges(named, req);
    var mailed := if changed then named.(verified := false, token := Some(freshToken), email := req.email.value) else named;
    var hashed := if req.password.Some? then mailed.(passwordHash := digest) else mailed;
    if req.admin.Some? && !hashed.verified then Rejected(Conflict)
    else
      var promoted := if req.admin.Some? then hashed.(admin := req.admin.value) else hashed;
      if promoted == u then Rejected(Unprocessable) else Saved(promoted, changed)
  }

  /** A verified user whose email changes in the same request cannot be made admin. */
  lemma EmailChangeBlocksAdmin(u: User, req: UpdateRequest, freshToken: string, digest: string)
    requires u.verified && EmailChanges(u, req) && req.admin.Some?
    ensures UpdateUser(u, req, freshToken, digest) == Rejected(Conflict)
  {
  }

  // ---------------------------------------------------------------------
  // The users table and the controller actions

  class UserController {
    /** The users table. */
    var users: map<UserId, User>
    /** The next id the table hands out. */
    var nextId: UserId
    /** Every mail send attempted so far, oldest first. */
    var mailLog: seq<MailAttempt>
    /** bcrypt, as a function of the password and the salt it draws. */
    const hash: (string, Salt) -> string

    /** Ids are below `nextId`, and a record holds a verification token exactly when it is unverified. */
    ghost predicate Valid()
      reads this
    {
      && (forall id :: id in users ==> id < nextId)
      && (forall id :: id in users ==> (users[id].verified <==> users[id].token.None?))
    }

    /** No stored user holds `token`. */
    predicate TokenUnused(token: string)
      reads this
    {
      forall id :: id in users ==> users[id].token != Some(token)
    }

    /** No two stored users hold the same verification token. */
    ghost predicate TokensUnique()
      reads this
    {
      forall a, b :: a in users && b in users && users[a].token.Some? && users[a].token == users[b].token ==> a == b
    }

    constructor (hash: (string, Salt) -> string)
      ensures Valid()
      ensures users == map[] && mailLog == [] && this.hash == hash
    {
      users := map[];
      nextId := 0;
      mailLog := [];
      this.hash := hash;
    }

    /** `retry(5, fn() => Mail::to($user)->send(...), 100)`, the pause between attempts left out. */
    method SendWithRetry(kind: MailKind, id: UserId, u: User, outcomes: seq<bool>) returns (delivered: bool)
      modifies this`mailLog
      ensures mailLog == old(mailLog) + Repeat(MailAttempt(kind, id, u), AttemptCount(outcomes))
      ensures delivered == Delivered(outcomes)
    {
      var m := MailAttempt(kind, id, u);
      var attempts := 0;
      delivered := false;
      while !delivered && attempts < MaxAttempts
        invariant 0 <= attempts <= MaxAttempts
        invariant mailLog == old(mailLog) + Repeat(m, attempts)
        invariant forall j :: 0 <= j < attempts - 1 ==> !SendSucceeds(outcomes, j)
        invariant delivered <==> attempts > 0 && SendSucceeds(outcomes, attempts - 1)
      {
        mailLog := mailLog + [m];
        delivered := SendSucceeds(outcomes, attempts);
        attempts := attempts + 1;
      }
      assert attempts == AttemptCount(outcomes);
      AttemptCountDelivers(outcomes);
    }

    /** `store`: validate, create the user unverified with a fresh code, then send the account-created mail. */
    method Store(req: StoreRequest, freshToken: string, salt: Salt, mailer: seq<bool>)
      returns (status: Status, id: UserId, delivered: bool)
      requires Valid()
      modifies this`users, this`nextId, this`mailLog
      ensures Valid()
      ensures status == Created <==> StoreRequestValid(old(users), req)
      ensures status != Created ==>
        status == Unprocessable && users == old(users) && mailLog == old(mailLog) && !delivered
      ensures status == Created ==>
        && id !in old(users)
        && users == old(users)[id := User(req.name, req.email, hash(req.password, salt), false, Some(freshToken), RegularUser)]
        && mailLog == old(mailLog) + Repeat(MailAttempt(UserCreated, id, users[id]), AttemptCount(mailer))
        && delivered == Delivered(mailer)
      ensures old(TokensUnique()) && old(TokenUnused(freshToken)) ==> TokensUnique()
    {
      id := nextId;
      delivered := false;
      if !StoreRequestValid(users, req) {
        status := Unprocessable;
        return;
      }
      var u := User(req.name, req.email, hash(req.password, salt), false, Some(freshToken), RegularUser);
      users := users[id := u];
      nextId := nextId + 1;
      delivered := SendWithRetry(UserCreated, id, u, mailer);
      status := Created;
    }

    /**
     * `update`: change the loaded record field by field, refuse admin on an
     * unverified record and a request that changes nothing, save, and only
     * then send the email-changed mail when the email changed.
     */
    method Update(id: UserId, req: UpdateRequest, freshToken: string, salt: Salt, mailer: seq<bool>)
      returns (status: Status, delivered: bool)
      requires Valid()
      modifies this`users, this`mailLog
      ensures Valid()
      ensures id !in old(users) ==> status == NotFound && users == old(users) && mailLog == old(mailLog)
      ensures id in old(users) ==>
        var digest := if req.password.Some? then hash(req.password.value, salt) else "";
        match UpdateUser(old(users)[id], req, freshToken, digest)
        case Rejected(s) => status == s && users == old(users) && mailLog == old(mailLog) && !delivered
        case Saved(u, emailChanged) =>
          && status == Ok
          && users == old(users)[id := u]
          && mailLog == old(mailLog) +
               (if emailChanged then Repeat(MailAttempt(UserMailChanged, id, u), AttemptCount(mailer)) else [])
          && delivered == (emailChanged && Delivered(mailer))
      ensures delivered ==> status == Ok
      ensures old(TokensUnique()) && old(TokenUnused(freshToken)) ==> TokensUnique()
    {
      delivered := false;
      if id !in users {
        return NotFound, false;
      }
      var stored := users[id];
      var user := stored;
      var emailChanged := false;
      if req.name.Some? {
        user := user.(name := req.name.value);
      }
      if req.email.Some? && user.email != req.email.value {
        user := user.(verified := false);
        user := user.(token := Some(freshToken));
        user := user.(email := req.email.value);
        emailChanged := true;
      }
      if req.password.Some? {
        user := user.(passwordHash := hash(req.password.value, salt));
      }
      if req.admin.Some? {
        if !user.verified {
          return Conflict, false;
        }
        user := user.(admin := req.admin.value);
      }
      if user == stored {
        return Unprocessable, false;
      }
      users := users[id := user];
      if emailChanged {
        delivered := SendWithRetry(UserMailChanged, id, user, mailer);
      }
      status := Ok;
    }

    /** `User::where('verification_token', $token)->firstOrFail()`: some user holding the token, if any. */
    method FindByToken(token: string) returns (found: Option<UserId>)
      ensures found.None? <==> TokenUnused(token)
      ensures found.Some? ==> found.value in users && users[found.value].token == Some(token)
    {
      if id :| id in users && users[id].token == Some(token) {
        found := Some(id);
      } else {
        found := None;
      }
    }

    /** `verify`: the user holding the token becomes verified and loses the token. */
    method Verify(token: string) returns (status: Status, verifiedId: Option<UserId>)
      requires Valid()
      modifies this`users
      ensures Valid()
      ensures status == NotFound <==> old(TokenUnused(token))
      ensures status == NotFound ==> verifiedId.None? && users == old(users)
      ensures status != NotFound ==>
        && status == Ok
        && verifiedId.Some?
        && verifiedId.value in old(users)
        && old(users)[verifiedId.value].token == Some(token)
        && users == old(users)[verifiedId.value := old(users)[verifiedId.value].(verified := true, token := None)]
      // with unique tokens the token is spent: a second redemption finds nobody
      ensures old(TokensUnique()) ==> TokensUnique() && TokenUnused(token)
    {
      verifiedId := FindByToken(token);
      if verifiedId.None? {
        return NotFound, None;
      }
      var id := verifiedId.value;
      var user := users[id];
      user := user.(verified := true);
      user := user.(token := None);
      users := users[id := user];
      status := Ok;
    }

    /** `resend`: the verification mail again, with the current token; a verified user is refused. */
    method Resend(id: UserId, mailer: seq<bool>) returns (status: Status, delivered: bool)
      modifies this`mailLog
      ensures id !in users ==> status == NotFound && mailLog == old(mailLog) && !delivered
      ensures id in users && users[id].verified ==> status == Conflict && mailLog == old(mailLog) && !delivered
      ensures id in users && !users[id].verified ==>
        && status == Ok
        && mailLog == old(mailLog) + Repeat(MailAttempt(UserCreated, id, users[id]), AttemptCount(mailer))
        && delivered == Delivered(mailer)
    {
      if id !in users {
        return NotFound, false;
      }
      if users[id].verified {
        return Conflict, false;
      }
      delivered := SendWithRetry(UserCreated, id, users[id], mailer);
      status := Ok;
    }

    /** `destroy`: the record leaves the table and is returned. */
    method Destroy(id: UserId) returns (status: Status, deleted: Option<User>)
      requires Valid()
      modifies this`users
      ensures Valid()
      ensures id !in old(users) ==> status == NotFound && deleted.None? && users == old(users)
      ensures id in old(users) ==> status == Ok && deleted == Some(old(users)[id]) && users == old(users) - {id}
    {
      if id !in users {
        return NotFound, None;
      }
      deleted := Some(users[id]);
      users := users - {id};
      status := Ok;
    }
  }

  /** Register, redeem the returned token, redeem it again: the second redemption fails. */
  method RegisterVerifyTwice(c: UserController, token: string, salt: Salt, mailer: seq<bool>)
    returns (created: Status, id: UserId, first: Status, second: Status)
    requires c.Valid() && c.TokensUnique() && c.TokenUnused(token) && EmailFree(c.users, "a@x.com")
    modifies c
    ensures created == Created
    ensures id !in old(c.users)
    ensures first == Ok && second == NotFound
  {
    var delivered;
    created, id, delivered := c.Store(StoreRequest("A", "a@x.com", "secret1", Some("secret1")), token, salt, mailer);
    assert c.users[id].token == Some(token) && !c.users[id].verified;
    var firstId, secondId;
    first, firstId := c.Verify(token);
    second, secondId := c.Verify(token);
  }
}
