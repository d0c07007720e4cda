/**
 * The handlers of backend/src/controllers/authController.js, with bcrypt, the JWT signer and
 * the ObjectId text form as parameters.
 */
module AuthController {
  import opened Common
  import opened Models
  import opened Db

  const MissingFields: string := "Please enter all fields"
  const UserExists: string := "User already exists"
  const InvalidCredentials: string := "Invalid credentials"
  const GoogleCallbackError: string := "Error handling Google authentication callback"
  const CallbackPath: string := "/auth/google/callback?token="

  /**
   * The libraries the handlers call: `bcrypt.hash(password, salt)`, `bcrypt.compare(entered,
   * stored)`, `generateToken(id)` (which throws when signing fails, for instance with no
   * secret) and the text of an id.
   */
  datatype Externals = Externals(
    hash: (string, string) -> string,
    compare: (string, string) -> bool,
    sign: Id -> Result<string>,
    idText: Id -> string)

  /** `user.matchPassword(entered)`: false when no password is stored, otherwise bcrypt's verdict. */
  predicate MatchPassword(user: User, entered: string, ext: Externals)
  {
    Truthy(user.password) && ext.compare(entered, user.password.value)
  }

  /** The reply a signup gets and the user table it leaves. */
  datatype Outcome = Outcome(response: Response, users: seq<User>)

  /** The user an admitted signup stores. */
  function NewUser(displayName: Option<string>, email: string, password: string, salt: string,
                   ext: Externals, clock: nat, nextId: nat): User
  {
    User(nextId, None, displayName, email, None, Some(ext.hash(password, salt)), clock)
  }

  /**
   * `signupUser`, as one function of the user table. The handler has no try block, so an
   * error thrown by the insert or by the signer escapes it (`Unhandled`); a signer error
   * comes after the user is stored.
   */
  function Signup(users: seq<User>, clock: nat, nextId: nat, displayName: Option<string>, email: Option<string>,
                  password: Option<string>, salt: string, ext: Externals): (o: Outcome)
    ensures users <= o.users && |o.users| <= |users| + 1
  {
    if !Truthy(displayName) || !Truthy(email) || !Truthy(password) then
      Outcome(Reply(400, ErrorBody(MissingFields)), users)
    else if FindUserByEmail(users, email.value).Some? then
      Outcome(Reply(400, ErrorBody(UserExists)), users)
    else if !EmailMatches(email.value) then
      Outcome(Unhandled(EmailInvalid), users)
    else
      var u := NewUser(displayName, email.value, password.value, salt, ext, clock, nextId);
      match ext.sign(u.id)
      case Failure(e) => Outcome(Unhandled(e), users + [u])
      case Success(token) => Outcome(Reply(201, AuthDoc(u.id, u.displayName, u.email, token)), users + [u])
  }

  /** `signupUser` over the store: the field check, the email lookup, the insert, the token. */
  method SignupUser(db: Database, displayName: Option<string>, email: Option<string>, password: Option<string>,
                    salt: string, ext: Externals) returns (r: Response)
    requires db.Valid()
    modifies db
    ensures db.Valid()
    ensures Outcome(r, db.users) == Signup(old(db.users), old(db.clock), old(db.nextId), displayName, email, password, salt, ext)
    ensures db.sessions == old(db.sessions) && db.messages == old(db.messages) && db.evaluations == old(db.evaluations)
    ensures db.clock == old(db.clock) + (|db.users| - |old(db.users)|)
    ensures db.nextId == old(db.nextId) + (|db.users| - |old(db.users)|)
  {
    if !Truthy(displayName) || !Truthy(email) || !Truthy(password) {
      return Reply(400, ErrorBody(MissingFields));
    }
    if FindUserByEmail(db.users, email.value).Some? {
      return Reply(400, ErrorBody(UserExists));
    }
    var created := db.CreateUser(displayName, email.value, password, ext.hash, salt);
    if created.Failure? {
      return Unhandled(created.error);
    }
    var user := created.value;
    var token := ext.sign(user.id);
    if token.Failure? {
      return Unhandled(token.error);
    }
    r := Reply(201, AuthDoc(user.id, user.displayName, user.email, token.value));
  }

  /** Signup refusals (a missing field, a taken email, a malformed email) store no user. */
  lemma SignupRefusalStoresNothing(users: seq<User>, clock: nat, nextId: nat, displayName: Option<string>,
                                   email: Option<string>, password: Option<string>, salt: string, ext: Externals)
    requires !Truthy(displayName) || !Truthy(email) || !Truthy(password)
             || FindUserByEmail(users, email.value).Some? || !EmailMatches(email.value)
    ensures Signup(users, clock, nextId, displayName, email, password, salt, ext).users == users
    ensures !Truthy(displayName) || !Truthy(email) || !Truthy(password)
            ==> Signup(users, clock, nextId, displayName, email, password, salt, ext).response == Reply(400, ErrorBody(MissingFields))
    ensures Truthy(displayName) && Truthy(email) && Truthy(password) && FindUserByEmail(users, email.value).Some?
            ==> Signup(users, clock, nextId, displayName, email, password, salt, ext).response == Reply(400, ErrorBody(UserExists))
  {
  }

  /** A 201 signup stored exactly one user, with the given name and email and the hashed password, and answers with it. */
  lemma SignupStoresOneUser(users: seq<User>, clock: nat, nextId: nat, displayName: Option<string>,
                            email: Option<string>, password: Option<string>, salt: string, ext: Externals)
    requires Signup(users, clock, nextId, displayName, email, password, salt, ext).response.Reply?
    requires Signup(users, clock, nextId, displayName, email, password, salt, ext).response.status == 201
    ensures email.Some? && password.Some?
    ensures var u := NewUser(displayName, email.value, password.value, salt, ext, clock, nextId);
            var o := Signup(users, clock, nextId, displayName, email, password, salt, ext);
            o.users == users + [u] && u.password == Some(ext.hash(password.value, salt))
            && o.response == Reply(201, AuthDoc(nextId, displayName, email.value, ext.sign(nextId).value))
  {
  }

  /**
   * A signup with all fields truthy, an email free and well formed, and a token the signer
   * produces gets 201 with that token, and the new user is appended.
   */
  lemma SignupSucceeds(users: seq<User>, clock: nat, nextId: nat, displayName: Option<string>,
                       email: Option<string>, password: Option<string>, salt: string, ext: Externals)
    requires Truthy(displayName) && Truthy(email) && Truthy(password)
    requires forall k :: 0 <= k < |users| ==> users[k].email != email.value
    requires EmailMatches(email.value) && ext.sign(nextId).Success?
    ensures Signup(users, clock, nextId, displayName, email, password, salt, ext)
            == Outcome(Reply(201, AuthDoc(nextId, displayName, email.value, ext.sign(nextId).value)),
                       users + [NewUser(displayName, email.value, password.value, salt, ext, clock, nextId)])
  {
  }

  /**
   * When the signer fails, the error escapes the handler after the insert: the user stays
   * stored although the request gets no reply.
   */
  lemma SignerFailureKeepsUser(users: seq<User>, clock: nat, nextId: nat, displayName: Option<string>,
                               email: Option<string>, password: Option<string>, salt: string, ext: Externals)
    requires Truthy(displayName) && Truthy(email) && Truthy(password)
    requires FindUserByEmail(users, email.value).None? && EmailMatches(email.value) && ext.sign(nextId).Failure?
    ensures Signup(users, clock, nextId, displayName, email, password, salt, ext)
            == Outcome(Unhandled(ext.sign(nextId).error), users + [NewUser(displayName, email.value, password.value, salt, ext, clock, nextId)])
  {
  }

  /** A signup gets 201 exactly when its fields are truthy, its email free and well formed, and the signer succeeds. */
  lemma SignupGives201Exactly(users: seq<User>, clock: nat, nextId: nat, displayName: Option<string>,
                              email: Option<string>, password: Option<string>, salt: string, ext: Externals)
    ensures var r := Signup(users, clock, nextId, displayName, email, password, salt, ext).response;
            r.Reply? && r.status == 201
            <==> Truthy(displayName) && Truthy(email) && Truthy(password)
                 && FindUserByEmail(users, email.value).None? && EmailMatches(email.value) && ext.sign(nextId).Success?
  {
  }

  /**
   * A user stored by signup matches exactly the passwords bcrypt accepts against the stored
   * hash; a user stored without a password, as the Google strategy does, never matches.
   */
  lemma {:induction false} SignupUserMatchesItsPassword(users: seq<User>, clock: nat, nextId: nat, displayName: Option<string>,
                                                        email: Option<string>, password: Option<string>, salt: string,
                                                        ext: Externals, entered: string)
    requires Signup(users, clock, nextId, displayName, email, password, salt, ext).users != users
    requires ext.hash(password.value, salt) != ""
    ensures var u := Signup(users, clock, nextId, displayName, email, password, salt, ext).users[|users|];
            MatchPassword(u, entered, ext) <==> ext.compare(entered, ext.hash(password.value, salt))
  {
  }

  /** A user with no stored password, as the Google strategy creates, never matches a password. */
  lemma NoPasswordNeverMatches(user: User, entered: string, ext: Externals)
    requires user.password.None?
    ensures !MatchPassword(user, entered, ext)
  {
  }

  /** Signup keeps emails unique. */
  lemma SignupKeepsEmailsUnique(users: seq<User>, clock: nat, nextId: nat, displayName: Option<string>,
                                email: Option<string>, password: Option<string>, salt: string, ext: Externals)
    requires UniqueEmails(users)
    ensures UniqueEmails(Signup(users, clock, nextId, displayName, email, password, salt, ext).users)
  {
  }

  /** `loginUser`: the user with that email, if the password matches, gets its id, name, email and a token. */
  function Login(users: seq<User>, email: string, password: string, ext: Externals): (r: Response)
    ensures r.Reply? && r.status == 200 ==>
              exists k :: 0 <= k < |users| && users[k].email == email && MatchPassword(users[k], password, ext)
                          && ext.sign(users[k].id).Success?
                          && r == Reply(200, AuthDoc(users[k].id, users[k].displayName, email, ext.sign(users[k].id).value))
  {
    match FindUserByEmail(users, email)
    case None => Reply(400, ErrorBody(InvalidCredentials))
    case Some(k) =>
      if !MatchPassword(users[k], password, ext) then Reply(400, ErrorBody(InvalidCredentials))
      else match ext.sign(users[k].id)
        case Failure(e) => Unhandled(e)
        case Success(token) => Reply(200, AuthDoc(users[k].id, users[k].displayName, users[k].email, token))
  }

  /** An unknown email and a wrong password get the same 400. */
  lemma LoginFailuresLookAlike(users: seq<User>, email: string, password: string, ext: Externals)
    requires forall k :: 0 <= k < |users| && users[k].email == email ==> !MatchPassword(users[k], password, ext)
    ensures Login(users, email, password, ext) == Reply(400, ErrorBody(InvalidCredentials))
  {
  }

  /** With unique emails, the user with that email logs in exactly when the password matches and a token is signed. */
  lemma LoginSucceedsForMatchingUser(users: seq<User>, k: nat, password: string, ext: Externals)
    requires UniqueEmails(users) && k < |users|
    ensures Login(users, users[k].email, password, ext).Reply? && Login(users, users[k].email, password, ext).status == 200
            <==> MatchPassword(users[k], password, ext) && ext.sign(users[k].id).Success?
    ensures MatchPassword(users[k], password, ext) && ext.sign(users[k].id).Success? ==>
              Login(users, users[k].email, password, ext)
              == Reply(200, AuthDoc(users[k].id, users[k].displayName, users[k].email, ext.sign(users[k].id).value))
  {
    var f := FindUserByEmail(users, users[k].email);
    assert f.Some?;
    assert f.value == k;
  }

  /**
   * A signed-up user can log in with the password they gave, provided bcrypt's compare accepts
   * a password against its own hash, and gets the same answer the signup gave.
   */
  lemma LoginAfterSignup(users: seq<User>, clock: nat, nextId: nat, displayName: Option<string>,
                         email: Option<string>, password: Option<string>, salt: string, ext: Externals)
    requires UniqueEmails(users)
    requires Signup(users, clock, nextId, displayName, email, password, salt, ext).response.Reply?
    requires Signup(users, clock, nextId, displayName, email, password, salt, ext).response.status == 201
    requires password.Some? && ext.hash(password.value, salt) != ""
    requires ext.compare(password.value, ext.hash(password.value, salt))
    ensures email.Some?
    ensures var o := Signup(users, clock, nextId, displayName, email, password, salt, ext);
            Login(o.users, email.value, password.value, ext) == o.response.(status := 200)
  {
    var o := Signup(users, clock, nextId, displayName, email, password, salt, ext);
    SignupKeepsEmailsUnique(users, clock, nextId, displayName, email, password, salt, ext);
    LoginSucceedsForMatchingUser(o.users, |users|, password.value, ext);
  }

  /** The redirect of the Google callback: the fields spliced into the query text as they are, without encoding. */
  function GoogleRedirectUrl(frontendUrl: Option<string>, token: string, id: string,
                             displayName: Option<string>, email: string): (url: string)
    ensures StartsWith(url, TemplateText(frontendUrl) + CallbackPath + token)
    ensures EndsWith(url, "&email=" + email)
  {
    TemplateText(frontendUrl) + CallbackPath + token
      + ("&id=" + id + ("&displayName=" + TemplateText(displayName) + ("&email=" + email)))
  }

  /** `googleAuthCallback`: sign a token for the authenticated user and redirect, or answer 500. */
  function GoogleAuthCallback(env: Env, ext: Externals, user: User): (r: Response)
    ensures ext.sign(user.id).Failure? ==> r == Reply(500, ErrorBody(GoogleCallbackError))
    ensures ext.sign(user.id).Success? ==>
              r.Redirect? && StartsWith(r.location, TemplateText(env.frontendUrl) + CallbackPath + ext.sign(user.id).value)
  {
    match ext.sign(user.id)
    case Failure(_) => Reply(500, ErrorBody(GoogleCallbackError))
    case Success(token) =>
      Redirect(GoogleRedirectUrl(env.frontendUrl, token, ext.idText(user.id), user.displayName, user.email))
  }

  /** Each `&name=` literal is an `&` followed by `name=`, so the query is its parameters joined by `&`. */
  lemma QueryIsJoined(head: string, id: string, name: string, email: string)
    ensures head + ("&id=" + id + ("&displayName=" + name + ("&email=" + email)))
            == head + ['&'] + (("id=" + id) + ['&'] + (("displayName=" + name) + ['&'] + ("email=" + email)))
  {
    var p3 := "email=" + email;
    var p2 := "displayName=" + name;
    var p1 := "id=" + id;
    assert "&email=" + email == ['&'] + p3;
    assert "&displayName=" + name + ['&'] + p3 == ['&'] + (p2 + ['&'] + p3);
    assert "&id=" + id + (['&'] + (p2 + ['&'] + p3)) == ['&'] + (p1 + ['&'] + (p2 + ['&'] + p3));
  }

  /** The redirect is the head and the three parameters joined by `&`. */
  lemma RedirectIsJoined(frontendUrl: Option<string>, token: string, id: string,
                         displayName: Option<string>, email: string)
    ensures GoogleRedirectUrl(frontendUrl, token, id, displayName, email)
            == (TemplateText(frontendUrl) + CallbackPath + token) + ['&']
               + (("id=" + id) + ['&'] + (("displayName=" + TemplateText(displayName)) + ['&'] + ("email=" + email)))
  {
    QueryIsJoined(TemplateText(frontendUrl) + CallbackPath + token, id, TemplateText(displayName), email);
  }

  /**
   * When no field holds an `&`, splitting the redirect at `&` gives back the four query
   * parameters, each with its value intact.
   */
  lemma RedirectFieldsRecoverable(frontendUrl: Option<string>, token: string, id: string,
                                  displayName: Option<string>, email: string)
    requires '&' !in TemplateText(frontendUrl) + CallbackPath + token
    requires '&' !in id && '&' !in TemplateText(displayName) && '&' !in email
    ensures Split(GoogleRedirectUrl(frontendUrl, token, id, displayName, email), '&')
            == [TemplateText(frontendUrl) + CallbackPath + token, "id=" + id,
                "displayName=" + TemplateText(displayName), "email=" + email]
  {
    var head := TemplateText(frontendUrl) + CallbackPath + token;
    var p1 := "id=" + id;
    var p2 := "displayName=" + TemplateText(displayName);
    var p3 := "email=" + email;
    RedirectIsJoined(frontendUrl, token, id, displayName, email);
    assert '&' !in p1 && '&' !in p2 && '&' !in p3;
    SplitJoin(head, '&', p1 + ['&'] + (p2 + ['&'] + p3));
    SplitJoin(p1, '&', p2 + ['&'] + p3);
    SplitJoin(p2, '&', p3);
    SplitNoSeparator(p3, '&');
  }

  /** A display name holding an `&` splits into an extra query parameter: the value is not encoded. */
  lemma AmpersandInNameAddsParameter(frontendUrl: Option<string>, token: string, id: string,
                                     a: string, b: string, email: string)
    requires '&' !in TemplateText(frontendUrl) + CallbackPath + token
    requires '&' !in id && '&' !in a && '&' !in b && '&' !in email
    ensures |Split(GoogleRedirectUrl(frontendUrl, token, id, Some(a + "&" + b), email), '&')| == 5
    ensures Split(GoogleRedirectUrl(frontendUrl, token, id, Some(a + "&" + b), email), '&')[2] == "displayName=" + a
  {
    var head := TemplateText(frontendUrl) + CallbackPath + token;
    var p1 := "id=" + id;
    var p2 := "displayName=" + a;
    var p4 := "email=" + email;
    RedirectIsJoined(frontendUrl, token, id, Some(a + "&" + b), email);
    assert "displayName=" + TemplateText(Some(a + "&" + b)) == p2 + ['&'] + b;
    assert (p2 + ['&'] + b) + ['&'] + p4 == p2 + ['&'] + (b + ['&'] + p4);
    assert '&' !in p1 && '&' !in p2 && '&' !in p4;
    SplitJoin(head, '&', p1 + ['&'] + (p2 + ['&'] + (b + ['&'] + p4)));
    SplitJoin(p1, '&', p2 + ['&'] + (b + ['&'] + p4));
    SplitJoin(p2, '&', b + ['&'] + p4);
    SplitJoin(b, '&', p4);
    SplitNoSeparator(p4, '&');
  }
}
