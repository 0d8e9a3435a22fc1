/** Sign-in through an OAuth2 provider (OAuth2SuccessHandler.java): the
    provider's email and display name decide the token's subject, an account
    is created for an email seen for the first time, and the browser gets the
    token as a cookie and is sent to the home page. */
module OAuthLogin {
  import opened Common
  import opened AuthService

  const LoginErrorUrl: string := "http://localhost:3000/login?error=Email not provided by Google"
  const HomeUrl: string := "http://localhost:3000/home"

  /** The name of the cookie that carries the token. */
  const JwtCookieName: string := "JWT"
  /** The cookie's lifetime in seconds. */
  const JwtMaxAge: int := 3600

  datatype Cookie = Cookie(name: string, value: string, httpOnly: bool, path: string, maxAge: int, secure: bool)

  /** What the handler does to the response: a redirect, with the cookie it
      adds, if any; or a failure before anything is sent. */
  datatype Outcome = Redirect(location: string, cookie: Option<Cookie>) | Failed(reason: string)

  /** `email.split("@")[0]`: the text before the first '@' (all of it when
      there is none). Splitting drops trailing empty parts, so a non-empty
      email made only of '@' yields no part at all and indexing it fails. */
  function EmailLocalPart(email: string): (r: Option<string>)
    ensures r.None? <==> email != [] && forall i :: 0 <= i < |email| ==> email[i] == '@'
    ensures r.Some? ==> '@' !in r.value && StartsWith(email, r.value)
    ensures r.Some? && '@' in email ==> email[|r.value|] == '@'
    ensures r.Some? && '@' !in email ==> r.value == email
  {
    if email == [] then Some([])
    else if forall i :: 0 <= i < |email| ==> email[i] == '@' then None
    else
      match IndexOf(email, "@")
      case None =>
        assert '@' !in email by {
          forall j | 0 <= j < |email| ensures email[j] != '@' {
            assert !OccursAt(email, "@", j);
            if j + 1 <= |email| { assert email[j..j + 1] == [email[j]]; }
          }
        }
        Some(email)
      case Some(i) =>
        CharBeforeFirstOccurrence(email, '@', i);
        assert email[i..i + 1] == "@";
        assert email[i] == '@';
        Some(email[..i])
  }

  /** The username given to a new account: the display name with spaces
      turned into underscores and lower-cased, or, without a name, the
      email's part before '@' (none when that part does not exist). */
  function DerivedUsername(name: Option<string>, email: string): (r: Option<string>)
    ensures name.Some? ==> r.Some? && |r.value| == |name.value|
    ensures name.Some? ==> ' ' !in r.value && forall i :: 0 <= i < |r.value| ==> !IsUpperAscii(r.value[i])
    ensures name.Some? ==> forall i :: 0 <= i < |r.value| ==>
              r.value[i] == LowerChar(if name.value[i] == ' ' then '_' else name.value[i])
    ensures name.None? ==> r == EmailLocalPart(email)
  {
    if name.Some? then
      var u := ToLower(ReplaceChar(name.value, ' ', '_'));
      assert ' ' !in u by {
        forall i | 0 <= i < |u| ensures u[i] != ' ' { }
      }
      Some(u)
    else EmailLocalPart(email)
  }

  /** The token's subject as written: the raw display name, or the email. */
  function JwtSubject(name: Option<string>, email: string): string
  {
    OrElse(name, email)
  }

  /** The cookie that carries a token: HttpOnly, for the whole site, one hour. */
  function TokenCookie(jwt: string): (c: Cookie)
    ensures c.name == JwtCookieName && c.value == jwt
    ensures c.httpOnly && c.path == "/" && c.maxAge == JwtMaxAge && !c.secure
  {
    Cookie(JwtCookieName, jwt, true, "/", JwtMaxAge, false)
  }

  /** The account a first sign-in creates: email and derived username,
      the default rating, no password, streak 0 and no login yet. */
  function NewAccount(username: string, email: string): (u: User)
    ensures u.username == username && u.emailId == email && u.rating == DefaultRating
    ensures u.streak == 0 && u.lastLoginDay.None?
  {
    User(username, email, "", DefaultRating, 0, None)
  }

  /** The account step of onAuthenticationSuccess: an account already
      holding the email is used as it is; a new email gets a new account
      under the derived username, unless that username does not exist or is
      already taken, which fails with nothing stored. The result is the id
      of the account that holds the email. */
  method FindOrCreateAccount(store: UserStore, email: string, name: Option<string>) returns (r: Result<int>)
    requires store.Valid()
    modifies store
    ensures store.Valid()
    ensures r.Ok? ==> r.value in store.users && store.users[r.value].emailId == email
    ensures old(store.EmailTaken(email)) ==> r.Ok? && store.users == old(store.users)
    ensures !old(store.EmailTaken(email)) && r.Ok? ==>
              var username := DerivedUsername(name, email);
              username.Some? && r.value == old(store.nextId) && old(store.nextId) !in old(store.users) &&
              store.users == old(store.users)[old(store.nextId) := NewAccount(username.value, email)]
    ensures r.Err? ==>
              !old(store.EmailTaken(email)) && store.users == old(store.users) &&
              (DerivedUsername(name, email).None? || old(store.UsernameTaken(DerivedUsername(name, email).value)))
  {
    if id :| id in store.users && store.users[id].emailId == email {
      return Ok(id);
    }
    var username := DerivedUsername(name, email);
    if username.None? {
      return Err("email has no part before '@'");
    }
    var id := store.nextId;
    var ok := store.Insert(NewAccount(username.value, email));
    if !ok {
      return Err("username already in use");
    }
    r := Ok(id);
  }

  /** onAuthenticationSuccess. Without an email the browser is sent to the
      login error page and nothing else happens. Otherwise the token is
      signed for the subject; an account already holding the email is left
      as it is, and a new email gets a new account (a derived username that
      does not exist or is already taken makes the request fail before any
      cookie). The response carries the token cookie and a redirect home. */
  method OnAuthenticationSuccess(store: UserStore, email: Option<string>, name: Option<string>,
                                 sign: string -> string) returns (o: Outcome)
    requires store.Valid()
    modifies store
    ensures store.Valid()
    ensures email.None? ==> o == Redirect(LoginErrorUrl, None) && store.users == old(store.users)
    ensures email.Some? && old(store.EmailTaken(email.value)) ==>
              o == Redirect(HomeUrl, Some(TokenCookie(sign(JwtSubject(name, email.value))))) &&
              store.users == old(store.users)
    ensures email.Some? && !old(store.EmailTaken(email.value)) && o.Redirect? ==>
              var username := DerivedUsername(name, email.value);
              username.Some? &&
              o == Redirect(HomeUrl, Some(TokenCookie(sign(JwtSubject(name, email.value))))) &&
              old(store.nextId) !in old(store.users) &&
              store.users == old(store.users)[old(store.nextId) := NewAccount(username.value, email.value)]
    ensures o.Failed? ==>
              email.Some? && !old(store.EmailTaken(email.value)) && store.users == old(store.users) &&
              (DerivedUsername(name, email.value).None? ||
               old(store.UsernameTaken(DerivedUsername(name, email.value).value)))
  {
    if email.None? {
      return Redirect(LoginErrorUrl, None);
    }
    var jwt := sign(JwtSubject(name, email.value));
    var account := FindOrCreateAccount(store, email.value, name);
    if account.Err? {
      return Failed(account.message);
    }
    o := Redirect(HomeUrl, Some(TokenCookie(jwt)));
  }

  /** Corrected onAuthenticationSuccess: the same accounts are found or
      created, but the token is signed for the username of the account that
      holds the email, so its subject names exactly that account. */
  method OnAuthenticationSuccessFixed(store: UserStore, email: Option<string>, name: Option<string>,
                                      sign: string -> string) returns (o: Outcome)
    requires store.Valid()
    modifies store
    ensures store.Valid()
    ensures email.None? ==> o == Redirect(LoginErrorUrl, None) && store.users == old(store.users)
    ensures o.Redirect? && email.Some? ==>
              exists id :: id in store.users && store.users[id].emailId == email.value &&
                o == Redirect(HomeUrl, Some(TokenCookie(sign(store.users[id].username)))) &&
                (forall j :: j in store.users && store.users[j].username == store.users[id].username ==> j == id)
    ensures email.Some? && old(store.EmailTaken(email.value)) ==> o.Redirect? && store.users == old(store.users)
    ensures email.Some? && !old(store.EmailTaken(email.value)) && o.Redirect? ==>
              var username := DerivedUsername(name, email.value);
              username.Some? &&
              o == Redirect(HomeUrl, Some(TokenCookie(sign(username.value)))) &&
              old(store.nextId) !in old(store.users) &&
              store.users == old(store.users)[old(store.nextId) := NewAccount(username.value, email.value)]
    ensures o.Failed? ==>
              email.Some? && !old(store.EmailTaken(email.value)) && store.users == old(store.users) &&
              (DerivedUsername(name, email.value).None? ||
               old(store.UsernameTaken(DerivedUsername(name, email.value).value)))
  {
    if email.None? {
      return Redirect(LoginErrorUrl, None);
    }
    var account := FindOrCreateAccount(store, email.value, name);
    if account.Err? {
      return Failed(account.message);
    }
    var id := account.value;
    o := Redirect(HomeUrl, Some(TokenCookie(sign(store.users[id].username))));
  }

  /** The username derived from the display name "John Doe". */
  lemma JohnDoeUsername(name: string, email: string)
    requires name == "John Doe"
    ensures DerivedUsername(Some(name), email) == Some("john_doe")
  {
    var u := DerivedUsername(Some(name), email).value;
    forall i | 0 <= i < 8
      ensures u[i] == "john_doe"[i]
    {
      assert u[i] == LowerChar(if name[i] == ' ' then '_' else name[i]);
    }
    assert u == "john_doe";
  }

  /** As written: a display name with a space or a capital gives a token
      whose subject is not the username of the account it signs in, so the
      services that look the caller up by username do not find them. */
  lemma NameSubjectIsNotUsername()
    ensures JwtSubject(Some("John Doe"), "jd@example.com") == "John Doe"
    ensures DerivedUsername(Some("John Doe"), "jd@example.com") == Some("john_doe")
    ensures JwtSubject(Some("John Doe"), "jd@example.com") != DerivedUsername(Some("John Doe"), "jd@example.com").value
  {
    JohnDoeUsername("John Doe", "jd@example.com");
    assert "John Doe"[0] != "john_doe"[0];
  }
}
