/**
  The HTTP handlers for registration, login and portfolios, as functions
  from a store and a request to the new store and the response. Hashing,
  password comparison, token signing and token verification are parameters,
  and so are the e-mail and URL checks and the fresh ids.
*/
module Routes {
  import opened Wrappers
  import opened Text
  import opened Schema
  import opened Lists
  import opened Store
  import opened Auth
  import Editor

  /** A user as responses show it: everything but the password hash. */
  datatype PublicUser = PublicUser(id: string, username: string, email: string, name: string)

  datatype Body =
    | Message(message: string)
    | Session(user: PublicUser, token: string)
    | Row(portfolio: Portfolio)
    | Public(page: PublicPortfolio)

  datatype Response = Response(status: int, body: Body)

  const EmailTaken := "Email already registered"
  const UsernameTaken := "Username already taken"
  const BadCredentials := "Invalid email or password"
  const UserNotFound := "User not found"
  const PortfolioNotFound := "Portfolio not found"

  function WithoutPassword(u: User): (r: PublicUser)
    ensures r.id == u.id && r.username == u.username && r.email == u.email && r.name == u.name
  {
    PublicUser(u.id, u.username, u.email, u.name)
  }

  /** The foreign services the handlers call. */
  datatype Services = Services(
    isEmail: string -> bool,
    isUrl: string -> bool,
    hash: string -> string,
    checkPassword: (string, string) -> bool,
    sign: Payload -> string,
    verify: string -> Option<Payload>)

  // ---------------------------------------------------------------------
  // Register

  /** The portfolio registration creates: owned by the new user, every scalar `null`, every list empty. */
  function BlankRequest(userId: string): NewPortfolio {
    NewPortfolio(userId, None, None, None, None, None, None, None, None, None, Some([]), Some([]), Some([]), Some([]))
  }

  /**
    `POST /api/auth/register`: schema errors and clashes answer 400 and leave
    the store alone; the e-mail is checked before the username. Success
    stores the user and one blank portfolio and answers 201.
  */
  function Register(s: Store, b: RegisterBody, sv: Services, userId: string, portfolioId: string): (r: (Store, Response))
    ensures ValidateRegister(b, sv.isEmail).Err? ==> r == (s, Response(400, Message(ValidateRegister(b, sv.isEmail).error)))
    ensures ValidateRegister(b, sv.isEmail).Ok? && GetUserByEmail(s, b.email.value).Some? ==> r == (s, Response(400, Message(EmailTaken)))
    ensures ValidateRegister(b, sv.isEmail).Ok? && GetUserByEmail(s, b.email.value).None? && GetUserByUsername(s, b.username.value).Some?
      ==> r == (s, Response(400, Message(UsernameTaken)))
    ensures r.1.status == 201 <==>
      && ValidateRegister(b, sv.isEmail).Ok?
      && GetUserByEmail(s, b.email.value).None?
      && GetUserByUsername(s, b.username.value).None?
    ensures r.1.status != 201 ==> r.0 == s && r.1.status == 400
  {
    match ValidateRegister(b, sv.isEmail)
    case Err(m) => (s, Response(400, Message(m)))
    case Ok(reg) =>
      if GetUserByEmail(s, reg.email).Some? then (s, Response(400, Message(EmailTaken)))
      else if GetUserByUsername(s, reg.username).Some? then (s, Response(400, Message(UsernameTaken)))
      else
        var (s1, user) := CreateUser(s, NewUser(reg.username, reg.email, sv.hash(reg.password), reg.name), userId);
        var (s2, _) := CreatePortfolio(s1, BlankRequest(user.id), portfolioId);
        (s2, Response(201, Session(WithoutPassword(user), sv.sign(Payload(user.id, user.email)))))
  }

  /** A registration with a taken e-mail is refused for that reason, whatever the username. */
  lemma EmailCheckedFirst(s: Store, b: RegisterBody, sv: Services, userId: string, portfolioId: string)
    requires ValidateRegister(b, sv.isEmail).Ok?
    requires GetUserByEmail(s, b.email.value).Some?
    requires GetUserByUsername(s, b.username.value).Some?
    ensures Register(s, b, sv, userId, portfolioId).1 == Response(400, Message(EmailTaken))
  {
  }

  /**
    A successful registration with fresh ids adds exactly the user (password
    hashed) and a portfolio with role "developer", no scalars and empty
    lists, which the owner lookup then returns; the store stays valid.
  */
  lemma RegisterCreates(s: Store, b: RegisterBody, sv: Services, userId: string, portfolioId: string)
    requires Valid(s) && UserIdFree(s.users, userId) && PortfolioIdFree(s.portfolios, portfolioId)
    requires GetPortfolioByUserId(s, userId).None?
    requires Register(s, b, sv, userId, portfolioId).1.status == 201
    ensures var (s', resp) := Register(s, b, sv, userId, portfolioId);
      && s'.users == s.users + [User(userId, b.username.value, b.email.value, sv.hash(b.password.value), b.name.value)]
      && s'.portfolios == s.portfolios + [Defaults(BlankRequest(userId), portfolioId)]
      && Valid(s')
      && GetPortfolioByUserId(s', userId) == Some(Defaults(BlankRequest(userId), portfolioId))
      && resp.body.Session? && resp.body.user == PublicUser(userId, b.username.value, b.email.value, b.name.value)
  {
    var reg := ValidateRegister(b, sv.isEmail).value;
    var n := NewUser(reg.username, reg.email, sv.hash(reg.password), reg.name);
    var (s1, user) := CreateUser(s, n, userId);
    CreateUserValid(s, n, userId);
    assert s1.portfolios == s.portfolios;
    CreatePortfolioValid(s1, BlankRequest(user.id), portfolioId);
    var s2 := Register(s, b, sv, userId, portfolioId).0;
    assert s2.portfolios == s.portfolios + [Defaults(BlankRequest(userId), portfolioId)];
    FindIndexIs(s2.portfolios, (x: Portfolio) => x.userId == userId, |s.portfolios|);
  }

  /** The registered user's portfolio holds nothing yet. */
  lemma RegisteredPortfolioBlank(userId: string, portfolioId: string)
    ensures var p := Defaults(BlankRequest(userId), portfolioId);
      && p.role == DefaultRole && p.userId == userId
      && p.bio.None? && p.title.None? && p.location.None? && p.website.None?
      && p.github.None? && p.linkedin.None? && p.twitter.None? && p.profilePicture.None?
      && p.skills == Some([]) && p.projects == Some([]) && p.education == Some([]) && p.experience == Some([])
  {
  }

  // ---------------------------------------------------------------------
  // Login

  /** `POST /api/auth/login`: never changes the store. */
  function Login(s: Store, b: LoginBody, sv: Services): (r: Response)
    ensures ValidateLogin(b, sv.isEmail).Err? ==> r == Response(400, Message(ValidateLogin(b, sv.isEmail).error))
    ensures r.status == 200 <==>
      && ValidateLogin(b, sv.isEmail).Ok?
      && GetUserByEmail(s, b.email.value).Some?
      && sv.checkPassword(b.password.value, GetUserByEmail(s, b.email.value).value.password)
    ensures r.status == 200 ==> r.body.Session? && r.body.user == WithoutPassword(GetUserByEmail(s, b.email.value).value)
  {
    match ValidateLogin(b, sv.isEmail)
    case Err(m) => Response(400, Message(m))
    case Ok(c) =>
      match GetUserByEmail(s, c.email)
      case None => Response(401, Message(BadCredentials))
      case Some(user) =>
        if !sv.checkPassword(c.password, user.password) then Response(401, Message(BadCredentials))
        else Response(200, Session(WithoutPassword(user), sv.sign(Payload(user.id, user.email))))
  }

  /** An unknown e-mail and a wrong password get the very same answer. */
  lemma LoginFailuresAlike(s: Store, b: LoginBody, sv: Services)
    requires ValidateLogin(b, sv.isEmail).Ok?
    requires Login(s, b, sv).status != 200
    ensures Login(s, b, sv) == Response(401, Message(BadCredentials))
  {
  }

  // ---------------------------------------------------------------------
  // Own portfolio

  /** `GET /api/portfolio` behind the middleware. */
  function GetOwn(s: Store, header: Option<string>, sv: Services): (r: Response)
    ensures Authenticate(header, sv.verify).Reject? ==> r == Response(401, Message(Authenticate(header, sv.verify).message))
    ensures Authenticate(header, sv.verify).Admit? ==>
      var owner := Authenticate(header, sv.verify).user.userId;
      && (GetPortfolioByUserId(s, owner).None? ==> r == Response(404, Message(PortfolioNotFound)))
      && (GetPortfolioByUserId(s, owner).Some? ==> r == Response(200, Row(GetPortfolioByUserId(s, owner).value)))
  {
    match Authenticate(header, sv.verify)
    case Reject(status, m) => Response(status, Message(m))
    case Admit(user) =>
      match GetPortfolioByUserId(s, user.userId)
      case None => Response(404, Message(PortfolioNotFound))
      case Some(p) => Response(200, Row(p))
  }

  /** A supplied scalar is stored as `value || null`; an absent one is left out of the patch. */
  function ScalarUpdate(o: Option<string>): (r: Option<Option<string>>)
    ensures o.None? <==> r.None?
    ensures o == Some("") ==> r == Some(None)
    ensures Truthy(o) ==> r == Some(o)
  {
    if o.None? then None else Some(OrNull(o))
  }

  /** A supplied list replaces the stored one wholesale. */
  function ListUpdate<T>(o: Option<seq<T>>): (r: Option<Option<seq<T>>>)
    ensures o.None? <==> r.None?
    ensures o.Some? ==> r == Some(o)
  {
    if o.None? then None else Some(o)
  }

  /**
    The patch the PUT handler assembles: each of the seven text fields and
    four lists the request supplies, and no id, owner, role or picture ever.
  */
  function UpdatesOf(u: UpdateRequest): (r: PortfolioPatch)
    ensures r.id.None? && r.userId.None? && r.role.None? && r.profilePicture.None?
    ensures r.bio == ScalarUpdate(u.bio) && r.title == ScalarUpdate(u.title)
    ensures r.location == ScalarUpdate(u.location) && r.website == ScalarUpdate(u.website)
    ensures r.github == ScalarUpdate(u.github) && r.linkedin == ScalarUpdate(u.linkedin)
    ensures r.twitter == ScalarUpdate(u.twitter)
    ensures r.skills == ListUpdate(u.skills) && r.projects == ListUpdate(u.projects)
    ensures r.education == ListUpdate(u.education) && r.experience == ListUpdate(u.experience)
  {
    PortfolioPatch(None, None, None,
      ScalarUpdate(u.bio), ScalarUpdate(u.title), ScalarUpdate(u.location), ScalarUpdate(u.website),
      ScalarUpdate(u.github), ScalarUpdate(u.linkedin), ScalarUpdate(u.twitter), None,
      ListUpdate(u.skills), ListUpdate(u.projects), ListUpdate(u.education), ListUpdate(u.experience))
  }

  /** The row the PUT handler creates when the user has none; no role is passed, so it defaults. */
  function CreationOf(userId: string, u: UpdateRequest): NewPortfolio {
    NewPortfolio(userId, None,
      OrNull(u.bio), OrNull(u.title), OrNull(u.location), OrNull(u.website),
      OrNull(u.github), OrNull(u.linkedin), OrNull(u.twitter), None,
      Some(Items(u.skills)), Some(Items(u.projects)), Some(Items(u.education)), Some(Items(u.experience)))
  }

  /**
    `PUT /api/portfolio`: after authentication and validation, create the
    portfolio when the user has none, otherwise patch the first one.
  */
  function Put(s: Store, header: Option<string>, u: UpdateRequest, sv: Services, freshId: string): (r: (Store, Response))
    ensures Authenticate(header, sv.verify).Reject? ==> r == (s, Response(401, Message(Authenticate(header, sv.verify).message)))
    ensures Authenticate(header, sv.verify).Admit? && ValidateUpdate(u, sv.isUrl).Err? ==>
      r == (s, Response(400, Message(ValidateUpdate(u, sv.isUrl).error)))
    ensures r.1.status == 200 <==> Authenticate(header, sv.verify).Admit? && ValidUpdate(u, sv.isUrl)
    ensures r.1.status != 200 ==> r.0 == s
    ensures r.1.status == 200 ==>
      && r.0.users == s.users && r.1.body.Row?
      && r.1.body.portfolio.userId == Authenticate(header, sv.verify).user.userId
  {
    match Authenticate(header, sv.verify)
    case Reject(status, m) => (s, Response(status, Message(m)))
    case Admit(user) =>
      match ValidateUpdate(u, sv.isUrl)
      case Err(m) => (s, Response(400, Message(m)))
      case Ok(v) =>
        if GetPortfolioByUserId(s, user.userId).None? then
          var (s', p) := CreatePortfolio(s, CreationOf(user.userId, v), freshId);
          (s', Response(200, Row(p)))
        else
          var (s', p) := UpdatePortfolio(s, user.userId, UpdatesOf(v));
          (s', Response(200, Row(p.value)))
  }

  /** A stored text field after PUT: `value || null` when the request supplies it, unchanged otherwise. */
  predicate ScalarPut(o: Option<string>, before: Option<string>, after: Option<string>) {
    (o.None? ==> after == before) && (o.Some? ==> after == OrNull(o))
  }

  /** A stored list after PUT: the request's list when supplied, unchanged otherwise. */
  predicate ListPut<T(==)>(o: Option<seq<T>>, before: Option<seq<T>>, after: Option<seq<T>>) {
    (o.None? ==> after == before) && (o.Some? ==> after == o)
  }

  /**
    What an accepted PUT does to the user's existing row: the first row of
    the user is replaced by the merge of the request into it, in place when
    the store is valid, and that row is the response. Field by field, the key,
    owner, role and picture stay, a supplied text field becomes `value || null`,
    a supplied list replaces the stored one, and nothing absent changes.
  */
  lemma PutPatches(s: Store, header: Option<string>, u: UpdateRequest, sv: Services, freshId: string)
    requires Authenticate(header, sv.verify).Admit? && ValidUpdate(u, sv.isUrl)
    requires GetPortfolioByUserId(s, Authenticate(header, sv.verify).user.userId).Some?
    ensures var owner := Authenticate(header, sv.verify).user.userId;
      var before := GetPortfolioByUserId(s, owner).value;
      var (s', resp) := Put(s, header, u, sv, freshId);
      && resp == Response(200, Row(Merge(before, UpdatesOf(u))))
      && s'.users == s.users
      && s'.portfolios == SetPortfolio(s.portfolios, Merge(before, UpdatesOf(u)))
      && (Valid(s) ==>
            s'.portfolios == s.portfolios[PortfolioIndex(s.portfolios, owner).value := Merge(before, UpdatesOf(u))])
    ensures var before := GetPortfolioByUserId(s, Authenticate(header, sv.verify).user.userId).value;
      var p := Put(s, header, u, sv, freshId).1.body.portfolio;
      && p.id == before.id && p.userId == before.userId && p.role == before.role && p.profilePicture == before.profilePicture
      && ScalarPut(u.bio, before.bio, p.bio) && ScalarPut(u.title, before.title, p.title)
      && ScalarPut(u.location, before.location, p.location) && ScalarPut(u.website, before.website, p.website)
      && ScalarPut(u.github, before.github, p.github) && ScalarPut(u.linkedin, before.linkedin, p.linkedin)
      && ScalarPut(u.twitter, before.twitter, p.twitter)
      && ListPut(u.skills, before.skills, p.skills) && ListPut(u.projects, before.projects, p.projects)
      && ListPut(u.education, before.education, p.education) && ListPut(u.experience, before.experience, p.experience)
  {
    var owner := Authenticate(header, sv.verify).user.userId;
    if Valid(s) {
      UpdateInPlace(s, owner, UpdatesOf(u));
    }
  }

  /** The role and picture a request carries have no effect on what PUT does. */
  lemma PutIgnoresRoleAndPicture(s: Store, header: Option<string>, u: UpdateRequest, sv: Services, freshId: string,
                                 role: Option<string>, picture: Option<Option<string>>)
    requires ValidUpdate(u, sv.isUrl) && (role.None? || IsRole(role.value))
    ensures Put(s, header, u.(role := role, profilePicture := picture), sv, freshId) == Put(s, header, u, sv, freshId)
  {
    var u' := u.(role := role, profilePicture := picture);
    assert ValidUpdate(u', sv.isUrl);
    assert UpdatesOf(u') == UpdatesOf(u);
    forall owner: string ensures CreationOf(owner, u') == CreationOf(owner, u) { }
  }

  /**
    A first PUT creates the row from the request: every text field is
    `value || null`, every list `value || []`, no picture, and "developer" as
    its role; the owner lookup then returns it.
  */
  lemma PutCreates(s: Store, header: Option<string>, u: UpdateRequest, sv: Services, freshId: string)
    requires Authenticate(header, sv.verify).Admit? && ValidUpdate(u, sv.isUrl)
    requires GetPortfolioByUserId(s, Authenticate(header, sv.verify).user.userId).None?
    requires PortfolioIdFree(s.portfolios, freshId)
    ensures var (s', resp) := Put(s, header, u, sv, freshId);
      var p := resp.body.portfolio;
      && s'.portfolios == s.portfolios + [p]
      && p == Defaults(CreationOf(Authenticate(header, sv.verify).user.userId, u), freshId)
      && p.id == freshId && p.userId == Authenticate(header, sv.verify).user.userId && p.role == DefaultRole
      && p.bio == OrNull(u.bio) && p.title == OrNull(u.title) && p.location == OrNull(u.location)
      && p.website == OrNull(u.website) && p.github == OrNull(u.github) && p.linkedin == OrNull(u.linkedin)
      && p.twitter == OrNull(u.twitter) && p.profilePicture.None?
      && p.skills == Some(Items(u.skills)) && p.projects == Some(Items(u.projects))
      && p.education == Some(Items(u.education)) && p.experience == Some(Items(u.experience))
      && GetPortfolioByUserId(s', Authenticate(header, sv.verify).user.userId) == Some(p)
  {
    var owner := Authenticate(header, sv.verify).user.userId;
    var (s', resp) := Put(s, header, u, sv, freshId);
    assert s'.portfolios == s.portfolios + [resp.body.portfolio];
    FindIndexIs(s'.portfolios, (x: Portfolio) => x.userId == owner, |s.portfolios|);
  }

  // ---------------------------------------------------------------------
  // Public portfolio

  /** `GET /api/portfolio/:username`: the row plus the owner's username and name, nothing else of the user. */
  function GetPublic(s: Store, username: string): (r: Response)
    ensures GetUserByUsername(s, username).None? ==> r == Response(404, Message(UserNotFound))
    ensures GetUserByUsername(s, username).Some? && GetPortfolioByUsername(s, username).None? ==>
      r == Response(404, Message(PortfolioNotFound))
    ensures r.status == 200 <==> GetPortfolioByUsername(s, username).Some?
    ensures r.status == 200 ==>
      var user := GetUserByUsername(s, username).value;
      r.body == Public(PublicPortfolio(GetPortfolioByUsername(s, username).value, user.username, user.name))
  {
    match GetUserByUsername(s, username)
    case None => Response(404, Message(UserNotFound))
    case Some(user) =>
      match GetPortfolioByUserId(s, user.id)
      case None => Response(404, Message(PortfolioNotFound))
      case Some(p) => Response(200, Public(PublicPortfolio(p, user.username, user.name)))
  }

  // ---------------------------------------------------------------------
  // Editor round trip

  /**
    Opening the editor on a stored row and saving without edits writes the
    row back unchanged, provided the row is in the normal form the store
    creates and its entries pass the update schema.
  */
  lemma EditorSaveRoundTrip(s: Store, header: Option<string>, sv: Services, freshId: string)
    requires Valid(s)
    requires Authenticate(header, sv.verify).Admit?
    requires GetPortfolioByUserId(s, Authenticate(header, sv.verify).user.userId).Some?
    requires Normal(GetPortfolioByUserId(s, Authenticate(header, sv.verify).user.userId).value)
    requires var p := GetPortfolioByUserId(s, Authenticate(header, sv.verify).user.userId).value;
      ValidUpdate(Editor.SavePayload(Editor.Load(Some(p))), sv.isUrl)
    ensures var p := GetPortfolioByUserId(s, Authenticate(header, sv.verify).user.userId).value;
      Put(s, header, Editor.SavePayload(Editor.Load(Some(p))), sv, freshId) == (s, Response(200, Row(p)))
  {
    var owner := Authenticate(header, sv.verify).user.userId;
    var p := GetPortfolioByUserId(s, owner).value;
    var u := Editor.SavePayload(Editor.Load(Some(p)));
    var merged := Merge(p, UpdatesOf(u));
    assert merged == p by {
      NormalScalar(p.bio);
      NormalScalar(p.title);
      NormalScalar(p.location);
      NormalScalar(p.website);
      NormalScalar(p.github);
      NormalScalar(p.linkedin);
      NormalScalar(p.twitter);
    }
    UpdateInPlace(s, owner, UpdatesOf(u));
    var k := PortfolioIndex(s.portfolios, owner).value;
    assert s.portfolios[k := p] == s.portfolios;
  }

  /** A scalar in normal form survives `|| ""` on loading and `|| null` on saving. */
  lemma NormalScalar(o: Option<string>)
    requires o.None? || o.value != ""
    ensures ScalarUpdate(Some(Editor.TextOf(o))) == Some(o)
  {
  }
}
