/**
  The in-memory storage: two insertion-ordered maps keyed by generated ids,
  one of users and one of portfolios. A JavaScript `Map` is modelled as a
  sequence of its values in insertion order; `Valid` says the keys are
  distinct, which every operation here preserves. Fresh ids are passed in.
*/
module Store {
  import opened Wrappers
  import opened Text
  import opened Schema
  import opened Lists

  datatype Store = Store(users: seq<User>, portfolios: seq<Portfolio>)

  const Empty := Store([], [])

  predicate UserIdFree(us: seq<User>, id: string) {
    forall i | 0 <= i < |us| :: us[i].id != id
  }

  predicate PortfolioIdFree(ps: seq<Portfolio>, id: string) {
    forall i | 0 <= i < |ps| :: ps[i].id != id
  }

  /** The map invariant: no two users and no two portfolios share a key. */
  predicate Valid(s: Store) {
    && (forall i, j | 0 <= i < j < |s.users| :: s.users[i].id != s.users[j].id)
    && (forall i, j | 0 <= i < j < |s.portfolios| :: s.portfolios[i].id != s.portfolios[j].id)
  }

  lemma EmptyValid()
    ensures Valid(Empty) && Empty.users == [] && Empty.portfolios == []
  {
  }

  // ---------------------------------------------------------------------
  // Users

  /** The two keys a user can be looked up by. */
  datatype UserKey = ByUsername | ByEmail

  function KeyOf(u: User, key: UserKey): string {
    match key
    case ByUsername => u.username
    case ByEmail => u.email
  }

  /** The position `Array.from(users.values()).find` stops at: the first user whose key matches ignoring case. */
  function UserIndex(us: seq<User>, key: UserKey, value: string): (r: Option<nat>)
    ensures r.Some? ==>
      && r.value < |us| && Lower(KeyOf(us[r.value], key)) == Lower(value)
      && forall j | 0 <= j < r.value :: Lower(KeyOf(us[j], key)) != Lower(value)
    ensures r.None? <==> forall j | 0 <= j < |us| :: Lower(KeyOf(us[j], key)) != Lower(value)
  {
    FindIndex(us, (u: User) => Lower(KeyOf(u, key)) == Lower(value))
  }

  /** The first user, in insertion order, whose key matches `value` ignoring case. */
  function GetUserBy(s: Store, key: UserKey, value: string): (r: Option<User>)
    ensures r.Some? ==> r.value in s.users && Lower(KeyOf(r.value, key)) == Lower(value)
    ensures r.None? <==> forall i | 0 <= i < |s.users| :: Lower(KeyOf(s.users[i], key)) != Lower(value)
    ensures UserIndex(s.users, key, value).Some? ==> r == Some(s.users[UserIndex(s.users, key, value).value])
  {
    match UserIndex(s.users, key, value)
    case None => None
    case Some(k) => Some(s.users[k])
  }

  /** `getUserByUsername`: the first user whose name matches ignoring case. */
  function GetUserByUsername(s: Store, username: string): (r: Option<User>)
    ensures r.Some? ==> r.value in s.users && Lower(r.value.username) == Lower(username)
    ensures r.None? <==> forall i | 0 <= i < |s.users| :: Lower(s.users[i].username) != Lower(username)
    ensures UserIndex(s.users, ByUsername, username).Some? ==>
      r == Some(s.users[UserIndex(s.users, ByUsername, username).value])
  {
    GetUserBy(s, ByUsername, username)
  }

  /** `getUserByEmail`: the first user whose e-mail matches ignoring case. */
  function GetUserByEmail(s: Store, email: string): (r: Option<User>)
    ensures r.Some? ==> r.value in s.users && Lower(r.value.email) == Lower(email)
    ensures r.None? <==> forall i | 0 <= i < |s.users| :: Lower(s.users[i].email) != Lower(email)
    ensures UserIndex(s.users, ByEmail, email).Some? ==> r == Some(s.users[UserIndex(s.users, ByEmail, email).value])
  {
    GetUserBy(s, ByEmail, email)
  }

  /** Lookups by name and e-mail cannot tell two spellings apart that differ only in letter case. */
  lemma LookupIgnoresCase(s: Store, a: string, b: string)
    requires Lower(a) == Lower(b)
    ensures GetUserByUsername(s, a) == GetUserByUsername(s, b)
    ensures GetUserByEmail(s, a) == GetUserByEmail(s, b)
  {
    forall key: UserKey ensures GetUserBy(s, key, a) == GetUserBy(s, key, b) {
      var pa := (u: User) => Lower(KeyOf(u, key)) == Lower(a);
      var pb := (u: User) => Lower(KeyOf(u, key)) == Lower(b);
      assert pa == pb;
    }
  }

  /** `users.set(id, user)`: an existing key is overwritten in place, a new key is appended. */
  function SetUser(us: seq<User>, u: User): (r: seq<User>)
    ensures UserIdFree(us, u.id) ==> r == us + [u]
    ensures forall k | 0 <= k < |us| && us[k].id == u.id && UserIdFree(us[..k], u.id) :: r == us[k := u]
  {
    match FindIndex(us, (x: User) => x.id == u.id)
    case None => us + [u]
    case Some(k) => us[k := u]
  }

  /** The fields of a new user; the password is already hashed. */
  datatype NewUser = NewUser(username: string, email: string, password: string, name: string)

  /** `createUser`: the input stored unchanged under the fresh id. */
  function CreateUser(s: Store, n: NewUser, freshId: string): (r: (Store, User))
    ensures r.1 == User(freshId, n.username, n.email, n.password, n.name)
    ensures r.0.portfolios == s.portfolios
    ensures UserIdFree(s.users, freshId) ==> r.0.users == s.users + [r.1]
  {
    var u := User(freshId, n.username, n.email, n.password, n.name);
    (s.(users := SetUser(s.users, u)), u)
  }

  lemma CreateUserValid(s: Store, n: NewUser, freshId: string)
    requires Valid(s) && UserIdFree(s.users, freshId)
    ensures Valid(CreateUser(s, n, freshId).0)
  {
    var us := CreateUser(s, n, freshId).0.users;
    assert us == s.users + [CreateUser(s, n, freshId).1];
    forall i, j | 0 <= i < j < |us| ensures us[i].id != us[j].id {
      if j == |s.users| {
        assert us[i] == s.users[i];
      }
    }
  }

  /** A new user whose e-mail no one had yet is what the e-mail lookup then finds. */
  lemma CreateUserFoundByEmail(s: Store, n: NewUser, freshId: string)
    requires UserIdFree(s.users, freshId) && GetUserByEmail(s, n.email).None?
    ensures var (s', u) := CreateUser(s, n, freshId); GetUserByEmail(s', n.email) == Some(u)
  {
    var (s', u) := CreateUser(s, n, freshId);
    var p := (x: User) => Lower(KeyOf(x, ByEmail)) == Lower(n.email);
    assert s'.users == s.users + [u];
    assert forall i | 0 <= i < |s.users| :: !p(s'.users[i]);
    FindIndexIs(s'.users, p, |s.users|);
  }

  // ---------------------------------------------------------------------
  // Portfolios

  /** `getPortfolioByUserId`: the first portfolio, in insertion order, of that user. */
  function PortfolioIndex(ps: seq<Portfolio>, userId: string): (r: Option<nat>)
    ensures r.Some? ==>
      && r.value < |ps| && ps[r.value].userId == userId
      && forall j | 0 <= j < r.value :: ps[j].userId != userId
    ensures r.None? <==> forall j | 0 <= j < |ps| :: ps[j].userId != userId
  {
    FindIndex(ps, (p: Portfolio) => p.userId == userId)
  }

  /** `getPortfolioByUserId`: the first portfolio, in insertion order, of that user. */
  function GetPortfolioByUserId(s: Store, userId: string): (r: Option<Portfolio>)
    ensures r.Some? ==> r.value in s.portfolios && r.value.userId == userId
    ensures r.None? <==> forall j | 0 <= j < |s.portfolios| :: s.portfolios[j].userId != userId
    ensures PortfolioIndex(s.portfolios, userId).Some? ==>
      r == Some(s.portfolios[PortfolioIndex(s.portfolios, userId).value])
  {
    match PortfolioIndex(s.portfolios, userId)
    case None => None
    case Some(k) => Some(s.portfolios[k])
  }

  /** `getPortfolioByUsername`: resolve the user ignoring case, then their first portfolio. */
  function GetPortfolioByUsername(s: Store, username: string): (r: Option<Portfolio>)
    ensures GetUserByUsername(s, username).None? ==> r.None?
    ensures GetUserByUsername(s, username).Some? ==> r == GetPortfolioByUserId(s, GetUserByUsername(s, username).value.id)
  {
    match GetUserByUsername(s, username)
    case None => None
    case Some(u) => GetPortfolioByUserId(s, u.id)
  }

  /** `portfolios.set(id, portfolio)`. */
  function SetPortfolio(ps: seq<Portfolio>, p: Portfolio): (r: seq<Portfolio>)
    ensures PortfolioIdFree(ps, p.id) ==> r == ps + [p]
    ensures forall k | 0 <= k < |ps| && ps[k].id == p.id && PortfolioIdFree(ps[..k], p.id) :: r == ps[k := p]
  {
    match FindIndex(ps, (x: Portfolio) => x.id == p.id)
    case None => ps + [p]
    case Some(k) => ps[k := p]
  }

  /** The input of `createPortfolio`; every field but the owner may be missing. */
  datatype NewPortfolio = NewPortfolio(
    userId: string,
    role: Option<string>,
    bio: Option<string>,
    title: Option<string>,
    location: Option<string>,
    website: Option<string>,
    github: Option<string>,
    linkedin: Option<string>,
    twitter: Option<string>,
    profilePicture: Option<string>,
    skills: Option<seq<string>>,
    projects: Option<seq<Project>>,
    education: Option<seq<Education>>,
    experience: Option<seq<Experience>>)

  /**
    A row as the store writes it on creation: no scalar holds the empty
    string and every list is present.
  */
  predicate Normal(p: Portfolio) {
    && p.role != ""
    && (p.bio.None? || p.bio.value != "") && (p.title.None? || p.title.value != "")
    && (p.location.None? || p.location.value != "") && (p.website.None? || p.website.value != "")
    && (p.github.None? || p.github.value != "") && (p.linkedin.None? || p.linkedin.value != "")
    && (p.twitter.None? || p.twitter.value != "") && (p.profilePicture.None? || p.profilePicture.value != "")
    && p.skills.Some? && p.projects.Some? && p.education.Some? && p.experience.Some?
  }

  /** The row `createPortfolio` builds: role "developer" unless given, `|| null` scalars, `|| []` lists. */
  function Defaults(n: NewPortfolio, freshId: string): (r: Portfolio)
    ensures r.id == freshId && r.userId == n.userId
    ensures Truthy(n.role) ==> r.role == n.role.value
    ensures !Truthy(n.role) ==> r.role == DefaultRole
    ensures Truthy(n.bio) ==> r.bio == n.bio
    ensures !Truthy(n.bio) ==> r.bio.None?
    ensures r.bio == OrNull(n.bio) && r.title == OrNull(n.title) && r.location == OrNull(n.location)
    ensures r.website == OrNull(n.website) && r.github == OrNull(n.github) && r.linkedin == OrNull(n.linkedin)
    ensures r.twitter == OrNull(n.twitter) && r.profilePicture == OrNull(n.profilePicture)
    ensures r.skills == Some(Items(n.skills)) && r.projects == Some(Items(n.projects))
    ensures r.education == Some(Items(n.education)) && r.experience == Some(Items(n.experience))
  {
    Portfolio(freshId, n.userId, OrElse(n.role, DefaultRole),
              OrNull(n.bio), OrNull(n.title), OrNull(n.location), OrNull(n.website),
              OrNull(n.github), OrNull(n.linkedin), OrNull(n.twitter), OrNull(n.profilePicture),
              Some(Items(n.skills)), Some(Items(n.projects)), Some(Items(n.education)), Some(Items(n.experience)))
  }

  /** Whatever the input, a created row is normal. */
  lemma DefaultsNormal(n: NewPortfolio, freshId: string)
    ensures Normal(Defaults(n, freshId))
  {
  }

  /** `createPortfolio`: the defaulted row stored under the fresh id; nothing stops a second one per user. */
  function CreatePortfolio(s: Store, n: NewPortfolio, freshId: string): (r: (Store, Portfolio))
    ensures r.1 == Defaults(n, freshId)
    ensures r.0.users == s.users
    ensures PortfolioIdFree(s.portfolios, freshId) ==> r.0.portfolios == s.portfolios + [r.1]
  {
    var p := Defaults(n, freshId);
    (s.(portfolios := SetPortfolio(s.portfolios, p)), p)
  }

  lemma CreatePortfolioValid(s: Store, n: NewPortfolio, freshId: string)
    requires Valid(s) && PortfolioIdFree(s.portfolios, freshId)
    ensures Valid(CreatePortfolio(s, n, freshId).0)
  {
    var ps := CreatePortfolio(s, n, freshId).0.portfolios;
    assert ps == s.portfolios + [CreatePortfolio(s, n, freshId).1];
    forall i, j | 0 <= i < j < |ps| ensures ps[i].id != ps[j].id {
      if j == |s.portfolios| {
        assert ps[i] == s.portfolios[i];
      }
    }
  }

  /**
    A second portfolio for a user who already has one is stored, but the
    lookup by owner keeps returning the first.
  */
  lemma SecondPortfolioHidden(s: Store, n: NewPortfolio, freshId: string)
    requires PortfolioIdFree(s.portfolios, freshId)
    requires GetPortfolioByUserId(s, n.userId).Some?
    ensures var s' := CreatePortfolio(s, n, freshId).0;
      |s'.portfolios| == |s.portfolios| + 1
      && GetPortfolioByUserId(s', n.userId) == GetPortfolioByUserId(s, n.userId)
  {
    var s' := CreatePortfolio(s, n, freshId).0;
    var k := PortfolioIndex(s.portfolios, n.userId).value;
    assert s'.portfolios[k] == s.portfolios[k];
    assert forall j | 0 <= j < k :: s'.portfolios[j] == s.portfolios[j];
    assert PortfolioIndex(s'.portfolios, n.userId) == Some(k);
  }

  /** `Partial<Portfolio>`: `None` leaves a field, `Some(v)` overrides it. */
  datatype PortfolioPatch = PortfolioPatch(
    id: Option<string>,
    userId: Option<string>,
    role: Option<string>,
    bio: Option<Option<string>>,
    title: Option<Option<string>>,
    location: Option<Option<string>>,
    website: Option<Option<string>>,
    github: Option<Option<string>>,
    linkedin: Option<Option<string>>,
    twitter: Option<Option<string>>,
    profilePicture: Option<Option<string>>,
    skills: Option<Option<seq<string>>>,
    projects: Option<Option<seq<Project>>>,
    education: Option<Option<seq<Education>>>,
    experience: Option<Option<seq<Experience>>>)

  const NoChange := PortfolioPatch(None, None, None, None, None, None, None, None, None, None, None, None, None, None, None)

  /** A field after a patch: the supplied value when there is one, the stored value otherwise. */
  predicate Patched<T(==)>(u: Option<T>, before: T, after: T) {
    (u.None? ==> after == before) && (u.Some? ==> after == u.value)
  }

  /**
    `{ ...p, ...u, id: p.id, userId: p.userId }`: the key and owner survive any
    patch, every supplied field is overridden and every other field is kept.
  */
  function Merge(p: Portfolio, u: PortfolioPatch): (r: Portfolio)
    ensures r.id == p.id && r.userId == p.userId
    ensures Patched(u.role, p.role, r.role) && Patched(u.bio, p.bio, r.bio)
    ensures Patched(u.title, p.title, r.title) && Patched(u.location, p.location, r.location)
    ensures Patched(u.website, p.website, r.website) && Patched(u.github, p.github, r.github)
    ensures Patched(u.linkedin, p.linkedin, r.linkedin) && Patched(u.twitter, p.twitter, r.twitter)
    ensures Patched(u.profilePicture, p.profilePicture, r.profilePicture)
    ensures Patched(u.skills, p.skills, r.skills) && Patched(u.projects, p.projects, r.projects)
    ensures Patched(u.education, p.education, r.education) && Patched(u.experience, p.experience, r.experience)
  {
    Portfolio(p.id, p.userId, u.role.GetOr(p.role),
              u.bio.GetOr(p.bio), u.title.GetOr(p.title), u.location.GetOr(p.location),
              u.website.GetOr(p.website), u.github.GetOr(p.github), u.linkedin.GetOr(p.linkedin),
              u.twitter.GetOr(p.twitter), u.profilePicture.GetOr(p.profilePicture),
              u.skills.GetOr(p.skills), u.projects.GetOr(p.projects),
              u.education.GetOr(p.education), u.experience.GetOr(p.experience))
  }

  /** The empty patch changes nothing, and patching twice with the same patch is patching once. */
  lemma MergeLaws(p: Portfolio, u: PortfolioPatch)
    ensures Merge(p, NoChange) == p
    ensures Merge(Merge(p, u), u) == Merge(p, u)
  {
  }

  /**
    `updatePortfolio`: the user's first portfolio is overwritten in place
    with the merged row, which is also returned; a user without a portfolio
    gets `undefined` and the store is untouched.
  */
  function UpdatePortfolio(s: Store, userId: string, u: PortfolioPatch): (r: (Store, Option<Portfolio>))
    ensures GetPortfolioByUserId(s, userId).None? ==> r == (s, None)
    ensures GetPortfolioByUserId(s, userId).Some? ==>
      && r.1 == Some(Merge(GetPortfolioByUserId(s, userId).value, u))
      && r.0.users == s.users
      && r.0.portfolios == SetPortfolio(s.portfolios, r.1.value)
  {
    match PortfolioIndex(s.portfolios, userId)
    case None => (s, None)
    case Some(k) =>
      var p := Merge(s.portfolios[k], u);
      (s.(portfolios := SetPortfolio(s.portfolios, p)), Some(p))
  }

  /**
    In a valid store the update rewrites exactly the slot of the user's first
    portfolio: every other row, the row count and the order are unchanged, the
    invariant still holds, and the lookup by owner returns the merged row.
  */
  lemma UpdateInPlace(s: Store, userId: string, u: PortfolioPatch)
    requires Valid(s)
    requires PortfolioIndex(s.portfolios, userId).Some?
    ensures var k := PortfolioIndex(s.portfolios, userId).value;
      var (s', r) := UpdatePortfolio(s, userId, u);
      && s'.portfolios == s.portfolios[k := r.value]
      && Valid(s')
      && GetPortfolioByUserId(s', userId) == r
  {
    var k := PortfolioIndex(s.portfolios, userId).value;
    var (s', r) := UpdatePortfolio(s, userId, u);
    var p := r.value;
    assert p.id == s.portfolios[k].id;
    assert PortfolioIdFree(s.portfolios[..k], p.id);
    assert s'.portfolios == s.portfolios[k := p];
    assert forall j | 0 <= j < k :: s'.portfolios[j] == s.portfolios[j];
    FindIndexIs(s'.portfolios, (x: Portfolio) => x.userId == userId, k);
  }
}
