/**
  The shared record shapes (users, portfolios and the list entries a
  portfolio holds) and the request validators declared with zod in the
  shared schema. zod's built-in e-mail and URL checks are passed in as
  predicates.
*/
module Schema {
  import opened Wrappers
  import opened Text

  datatype Project = Project(
    id: string,
    title: string,
    description: string,
    link: Option<string>,
    technologies: Option<seq<string>>)

  datatype Education = Education(
    id: string,
    institution: string,
    degree: string,
    field: string,
    startDate: string,
    endDate: Option<string>,
    current: Option<bool>)

  datatype Experience = Experience(
    id: string,
    company: string,
    position: string,
    description: string,
    startDate: string,
    endDate: Option<string>,
    current: Option<bool>)

  datatype User = User(id: string, username: string, email: string, password: string, name: string)

  /** A stored portfolio row; `None` is the database `null`. */
  datatype Portfolio = Portfolio(
    id: string,
    userId: string,
    role: string,
    bio: Option<string>,
    title: Option<string>,
    location: Option<string>,
    website: Option<string>,
    github: Option<string>,
    linkedin: Option<string>,
    twitter: Option<string>,
    profilePicture: Option<string>,
    skills: Option<seq<string>>,
    projects: Option<seq<Project>>,
    education: Option<seq<Education>>,
    experience: Option<seq<Experience>>)

  /** A portfolio as the public endpoint returns it: the row plus the owner's public name. */
  datatype PublicPortfolio = PublicPortfolio(portfolio: Portfolio, username: string, name: string)

  /** `list?.length ?? 0`. */
  function Len<T>(o: Option<seq<T>>): nat {
    match o
    case Some(xs) => |xs|
    case None => 0
  }

  /** `list || []`. */
  function Items<T>(o: Option<seq<T>>): (r: seq<T>)
    ensures |r| == Len(o)
  {
    o.GetOr([])
  }

  /** Truthiness of an optional boolean flag. */
  predicate IsSet(o: Option<bool>) {
    o == Some(true)
  }

  // ---------------------------------------------------------------------------
  // Roles

  const DefaultRole := "developer"

  /** The values the role enum of the update schema admits, in declaration order. */
  const Roles: seq<string> :=
    ["developer", "tester", "ai_ml", "data_analyst", "premium", "minimal", "creative", "modern", "compact"]

  predicate IsRole(s: string) {
    s in Roles
  }

  lemma RolesShape()
    ensures |Roles| == 9
    ensures forall i, j | 0 <= i < j < |Roles| :: Roles[i] != Roles[j]
    ensures DefaultRole in Roles
  {
  }

  // ---------------------------------------------------------------------------
  // Register and login

  predicate IsUsernameChar(c: char) {
    ('a' <= c <= 'z') || ('A' <= c <= 'Z') || ('0' <= c <= '9') || c == '_'
  }

  predicate ValidUsername(u: string) {
    3 <= |u| <= 30 && forall i | 0 <= i < |u| :: IsUsernameChar(u[i])
  }

  /** The first message zod reports for a username, in the order the checks are declared. */
  function UsernameIssue(u: string): (r: Option<string>)
    ensures r.None? <==> ValidUsername(u)
    ensures |u| < 3 ==> r == Some("Username must be at least 3 characters")
    ensures 3 <= |u| && |u| > 30 ==> r == Some("Username too long")
  {
    if |u| < 3 then Some("Username must be at least 3 characters")
    else if |u| > 30 then Some("Username too long")
    else if exists i | 0 <= i < |u| :: !IsUsernameChar(u[i]) then
      Some("Username can only contain letters, numbers, and underscores")
    else None
  }

  /** A request body field: `None` when the key is missing. */
  datatype RegisterBody = RegisterBody(
    username: Option<string>, email: Option<string>, password: Option<string>, name: Option<string>)

  datatype Registration = Registration(username: string, email: string, password: string, name: string)

  predicate ValidRegistration(b: RegisterBody, isEmail: string -> bool) {
    && b.username.Some? && ValidUsername(b.username.value)
    && b.email.Some? && isEmail(b.email.value)
    && b.password.Some? && |b.password.value| >= 6
    && b.name.Some? && |b.name.value| >= 1
  }

  /** `registerSchema.parse`, reporting the first issue's message on failure. */
  function ValidateRegister(b: RegisterBody, isEmail: string -> bool): (r: Result<Registration, string>)
    ensures r.Ok? <==> ValidRegistration(b, isEmail)
    ensures r.Ok? ==> r.value == Registration(b.username.value, b.email.value, b.password.value, b.name.value)
    ensures b.username.None? ==> r == Err("Required")
    ensures b.username.Some? && !ValidUsername(b.username.value) ==> r == Err(UsernameIssue(b.username.value).value)
    ensures b.username.Some? && ValidUsername(b.username.value) && b.email.Some? && !isEmail(b.email.value) ==> r == Err("Invalid email address")
  {
    if b.username.None? then Err("Required")
    else if UsernameIssue(b.username.value).Some? then Err(UsernameIssue(b.username.value).value)
    else if b.email.None? then Err("Required")
    else if !isEmail(b.email.value) then Err("Invalid email address")
    else if b.password.None? then Err("Required")
    else if |b.password.value| < 6 then Err("Password must be at least 6 characters")
    else if b.name.None? then Err("Required")
    else if |b.name.value| < 1 then Err("Name is required")
    else Ok(Registration(b.username.value, b.email.value, b.password.value, b.name.value))
  }

  datatype LoginBody = LoginBody(email: Option<string>, password: Option<string>)

  datatype Credentials = Credentials(email: string, password: string)

  /** `loginSchema.parse`: a well-formed e-mail and a non-empty password. */
  function ValidateLogin(b: LoginBody, isEmail: string -> bool): (r: Result<Credentials, string>)
    ensures r.Ok? <==> b.email.Some? && isEmail(b.email.value) && b.password.Some? && |b.password.value| >= 1
    ensures r.Ok? ==> r.value == Credentials(b.email.value, b.password.value)
    ensures b.email.Some? && isEmail(b.email.value) && b.password == Some("") ==> r == Err("Password is required")
  {
    if b.email.None? then Err("Required")
    else if !isEmail(b.email.value) then Err("Invalid email address")
    else if b.password.None? then Err("Required")
    else if |b.password.value| < 1 then Err("Password is required")
    else Ok(Credentials(b.email.value, b.password.value))
  }

  // ---------------------------------------------------------------------------
  // List entries and the portfolio update schema

  /** A project link is absent, empty, or a URL. */
  predicate ValidLink(link: Option<string>, isUrl: string -> bool) {
    link.None? || link.value == "" || isUrl(link.value)
  }

  function ProjectIssue(p: Project, isUrl: string -> bool): (r: Option<string>)
    ensures r.None? <==> p.title != "" && ValidLink(p.link, isUrl)
  {
    if p.title == "" then Some("Title is required")
    else if !ValidLink(p.link, isUrl) then Some("Invalid url")
    else None
  }

  function EducationIssue(e: Education): (r: Option<string>)
    ensures r.None? <==> e.institution != ""
  {
    if e.institution == "" then Some("Institution is required") else None
  }

  function ExperienceIssue(e: Experience): (r: Option<string>)
    ensures r.None? <==> e.company != "" && e.position != ""
  {
    if e.company == "" then Some("Company is required")
    else if e.position == "" then Some("Position is required")
    else None
  }

  /** The first issue found scanning `xs` in order. */
  function FirstIssue<T>(xs: seq<T>, issue: T -> Option<string>): (r: Option<string>)
    ensures r.None? <==> forall i | 0 <= i < |xs| :: issue(xs[i]).None?
    ensures r.Some? ==> exists i | 0 <= i < |xs| :: r == issue(xs[i]) && forall j | 0 <= j < i :: issue(xs[j]).None?
  {
    if |xs| == 0 then None
    else if issue(xs[0]).Some? then issue(xs[0])
    else
      var r := FirstIssue(xs[1..], issue);
      assert forall i | 1 <= i < |xs| :: xs[i] == xs[1..][i - 1];
      r
  }

  /**
    A portfolio update request as the update schema admits it; every field
    may be missing. `profilePicture` may also be `null`, hence the nested option.
  */
  datatype UpdateRequest = UpdateRequest(
    bio: Option<string>,
    title: Option<string>,
    location: Option<string>,
    website: Option<string>,
    github: Option<string>,
    linkedin: Option<string>,
    twitter: Option<string>,
    profilePicture: Option<Option<string>>,
    skills: Option<seq<string>>,
    projects: Option<seq<Project>>,
    education: Option<seq<Education>>,
    experience: Option<seq<Experience>>,
    role: Option<string>)

  /** zod's message for a value outside the enum: the options quoted and joined by " | ". */
  function RoleEnumMessage(received: string): string {
    var quoted := seq(|Roles|, i requires 0 <= i < |Roles| => "'" + Roles[i] + "'");
    "Invalid enum value. Expected " + Join(quoted, " | ") + ", received '" + received + "'"
  }

  predicate ValidProjects(ps: seq<Project>, isUrl: string -> bool) {
    forall i | 0 <= i < |ps| :: ProjectIssue(ps[i], isUrl).None?
  }

  predicate ValidEducation(es: seq<Education>) {
    forall i | 0 <= i < |es| :: EducationIssue(es[i]).None?
  }

  predicate ValidExperience(es: seq<Experience>) {
    forall i | 0 <= i < |es| :: ExperienceIssue(es[i]).None?
  }

  predicate ValidUpdate(u: UpdateRequest, isUrl: string -> bool) {
    && ValidProjects(Items(u.projects), isUrl)
    && ValidEducation(Items(u.education))
    && ValidExperience(Items(u.experience))
    && (u.role.None? || IsRole(u.role.value))
  }

  function ProjectsIssue(ps: seq<Project>, isUrl: string -> bool): (r: Option<string>)
    ensures r.None? <==> ValidProjects(ps, isUrl)
  {
    var issue := (p: Project) => ProjectIssue(p, isUrl);
    var r := FirstIssue(ps, issue);
    assert forall i | 0 <= i < |ps| :: issue(ps[i]) == ProjectIssue(ps[i], isUrl);
    r
  }

  function EducationListIssue(es: seq<Education>): (r: Option<string>)
    ensures r.None? <==> ValidEducation(es)
  {
    FirstIssue(es, EducationIssue)
  }

  function ExperienceListIssue(es: seq<Experience>): (r: Option<string>)
    ensures r.None? <==> ValidExperience(es)
  {
    FirstIssue(es, ExperienceIssue)
  }

  /** `updatePortfolioSchema.parse`: entries are checked in field order, then the role. */
  function ValidateUpdate(u: UpdateRequest, isUrl: string -> bool): (r: Result<UpdateRequest, string>)
    ensures r.Ok? <==> ValidUpdate(u, isUrl)
    ensures r.Ok? ==> r.value == u
    ensures ValidUpdate(u.(role := None), isUrl) && u.role.Some? && !IsRole(u.role.value) ==> r == Err(RoleEnumMessage(u.role.value))
  {
    var p := ProjectsIssue(Items(u.projects), isUrl);
    var ed := EducationListIssue(Items(u.education));
    var ex := ExperienceListIssue(Items(u.experience));
    if p.Some? then Err(p.value)
    else if ed.Some? then Err(ed.value)
    else if ex.Some? then Err(ex.value)
    else if u.role.Some? && !IsRole(u.role.value) then Err(RoleEnumMessage(u.role.value))
    else Ok(u)
  }
}
