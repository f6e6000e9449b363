/**
  The portfolio editor page's local state and the handlers that change it:
  the skill list, the id-keyed project, education and experience lists,
  the "current" checkboxes, loading the stored portfolio into the form and
  the payload sent on save. New entry ids come from an injected value.
*/
module Editor {
  import opened Wrappers
  import opened Text
  import opened Schema
  import opened Lists

  /** The form's seven text inputs; each starts as "". */
  datatype Form = Form(
    bio: string,
    title: string,
    location: string,
    website: string,
    github: string,
    linkedin: string,
    twitter: string)

  datatype State = State(
    form: Form,
    skills: seq<string>,
    skillInput: string,
    projects: seq<Project>,
    education: seq<Education>,
    experience: seq<Experience>)

  const BlankForm := Form("", "", "", "", "", "", "")
  const Initial := State(BlankForm, [], "", [], [], [])

  // ---------------------------------------------------------------------
  // Skills
  // ---------------------------------------------------------------------

  /**
    `addSkill`: the trimmed input is appended when it is non-empty and not
    already present (exact comparison); only then is the input cleared.
  */
  function AddSkill(skills: seq<string>, input: string): (r: (seq<string>, string))
    ensures var skill := Trim(input);
      var added := skill != "" && skill !in skills;
      && (added ==> r == (skills + [skill], ""))
      && (!added ==> r == (skills, input))
    ensures |r.0| <= |skills| + 1 && r.0[..|skills|] == skills
    ensures forall s | s in r.0 :: s in skills || s == Trim(input)
  {
    var skill := Trim(input);
    if skill != "" && skill !in skills then (skills + [skill], "") else (skills, input)
  }

  /** A skill list without duplicates keeps that property through `addSkill`. */
  lemma AddSkillDistinct(skills: seq<string>, input: string)
    requires Distinct(skills)
    ensures Distinct(AddSkill(skills, input).0)
  {
    var r := AddSkill(skills, input).0;
    if r != skills {
      forall i, j | 0 <= i < j < |r| ensures r[i] != r[j] {
        if j == |skills| {
          assert r[i] == skills[i];
        }
      }
    }
  }

  /** Every added skill is non-blank at both ends, never the empty string. */
  lemma AddSkillTrimmed(skills: seq<string>, input: string)
    requires AddSkill(skills, input).0 != skills
    ensures var r := AddSkill(skills, input).0;
      r == skills + [Trim(input)] && r[|skills|] != "" && !IsSpace(r[|skills|][0])
  {
  }

  /** `removeSkill`: drops every occurrence of the value. */
  function RemoveSkill(skills: seq<string>, skill: string): (r: seq<string>)
    ensures skill !in r
    ensures forall s :: s in r <==> s in skills && s != skill
  {
    Filter(skills, (s: string) => s != skill)
  }

  /** Removing splits over concatenation, so the remaining skills keep their order. */
  lemma RemoveSkillAppend(a: seq<string>, b: seq<string>, skill: string)
    ensures RemoveSkill(a + b, skill) == RemoveSkill(a, skill) + RemoveSkill(b, skill)
  {
    FilterAppend(a, b, (s: string) => s != skill);
  }

  /** Removing a skill the list does not hold leaves it unchanged. */
  lemma RemoveSkillAbsent(skills: seq<string>, skill: string)
    requires skill !in skills
    ensures RemoveSkill(skills, skill) == skills
  {
    FilterAll(skills, (s: string) => s != skill);
  }

  /** Removing the skill just added restores the previous list. */
  lemma RemoveAddedSkill(skills: seq<string>, input: string)
    requires AddSkill(skills, input).0 != skills
    ensures RemoveSkill(AddSkill(skills, input).0, Trim(input)) == skills
  {
    var skill := Trim(input);
    RemoveSkillAppend(skills, [skill], skill);
    RemoveSkillAbsent(skills, skill);
    assert RemoveSkill([skill], skill) == [];
  }

  // ---------------------------------------------------------------------
  // Projects
  // ---------------------------------------------------------------------

  /** `Partial<Project>`: `None` leaves the field, `Some(v)` sets it (a nested `None` is `undefined`). */
  datatype ProjectPatch = ProjectPatch(
    id: Option<string>,
    title: Option<string>,
    description: Option<string>,
    link: Option<Option<string>>,
    technologies: Option<Option<seq<string>>>)

  /** `{ ...p, ...updates }`. */
  function MergeProject(p: Project, u: ProjectPatch): Project {
    Project(u.id.GetOr(p.id), u.title.GetOr(p.title), u.description.GetOr(p.description),
            u.link.GetOr(p.link), u.technologies.GetOr(p.technologies))
  }

  function BlankProject(id: string): (r: Project)
    ensures r.id == id && r.title == "" && r.description == "" && r.link == Some("") && r.technologies == Some([])
  {
    Project(id, "", "", Some(""), Some([]))
  }

  /** `addProject`: one blank project with the fresh id is appended. */
  function AddProject(ps: seq<Project>, freshId: string): (r: seq<Project>)
    ensures |r| == |ps| + 1 && r[..|ps|] == ps && r[|ps|] == BlankProject(freshId)
  {
    ps + [BlankProject(freshId)]
  }

  /** `updateProject`: every project with the id is merged with the patch; the rest are untouched. */
  function UpdateProject(ps: seq<Project>, id: string, u: ProjectPatch): (r: seq<Project>)
    ensures |r| == |ps|
    ensures forall i | 0 <= i < |ps| :: r[i] == if ps[i].id == id then MergeProject(ps[i], u) else ps[i]
  {
    MapIf(ps, (p: Project) => p.id == id, (p: Project) => MergeProject(p, u))
  }

  /** `removeProject`: every project with the id is dropped. */
  function RemoveProject(ps: seq<Project>, id: string): (r: seq<Project>)
    ensures |r| <= |ps|
    ensures forall p :: p in r <==> p in ps && p.id != id
  {
    Filter(ps, (p: Project) => p.id != id)
  }

  predicate ProjectIdAbsent(ps: seq<Project>, id: string) {
    forall i | 0 <= i < |ps| :: ps[i].id != id
  }

  /** Removing keeps the order of the remaining projects. */
  lemma RemoveProjectAppend(a: seq<Project>, b: seq<Project>, id: string)
    ensures RemoveProject(a + b, id) == RemoveProject(a, id) + RemoveProject(b, id)
  {
    FilterAppend(a, b, (p: Project) => p.id != id);
  }

  /** Removing a freshly added project restores the list, when its id was new. */
  lemma RemoveAddedProject(ps: seq<Project>, freshId: string)
    requires ProjectIdAbsent(ps, freshId)
    ensures RemoveProject(AddProject(ps, freshId), freshId) == ps
  {
    var keep := (p: Project) => p.id != freshId;
    FilterAppend(ps, [BlankProject(freshId)], keep);
    FilterAll(ps, keep);
  }

  /** Updating an id no project carries changes nothing. */
  lemma UpdateProjectAbsent(ps: seq<Project>, id: string, u: ProjectPatch)
    requires ProjectIdAbsent(ps, id)
    ensures UpdateProject(ps, id, u) == ps
  {
  }

  /** A patch that keeps the id commutes with removal: removing after an update is removing. */
  lemma RemoveAfterUpdateProject(ps: seq<Project>, id: string, u: ProjectPatch)
    requires u.id.None?
    ensures RemoveProject(UpdateProject(ps, id, u), id) == RemoveProject(ps, id)
  {
    FilterMapIf(ps, (p: Project) => p.id == id, (p: Project) => MergeProject(p, u), (p: Project) => p.id != id);
  }

  // ---------------------------------------------------------------------
  // Education
  // ---------------------------------------------------------------------

  datatype EducationPatch = EducationPatch(
    id: Option<string>,
    institution: Option<string>,
    degree: Option<string>,
    field: Option<string>,
    startDate: Option<string>,
    endDate: Option<Option<string>>,
    current: Option<Option<bool>>)

  function MergeEducation(e: Education, u: EducationPatch): Education {
    Education(u.id.GetOr(e.id), u.institution.GetOr(e.institution), u.degree.GetOr(e.degree),
              u.field.GetOr(e.field), u.startDate.GetOr(e.startDate), u.endDate.GetOr(e.endDate),
              u.current.GetOr(e.current))
  }

  function BlankEducation(id: string): (r: Education)
    ensures r.id == id && r.institution == "" && r.degree == "" && r.field == "" && r.startDate == ""
    ensures r.endDate == Some("") && r.current == Some(false)
  {
    Education(id, "", "", "", "", Some(""), Some(false))
  }

  function AddEducation(es: seq<Education>, freshId: string): (r: seq<Education>)
    ensures |r| == |es| + 1 && r[..|es|] == es && r[|es|] == BlankEducation(freshId)
  {
    es + [BlankEducation(freshId)]
  }

  function UpdateEducation(es: seq<Education>, id: string, u: EducationPatch): (r: seq<Education>)
    ensures |r| == |es|
    ensures forall i | 0 <= i < |es| :: r[i] == if es[i].id == id then MergeEducation(es[i], u) else es[i]
  {
    MapIf(es, (e: Education) => e.id == id, (e: Education) => MergeEducation(e, u))
  }

  function RemoveEducation(es: seq<Education>, id: string): (r: seq<Education>)
    ensures |r| <= |es|
    ensures forall e :: e in r <==> e in es && e.id != id
  {
    Filter(es, (e: Education) => e.id != id)
  }

  lemma RemoveEducationAppend(a: seq<Education>, b: seq<Education>, id: string)
    ensures RemoveEducation(a + b, id) == RemoveEducation(a, id) + RemoveEducation(b, id)
  {
    FilterAppend(a, b, (e: Education) => e.id != id);
  }

  lemma RemoveAfterUpdateEducation(es: seq<Education>, id: string, u: EducationPatch)
    requires u.id.None?
    ensures RemoveEducation(UpdateEducation(es, id, u), id) == RemoveEducation(es, id)
  {
    FilterMapIf(es, (e: Education) => e.id == id, (e: Education) => MergeEducation(e, u), (e: Education) => e.id != id);
  }

  lemma RemoveAddedEducation(es: seq<Education>, freshId: string)
    requires forall i | 0 <= i < |es| :: es[i].id != freshId
    ensures RemoveEducation(AddEducation(es, freshId), freshId) == es
  {
    var keep := (e: Education) => e.id != freshId;
    FilterAppend(es, [BlankEducation(freshId)], keep);
    FilterAll(es, keep);
  }

  /**
    The education "current" checkbox: the clicked entry's id is patched with
    `current = checked` and an end date that is "" when ticked and the clicked
    entry's own end date when unticked.
  */
  function ToggleEducation(es: seq<Education>, clicked: Education, checked: bool): (r: seq<Education>)
    ensures |r| == |es|
    ensures forall i | 0 <= i < |es| && es[i].id == clicked.id ::
      && r[i].current == Some(checked)
      && r[i].endDate == (if checked then Some("") else clicked.endDate)
      && r[i].(current := es[i].current, endDate := es[i].endDate) == es[i]
    ensures forall i | 0 <= i < |es| && es[i].id != clicked.id :: r[i] == es[i]
  {
    UpdateEducation(es, clicked.id,
      EducationPatch(None, None, None, None, None, Some(if checked then Some("") else clicked.endDate), Some(Some(checked))))
  }

  /**
    Ticking and then unticking the same entry leaves it marked not current
    with an empty end date: the end date held before the tick is not restored.
  */
  lemma EducationTickUntick(es: seq<Education>, k: nat)
    requires k < |es|
    ensures var ticked := ToggleEducation(es, es[k], true);
      var unticked := ToggleEducation(ticked, ticked[k], false);
      unticked[k].current == Some(false) && unticked[k].endDate == Some("")
  {
  }

  // ---------------------------------------------------------------------
  // Experience
  // ---------------------------------------------------------------------

  datatype ExperiencePatch = ExperiencePatch(
    id: Option<string>,
    company: Option<string>,
    position: Option<string>,
    description: Option<string>,
    startDate: Option<string>,
    endDate: Option<Option<string>>,
    current: Option<Option<bool>>)

  function MergeExperience(e: Experience, u: ExperiencePatch): Experience {
    Experience(u.id.GetOr(e.id), u.company.GetOr(e.company), u.position.GetOr(e.position),
               u.description.GetOr(e.description), u.startDate.GetOr(e.startDate),
               u.endDate.GetOr(e.endDate), u.current.GetOr(e.current))
  }

  function BlankExperience(id: string): (r: Experience)
    ensures r.id == id && r.company == "" && r.position == "" && r.description == "" && r.startDate == ""
    ensures r.endDate == Some("") && r.current == Some(false)
  {
    Experience(id, "", "", "", "", Some(""), Some(false))
  }

  function AddExperience(es: seq<Experience>, freshId: string): (r: seq<Experience>)
    ensures |r| == |es| + 1 && r[..|es|] == es && r[|es|] == BlankExperience(freshId)
  {
    es + [BlankExperience(freshId)]
  }

  function UpdateExperience(es: seq<Experience>, id: string, u: ExperiencePatch): (r: seq<Experience>)
    ensures |r| == |es|
    ensures forall i | 0 <= i < |es| :: r[i] == if es[i].id == id then MergeExperience(es[i], u) else es[i]
  {
    MapIf(es, (e: Experience) => e.id == id, (e: Experience) => MergeExperience(e, u))
  }

  function RemoveExperience(es: seq<Experience>, id: string): (r: seq<Experience>)
    ensures |r| <= |es|
    ensures forall e :: e in r <==> e in es && e.id != id
  {
    Filter(es, (e: Experience) => e.id != id)
  }

  lemma RemoveExperienceAppend(a: seq<Experience>, b: seq<Experience>, id: string)
    ensures RemoveExperience(a + b, id) == RemoveExperience(a, id) + RemoveExperience(b, id)
  {
    FilterAppend(a, b, (e: Experience) => e.id != id);
  }

  lemma RemoveAfterUpdateExperience(es: seq<Experience>, id: string, u: ExperiencePatch)
    requires u.id.None?
    ensures RemoveExperience(UpdateExperience(es, id, u), id) == RemoveExperience(es, id)
  {
    FilterMapIf(es, (e: Experience) => e.id == id, (e: Experience) => MergeExperience(e, u), (e: Experience) => e.id != id);
  }

  lemma RemoveAddedExperience(es: seq<Experience>, freshId: string)
    requires forall i | 0 <= i < |es| :: es[i].id != freshId
    ensures RemoveExperience(AddExperience(es, freshId), freshId) == es
  {
    var keep := (e: Experience) => e.id != freshId;
    FilterAppend(es, [BlankExperience(freshId)], keep);
    FilterAll(es, keep);
  }

  function ToggleExperience(es: seq<Experience>, clicked: Experience, checked: bool): (r: seq<Experience>)
    ensures |r| == |es|
    ensures forall i | 0 <= i < |es| && es[i].id == clicked.id ::
      && r[i].current == Some(checked)
      && r[i].endDate == (if checked then Some("") else clicked.endDate)
      && r[i].(current := es[i].current, endDate := es[i].endDate) == es[i]
    ensures forall i | 0 <= i < |es| && es[i].id != clicked.id :: r[i] == es[i]
  {
    UpdateExperience(es, clicked.id,
      ExperiencePatch(None, None, None, None, None, Some(if checked then Some("") else clicked.endDate), Some(Some(checked))))
  }

  lemma ExperienceTickUntick(es: seq<Experience>, k: nat)
    requires k < |es|
    ensures var ticked := ToggleExperience(es, es[k], true);
      var unticked := ToggleExperience(ticked, ticked[k], false);
      unticked[k].current == Some(false) && unticked[k].endDate == Some("")
  {
  }

  // ---------------------------------------------------------------------
  // Load and save
  // ---------------------------------------------------------------------

  /** `value || ""`. */
  function TextOf(o: Option<string>): (r: string)
    ensures Truthy(o) <==> r != ""
    ensures r != "" ==> o == Some(r)
  {
    if Truthy(o) then o.value else ""
  }

  /**
    Loading: a stored portfolio fills the form (`|| ""`) and the lists (`|| []`);
    without one (or when the request fails) the initial blank state stays.
  */
  function Load(data: Option<Portfolio>): (r: State)
    ensures data.None? ==> r == Initial
    ensures data.Some? ==>
      && r.skillInput == "" && r.skills == Items(data.value.skills)
      && r.projects == Items(data.value.projects) && r.education == Items(data.value.education)
      && r.experience == Items(data.value.experience)
    ensures data.Some? ==>
      var p := data.value;
      r.form == Form(TextOf(p.bio), TextOf(p.title), TextOf(p.location), TextOf(p.website),
                     TextOf(p.github), TextOf(p.linkedin), TextOf(p.twitter))
    ensures data.Some? ==>
      && (r.form.bio != "" <==> Truthy(data.value.bio))
      && (r.form.github != "" <==> Truthy(data.value.github))
  {
    match data
    case None => Initial
    case Some(p) =>
      State(
        Form(TextOf(p.bio), TextOf(p.title), TextOf(p.location), TextOf(p.website),
             TextOf(p.github), TextOf(p.linkedin), TextOf(p.twitter)),
        Items(p.skills), "", Items(p.projects), Items(p.education), Items(p.experience))
  }

  /** `onSubmit`: every form field and all four lists, exactly as held; no role or picture. */
  function SavePayload(s: State): (r: UpdateRequest)
    ensures r.role.None? && r.profilePicture.None?
    ensures r.skills == Some(s.skills) && r.projects == Some(s.projects)
      && r.education == Some(s.education) && r.experience == Some(s.experience)
    ensures r.bio == Some(s.form.bio) && r.title == Some(s.form.title) && r.location == Some(s.form.location)
      && r.website == Some(s.form.website) && r.github == Some(s.form.github)
      && r.linkedin == Some(s.form.linkedin) && r.twitter == Some(s.form.twitter)
  {
    UpdateRequest(Some(s.form.bio), Some(s.form.title), Some(s.form.location), Some(s.form.website),
                  Some(s.form.github), Some(s.form.linkedin), Some(s.form.twitter),
                  None, Some(s.skills), Some(s.projects), Some(s.education), Some(s.experience), None)
  }
}
