/**
  The dashboard's profile-strength meter and its ordered hint list
  (`getCompletionScore` and `getIntelligenceSuggestions`).
*/
module Dashboard {
  import opened Wrappers
  import opened Text
  import opened Schema

  // ---------------------------------------------------------------------------
  // Completion score

  const JobReady := "Job\U{2011}ready"
  const InProgress := "In progress"
  const GettingStarted := "Getting started"

  datatype Completion = Completion(score: int, level: string)

  /** The running score before the cap, accumulated rule by rule. */
  function RawScore(p: Portfolio): (s: int)
    ensures 0 <= s <= 110
  {
    var skills := Len(p.skills);
    var projects := Len(p.projects);
    (if Truthy(p.bio) then 20 else 0)
      + (if Truthy(p.title) then 10 else 0)
      + (if Truthy(p.location) then 5 else 0)
      + (if skills >= 3 then 10 else 0)
      + (if skills >= 6 then 10 else 0)
      + (if projects >= 1 then 15 else 0)
      + (if projects >= 3 then 10 else 0)
      + (if Len(p.education) > 0 then 10 else 0)
      + (if Len(p.experience) > 0 then 10 else 0)
      + (if Truthy(p.github) || Truthy(p.linkedin) || Truthy(p.website) then 10 else 0)
  }

  /** `getCompletionScore`: only the top band is capped at 100. */
  function CompletionScore(p: Option<Portfolio>): (r: Completion)
    ensures p.None? ==> r == Completion(0, GettingStarted)
    ensures p.Some? ==> r.score == if RawScore(p.value) > 100 then 100 else RawScore(p.value)
    ensures 0 <= r.score <= 100
    ensures r.level == JobReady <==> r.score >= 80
    ensures r.level == InProgress <==> 50 <= r.score < 80
    ensures r.level == GettingStarted <==> r.score < 50
  {
    if p.None? then Completion(0, GettingStarted)
    else
      var score := RawScore(p.value);
      if score >= 80 then Completion(if score < 100 then score else 100, JobReady)
      else if score >= 50 then Completion(score, InProgress)
      else Completion(score, GettingStarted)
  }

  /** Every check met: bio, title, location, six skills, three projects, education, experience and a link. */
  predicate FullProfile(p: Portfolio) {
    && Truthy(p.bio) && Truthy(p.title) && Truthy(p.location)
    && Len(p.skills) >= 6 && Len(p.projects) >= 3 && Len(p.education) > 0 && Len(p.experience) > 0
    && (Truthy(p.github) || Truthy(p.linkedin) || Truthy(p.website))
  }

  /** A full profile reaches the raw maximum of 110, which the cap brings down to 100; below that nothing is capped. */
  lemma FullProfileCapped(p: Portfolio)
    ensures FullProfile(p) <==> RawScore(p) == 110
    ensures FullProfile(p) ==> CompletionScore(Some(p)) == Completion(100, JobReady)
  {
  }

  /** `q` has every field and at least as many list entries as `p`. */
  predicate AtLeastAsComplete(q: Portfolio, p: Portfolio) {
    && (Truthy(p.bio) ==> Truthy(q.bio))
    && (Truthy(p.title) ==> Truthy(q.title))
    && (Truthy(p.location) ==> Truthy(q.location))
    && (Truthy(p.github) ==> Truthy(q.github))
    && (Truthy(p.linkedin) ==> Truthy(q.linkedin))
    && (Truthy(p.website) ==> Truthy(q.website))
    && Len(p.skills) <= Len(q.skills)
    && Len(p.projects) <= Len(q.projects)
    && Len(p.education) <= Len(q.education)
    && Len(p.experience) <= Len(q.experience)
  }

  function LevelRank(level: string): nat {
    if level == JobReady then 2 else if level == InProgress then 1 else 0
  }

  lemma RawScoreMonotone(p: Portfolio, q: Portfolio)
    requires AtLeastAsComplete(q, p)
    ensures RawScore(p) <= RawScore(q)
  {
  }

  /** Filling in a field or adding a list entry never lowers the score or the level. */
  lemma CompletionMonotone(p: Portfolio, q: Portfolio)
    requires AtLeastAsComplete(q, p)
    ensures CompletionScore(Some(p)).score <= CompletionScore(Some(q)).score
    ensures LevelRank(CompletionScore(Some(p)).level) <= LevelRank(CompletionScore(Some(q)).level)
  {
    RawScoreMonotone(p, q);
  }

  // ---------------------------------------------------------------------------
  // Hint list

  datatype Hint = Hint(id: string, title: string, description: string, estimatedImpact: string)

  /** The hints the dashboard can show; their declaration order is the display order. */
  datatype HintKind = CreatePortfolio | AddBio | AddSkills | AddProjects | AddGithub

  function Rank(k: HintKind): nat {
    match k
    case CreatePortfolio => 0
    case AddBio => 1
    case AddSkills => 2
    case AddProjects => 3
    case AddGithub => 4
  }

  // Each text is a constant of its own, so that proofs about the list do not unfold it.
  const CreatePortfolioTitle := "Create your first portfolio entries"
  const CreatePortfolioAdvice := "Add your bio, at least 3 skills, and 1 project to unlock your public profile."
  const AddBioTitle := "Add a compelling bio"
  const AddBioAdvice := "Write 3\U{2011}4 lines summarizing who you are and what you do."
  const AddSkillsTitle := "Strengthen skills"
  const AddSkillsAdvice := "Aim for at least 5\U{2013}8 focused skills."
  const AddProjectsTitle := "Show a project"
  const AddProjectsAdvice := "Add a project that demonstrates problem\U{2011}solving."
  const AddGithubTitle := "Link GitHub"
  const AddGithubAdvice := "Teams scan GitHub for coding style."

  const CreatePortfolioHint := Hint("create-portfolio", CreatePortfolioTitle, CreatePortfolioAdvice, "+30% strength")
  const AddBioHint := Hint("add-bio", AddBioTitle, AddBioAdvice, "+15% interest")
  const AddSkillsHint := Hint("add-skills", AddSkillsTitle, AddSkillsAdvice, "+10% match")
  const AddProjectsHint := Hint("add-projects", AddProjectsTitle, AddProjectsAdvice, "+20% impact")
  const AddGithubHint := Hint("add-github", AddGithubTitle, AddGithubAdvice, "+10% visibility")

  function HintText(k: HintKind): Hint {
    match k
    case CreatePortfolio => CreatePortfolioHint
    case AddBio => AddBioHint
    case AddSkills => AddSkillsHint
    case AddProjects => AddProjectsHint
    case AddGithub => AddGithubHint
  }

  /** `(p as any).role || "developer"`. */
  function EffectiveRole(p: Portfolio): string {
    if p.role == "" then DefaultRole else p.role
  }

  /** Which of the saved-portfolio hints a profile calls for. */
  datatype Wanted = Wanted(bio: bool, skills: bool, projects: bool, github: bool)

  function WantedBy(p: Portfolio): Wanted {
    Wanted(
      !Truthy(p.bio),
      Len(p.skills) < 5,
      Len(p.projects) == 0,
      !Truthy(p.github) && (EffectiveRole(p) == "developer" || EffectiveRole(p) == "ai_ml"))
  }

  predicate Wants(w: Wanted, k: HintKind) {
    match k
    case CreatePortfolio => false
    case AddBio => w.bio
    case AddSkills => w.skills
    case AddProjects => w.projects
    case AddGithub => w.github
  }

  /** When each hint applies to a saved portfolio. */
  predicate Applies(p: Portfolio, k: HintKind) {
    Wants(WantedBy(p), k)
  }

  predicate RankOrdered(ks: seq<HintKind>) {
    forall i, j | 0 <= i < j < |ks| :: Rank(ks[i]) < Rank(ks[j])
  }

  /** Every hint of `ks` has a rank in `[lo, hi)`. */
  predicate RanksIn(ks: seq<HintKind>, lo: nat, hi: nat) {
    forall i | 0 <= i < |ks| :: lo <= Rank(ks[i]) < hi
  }

  /** One conditional `push`. */
  function PushIf(c: bool, k: HintKind): (r: seq<HintKind>)
    ensures forall x :: x in r <==> c && x == k
    ensures |r| <= 1
    ensures RankOrdered(r) && RanksIn(r, Rank(k), Rank(k) + 1)
  {
    if c then [k] else []
  }

  /** Appending hints of higher rank keeps the list ordered. */
  lemma OrderedAppend(a: seq<HintKind>, b: seq<HintKind>, lo: nat, mid: nat, hi: nat)
    requires lo <= mid <= hi
    requires RankOrdered(a) && RanksIn(a, lo, mid)
    requires RankOrdered(b) && RanksIn(b, mid, hi)
    ensures RankOrdered(a + b) && RanksIn(a + b, lo, hi)
  {
    var s := a + b;
    forall i | 0 <= i < |s| ensures lo <= Rank(s[i]) < hi {
      if i >= |a| { assert s[i] == b[i - |a|]; }
    }
    forall i, j | 0 <= i < j < |s| ensures Rank(s[i]) < Rank(s[j]) {
      if j < |a| {
        assert s[i] == a[i] && s[j] == a[j];
      } else if i >= |a| {
        assert s[i] == b[i - |a|] && s[j] == b[j - |a|];
      } else {
        assert s[i] == a[i] && s[j] == b[j - |a|];
      }
    }
  }

  /** The hints a saved portfolio gets, in the order they are pushed. */
  function Pushed(w: Wanted): (r: seq<HintKind>)
    ensures |r| <= 4
  {
    PushIf(w.bio, AddBio) + PushIf(w.skills, AddSkills) + PushIf(w.projects, AddProjects) + PushIf(w.github, AddGithub)
  }

  lemma PushedOrdered(w: Wanted)
    ensures RankOrdered(Pushed(w))
  {
    var a, b := PushIf(w.bio, AddBio), PushIf(w.skills, AddSkills);
    var c, d := PushIf(w.projects, AddProjects), PushIf(w.github, AddGithub);
    OrderedAppend(a, b, 1, 2, 3);
    OrderedAppend(a + b, c, 1, 3, 4);
    OrderedAppend(a + b + c, d, 1, 4, 5);
  }

  /** A hint is pushed exactly when the profile calls for it. */
  lemma PushedMembers(w: Wanted)
    ensures forall k :: k in Pushed(w) <==> Wants(w, k)
  {
    var a, b := PushIf(w.bio, AddBio), PushIf(w.skills, AddSkills);
    var c, d := PushIf(w.projects, AddProjects), PushIf(w.github, AddGithub);
    assert Pushed(w) == a + b + c + d;
    forall k ensures k in Pushed(w) <==> Wants(w, k) {
      assert k in a + b + c + d <==> k in a || k in b || k in c || k in d;
    }
  }

  /** The hints in the order they are pushed. */
  function HintKinds(p: Option<Portfolio>): (r: seq<HintKind>)
    ensures p.None? ==> r == [CreatePortfolio]
    ensures p.Some? ==> forall k :: k in r <==> Applies(p.value, k)
    ensures RankOrdered(r)
    ensures |r| <= 4
  {
    if p.None? then [CreatePortfolio]
    else
      PushedOrdered(WantedBy(p.value));
      PushedMembers(WantedBy(p.value));
      Pushed(WantedBy(p.value))
  }

  /** Each hint appears exactly when its condition holds. */
  lemma HintKindsApply(p: Portfolio, k: HintKind)
    ensures k in HintKinds(Some(p)) <==> Applies(p, k)
  {
  }

  /** `getIntelligenceSuggestions`, including its final `slice(0, 4)`, which never cuts anything. */
  function IntelligenceSuggestions(p: Option<Portfolio>): (r: seq<Hint>)
    ensures |r| == |HintKinds(p)|
    ensures forall i | 0 <= i < |r| :: r[i] == HintText(HintKinds(p)[i])
  {
    var kinds := HintKinds(p);
    Take(seq(|kinds|, i requires 0 <= i < |kinds| => HintText(kinds[i])), 4)
  }

  lemma HintIdsDiffer(a: HintKind, b: HintKind)
    requires a != b
    ensures HintText(a).id != HintText(b).id
  {
    var x, y := HintText(a).id, HintText(b).id;
    assert |x| != |y| || x[4] != y[4];
  }

  /** Different hints carry different ids, so the list never repeats a hint. */
  lemma HintIdsDistinct(p: Option<Portfolio>)
    ensures var r := IntelligenceSuggestions(p); forall i, j | 0 <= i < j < |r| :: r[i].id != r[j].id
  {
    var r := IntelligenceSuggestions(p);
    var kinds := HintKinds(p);
    forall i, j | 0 <= i < j < |r| ensures r[i].id != r[j].id {
      assert Rank(kinds[i]) < Rank(kinds[j]);
      HintIdsDiffer(kinds[i], kinds[j]);
    }
  }

  /** A portfolio with every hint's condition met gets all four hints, in order. */
  lemma BlankPortfolioHints(p: Portfolio)
    requires !Truthy(p.bio) && !Truthy(p.github) && Len(p.skills) == 0 && Len(p.projects) == 0
    requires p.role == "" || p.role == "developer"
    ensures IntelligenceSuggestions(Some(p)) == [AddBioHint, AddSkillsHint, AddProjectsHint, AddGithubHint]
  {
    var kinds := HintKinds(Some(p));
    assert kinds == [AddBio, AddSkills, AddProjects, AddGithub];
    var r := IntelligenceSuggestions(Some(p));
    assert r[0] == AddBioHint && r[1] == AddSkillsHint && r[2] == AddProjectsHint && r[3] == AddGithubHint;
  }
}
