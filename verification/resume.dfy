/**
  The text the plain resume generator writes: the default file name, the
  picture's image format, the contact line, date ranges, degree lines and
  the skills and technology lines, and which sections appear. Layout,
  fonts and page breaks are not modelled.
*/
module Resume {
  import opened Wrappers
  import opened Text
  import opened Schema

  // ---------------------------------------------------------------------
  // File name

  /**
    `s.replace(/\s+/g, "_")`, read left to right: every maximal run of
    whitespace becomes one underscore; `inRun` says the previous character
    was whitespace.
  */
  function Collapse(s: string, inRun: bool): (r: string)
    ensures |r| <= |s|
    ensures forall k | 0 <= k < |r| :: !IsSpace(r[k])
  {
    if |s| == 0 then ""
    else if IsSpace(s[0]) then (if inRun then "" else "_") + Collapse(s[1..], true)
    else [s[0]] + Collapse(s[1..], false)
  }

  function Underscored(s: string): (r: string)
    ensures |r| <= |s|
    ensures forall k | 0 <= k < |r| :: !IsSpace(r[k])
  {
    Collapse(s, false)
  }

  predicate NoSpace(s: string) {
    forall k | 0 <= k < |s| :: !IsSpace(s[k])
  }

  /** A word without whitespace is copied through, and scanning goes on after it. */
  lemma {:induction false} CollapseWord(w: string, rest: string, inRun: bool)
    requires NoSpace(w) && |w| > 0
    ensures Collapse(w + rest, inRun) == w + Collapse(rest, false)
  {
    var s := w + rest;
    assert s[0] == w[0];
    assert s[1..] == w[1..] + rest;
    if |w| == 1 {
      assert w[1..] + rest == rest;
    } else {
      CollapseWord(w[1..], rest, false);
    }
  }

  /** A whitespace run becomes at most one underscore, and scanning goes on after it. */
  lemma {:induction false} CollapseGap(gap: string, rest: string, inRun: bool)
    requires AllSpace(gap) && |gap| > 0
    ensures Collapse(gap + rest, inRun) == (if inRun then "" else "_") + Collapse(rest, true)
  {
    var s := gap + rest;
    assert s[0] == gap[0];
    assert s[1..] == gap[1..] + rest;
    if |gap| == 1 {
      assert gap[1..] + rest == rest;
    } else {
      CollapseGap(gap[1..], rest, true);
    }
  }

  /** A text without whitespace is left as it is. */
  lemma UnderscoredNoSpace(s: string)
    requires NoSpace(s)
    ensures Underscored(s) == s
  {
    if |s| > 0 {
      CollapseWord(s, "", false);
      assert s + "" == s;
    }
  }

  /** Replacing twice is replacing once. */
  lemma UnderscoredIdempotent(s: string)
    ensures Underscored(Underscored(s)) == Underscored(s)
  {
    UnderscoredNoSpace(Underscored(s));
  }

  /** A run of whitespace between two words becomes one underscore. */
  lemma UnderscoredTwoWords(a: string, gap: string, b: string)
    requires NoSpace(a) && |a| > 0 && NoSpace(b) && |b| > 0
    requires AllSpace(gap) && |gap| > 0
    ensures Underscored(a + gap + b) == a + "_" + b
  {
    assert a + gap + b == a + (gap + b);
    CollapseWord(a, gap + b, false);
    CollapseGap(gap, b, false);
    CollapseWord(b, "", true);
    assert b + "" == b;
  }

  const ResumeSuffix := "_Resume.pdf"

  /** The file name: the one given, verbatim, or the user name with whitespace runs underscored. */
  function Filename(userName: string, given: Option<string>): (r: string)
    ensures given.Some? ==> r == given.value
    ensures given.None? ==> r == Underscored(userName) + ResumeSuffix
    ensures given.None? ==> forall k | 0 <= k < |r| :: !IsSpace(r[k])
  {
    match given
    case Some(f) => f
    case None => Underscored(userName) + ResumeSuffix
  }

  // ---------------------------------------------------------------------
  // Picture format

  datatype ImageFormat = PNG | JPEG | WEBP

  const PngMark := "data:image/png"
  const JpegMark := "data:image/jpeg"
  const JpgMark := "data:image/jpg"
  const WebpMark := "data:image/webp"

  /** The format guessed from the data URL; JPEG when nothing matches. */
  function Format(data: string): (r: ImageFormat)
    ensures r == PNG <==> Contains(data, PngMark)
    ensures r == WEBP <==> !Contains(data, PngMark) && !Contains(data, JpegMark) && !Contains(data, JpgMark) && Contains(data, WebpMark)
    ensures r == JPEG <==> !Contains(data, PngMark) && (Contains(data, JpegMark) || Contains(data, JpgMark) || !Contains(data, WebpMark))
  {
    if Contains(data, PngMark) then PNG
    else if Contains(data, JpegMark) || Contains(data, JpgMark) then JPEG
    else if Contains(data, WebpMark) then WEBP
    else JPEG
  }

  // ---------------------------------------------------------------------
  // Lines

  const ContactSeparator := "  |  "

  function Keep(o: Option<string>): (r: seq<string>)
    ensures |r| <= 1
    ensures r == [] <==> !Truthy(o)
    ensures r != [] ==> r == [o.value]
  {
    if Truthy(o) then [o.value] else []
  }

  /** The contact entries, in the order location, GitHub, LinkedIn, website, keeping only those present. */
  function ContactParts(p: Portfolio): (r: seq<string>)
    ensures |r| <= 4
    ensures |r| == 0 <==> !Truthy(p.location) && !Truthy(p.github) && !Truthy(p.linkedin) && !Truthy(p.website)
    ensures forall k | 0 <= k < |r| :: r[k] != ""
  {
    Keep(p.location) + Keep(p.github) + Keep(p.linkedin) + Keep(p.website)
  }

  /** The contact line, omitted when there is nothing to show. */
  function ContactLine(p: Portfolio): (r: Option<string>)
    ensures r.None? <==> ContactParts(p) == []
    ensures r.Some? ==> r.value == Join(ContactParts(p), ContactSeparator)
  {
    var parts := ContactParts(p);
    if |parts| == 0 then None else Some(Join(parts, ContactSeparator))
  }

  /** With every contact present the line lists all four, separated. */
  lemma FullContactLine(p: Portfolio)
    requires Truthy(p.location) && Truthy(p.github) && Truthy(p.linkedin) && Truthy(p.website)
    ensures ContactLine(p) == Some(p.location.value + ContactSeparator + p.github.value + ContactSeparator
                                   + p.linkedin.value + ContactSeparator + p.website.value)
  {
    var sep := ContactSeparator;
    var w, x, y, z := p.location.value, p.github.value, p.linkedin.value, p.website.value;
    assert ContactParts(p) == [w, x, y, z];
    assert [w, x, y, z][1..] == [x, y, z];
    assert [x, y, z][1..] == [y, z];
    assert [y, z][1..] == [z];
    assert Join([y, z], sep) == y + sep + z;
    assert Join([x, y, z], sep) == x + sep + (y + sep + z);
    assert Join([w, x, y, z], sep) == w + sep + (x + sep + (y + sep + z));
    assert w + sep + (x + sep + (y + sep + z)) == w + sep + x + sep + y + sep + z;
  }

  const EnDashSeparator := " \U{2013} "
  const PresentWord := "Present"

  /** `${start} – ${current ? "Present" : endDate}`; a missing end date prints as "undefined". */
  function DateRange(startDate: string, current: Option<bool>, endDate: Option<string>): (r: string)
    ensures IsSet(current) ==> r == startDate + EnDashSeparator + PresentWord
    ensures !IsSet(current) ==> r == startDate + EnDashSeparator + Render(endDate)
    ensures r[..|startDate| + 3] == startDate + EnDashSeparator
  {
    var r := startDate + EnDashSeparator + (if IsSet(current) then PresentWord else Render(endDate));
    assert r[..|startDate| + 3] == startDate + EnDashSeparator;
    r
  }

  const FieldSeparator := " - "

  /** `${degree}${field ? " - " + field : ""}`. */
  function DegreeLine(degree: string, field: string): (r: string)
    ensures field == "" ==> r == degree
    ensures field != "" ==> r == degree + FieldSeparator + field
    ensures r[..|degree|] == degree
  {
    if field != "" then degree + FieldSeparator + field else degree
  }

  const ListSeparator := ", "
  const TechPrefix := "Tech Used: "

  /** The skills paragraph. */
  function SkillsLine(skills: seq<string>): (r: string)
    ensures |skills| == 1 ==> r == skills[0]
  {
    Join(skills, ListSeparator)
  }

  /** Adding a skill adds ", " and that skill at the end of the line. */
  lemma SkillsLineSnoc(skills: seq<string>, s: string)
    requires |skills| > 0
    ensures SkillsLine(skills + [s]) == SkillsLine(skills) + ListSeparator + s
  {
    JoinSnoc(skills, s, ListSeparator);
  }

  /** A project's technology line, written only when it lists something. */
  function TechLine(techs: Option<seq<string>>): (r: Option<string>)
    ensures r.None? <==> Len(techs) == 0
    ensures r.Some? ==> r.value == TechPrefix + Join(techs.value, ListSeparator)
  {
    if Len(techs) > 0 then Some(TechPrefix + Join(techs.value, ListSeparator)) else None
  }

  // ---------------------------------------------------------------------
  // Sections

  datatype Section = Profile | EducationSection | Skills | ExperienceSection | Projects

  function SectionIf(c: bool, s: Section): (r: seq<Section>)
    ensures r == (if c then [s] else [])
  {
    if c then [s] else []
  }

  /** The sections written, in order: each appears exactly when it has content. */
  function Sections(p: Portfolio): (r: seq<Section>)
    ensures Profile in r <==> Truthy(p.bio)
    ensures EducationSection in r <==> Len(p.education) > 0
    ensures Skills in r <==> Len(p.skills) > 0
    ensures ExperienceSection in r <==> Len(p.experience) > 0
    ensures Projects in r <==> Len(p.projects) > 0
    ensures |r| <= 5
  {
    SectionIf(Truthy(p.bio), Profile) + SectionIf(Len(p.education) > 0, EducationSection)
      + SectionIf(Len(p.skills) > 0, Skills) + SectionIf(Len(p.experience) > 0, ExperienceSection)
      + SectionIf(Len(p.projects) > 0, Projects)
  }
}
