/**
  The public portfolio page's pure helpers: initials for the avatar, the
  social links shown, whether any section has content, the date suffix of
  an education or experience entry, and the page state a fetch leads to.
*/
module PublicPage {
  import opened Wrappers
  import opened Text
  import opened Schema

  // ---------------------------------------------------------------------
  // Initials

  /** `segments.map(n => n[0]).join("")`: an empty segment's `undefined` joins as nothing. */
  function Heads(segments: seq<string>): (r: string)
    ensures |r| <= |segments|
  {
    if |segments| == 0 then ""
    else (if segments[0] == "" then "" else [segments[0][0]]) + Heads(segments[1..])
  }

  /**
    The reference reading of "first letter of each word": scanning left to
    right, a non-space character counts when it follows a space or starts
    the text (`atStart`).
  */
  function WordStarts(s: string, atStart: bool): (r: string)
    ensures |r| <= |s|
    ensures forall k | 0 <= k < |r| :: r[k] != ' '
  {
    if |s| == 0 then ""
    else if s[0] == ' ' then WordStarts(s[1..], true)
    else (if atStart then [s[0]] else "") + WordStarts(s[1..], false)
  }

  /** Splitting on spaces and taking the heads finds exactly the word starts. */
  lemma {:induction false} HeadsSplit(s: string)
    ensures Heads(Split(s, ' ')) == WordStarts(s, true)
    ensures Heads(Split(s, ' ')[1..]) == WordStarts(s, false)
  {
    if |s| == 0 {
      assert Split(s, ' ') == [""];
    } else if s[0] == ' ' {
      var rest := Split(s[1..], ' ');
      HeadsSplit(s[1..]);
      assert Split(s, ' ') == [""] + rest;
      assert Split(s, ' ')[1..] == rest;
    } else {
      var rest := Split(s[1..], ' ');
      HeadsSplit(s[1..]);
      var r := [[s[0]] + rest[0]] + rest[1..];
      assert Split(s, ' ') == r;
      assert r[1..] == rest[1..];
      assert Heads(r) == [s[0]] + Heads(rest[1..]);
    }
  }

  /**
    `getInitials`: the upper-cased first characters of the space-separated
    words, cut to two after upper-casing.
  */
  function Initials(name: string): (r: string)
    ensures |r| <= 2
    ensures r == Take(Upper(WordStarts(name, true)), 2)
  {
    HeadsSplit(name);
    Take(Upper(Heads(Split(name, ' '))), 2)
  }

  predicate IsWord(w: string) {
    |w| > 0 && ' ' !in w
  }

  /** Inside a word no further word starts. */
  lemma {:induction false} NoStartsInsideWord(w: string)
    requires ' ' !in w
    ensures WordStarts(w, false) == ""
  {
    if |w| > 0 {
      assert w[0] in w;
      assert forall c | c in w[1..] :: c in w;
      NoStartsInsideWord(w[1..]);
    }
  }

  /** A leading word contributes its first character (when at a start), then scanning resumes after the space. */
  lemma {:induction false} WordThenRest(w: string, rest: string, atStart: bool)
    requires IsWord(w)
    ensures WordStarts(w + " " + rest, atStart) == (if atStart then [w[0]] else "") + WordStarts(rest, true)
  {
    var s := w + " " + rest;
    assert s[0] == w[0] && s[0] != ' ' by { assert w[0] in w; }
    if |w| == 1 {
      assert s[1..] == " " + rest;
      assert (" " + rest)[1..] == rest;
    } else {
      assert s[1..] == w[1..] + " " + rest;
      assert forall c | c in w[1..] :: c in w;
      WordThenRest(w[1..], rest, false);
    }
  }

  /** "First Last" gives the two upper-cased first letters; a single word gives one. */
  lemma InitialsOfTwoWords(first: string, last: string)
    requires IsWord(first) && IsWord(last)
    ensures Initials(first + " " + last) == [UpperChar(first[0]), UpperChar(last[0])]
    ensures Initials(last) == [UpperChar(last[0])]
  {
    NoStartsInsideWord(last[1..]) by { assert forall c | c in last[1..] :: c in last; }
    assert WordStarts(last, true) == [last[0]] by { assert last[0] != ' ' by { assert last[0] in last; } }
    WordThenRest(first, last, true);
  }

  lemma InitialsOfEmpty()
    ensures Initials("") == ""
  {
  }

  // ---------------------------------------------------------------------
  // Social links

  datatype LinkKind = Website | GitHub | LinkedIn | Twitter

  function LinkRank(k: LinkKind): nat {
    match k
    case Website => 0
    case GitHub => 1
    case LinkedIn => 2
    case Twitter => 3
  }

  function Href(p: Portfolio, k: LinkKind): Option<string> {
    match k
    case Website => p.website
    case GitHub => p.github
    case LinkedIn => p.linkedin
    case Twitter => p.twitter
  }

  function IfTruthy(o: Option<string>, k: LinkKind): (r: seq<LinkKind>)
    ensures |r| <= 1
    ensures r == [] <==> !Truthy(o)
    ensures r != [] ==> r[0] == k
  {
    if Truthy(o) then [k] else []
  }

  /** `socialLinks`: the fixed four candidates, keeping those with a truthy address. */
  function SocialLinks(p: Portfolio): (r: seq<LinkKind>)
    ensures |r| <= 4
    ensures forall k :: k in r <==> Truthy(Href(p, k))
  {
    IfTruthy(p.website, Website) + IfTruthy(p.github, GitHub)
      + IfTruthy(p.linkedin, LinkedIn) + IfTruthy(p.twitter, Twitter)
  }

  /** The shown links keep the fixed order website, GitHub, LinkedIn, Twitter. */
  lemma SocialLinksOrdered(p: Portfolio)
    ensures var r := SocialLinks(p); forall i, j | 0 <= i < j < |r| :: LinkRank(r[i]) < LinkRank(r[j])
  {
    var a := IfTruthy(p.website, Website) + IfTruthy(p.github, GitHub);
    var b := IfTruthy(p.linkedin, LinkedIn) + IfTruthy(p.twitter, Twitter);
    assert forall i | 0 <= i < |a| :: LinkRank(a[i]) <= 1;
    assert forall i | 0 <= i < |b| :: LinkRank(b[i]) >= 2;
    assert SocialLinks(p) == a + b;
  }

  /** Each shown link has a truthy address. */
  lemma SocialLinksTruthy(p: Portfolio)
    ensures forall i | 0 <= i < |SocialLinks(p)| :: Truthy(Href(p, SocialLinks(p)[i]))
  {
    var r := SocialLinks(p);
    forall i | 0 <= i < |r| ensures Truthy(Href(p, r[i])) {
      assert r[i] in r;
    }
  }

  // ---------------------------------------------------------------------
  // Content and dates

  /** `hasContent`: a bio, or at least one entry in some list. */
  predicate HasContent(p: Portfolio) {
    Truthy(p.bio) || Len(p.skills) > 0 || Len(p.projects) > 0 || Len(p.education) > 0 || Len(p.experience) > 0
  }

  /** The page is empty exactly when the bio is empty or absent and every list is empty or absent. */
  lemma NoContentIff(p: Portfolio)
    ensures !HasContent(p) <==>
      && (p.bio.None? || p.bio.value == "")
      && Items(p.skills) == [] && Items(p.projects) == [] && Items(p.education) == [] && Items(p.experience) == []
  {
  }

  const Present := " - Present"

  /** The suffix after an entry's start date. */
  function DateSuffix(current: Option<bool>, endDate: Option<string>): (r: string)
    ensures IsSet(current) ==> r == Present
    ensures !IsSet(current) && Truthy(endDate) ==> r == " - " + endDate.value
    ensures r == "" <==> !IsSet(current) && !Truthy(endDate)
    ensures r != "" ==> r[..3] == " - "
  {
    if IsSet(current) then Present
    else if Truthy(endDate) then " - " + endDate.value
    else ""
  }

  // ---------------------------------------------------------------------
  // Page state

  /** A fetch either throws or resolves to data or to nothing. */
  datatype Fetch<T> = Threw | Got(data: Option<T>)

  datatype Page<T> = Loading | NotFound | Show(value: T)

  /** The page a fetch leads to; with no username in the route nothing is fetched and it stays loading. */
  function Settle<T>(username: string, f: Fetch<T>): (r: Page<T>)
    ensures username == "" ==> r == Loading
    ensures username != "" ==> (r == NotFound <==> f == Threw || f == Got(None))
    ensures username != "" && f.Got? && f.data.Some? ==> r == Show(f.data.value)
  {
    if username == "" then Loading
    else match f
      case Threw => NotFound
      case Got(None) => NotFound
      case Got(Some(v)) => Show(v)
  }
}
