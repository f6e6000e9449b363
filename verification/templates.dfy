/**
  The arithmetic the role templates (developer, premium, data analyst and
  AI/ML) share: carousel stepping with JavaScript's remainder, the visible
  three-card window, marquee repetition, the two-way skill split, the stat
  counters and the premium template's fallback text for an experience.
*/
module Templates {
  import opened Wrappers
  import opened Text
  import opened Schema

  // ---------------------------------------------------------------------
  // JavaScript remainder and the carousel

  function Abs(x: int): (r: int)
    ensures r >= 0 && (r == x || r == -x)
  {
    if x < 0 then -x else x
  }

  function Max(a: int, b: int): int {
    if a < b then b else a
  }

  /** `a % b` in JavaScript: the remainder of truncating division, signed like `a`. */
  function JsRem(a: int, b: int): (r: int)
    requires b != 0
    ensures 0 <= a ==> 0 <= r < Abs(b)
    ensures a < 0 ==> -Abs(b) < r <= 0
    ensures 0 <= a && 0 < b ==> r == a % b
  {
    var m := Abs(a) % Abs(b);
    if a < 0 then -m else m
  }

  /** The number of slots the carousel cycles through: `Math.max(length, 1)`. */
  function Slots(n: nat): (r: nat)
    ensures r >= 1 && (n > 0 ==> r == n)
  {
    Max(n, 1)
  }

  /** `next`: `(i + 1) % Math.max(n, 1)`. */
  function Next(i: int, n: nat): int {
    JsRem(i + 1, Slots(n))
  }

  /** `prev`: `(i - 1 + n) % Math.max(n, 1)`. */
  function Prev(i: int, n: nat): int {
    JsRem(i - 1 + n, Slots(n))
  }

  lemma ModBelow(a: int, m: int)
    requires 0 <= a < m
    ensures a % m == a
  {
  }

  /** A remainder is determined by any quotient-remainder decomposition with the remainder in range. */
  lemma ModUnique(a: int, m: int, q: int, r: int)
    requires 0 < m && 0 <= r < m && a == q * m + r
    ensures a % m == r
  {
    var q0, r0 := a / m, a % m;
    assert (q - q0) * m == r0 - r;
    if q > q0 {
      MulAtLeast(q - q0, m);
    } else if q < q0 {
      MulAtLeast(q0 - q, m);
    }
  }

  lemma MulAtLeast(k: int, m: int)
    requires k >= 1 && m > 0
    ensures k * m >= m
  {
  }

  lemma ModSub(a: int, m: int)
    requires 0 < m <= a
    ensures a % m == (a - m) % m
  {
    var q, r := (a - m) / m, (a - m) % m;
    assert a == (q + 1) * m + r;
    ModUnique(a, m, q + 1, r);
  }

  /** From any index in range, both arrows land in range. */
  lemma CarouselInRange(i: int, n: nat)
    requires 0 <= i < Slots(n)
    ensures 0 <= Next(i, n) < Slots(n)
    ensures 0 <= Prev(i, n) < Slots(n)
  {
    if n == 0 {
      ModSub(1, 1);
      ModBelow(0, 1);
      assert JsRem(-1, 1) == 0;
    } else {
      assert i - 1 + n >= 0;
    }
  }

  /** Stepping forward then back, or back then forward, returns to the same card. */
  lemma CarouselInverse(i: int, n: nat)
    requires 0 <= i < n
    ensures Prev(Next(i, n), n) == i
    ensures Next(Prev(i, n), n) == i
  {
    assert Slots(n) == n;
    if i + 1 < n {
      ModBelow(i + 1, n);
      assert Next(i, n) == i + 1;
      ModSub(i + n, n);
      ModBelow(i, n);
    } else {
      ModSub(n, n);
      ModBelow(0, n);
      assert Next(i, n) == 0;
      ModBelow(n - 1, n);
    }
    if i >= 1 {
      ModSub(i - 1 + n, n);
      ModBelow(i - 1, n);
      assert Prev(i, n) == i - 1;
      ModBelow(i, n);
    } else {
      ModBelow(n - 1, n);
      assert Prev(i, n) == n - 1;
      ModSub(n, n);
      ModBelow(0, n);
    }
  }

  /** The cards shown from index `i`: `items.slice(i, i + 3)`. */
  function Window<T>(items: seq<T>, i: nat): (r: seq<T>)
    ensures i <= |items| ==> |r| == (if |items| - i < 3 then |items| - i else 3)
    ensures i <= |items| ==> r == items[i..i + |r|]
    ensures i > |items| ==> r == []
  {
    if i > |items| then []
    else if |items| - i < 3 then items[i..]
    else items[i..i + 3]
  }

  /** The arrows are drawn only when there are more than three cards. */
  predicate ArrowsShown(n: nat) {
    n > 3
  }

  /** Without arrows the index stays at 0 and the window shows every card. */
  lemma NoArrowsShowAll<T>(items: seq<T>)
    requires !ArrowsShown(|items|)
    ensures Window(items, 0) == items
  {
  }

  /** A project's badges: the first four technologies. */
  function TechBadges(techs: Option<seq<string>>): (r: seq<string>)
    ensures |r| == (if Len(techs) < 4 then Len(techs) else 4)
    ensures r == Items(techs)[..|r|]
  {
    Take(Items(techs), 4)
  }

  // ---------------------------------------------------------------------
  // Marquees

  /** `Array(times).fill(xs).flat()`. */
  function Repeat<T>(xs: seq<T>, times: nat): (r: seq<T>)
    ensures |r| == times * |xs|
  {
    if times == 0 then [] else xs + Repeat(xs, times - 1)
  }

  /** Element `k` of a repetition is element `k mod n` of the original. */
  lemma {:induction false} RepeatAt<T>(xs: seq<T>, times: nat, k: nat)
    requires k < times * |xs|
    ensures |xs| > 0 && Repeat(xs, times)[k] == xs[k % |xs|]
  {
    var r := Repeat(xs, times);
    assert r == xs + Repeat(xs, times - 1);
    if k < |xs| {
      ModBelow(k, |xs|);
    } else {
      RepeatAt(xs, times - 1, k - |xs|);
      ModSub(k, |xs|);
    }
  }

  const MarqueeMinimum := 20

  /** `Math.ceil(20 / n)` for a positive `n`. */
  function Repeats(n: nat): (r: nat)
    requires n > 0
    ensures r * n >= MarqueeMinimum
    ensures (r - 1) * n < MarqueeMinimum
  {
    (MarqueeMinimum + n - 1) / n
  }

  /** `getMarqueeItems`: nothing for no items, else enough whole copies to reach twenty. */
  function MarqueeItems<T>(items: seq<T>): (r: seq<T>)
    ensures |items| == 0 ==> r == []
    ensures |items| > 0 ==> |r| == Repeats(|items|) * |items| && |r| >= MarqueeMinimum
  {
    if |items| == 0 then [] else Repeat(items, Repeats(|items|))
  }

  /** The marquee cycles through the items in order. */
  lemma MarqueeCycles<T>(items: seq<T>, k: nat)
    requires k < |MarqueeItems(items)|
    ensures |items| > 0 && MarqueeItems(items)[k] == items[k % |items|]
  {
    RepeatAt(items, Repeats(|items|), k);
  }

  /** The data analyst template's `[...xs, ...xs, ...xs]`. */
  function Triple<T>(xs: seq<T>): (r: seq<T>)
    ensures |r| == 3 * |xs|
  {
    xs + xs + xs
  }

  lemma TripleIsRepeat<T>(xs: seq<T>)
    ensures Triple(xs) == Repeat(xs, 3)
  {
    assert Repeat(xs, 1) == xs;
  }

  // ---------------------------------------------------------------------
  // Skills and stats

  /** `Math.ceil(n / 2)`. */
  function Half(n: nat): nat {
    (n + 1) / 2
  }

  /** The technical column gets the first half rounded up, tools the rest. */
  function SplitSkills(skills: seq<string>): (r: (seq<string>, seq<string>))
    ensures r.0 + r.1 == skills
    ensures |r.0| == Half(|skills|)
    ensures |r.1| <= |r.0| <= |r.1| + 1
  {
    var h := Half(|skills|);
    assert skills[..h] + skills[h..] == skills;
    (skills[..h], skills[h..])
  }

  const Intern := "intern"

  predicate IsInternship(e: Experience) {
    Contains(Lower(e.position), Intern)
  }

  /** `experience.filter(e => e.position.toLowerCase().includes("intern")).length`. */
  function Internships(es: seq<Experience>): (r: nat)
    ensures r <= |es|
    ensures r == |es| <==> forall i | 0 <= i < |es| :: IsInternship(es[i])
    ensures r == 0 <==> forall i | 0 <= i < |es| :: !IsInternship(es[i])
  {
    if |es| == 0 then 0
    else
      var rest := Internships(es[1..]);
      assert forall i | 1 <= i < |es| :: es[i] == es[1..][i - 1];
      (if IsInternship(es[0]) then 1 else 0) + rest
  }

  datatype Stats = Stats(months: nat, internships: nat, projects: nat, skills: nat)

  /** The developer template counts one "month" per experience entry. */
  function DeveloperStats(p: Portfolio): (r: Stats)
    ensures r.months == Len(p.experience) && r.projects == Len(p.projects) && r.skills == Len(p.skills)
    ensures r.internships <= r.months
  {
    Stats(Len(p.experience), Internships(Items(p.experience)), Len(p.projects), Len(p.skills))
  }

  /** The premium, data analyst and AI/ML templates count six months per entry. */
  function SixMonthStats(p: Portfolio): (r: Stats)
    ensures r.months == 6 * Len(p.experience) && r.projects == Len(p.projects) && r.skills == Len(p.skills)
    ensures r.internships <= Len(p.experience)
  {
    var n := Len(p.experience);
    Stats(if n > 0 then n * 6 else 0, Internships(Items(p.experience)), Len(p.projects), Len(p.skills))
  }

  /** Both counters agree on everything but the month figure, which differs by the factor six. */
  lemma StatsAgree(p: Portfolio)
    ensures SixMonthStats(p) == DeveloperStats(p).(months := 6 * DeveloperStats(p).months)
  {
  }

  // ---------------------------------------------------------------------
  // Premium fallback text

  const WorkedAt := "Worked at "
  const From := " from "
  const To := " to "
  const PresentWord := "Present"

  /** The premium card's text: the description, or a sentence built from the entry when it is empty. */
  function ExperienceBlurb(e: Experience): (r: string)
    ensures e.description != "" ==> r == e.description
    ensures e.description == "" ==>
      r == WorkedAt + e.company + From + e.startDate + To + (if IsSet(e.current) then PresentWord else Render(e.endDate))
  {
    if e.description != "" then e.description
    else WorkedAt + e.company + From + e.startDate + To + (if IsSet(e.current) then PresentWord else Render(e.endDate))
  }

  /** An entry without a description that is current ends its sentence with "Present"; one without an end date says "undefined". */
  lemma BlurbEnds(e: Experience)
    requires e.description == ""
    ensures StartsWith(ExperienceBlurb(e), WorkedAt)
    ensures IsSet(e.current) ==> ExperienceBlurb(e)[|ExperienceBlurb(e)| - |PresentWord|..] == PresentWord
    ensures !IsSet(e.current) && e.endDate.None? ==> ExperienceBlurb(e)[|ExperienceBlurb(e)| - 9..] == "undefined"
  {
    var r := ExperienceBlurb(e);
    assert r[..|WorkedAt|] == WorkedAt;
  }
}
