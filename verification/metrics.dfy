/**
  The fallback analysis asks whether the serialised experience and project
  text matches `/\d+%|\d+x|\$\d+/`. A match exists exactly when some digit
  is immediately followed by `%` or `x`, or some `$` is immediately followed
  by a digit; `HasMetric` states that, and `Test` is the scanner the model
  runs: a three-state automaton reading the text once, left to right.
*/
module Metrics {
  import opened Wrappers
  import opened Text
  import opened Schema
  import opened Json

  predicate MetricPair(a: char, b: char) {
    (IsDigit(a) && (b == '%' || b == 'x')) || (a == '$' && IsDigit(b))
  }

  /** Reference meaning of a regex match somewhere in `s`. */
  predicate HasMetric(s: string) {
    exists i | 0 <= i < |s| - 1 :: MetricPair(s[i], s[i + 1])
  }

  /** What the scanner remembers about the previous character. */
  datatype ScanState = Plain | InDigits | AfterDollar

  function Step(c: char): ScanState {
    if IsDigit(c) then InDigits else if c == '$' then AfterDollar else Plain
  }

  predicate Completes(st: ScanState, c: char) {
    (st == InDigits && (c == '%' || c == 'x')) || (st == AfterDollar && IsDigit(c))
  }

  function Scan(s: string, st: ScanState): bool {
    if |s| == 0 then false else Completes(st, s[0]) || Scan(s[1..], Step(s[0]))
  }

  /** `/\d+%|\d+x|\$\d+/.test(s)`. */
  function Test(s: string): bool {
    Scan(s, Plain)
  }

  lemma HasMetricCons(c: char, s: string)
    ensures HasMetric([c] + s) <==> (|s| > 0 && MetricPair(c, s[0])) || HasMetric(s)
  {
    var t := [c] + s;
    if HasMetric(t) {
      var i :| 0 <= i < |t| - 1 && MetricPair(t[i], t[i + 1]);
      if i > 0 {
        assert MetricPair(s[i - 1], s[i]);
      }
    }
    if |s| > 0 && MetricPair(c, s[0]) {
      assert MetricPair(t[0], t[1]);
    }
    if HasMetric(s) {
      var i :| 0 <= i < |s| - 1 && MetricPair(s[i], s[i + 1]);
      assert MetricPair(t[i + 1], t[i + 2]);
    }
  }

  /** The scanner, started after character `prev`, answers the reference question for `[prev] + s`. */
  lemma {:induction false} ScanAfter(prev: char, s: string)
    ensures Scan(s, Step(prev)) == HasMetric([prev] + s)
    decreases |s|
  {
    HasMetricCons(prev, s);
    if |s| > 0 {
      ScanAfter(s[0], s[1..]);
      assert [s[0]] + s[1..] == s;
      assert Completes(Step(prev), s[0]) == MetricPair(prev, s[0]);
    }
  }

  /** The scanner finds a match exactly when the text contains one. */
  lemma TestCorrect(s: string)
    ensures Test(s) == HasMetric(s)
  {
    if |s| > 0 {
      ScanAfter(s[0], s[1..]);
      assert [s[0]] + s[1..] == s;
    }
  }

  lemma MetricInfix(a: string, b: string, c: string)
    requires HasMetric(b)
    ensures HasMetric(a + b + c)
  {
    var i :| 0 <= i < |b| - 1 && MetricPair(b[i], b[i + 1]);
    var t := a + b + c;
    assert t[|a| + i] == b[i] && t[|a| + i + 1] == b[i + 1];
  }

  lemma EscapeSplit(a: string, m: string, b: string)
    ensures Escape(a + m + b) == Escape(a) + Escape(m) + Escape(b)
  {
    EscapeAppend(a + m, b);
    EscapeAppend(a, m);
  }

  /** The two characters of a match are written as they are. */
  lemma EscapePair(c: char, d: char)
    requires MetricPair(c, d)
    ensures Escape([c, d]) == [c, d]
  {
    assert IsDigit(c) || c == '$';
    assert EscapeChar(c) == [c] && EscapeChar(d) == [d];
    assert [c, d][1..] == [d];
    assert [d][1..] == [];
    assert Escape([d]) == [d] + Escape([]);
  }

  /** JSON escaping leaves the characters of a match untouched. */
  lemma EscapeKeepsMetric(s: string)
    requires HasMetric(s)
    ensures HasMetric(Escape(s))
  {
    var i :| 0 <= i < |s| - 1 && MetricPair(s[i], s[i + 1]);
    var pair := [s[i], s[i + 1]];
    assert s == s[..i] + pair + s[i + 2..];
    EscapeSplit(s[..i], pair, s[i + 2..]);
    EscapePair(s[i], s[i + 1]);
    assert HasMetric(pair) by { assert MetricPair(pair[0], pair[1]); }
    MetricInfix(Escape(s[..i]), pair, Escape(s[i + 2..]));
  }

  lemma QuoteKeepsMetric(s: string)
    requires HasMetric(s)
    ensures HasMetric(Quote(s))
  {
    EscapeKeepsMetric(s);
    MetricInfix("\"", Escape(s), "\"");
  }

  lemma {:induction false} JoinKeepsMetric(xs: seq<string>, sep: string, k: nat)
    requires k < |xs| && HasMetric(xs[k])
    ensures HasMetric(Join(xs, sep))
  {
    if |xs| == 1 {
    } else if k == 0 {
      MetricInfix("", xs[0], sep + Join(xs[1..], sep));
      assert "" + xs[0] + (sep + Join(xs[1..], sep)) == Join(xs, sep);
    } else {
      JoinKeepsMetric(xs[1..], sep, k - 1);
      MetricInfix(xs[0] + sep, Join(xs[1..], sep), "");
      assert xs[0] + sep + Join(xs[1..], sep) + "" == Join(xs, sep);
    }
  }

  lemma ListKeepsMetric<T>(xs: seq<T>, item: T -> string, k: nat)
    requires k < |xs| && HasMetric(item(xs[k]))
    ensures HasMetric(ListJson(Some(xs), item))
  {
    var items := seq(|xs|, i requires 0 <= i < |xs| => item(xs[i]));
    JoinKeepsMetric(items, ",", k);
    MetricInfix("[", Join(items, ","), "]");
  }

  /** A metric in any member value is seen by the scan of the whole object. */
  lemma ObjectKeepsMetric(members: seq<Member>, k: nat)
    requires k < |members| && HasMetric(members[k].1)
    ensures HasMetric(Object(members))
  {
    var items := seq(|members|, i requires 0 <= i < |members| => Quote(members[i].0) + ":" + members[i].1);
    MetricInfix(Quote(members[k].0) + ":", members[k].1, "");
    assert items[k] == Quote(members[k].0) + ":" + members[k].1 + "";
    JoinKeepsMetric(items, ",", k);
    MetricInfix("{", Join(items, ","), "}");
  }

  /** The string fields of an experience entry that are always serialised, in member order. */
  function ExperienceFields(e: Experience): seq<string> {
    [e.id, e.company, e.position, e.description, e.startDate]
  }

  function ProjectFields(p: Project): seq<string> {
    [p.id, p.title, p.description]
  }

  lemma ExperienceEntryMetric(e: Experience, field: nat)
    requires field < 5 && HasMetric(ExperienceFields(e)[field])
    ensures HasMetric(ExperienceJson(e))
  {
    assert HasMetric(ExperienceMembers(e)[field].1) by {
      QuoteKeepsMetric(ExperienceFields(e)[field]);
    }
    ObjectKeepsMetric(ExperienceMembers(e), field);
  }

  lemma ProjectEntryMetric(p: Project, field: nat)
    requires field < 3 && HasMetric(ProjectFields(p)[field])
    ensures HasMetric(ProjectJson(p))
  {
    assert HasMetric(ProjectMembers(p)[field].1) by {
      QuoteKeepsMetric(ProjectFields(p)[field]);
    }
    ObjectKeepsMetric(ProjectMembers(p), field);
  }

  /**
    A metric in any string field of one experience entry (its id and dates
    included) is seen by the scan of the serialised list.
  */
  lemma ExperienceFieldMetric(xs: seq<Experience>, k: nat, field: nat)
    requires k < |xs| && field < 5 && HasMetric(ExperienceFields(xs[k])[field])
    ensures HasMetric(ExperienceListJson(Some(xs)))
  {
    ExperienceEntryMetric(xs[k], field);
    ListKeepsMetric(xs, ExperienceJson, k);
  }

  /** A metric in a project's id, title or description is seen by the scan of the serialised list. */
  lemma ProjectFieldMetric(ps: seq<Project>, k: nat, field: nat)
    requires k < |ps| && field < 3 && HasMetric(ProjectFields(ps[k])[field])
    ensures HasMetric(ProjectsJson(Some(ps)))
  {
    ProjectEntryMetric(ps[k], field);
    ListKeepsMetric(ps, ProjectJson, k);
  }

  /**
    A control character is written as `\u00XX`, whose last hex digit may be
    a decimal digit: such a character followed by `x` reads as a multiplier
    although the description itself contains no digit at all.
  */
  lemma ControlCharLooksLikeMetric()
    ensures !HasMetric("\U{0001}x")
    ensures HasMetric(Escape("\U{0001}x"))
  {
    var e := Escape("\U{0001}x");
    assert EscapeChar('\U{0001}') == "\\u0001";
    assert e == "\\u0001x";
    assert MetricPair(e[5], e[6]);
  }
}
