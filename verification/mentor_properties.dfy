/**
  Properties of the analysis service that relate several calls or fix
  concrete outputs: the empty-profile scores, the metric rule, the fallback
  marker, how `parseInt` reads decimal score text, and uuid uniqueness.
*/
module MentorProperties {
  import opened Wrappers
  import opened Text
  import opened Schema
  import opened Json
  import opened Metrics
  import opened Mentor

  // ---------------------------------------------------------------------------
  // Fallback analysis

  /** Text with neither a digit nor a dollar sign: the metric pattern cannot match it. */
  predicate NoMetricChars(s: string) {
    forall i | 0 <= i < |s| :: !IsDigit(s[i]) && s[i] != '$'
  }

  lemma NoMetricCharsConcat(a: string, b: string)
    requires NoMetricChars(a) && NoMetricChars(b)
    ensures NoMetricChars(a + b) && !HasMetric(a + b)
  {
    assert forall i | 0 <= i < |a + b| :: (a + b)[i] == if i < |a| then a[i] else b[i - |a|];
  }

  lemma EmptyListJson<T>(o: Option<seq<T>>, item: T -> string)
    requires Len(o) == 0
    ensures NoMetricChars(ListJson(o, item))
  {
    if o.Some? {
      assert o.value == [];
      assert ListJson(o, item) == "[]";
    }
  }

  /** A profile whose projects and experience are empty or missing offers the metric rule nothing to find. */
  lemma EmptyListsNoMetric(p: Portfolio)
    requires Len(p.projects) == 0 && Len(p.experience) == 0
    ensures !HasMetric(ScannedText(p))
  {
    EmptyListJson(p.experience, ExperienceJson);
    EmptyListJson(p.projects, ProjectJson);
    NoMetricCharsConcat(ExperienceListJson(p.experience), ProjectsJson(p.projects));
  }

  lemma EmptyProfileScores(p: Portfolio)
    requires !Truthy(p.bio) && !Truthy(p.github)
    requires Len(p.skills) == 0 && Len(p.projects) == 0 && Len(p.experience) == 0
    ensures FallbackScores(p, false) == Scores(30, 25, 0, 20, 19)
  {
    assert FallbackScores(p, false) == ClampedMean(30, 25, 0, 20);
  }

  lemma EmptyProfileCounts(p: Portfolio, uuid: nat -> string, first: nat)
    requires !Truthy(p.bio) && !Truthy(p.github) && Len(p.skills) == 0
    ensures |FallbackIssues(p, uuid)| == 2 && |FallbackSuggestions(p, false, uuid, first)| == 2
  {
  }

  /**
    A profile with no bio, skills, projects, experience or GitHub link
    scores 30 / 25 / 0 / 20 and 19 overall, with both issues and both
    suggestions.
  */
  lemma EmptyProfile(p: Portfolio, uuid: nat -> string, now: string)
    requires !Truthy(p.bio) && !Truthy(p.github)
    requires Len(p.skills) == 0 && Len(p.projects) == 0 && Len(p.experience) == 0
    ensures Fallback(p, uuid, now).scores == Scores(30, 25, 0, 20, 19)
    ensures |Fallback(p, uuid, now).atsIssues| == 2 && |Fallback(p, uuid, now).suggestions| == 2
  {
    EmptyListsNoMetric(p);
    EmptyProfileScores(p);
    EmptyProfileCounts(p, uuid, 2);
  }

  /** The possible completeness scores: sums of a subset of 20, 20, 30, 30. */
  lemma CompletenessValues(p: Portfolio)
    ensures Completeness(p) in {0, 20, 30, 40, 50, 60, 70, 80, 100}
    ensures Completeness(p) == 100 <==>
              Truthy(p.bio) && |p.bio.value| > 50 && Len(p.skills) >= 8 && Len(p.projects) >= 3 && Len(p.experience) >= 1
  {
  }

  /** A metric in any experience description spares the profile the impact penalty and the "quantify" suggestion. */
  lemma ExperienceMetricAvoidsPenalty(p: Portfolio, k: nat, uuid: nat -> string, now: string)
    requires p.experience.Some? && k < |p.experience.value|
    requires HasMetric(p.experience.value[k].description)
    ensures Fallback(p, uuid, now).scores.impact == 50
    ensures forall s | s in Fallback(p, uuid, now).suggestions :: s.category != "critical"
  {
    var xs := p.experience.value;
    assert ExperienceFields(xs[k])[3] == xs[k].description;
    ExperienceFieldMetric(xs, k, 3);
    MetricInfix("", ExperienceListJson(p.experience), ProjectsJson(p.projects));
    assert "" + ExperienceListJson(p.experience) + ProjectsJson(p.projects) == ScannedText(p);
  }

  /** Without any metric in the scanned text the critical suggestion comes first and impact drops to 20. */
  lemma NoMetricPenalised(p: Portfolio, uuid: nat -> string, now: string)
    requires !HasMetric(ScannedText(p))
    ensures Fallback(p, uuid, now).scores.impact == 20
    ensures Fallback(p, uuid, now).suggestions[0].category == "critical"
    ensures Fallback(p, uuid, now).suggestions[0].section == "experience"
  {
  }

  /** A bio of 51 to 149 characters both earns completeness and counts as too short. */
  lemma MiddleLengthBio(p: Portfolio)
    requires p.bio.Some? && 51 <= |p.bio.value| <= 149
    ensures Completeness(p) >= 20 && WeakBio(p)
  {
  }

  /** A short or missing bio lowers content quality and raises the last suggestion. */
  lemma WeakBioPenalised(p: Portfolio, hasNumbers: bool, uuid: nat -> string, first: nat)
    requires WeakBio(p)
    ensures FallbackScores(p, hasNumbers).contentQuality <= 40
    ensures var s := FallbackSuggestions(p, hasNumbers, uuid, first); s[|s| - 1] == BioSuggestion(uuid(first + |s| - 1))
  {
  }

  /** The fallback summary carries the marker the client searches for. */
  lemma FallbackDisclosed(p: Portfolio, uuid: nat -> string, now: string)
    ensures Contains(Fallback(p, uuid, now).summary, FallbackMarker)
  {
    assert FallbackSummary[6..6 + |FallbackMarker|] == FallbackMarker;
    ContainsAt(FallbackSummary, FallbackMarker, 6);
  }

  /** Whenever the service is unavailable or unusable, the client can tell from the summary. */
  lemma AnalyzeFallbackDetectable(p: Portfolio, apiKey: Option<string>, reply: Reply, uuid: nat -> string, now: string)
    requires !HasKey(apiKey) || !reply.Parsed?
    ensures Contains(Analyze(p, apiKey, reply, uuid, now).result.summary, FallbackMarker)
    ensures Analyze(p, apiKey, reply, uuid, now).result.scores == FallbackScores(p, HasMetric(ScannedText(p)))
  {
    FallbackDisclosed(p, uuid, now);
  }

  // ---------------------------------------------------------------------------
  // Reading score text

  function DigitChar(d: nat): char
    requires d < 10
  {
    ('0' as int + d) as char
  }

  /** The decimal numeral of `n`, as `String(n)` writes it. */
  function DecimalString(n: nat): (r: string)
    ensures |r| > 0
  {
    if n < 10 then [DigitChar(n)] else DecimalString(n / 10) + [DigitChar(n % 10)]
  }

  predicate AllDigits(s: string) {
    forall i | 0 <= i < |s| :: IsDigit(s[i])
  }

  lemma {:induction false} DecimalStringShape(n: nat)
    ensures AllDigits(DecimalString(n))
    ensures n >= 1 ==> DecimalString(n)[0] != '0'
    ensures NumeralValue(DecimalString(n), 10, DecValue) == n
  {
    if n >= 10 {
      DecimalStringShape(n / 10);
      var d := DecimalString(n);
      assert d[..|d| - 1] == DecimalString(n / 10);
    }
  }

  lemma {:induction false} DigitPrefixOf(a: string, rest: string)
    requires AllDigits(a)
    requires rest == "" || !IsDigit(rest[0])
    ensures Prefix(a + rest, IsDigit) == a
  {
    if |a| > 0 {
      assert (a + rest)[1..] == a[1..] + rest;
      DigitPrefixOf(a[1..], rest);
      assert a == [a[0]] + a[1..];
    } else {
      assert a + rest == rest;
    }
  }

  /** A run of decimal digits without a leading zero reads as its value, whatever follows it. */
  lemma UnsignedDigits(d: string, rest: string)
    requires |d| > 0 && AllDigits(d) && d[0] != '0'
    requires rest == "" || !IsDigit(rest[0])
    ensures ParseUnsigned(d + rest) == Some(NumeralValue(d, 10, DecValue))
  {
    DigitPrefixOf(d, rest);
    assert (d + rest)[0] == d[0];
  }

  /** Text that starts with neither whitespace nor a sign is read as an unsigned numeral. */
  lemma ParseUnsignedStart(s: string)
    requires |s| > 0 && !IsSpace(s[0]) && s[0] != '-' && s[0] != '+'
    requires ParseUnsigned(s).Some?
    ensures ParseInt(s) == Some(ParseUnsigned(s).value)
  {
    assert TrimStart(s) == s;
  }

  /** After a minus sign the numeral is negated. */
  lemma ParseNegatedStart(s: string)
    requires ParseUnsigned(s).Some?
    ensures ParseInt("-" + s) == Some(-1 * ParseUnsigned(s).value)
  {
    assert TrimStart("-" + s) == "-" + s;
    assert ("-" + s)[1..] == s;
  }

  /** `parseInt` reads back such a run. */
  lemma ParseDigits(d: string, rest: string)
    requires |d| > 0 && AllDigits(d) && d[0] != '0'
    requires rest == "" || !IsDigit(rest[0])
    ensures ParseInt(d + rest) == Some(NumeralValue(d, 10, DecValue))
  {
    var s := d + rest;
    assert ParseUnsigned(s) == Some(NumeralValue(d, 10, DecValue)) by { UnsignedDigits(d, rest); }
    assert s[0] == d[0];
    ParseUnsignedStart(s);
  }

  /** A minus sign in front negates it. */
  lemma ParseNegatedDigits(d: string, rest: string)
    requires |d| > 0 && AllDigits(d) && d[0] != '0'
    requires rest == "" || !IsDigit(rest[0])
    ensures ParseInt("-" + d + rest) == Some(-1 * NumeralValue(d, 10, DecValue))
  {
    var s := d + rest;
    assert "-" + d + rest == "-" + s;
    assert ParseUnsigned(s) == Some(NumeralValue(d, 10, DecValue)) by { UnsignedDigits(d, rest); }
    ParseNegatedStart(s);
  }

  /** `parseInt` reads back the decimal numeral of a positive number, with or without a minus sign. */
  lemma ParseDecimalString(n: nat, fraction: string)
    requires n >= 1
    requires fraction == "" || !IsDigit(fraction[0])
    ensures ParseInt(DecimalString(n) + fraction) == Some(n)
    ensures ParseInt("-" + DecimalString(n) + fraction) == Some(-1 * n)
  {
    DecimalStringShape(n);
    ParseDigits(DecimalString(n), fraction);
    ParseNegatedDigits(DecimalString(n), fraction);
  }

  /**
    How the normaliser reads score text: a number from 1 to 100 is kept,
    a fractional part is cut off, larger numbers become 100, negatives 0,
    and `0` itself falls back to 50 like a missing score.
  */
  lemma SanitizeDecimal(n: nat, fraction: string)
    requires fraction == "" || !IsDigit(fraction[0])
    ensures 1 <= n <= 100 ==> SanitizeScore(Some(DecimalString(n) + fraction)) == n
    ensures n > 100 ==> SanitizeScore(Some(DecimalString(n) + fraction)) == 100
    ensures n >= 1 ==> SanitizeScore(Some("-" + DecimalString(n) + fraction)) == 0
  {
    if n >= 1 {
      ParseDecimalString(n, fraction);
      SanitizeParsed(DecimalString(n) + fraction, n);
      SanitizeParsed("-" + DecimalString(n) + fraction, -1 * n);
    }
  }

  /** A text `parseInt` reads as a non-zero number is clamped to the score range. */
  lemma SanitizeParsed(t: string, v: int)
    requires ParseInt(t) == Some(v) && v != 0
    ensures SanitizeScore(Some(t)) == Clamp(v)
  {
  }

  /** A score of exactly `0` is falsy and falls back to 50, as a missing score does. */
  lemma SanitizeZero()
    ensures SanitizeScore(Some("0")) == 50
  {
    assert TrimStart("0") == "0";
    assert Prefix("0", IsDigit) == "0";
    assert ParseUnsigned("0") == Some(0);
  }

  // ---------------------------------------------------------------------------
  // Normaliser

  ghost predicate Injective(uuid: nat -> string) {
    forall i: nat, j: nat :: i != j ==> uuid(i) != uuid(j)
  }

  lemma PrefixCancel(p: string, x: string, y: string)
    requires p + x == p + y
    ensures x == y
  {
    assert x == (p + x)[|p|..];
    assert y == (p + y)[|p|..];
  }

  /**
    With distinct uuids every normalised suggestion and issue has its own
    id, and no suggestion shares an id with an issue.
  */
  lemma NormalizedIdsDistinct(raw: RawAnalysis, uuid: nat -> string, now: string)
    requires Injective(uuid)
    ensures var r := Normalize(raw, uuid, now);
      && (forall i, j | 0 <= i < j < |r.suggestions| :: r.suggestions[i].id != r.suggestions[j].id)
      && (forall i, j | 0 <= i < j < |r.atsIssues| :: r.atsIssues[i].id != r.atsIssues[j].id)
      && (forall i, j | 0 <= i < |r.suggestions| && 0 <= j < |r.atsIssues| :: r.suggestions[i].id != r.atsIssues[j].id)
  {
    var r := Normalize(raw, uuid, now);
    forall i, j | 0 <= i < j < |r.suggestions| ensures r.suggestions[i].id != r.suggestions[j].id {
      if r.suggestions[i].id == r.suggestions[j].id {
        PrefixCancel("ai-", uuid(i), uuid(j));
      }
    }
    forall i, j | 0 <= i < j < |r.atsIssues| ensures r.atsIssues[i].id != r.atsIssues[j].id {
      var n := Len(raw.suggestions);
      if r.atsIssues[i].id == r.atsIssues[j].id {
        PrefixCancel("ats-", uuid(n + i), uuid(n + j));
      }
    }
    forall i, j | 0 <= i < |r.suggestions| && 0 <= j < |r.atsIssues| ensures r.suggestions[i].id != r.atsIssues[j].id {
      assert r.suggestions[i].id[1] == 'i';
      assert r.atsIssues[j].id[1] == 't';
    }
  }
}
