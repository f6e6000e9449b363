/**
  The portfolio analysis service: the rule-based fallback analysis, the
  normaliser applied to the language model's parsed reply, and the
  orchestration that chooses between them. The model call itself is an
  oracle: its outcome is passed in as a `Reply`. Identifiers come from an
  injected stream `uuid` (the i-th `randomUUID()` call returns `uuid(i)`),
  and the timestamp `now` stands for `new Date().toISOString()`.
*/
module Mentor {
  import opened Wrappers
  import opened Text
  import opened Schema
  import opened Json
  import opened Metrics

  datatype Scores = Scores(contentQuality: int, atsCompatibility: int, completeness: int, impact: int, overall: int)

  datatype Suggestion = Suggestion(id: string, category: string, title: string, description: string, section: string)

  datatype AtsIssue = AtsIssue(id: string, severity: string, issue: string, suggestion: string)

  datatype AnalysisResult = AnalysisResult(
    scores: Scores,
    suggestions: seq<Suggestion>,
    atsIssues: seq<AtsIssue>,
    summary: string,
    analyzedAt: string)

  predicate InScoreRange(x: int) {
    0 <= x <= 100
  }

  /** Every score a client is shown lies in [0, 100]. */
  predicate Bounded(s: Scores) {
    && InScoreRange(s.contentQuality)
    && InScoreRange(s.atsCompatibility)
    && InScoreRange(s.completeness)
    && InScoreRange(s.impact)
    && InScoreRange(s.overall)
  }

  // ---------------------------------------------------------------------------
  // Rule-based fallback

  /** The substring the client looks for to tell the user heuristic scoring was used. */
  const FallbackMarker := "AI analysis is currently unavailable"

  const FallbackSummary := "Note: " + FallbackMarker + ". Displaying results based on heuristic scoring."

  // The fixed texts of the fallback's issues and suggestions. Kept as named
  // constants so that proofs about the rules do not unfold the literals.
  const SocialIssueTitle := "Missing Social Proof"
  const SocialIssueAdvice := "Add your LinkedIn and GitHub. 85% of recruiters check these before an interview."
  const KeywordIssueTitle := "Low Keyword Density"
  const KeywordIssueAdvice := "Add specific technologies and tools. Aim for 10-15 relevant skills."
  const QuantifyTitle := "Quantify Your Work"
  const QuantifyAdvice := "Recruiters love numbers. Instead of 'Improved app speed', use 'Reduced latency by 40%'."
  const BioTitle := "Strengthen Professional Summary"
  const BioAdvice := "Your bio should be a 3-sentence elevator pitch of your unique value."

  function SocialIssue(id: string): AtsIssue {
    AtsIssue(id, "high", SocialIssueTitle, SocialIssueAdvice)
  }

  function KeywordIssue(id: string): AtsIssue {
    AtsIssue(id, "medium", KeywordIssueTitle, KeywordIssueAdvice)
  }

  function QuantifySuggestion(id: string): Suggestion {
    Suggestion(id, "critical", QuantifyTitle, QuantifyAdvice, "experience")
  }

  function BioSuggestion(id: string): Suggestion {
    Suggestion(id, "important", BioTitle, BioAdvice, "bio")
  }

  function BioLength(p: Portfolio): nat {
    if Truthy(p.bio) then |p.bio.value| else 0
  }

  /** The text the metric rule scans: the serialised experience list followed by the serialised projects. */
  function ScannedText(p: Portfolio): string {
    ExperienceListJson(p.experience) + ProjectsJson(p.projects)
  }

  /** The fallback's rule conditions. */
  predicate MissingSocial(p: Portfolio) {
    !Truthy(p.github) || !Truthy(p.linkedin)
  }

  predicate FewKeywords(p: Portfolio) {
    Len(p.skills) < 6
  }

  predicate WeakBio(p: Portfolio) {
    !Truthy(p.bio) || |p.bio.value| < 150
  }

  function Max0(x: int): int {
    if x < 0 then 0 else x
  }

  /** `Math.round(s / 4)`: halves round up; Dafny's `/` floors for a positive divisor. */
  function RoundQuarter(s: int): (r: int)
    ensures 4 * r - 2 <= s < 4 * r + 2
  {
    (s + 2) / 4
  }

  /** The completeness checklist: bio over 50 characters, 8 skills, 3 projects, one experience entry. */
  function Completeness(p: Portfolio): (c: int)
    ensures 0 <= c <= 100
    ensures c % 10 == 0
  {
    (if Truthy(p.bio) && |p.bio.value| > 50 then 20 else 0)
      + (if Len(p.skills) >= 8 then 20 else 0)
      + (if Len(p.projects) >= 3 then 30 else 0)
      + (if Len(p.experience) >= 1 then 30 else 0)
  }

  /** The ATS issues in the order they are raised; `uuid(0)` is the first uuid drawn. */
  function FallbackIssues(p: Portfolio, uuid: nat -> string): (r: seq<AtsIssue>)
    ensures |r| == (if MissingSocial(p) then 1 else 0) + (if FewKeywords(p) then 1 else 0)
    ensures MissingSocial(p) ==> r[0] == SocialIssue(uuid(0))
    ensures FewKeywords(p) ==> r[|r| - 1] == KeywordIssue(uuid(|r| - 1))
  {
    var social := if MissingSocial(p) then [SocialIssue(uuid(0))] else [];
    social + if FewKeywords(p) then [KeywordIssue(uuid(|social|))] else []
  }

  /** The suggestions in the order they are raised, drawing uuids from `first` on. */
  function FallbackSuggestions(p: Portfolio, hasNumbers: bool, uuid: nat -> string, first: nat): (r: seq<Suggestion>)
    ensures |r| == (if hasNumbers then 0 else 1) + (if WeakBio(p) then 1 else 0)
    ensures !hasNumbers ==> r[0] == QuantifySuggestion(uuid(first))
    ensures WeakBio(p) ==> r[|r| - 1] == BioSuggestion(uuid(first + |r| - 1))
  {
    var quantify := if !hasNumbers then [QuantifySuggestion(uuid(first))] else [];
    quantify + if WeakBio(p) then [BioSuggestion(uuid(first + |quantify|))] else []
  }

  /** The four rule scores and their rounded mean. */
  function FallbackScores(p: Portfolio, hasNumbers: bool): (r: Scores)
    ensures Bounded(r)
    ensures r.completeness == Completeness(p)
    ensures r.impact == (if hasNumbers then 50 else 20)
    ensures r.atsCompatibility == 60 - (if MissingSocial(p) then 20 else 0) - (if FewKeywords(p) then 15 else 0)
    ensures r.contentQuality == 60 - (if hasNumbers then 0 else 10) - (if WeakBio(p) then 20 else 0)
    ensures 4 * r.overall - 2 <= r.contentQuality + r.atsCompatibility + r.completeness + r.impact < 4 * r.overall + 2
  {
    var c := Completeness(p);
    var a := 60 - (if MissingSocial(p) then 20 else 0) - (if FewKeywords(p) then 15 else 0);
    var i := 50 - (if !hasNumbers then 30 else 0);
    var q := 60 - (if !hasNumbers then 10 else 0) - (if WeakBio(p) then 20 else 0);
    ClampedMean(q, a, c, i)
  }

  /** The scores as returned: each floored at 0, the overall score `Math.round` of the mean. */
  function ClampedMean(q: int, a: int, c: int, i: int): (r: Scores)
    requires 30 <= q <= 60 && 25 <= a <= 60 && 0 <= c <= 100 && 20 <= i <= 50
    ensures Bounded(r)
    ensures r.contentQuality == q && r.atsCompatibility == a && r.completeness == c && r.impact == i
    ensures 4 * r.overall - 2 <= q + a + c + i < 4 * r.overall + 2
  {
    var overall := RoundQuarter(q + a + c + i);
    Scores(Max0(q), Max0(a), Max0(c), Max0(i), Max0(overall))
  }

  /** `getFallbackAnalysis`. */
  function Fallback(p: Portfolio, uuid: nat -> string, now: string): (r: AnalysisResult)
    ensures Bounded(r.scores)
    ensures r.summary == FallbackSummary
    ensures r.analyzedAt == now
    ensures r.scores == FallbackScores(p, HasMetric(ScannedText(p)))
    ensures r.atsIssues == FallbackIssues(p, uuid)
    ensures r.suggestions == FallbackSuggestions(p, HasMetric(ScannedText(p)), uuid, |r.atsIssues|)
  {
    var issues := FallbackIssues(p, uuid);
    var hasNumbers := Test(ScannedText(p));
    TestCorrect(ScannedText(p));
    var sugg := FallbackSuggestions(p, hasNumbers, uuid, |issues|);
    AnalysisResult(FallbackScores(p, hasNumbers), Take(sugg, 5), issues, FallbackSummary, now)
  }

  // ---------------------------------------------------------------------------
  // parseInt

  function DigitValue(c: char): nat
    requires IsDigit(c)
  {
    c as int - '0' as int
  }

  predicate IsHexDigit(c: char) {
    IsDigit(c) || ('a' <= c <= 'f') || ('A' <= c <= 'F')
  }

  function HexValue(c: char): nat
    requires IsHexDigit(c)
  {
    if IsDigit(c) then DigitValue(c)
    else if 'a' <= c <= 'f' then c as int - 'a' as int + 10
    else c as int - 'A' as int + 10
  }

  /** The longest prefix of `s` whose characters satisfy `ok`. */
  function Prefix(s: string, ok: char -> bool): (r: string)
    ensures |r| <= |s| && r == s[..|r|]
    ensures forall i | 0 <= i < |r| :: ok(r[i])
    ensures |r| == |s| || !ok(s[|r|])
  {
    if |s| > 0 && ok(s[0]) then [s[0]] + Prefix(s[1..], ok) else ""
  }

  /** The value of a numeral in base `base`, most significant digit first. */
  function NumeralValue(d: string, base: nat, value: char -> nat): nat {
    if |d| == 0 then 0 else NumeralValue(d[..|d| - 1], base, value) * base + value(d[|d| - 1])
  }

  function DecValue(c: char): nat {
    if IsDigit(c) then DigitValue(c) else 0
  }

  function HexDigitValue(c: char): nat {
    if IsHexDigit(c) then HexValue(c) else 0
  }

  /** The text starts with the `0x` or `0X` marker of a hexadecimal numeral. */
  predicate HexMarked(u: string) {
    |u| >= 2 && u[0] == '0' && (u[1] == 'x' || u[1] == 'X')
  }

  /**
    The numeral after the sign: a `0x`/`0X` marker selects hexadecimal and the
    longest run of hex digits after it counts, otherwise the longest run of
    decimal digits counts. There is a number exactly when that run is not
    empty, so a number always starts with a decimal digit.
  */
  function ParseUnsigned(u: string): (r: Option<nat>)
    ensures r.Some? <==> if HexMarked(u) then |u| > 2 && IsHexDigit(u[2]) else |u| > 0 && IsDigit(u[0])
    ensures r.Some? ==> IsDigit(u[0])
    ensures r.Some? && HexMarked(u) ==> r.value == NumeralValue(Prefix(u[2..], IsHexDigit), 16, HexDigitValue)
    ensures r.Some? && !HexMarked(u) ==> r.value == NumeralValue(Prefix(u, IsDigit), 10, DecValue)
  {
    if HexMarked(u) then
      var h := Prefix(u[2..], IsHexDigit);
      if |h| == 0 then None
      else
        assert u[2] == h[0];
        Some(NumeralValue(h, 16, HexDigitValue))
    else
      var d := Prefix(u, IsDigit);
      if |d| == 0 then None
      else
        assert u[0] == d[0];
        Some(NumeralValue(d, 10, DecValue))
  }

  /** A numeral read after an optional minus sign. */
  function Signed(negative: bool, v: Option<nat>): (r: Option<int>)
    ensures r.Some? <==> v.Some?
    ensures r.Some? ==> r.value == if negative then -1 * v.value else v.value
  {
    match v
    case None => None
    case Some(n) => Some(if negative then -1 * n else n)
  }

  /**
    `parseInt(s)` with no radix: skip leading whitespace, read an optional
    sign, then a numeral, as long as digits last. `None` is `NaN`.
  */
  function ParseInt(s: string): (r: Option<int>)
    ensures |s| == 0 ==> r.None?
    ensures |s| > 0 && IsSpace(s[0]) ==> r == ParseInt(s[1..])
    ensures |s| > 0 && s[0] == '-' ==> r == Signed(true, ParseUnsigned(s[1..]))
    ensures |s| > 0 && s[0] == '+' ==> r == Signed(false, ParseUnsigned(s[1..]))
    ensures |s| > 0 && !IsSpace(s[0]) && s[0] != '-' && s[0] != '+' ==> r == Signed(false, ParseUnsigned(s))
    ensures r.Some? ==> exists k | 0 <= k < |s| :: IsDigit(s[k])
  {
    var t := TrimStart(s);
    var signed := |t| > 0 && (t[0] == '-' || t[0] == '+');
    var u := if signed then t[1..] else t;
    assert u == s[|s| - |u|..];
    assert |s| > 0 && IsSpace(s[0]) ==> t == TrimStart(s[1..]);
    assert |s| > 0 && !IsSpace(s[0]) ==> t == s;
    var r := Signed(signed && t[0] == '-', ParseUnsigned(u));
    assert r.Some? ==> IsDigit(s[|s| - |u|]);
    r
  }

  // ---------------------------------------------------------------------------
  // Normaliser

  /** A score field of the parsed reply, as the text `parseInt` reads; `None` is `undefined`. */
  type RawScore = Option<string>

  datatype RawScores = RawScores(
    contentQuality: RawScore, atsCompatibility: RawScore, completeness: RawScore, impact: RawScore, overall: RawScore)

  /** Suggestion and issue fields of the parsed reply; `None` is a missing or falsy value. */
  datatype RawSuggestion = RawSuggestion(
    id: Option<string>, category: Option<string>, title: Option<string>, description: Option<string>, section: Option<string>)

  datatype RawIssue = RawIssue(id: Option<string>, severity: Option<string>, issue: Option<string>, suggestion: Option<string>)

  datatype RawAnalysis = RawAnalysis(
    scores: Option<RawScores>,
    suggestions: Option<seq<RawSuggestion>>,
    atsIssues: Option<seq<RawIssue>>,
    summary: Option<string>)

  function Clamp(v: int): (r: int)
    ensures InScoreRange(r)
    ensures InScoreRange(v) ==> r == v
    ensures v < 0 ==> r == 0
    ensures v > 100 ==> r == 100
  {
    if v < 0 then 0 else if v > 100 then 100 else v
  }

  /** `sanitizeScore`: `Math.min(100, Math.max(0, parseInt(s) || 50))`. */
  function SanitizeScore(s: RawScore): (r: int)
    ensures InScoreRange(r)
    ensures s.None? ==> r == 50
    ensures s.Some? && (ParseInt(s.value).None? || ParseInt(s.value) == Some(0)) ==> r == 50
    ensures s.Some? && ParseInt(s.value).Some? && ParseInt(s.value).value < 0 ==> r == 0
    ensures s.Some? && ParseInt(s.value).Some? && ParseInt(s.value).value > 100 ==> r == 100
  {
    var parsed := if s.Some? then ParseInt(s.value) else None;
    var v := if parsed.Some? && parsed.value != 0 then parsed.value else 50;
    Clamp(v)
  }

  function NormalizeScores(raw: Option<RawScores>): (r: Scores)
    ensures Bounded(r)
    ensures raw.None? ==> r == Scores(50, 50, 50, 50, 50)
    ensures raw.Some? ==>
      && r.contentQuality == SanitizeScore(raw.value.contentQuality)
      && r.atsCompatibility == SanitizeScore(raw.value.atsCompatibility)
      && r.completeness == SanitizeScore(raw.value.completeness)
      && r.impact == SanitizeScore(raw.value.impact)
      && r.overall == SanitizeScore(raw.value.overall)
  {
    match raw
    case None => Scores(50, 50, 50, 50, 50)
    case Some(s) =>
      Scores(SanitizeScore(s.contentQuality), SanitizeScore(s.atsCompatibility), SanitizeScore(s.completeness),
             SanitizeScore(s.impact), SanitizeScore(s.overall))
  }

  function NormalizeSuggestion(s: RawSuggestion, uuid: string): (r: Suggestion)
    ensures r.id == "ai-" + uuid
    ensures r.category == OrElse(s.category, "recommended")
    ensures r.section == OrElse(s.section, "general")
    ensures r.title == OrElse(s.title, "Refine Content") && r.description == OrElse(s.description, "")
  {
    Suggestion("ai-" + uuid, OrElse(s.category, "recommended"), OrElse(s.title, "Refine Content"),
               OrElse(s.description, ""), OrElse(s.section, "general"))
  }

  function NormalizeIssue(i: RawIssue, uuid: string): (r: AtsIssue)
    ensures r.id == "ats-" + uuid
    ensures r.severity == OrElse(i.severity, "medium")
    ensures r.issue == OrElse(i.issue, "") && r.suggestion == OrElse(i.suggestion, "")
  {
    AtsIssue("ats-" + uuid, OrElse(i.severity, "medium"), OrElse(i.issue, ""), OrElse(i.suggestion, ""))
  }

  /** Each raw suggestion normalised in place; the k-th draws uuid `first + k`. */
  function NormalizeSuggestions(ss: seq<RawSuggestion>, uuid: nat -> string, first: nat): (r: seq<Suggestion>)
    ensures |r| == |ss|
    ensures forall k | 0 <= k < |r| :: r[k] == NormalizeSuggestion(ss[k], uuid(first + k))
  {
    seq(|ss|, k requires 0 <= k < |ss| => NormalizeSuggestion(ss[k], uuid(first + k)))
  }

  /** Each raw issue normalised in place; the k-th draws uuid `first + k`. */
  function NormalizeIssues(is_: seq<RawIssue>, uuid: nat -> string, first: nat): (r: seq<AtsIssue>)
    ensures |r| == |is_|
    ensures forall k | 0 <= k < |r| :: r[k] == NormalizeIssue(is_[k], uuid(first + k))
  {
    seq(|is_|, k requires 0 <= k < |is_| => NormalizeIssue(is_[k], uuid(first + k)))
  }

  /** `formatAIResponse`: suggestions draw their uuids first, then the issues. */
  function Normalize(raw: RawAnalysis, uuid: nat -> string, now: string): (r: AnalysisResult)
    ensures Bounded(r.scores)
    ensures r.scores == NormalizeScores(raw.scores)
    ensures r.suggestions == NormalizeSuggestions(Items(raw.suggestions), uuid, 0)
    ensures r.atsIssues == NormalizeIssues(Items(raw.atsIssues), uuid, Len(raw.suggestions))
    ensures r.summary == OrElse(raw.summary, "Portfolio analyzed successfully.")
    ensures r.analyzedAt == now
  {
    var scores := NormalizeScores(raw.scores);
    AnalysisResult(
      scores,
      NormalizeSuggestions(Items(raw.suggestions), uuid, 0),
      NormalizeIssues(Items(raw.atsIssues), uuid, Len(raw.suggestions)),
      OrElse(raw.summary, "Portfolio analyzed successfully."),
      now)
  }

  // ---------------------------------------------------------------------------
  // Orchestration

  /** What the chat-completion call produced, as far as the service can tell. */
  datatype Reply =
    | Threw          // the client threw: network failure, timeout, non-2xx status
    | NoContent      // `choices[0]?.message?.content` is missing or empty
    | Unparseable    // `JSON.parse` threw, or the parsed value has a shape the normaliser throws on
    | Parsed(raw: RawAnalysis)

  /** An API key is configured when it is present and not only whitespace. */
  predicate HasKey(apiKey: Option<string>) {
    apiKey.Some? && Trim(apiKey.value) != ""
  }

  datatype Outcome = Outcome(result: AnalysisResult, calledService: bool)

  /** `analyzePortfolioWithAI`: never fails; falls back to the rules on every failure. */
  function Analyze(p: Portfolio, apiKey: Option<string>, reply: Reply, uuid: nat -> string, now: string): (o: Outcome)
    ensures Bounded(o.result.scores)
    ensures o.calledService <==> HasKey(apiKey)
    ensures !HasKey(apiKey) ==> o.result == Fallback(p, uuid, now)
    ensures HasKey(apiKey) && !reply.Parsed? ==> o.result == Fallback(p, uuid, now)
    ensures HasKey(apiKey) && reply.Parsed? ==> o.result == Normalize(reply.raw, uuid, now)
  {
    if !HasKey(apiKey) then Outcome(Fallback(p, uuid, now), false)
    else
      match reply
      case Parsed(raw) => Outcome(Normalize(raw, uuid, now), true)
      case _ => Outcome(Fallback(p, uuid, now), true)
  }
}
