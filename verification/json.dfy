/**
  `JSON.stringify` for the experience and project lists, which the fallback
  analysis scans as one text. Keys appear in the order the schema declares
  them (the order of the objects zod's parse produces); optional keys that
  are absent are omitted.
*/
module Json {
  import opened Wrappers
  import opened Text
  import opened Schema

  function HexDigit(n: nat): char
    requires n < 16
  {
    if n < 10 then ('0' as int + n) as char else ('a' as int + n - 10) as char
  }

  /** The escaped form of one character inside a JSON string literal. */
  function EscapeChar(c: char): (r: string)
    ensures c != '"' && c != '\\' && c as int >= 0x20 ==> r == [c]
  {
    if c == '"' then "\\\""
    else if c == '\\' then "\\\\"
    else if c == '\U{0008}' then "\\b"
    else if c == '\t' then "\\t"
    else if c == '\n' then "\\n"
    else if c == '\U{000C}' then "\\f"
    else if c == '\r' then "\\r"
    else if c as int < 0x20 then "\\u00" + [HexDigit(c as int / 16), HexDigit(c as int % 16)]
    else [c]
  }

  function Escape(s: string): string {
    if |s| == 0 then "" else EscapeChar(s[0]) + Escape(s[1..])
  }

  lemma {:induction false} EscapeAppend(a: string, b: string)
    ensures Escape(a + b) == Escape(a) + Escape(b)
  {
    if |a| == 0 {
      assert a + b == b;
    } else {
      assert (a + b)[1..] == a[1..] + b;
      EscapeAppend(a[1..], b);
    }
  }

  /** A JSON string literal. */
  function Quote(s: string): string {
    "\"" + Escape(s) + "\""
  }

  function StringArray(xs: seq<string>): string {
    "[" + Join(seq(|xs|, i requires 0 <= i < |xs| => Quote(xs[i])), ",") + "]"
  }

  function Bool(b: bool): string {
    if b then "true" else "false"
  }

  /** A key with its already-serialised value. */
  type Member = (string, string)

  /** One member, or none when the optional value is absent (`undefined` values are skipped). */
  function OptionalMember<T>(key: string, value: Option<T>, write: T -> string): seq<Member> {
    match value
    case Some(v) => [(key, write(v))]
    case None => []
  }

  /** An object literal: `{"key":value,...}` in member order. */
  function Object(members: seq<Member>): string {
    "{" + Join(seq(|members|, i requires 0 <= i < |members| => Quote(members[i].0) + ":" + members[i].1), ",") + "}"
  }

  function ProjectMembers(p: Project): seq<Member> {
    [("id", Quote(p.id)), ("title", Quote(p.title)), ("description", Quote(p.description))]
      + OptionalMember("link", p.link, Quote)
      + OptionalMember("technologies", p.technologies, StringArray)
  }

  function ExperienceMembers(e: Experience): seq<Member> {
    [("id", Quote(e.id)), ("company", Quote(e.company)), ("position", Quote(e.position)),
     ("description", Quote(e.description)), ("startDate", Quote(e.startDate))]
      + OptionalMember("endDate", e.endDate, Quote)
      + OptionalMember("current", e.current, Bool)
  }

  function ProjectJson(p: Project): string {
    Object(ProjectMembers(p))
  }

  function ExperienceJson(e: Experience): string {
    Object(ExperienceMembers(e))
  }

  /** A nullable list: `null`, or the items serialised and comma-separated in brackets. */
  function ListJson<T>(o: Option<seq<T>>, item: T -> string): string {
    match o
    case None => "null"
    case Some(xs) => "[" + Join(seq(|xs|, i requires 0 <= i < |xs| => item(xs[i])), ",") + "]"
  }

  function ProjectsJson(o: Option<seq<Project>>): string {
    ListJson(o, ProjectJson)
  }

  function ExperienceListJson(o: Option<seq<Experience>>): string {
    ListJson(o, ExperienceJson)
  }
}
