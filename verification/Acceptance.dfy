/** Acceptance criteria: the line format, its parser, and the verification plan. */
module Acceptance {
  import opened Common

  datatype Criterion = Criterion(id: string, human: bool, summary: string, checkIds: seq<string>)

  // ------------------------------------------------------------ characters

  predicate Digit(c: char) { '0' <= c <= '9' }

  /** The characters that `.` does not match. */
  predicate LineEnd(c: char) {
    var n := c as int;
    n == 10 || n == 13 || n == 0x2028 || n == 0x2029
  }

  predicate Closing(c: char) { c == ']' }

  predicate CheckChar(c: char) {
    'A' <= c <= 'Z' || 'a' <= c <= 'z' || '0' <= c <= '9' || c == '.' || c == '_' || c == '-'
  }

  predicate LegalCheck(id: string) { |id| > 0 && forall i :: 0 <= i < |id| ==> CheckChar(id[i]) }

  /** The length of the longest prefix whose characters satisfy (or, negated, do not satisfy) a class. */
  function PrefixLength(in_: char -> bool, s: string): (n: nat)
    ensures n <= |s|
    ensures forall i :: 0 <= i < n ==> in_(s[i])
    ensures n < |s| ==> !in_(s[n])
  {
    if |s| > 0 && in_(s[0]) then 1 + PrefixLength(in_, s[1..]) else 0
  }

  lemma {:induction false} PrefixIs(in_: char -> bool, s: string, n: nat)
    requires n <= |s| && (forall i :: 0 <= i < n ==> in_(s[i])) && (n < |s| ==> !in_(s[n]))
    ensures PrefixLength(in_, s) == n
  {
    if n > 0 { PrefixIs(in_, s[1..], n - 1); }
  }

  predicate NotClosing(c: char) { !Closing(c) }

  function TrimEnd(s: string): string {
    if |s| > 0 && Space(s[|s|-1]) then TrimEnd(s[..|s|-1]) else s
  }

  function Split(s: string): (parts: seq<string>)
    ensures |parts| > 0
  {
    if |s| == 0 then [""]
    else if s[0] == ',' then [""] + Split(s[1..])
    else var rest := Split(s[1..]); [[s[0]] + rest[0]] + rest[1..]
  }

  function Join(parts: seq<string>): string
    requires |parts| > 0
  {
    if |parts| == 1 then parts[0] else parts[0] + "," + Join(parts[1..])
  }

  // ---------------------------------------------------------------- parser

  /** `\s+(.+)$`: greedy white space, then a rest without line ends, trimmed. When all is white space the last
      character is given back to the rest, which then trims to nothing. */
  function ParseSummary(s: string): Option<string> {
    var w := PrefixLength(Space, s);
    if w == 0 then None
    else if w < |s| then
      if exists i :: w <= i < |s| && LineEnd(s[i]) then None else Some(TrimEnd(s[w..]))
    else if |s| >= 2 && !LineEnd(s[|s|-1]) then Some("") else None
  }

  /** `^(AC-\d+)\s+\[(HUMAN|AUTO:([^\]]+))\]\s+(.+)$`, with the check list split at its commas. */
  function ParseLine(s: string): Option<Criterion> {
    var head := ParseHead(s);
    if head.None? then None else ParseKind(head.value.0, head.value.1)
  }

  /** The id, and what follows the opening bracket. */
  function ParseHead(s: string): Option<(string, string)> {
    if |s| < 3 || s[..3] != "AC-" then None
    else
      var d := PrefixLength(Digit, s[3..]);
      var t := s[3+d..];
      var w := PrefixLength(Space, t);
      if d == 0 || w == 0 || w == |t| || t[w] != '[' then None else Some((s[..3+d], t[w+1..]))
  }

  function ParseKind(id: string, s: string): Option<Criterion> {
    if |s| >= 6 && s[..6] == "HUMAN]" then
      var summary := ParseSummary(s[6..]);
      if summary.None? then None else Some(Criterion(id, true, summary.value, []))
    else if |s| >= 5 && s[..5] == "AUTO:" then ParseAuto(id, s[5..])
    else None
  }

  function ParseAuto(id: string, s: string): Option<Criterion> {
    var n := PrefixLength(NotClosing, s);
    if n == 0 || n == |s| then None
    else
      var summary := ParseSummary(s[n+1..]);
      if summary.None? then None else Some(Criterion(id, false, summary.value, Split(s[..n])))
  }

  predicate Distinct<T(==)>(s: seq<T>) { forall i, k :: 0 <= i < k < |s| ==> s[i] != s[k] }

  predicate ChecksOk(checks: seq<string>) {
    (forall i :: 0 <= i < |checks| ==> LegalCheck(checks[i])) && Distinct(checks)
  }

  function Ids(criteria: seq<Criterion>): (r: seq<string>)
    ensures |r| == |criteria| && forall i :: 0 <= i < |r| ==> r[i] == criteria[i].id
  {
    seq(|criteria|, i requires 0 <= i < |criteria| => criteria[i].id)
  }

  function ParseLines(lines: seq<string>): (r: seq<Option<Criterion>>)
    ensures |r| == |lines| && forall i :: 0 <= i < |r| ==> r[i] == ParseLine(lines[i])
  {
    seq(|lines|, i requires 0 <= i < |lines| => ParseLine(lines[i]))
  }

  /** Adds the remaining parsed lines to `done`, until one is malformed or repeats an id. */
  function Collect(done: seq<Criterion>, parsed: seq<Option<Criterion>>): Result<seq<Criterion>>
    decreases |parsed|
  {
    if |parsed| == 0 then Ok(done)
    else if parsed[0].None? then Err("Malformed Acceptance criterion")
    else
      var c := parsed[0].value;
      if c.id in Ids(done) then Err("Duplicate Acceptance criterion")
      else if !ChecksOk(c.checkIds) then Err("Malformed check IDs")
      else Collect(done + [c], parsed[1..])
  }

  lemma CollectStep(done: seq<Criterion>, parsed: seq<Option<Criterion>>, k: nat)
    requires k < |parsed|
    ensures
      Collect(done, parsed[k..]) ==
        if parsed[k].None? then Err("Malformed Acceptance criterion")
        else if parsed[k].value.id in Ids(done) then Err("Duplicate Acceptance criterion")
        else if !ChecksOk(parsed[k].value.checkIds) then Err("Malformed check IDs")
        else Collect(done + [parsed[k].value], parsed[k+1..])
  {
    assert parsed[k..][0] == parsed[k] && parsed[k..][1..] == parsed[k+1..];
  }

  function Parse(lines: seq<string>): Result<seq<Criterion>> {
    if |lines| == 0 then Err("Acceptance Criteria section is missing or empty") else Collect([], ParseLines(lines))
  }

  /** The parser's loop over the lines, with the set of ids it has seen. */
  method ParseCriteria(lines: seq<string>) returns (r: Result<seq<Criterion>>)
    ensures r == Parse(lines)
  {
    if |lines| == 0 { return Err("Acceptance Criteria section is missing or empty"); }
    ghost var parsed := ParseLines(lines);
    var criteria: seq<Criterion>, seen: set<string> := [], {};
    for k := 0 to |lines|
      invariant forall id :: id in seen <==> id in Ids(criteria)
      invariant Collect(criteria, parsed[k..]) == Collect([], parsed)
    {
      CollectStep(criteria, parsed, k);
      var line := ParseLine(lines[k]);
      if line.None? { return Err("Malformed Acceptance criterion"); }
      var c := line.value;
      if c.id in seen { return Err("Duplicate Acceptance criterion"); }
      if !ChecksOk(c.checkIds) { return Err("Malformed check IDs"); }
      seen := seen + {c.id};
      assert Ids(criteria + [c]) == Ids(criteria) + [c.id];
      criteria := criteria + [c];
    }
    r := Ok(criteria);
  }

  // --------------------------------------------------------------- writing

  /** What follows the opening bracket of a rendered criterion. */
  function RenderKind(c: Criterion): string
    requires WellFormed(c)
  {
    if c.human then "HUMAN" + ("]" + (" " + c.summary))
    else "AUTO:" + (Join(c.checkIds) + ("]" + (" " + c.summary)))
  }

  function Render(c: Criterion): string
    requires WellFormed(c)
  {
    c.id + (" " + ("[" + RenderKind(c)))
  }

  predicate LegalId(id: string) {
    |id| > 3 && id[..3] == "AC-" && forall i :: 3 <= i < |id| ==> Digit(id[i])
  }

  predicate LegalSummary(s: string) {
    |s| > 0 && !Space(s[0]) && !Space(s[|s|-1]) && forall i :: 0 <= i < |s| ==> !LineEnd(s[i])
  }

  predicate WellFormed(c: Criterion) {
    && LegalId(c.id) && LegalSummary(c.summary) && ChecksOk(c.checkIds)
    && (if c.human then c.checkIds == [] else |c.checkIds| > 0)
  }

  function RenderAll(criteria: seq<Criterion>): (lines: seq<string>)
    requires forall i :: 0 <= i < |criteria| ==> WellFormed(criteria[i])
    ensures |lines| == |criteria| && forall i :: 0 <= i < |criteria| ==> lines[i] == Render(criteria[i])
  {
    seq(|criteria|, i requires 0 <= i < |criteria| => Render(criteria[i]))
  }

  // -------------------------------------------------------------- language

  /** Which characters the classes of the line format hold. */
  lemma CharacterClasses(c: char)
    ensures Digit(c) <==> c in "0123456789"
    ensures LineEnd(c) <==> c in "\n\r\U{2028}\U{2029}"
    ensures
      CheckChar(c) <==>
        || c in "ABCDEFGHIJKLMNOPQRSTUVWXYZ" || c in "abcdefghijklmnopqrstuvwxyz" || c in "0123456789" || c in "._-"
    ensures
      Space(c) <==>
        || c in "\t\n\U{000B}\U{000C}\r \U{00A0}\U{1680}"
        || c in "\U{2000}\U{2001}\U{2002}\U{2003}\U{2004}\U{2005}\U{2006}\U{2007}\U{2008}\U{2009}\U{200A}"
        || c in "\U{2028}\U{2029}\U{202F}\U{205F}\U{3000}\U{FEFF}"
  {
  }

  predicate OneLine(s: string) { forall i :: 0 <= i < |s| ==> !LineEnd(s[i]) }

  /** `summary` is `text` without the white space around it. */
  ghost predicate Trimmed(text: string, summary: string) {
    && (|summary| > 0 ==> !Space(summary[0]) && !Space(summary[|summary|-1]))
    && exists a, b :: text == a + (summary + b) && Blank(a) && Blank(b)
  }

  /** A line is made of a criterion's id, kind and summary, with any gaps between them, and of a list of checks that
      is split at its commas. */
  ghost predicate Shape(line: string, c: Criterion, gap: string, list: string, sep: string, text: string) {
    && line == c.id + (gap + ("[" + (if c.human then "HUMAN" + ("]" + (sep + text))
                                     else "AUTO:" + (list + ("]" + (sep + text))))))
    && LegalId(c.id) && |gap| > 0 && Blank(gap) && |sep| > 0 && Blank(sep)
    && |text| > 0 && OneLine(text) && Trimmed(text, c.summary)
    && if c.human then c.checkIds == [] else |list| > 0 && ']' !in list && c.checkIds == Split(list)
  }

  lemma {:induction false} SplitWhole(s: string)
    requires forall i :: 0 <= i < |s| ==> s[i] != ','
    ensures Split(s) == [s]
  {
    if |s| > 0 {
      SplitWhole(s[1..]);
      assert [s[0]] + s[1..] == s;
    }
  }

  lemma {:induction false} SplitPart(a: string, b: string)
    requires forall i :: 0 <= i < |a| ==> a[i] != ','
    ensures Split(a + "," + b) == [a] + Split(b)
  {
    var s := a + "," + b;
    if |a| == 0 {
      assert s[1..] == b;
    } else {
      assert s[1..] == a[1..] + "," + b;
      SplitPart(a[1..], b);
      assert [a[0]] + a[1..] == a;
    }
  }

  /** Splitting at commas is the only way to read a text as parts without commas. */
  lemma {:induction false} SplitIsExact(s: string, parts: seq<string>)
    requires |parts| > 0
    ensures Split(s) == parts <==>
              s == Join(parts) && forall i :: 0 <= i < |parts| ==> ',' !in parts[i]
    decreases |s|, |parts|
  {
    SplitJoins(s);
    if s == Join(parts) && forall i :: 0 <= i < |parts| ==> ',' !in parts[i] {
      if |parts| == 1 {
        SplitWhole(s);
      } else {
        var rest := Join(parts[1..]);
        SplitPart(parts[0], rest);
        SplitIsExact(rest, parts[1..]);
      }
    }
  }

  lemma {:induction false} SplitJoins(s: string)
    ensures Join(Split(s)) == s && forall i :: 0 <= i < |Split(s)| ==> ',' !in Split(s)[i]
  {
    if |s| > 0 {
      SplitJoins(s[1..]);
      var rest := Split(s[1..]);
      assert s == [s[0]] + s[1..];
      if s[0] != ',' && |rest| > 1 {
        assert Split(s)[1..] == rest[1..];
        assert s == ([s[0]] + rest[0]) + "," + Join(rest[1..]);
      }
    }
  }

  lemma {:induction false} TrimEndTrims(s: string, b: string)
    requires |s| > 0 && !Space(s[|s|-1]) && Blank(b)
    ensures TrimEnd(s + b) == s
  {
    var t := s + b;
    if |b| == 0 {
      assert t == s;
    } else {
      assert t[..|t|-1] == s + b[..|b|-1];
      TrimEndTrims(s, b[..|b|-1]);
    }
  }

  lemma {:induction false} TrimEndSplits(s: string) returns (b: string)
    ensures s == TrimEnd(s) + b && Blank(b)
    ensures |TrimEnd(s)| > 0 ==> !Space(TrimEnd(s)[|TrimEnd(s)|-1])
  {
    if |s| > 0 && Space(s[|s|-1]) {
      var b' := TrimEndSplits(s[..|s|-1]);
      b := b' + [s[|s|-1]];
    } else {
      b := "";
    }
  }

  /** A summary is read if and only if the text has white space before at least one more character, none after
      the white space ending a line; it is then trimmed. */
  lemma {:induction false} SummaryMatches(sep: string, text: string, summary: string)
    requires |sep| > 0 && Blank(sep) && |text| > 0 && OneLine(text) && Trimmed(text, summary)
    ensures ParseSummary(sep + text) == Some(summary)
  {
    var s := sep + text;
    var a, b :| text == a + (summary + b) && Blank(a) && Blank(b);
    var n := |sep| + |a|;
    assert s[n..] == summary + b;
    if |summary| > 0 {
      assert s[n] == summary[0];
      PrefixIs(Space, s, n);
      forall i | n <= i < |s| ensures !LineEnd(s[i]) { assert s[i] == text[i-|sep|]; }
      TrimEndTrims(summary, b);
    } else {
      PrefixIs(Space, s, |s|);
      assert s[|s|-1] == text[|text|-1];
    }
  }

  lemma {:induction false} TextIsTrimmed(text: string)
    requires |text| > 0 && !Space(text[0])
    ensures Trimmed(text, TrimEnd(text))
  {
    var summary := TrimEnd(text);
    var b := TrimEndSplits(text);
    assert text == "" + (summary + b) && Blank("");
  }

  lemma {:induction false} BlankIsTrimmed(text: string)
    requires Blank(text)
    ensures Trimmed(text, "")
  {
    assert text == text + ("" + "") && Blank("");
  }

  lemma {:induction false} SummaryIsRead(s: string) returns (sep: string, text: string)
    requires ParseSummary(s).Some?
    ensures s == sep + text && |sep| > 0 && Blank(sep) && |text| > 0 && OneLine(text)
    ensures Trimmed(text, ParseSummary(s).value)
  {
    var w := PrefixLength(Space, s);
    if w < |s| {
      sep, text := s[..w], s[w..];
      TextIsTrimmed(text);
    } else {
      sep, text := s[..w-1], s[w-1..];
      BlankIsTrimmed(text);
    }
  }

  lemma {:induction false} ClosingAfter(joined: string, rest: string)
    requires forall i :: 0 <= i < |joined| ==> NotClosing(joined[i])
    ensures PrefixLength(NotClosing, joined + ("]" + rest)) == |joined|
  {
    var s := joined + ("]" + rest);
    forall i | 0 <= i < |joined| ensures NotClosing(s[i]) { assert s[i] == joined[i]; }
    assert s[|joined|] == ']';
    PrefixIs(NotClosing, s, |joined|);
  }

  lemma {:induction false} AutoIsNotHuman(rest: string)
    requires |rest| > 0
    ensures var s := "AUTO:" + rest; s[..5] == "AUTO:" && s[5..] == rest && s[..6] != "HUMAN]"
  {
    var s := "AUTO:" + rest;
    assert s[..6][0] == 'A';
  }

  lemma {:induction false} HumanMatches(id: string, rest: string)
    ensures
      ParseKind(id, "HUMAN" + ("]" + rest)) ==
        var summary := ParseSummary(rest);
        if summary.None? then None else Some(Criterion(id, true, summary.value, []))
  {
    var s := "HUMAN" + ("]" + rest);
    assert s[..6] == "HUMAN]" && s[6..] == rest;
  }

  lemma {:induction false} AutoMatches(id: string, list: string, rest: string)
    requires |list| > 0 && ']' !in list
    ensures
      ParseKind(id, "AUTO:" + (list + ("]" + rest))) ==
        var summary := ParseSummary(rest);
        if summary.None? then None else Some(Criterion(id, false, summary.value, Split(list)))
  {
    var t := list + ("]" + rest);
    AutoIsNotHuman(t);
    ClosingAfter(list, rest);
    assert t[..|list|] == list && t[|list|+1..] == rest;
  }

  lemma {:induction false} KindIsRead(id: string, s: string) returns (list: string, rest: string)
    requires ParseKind(id, s).Some?
    ensures ParseSummary(rest).Some?
    ensures
      var c := ParseKind(id, s).value;
      && c.id == id && Some(c.summary) == ParseSummary(rest)
      && if c.human then c.checkIds == [] && s == "HUMAN" + ("]" + rest)
         else && c.checkIds == Split(list) && |list| > 0 && ']' !in list
              && s == "AUTO:" + (list + ("]" + rest))
  {
    if |s| >= 6 && s[..6] == "HUMAN]" {
      list, rest := "", s[6..];
      assert "HUMAN" + ("]" + rest) == "HUMAN]" + rest == s;
    } else {
      var t := s[5..];
      var n := PrefixLength(NotClosing, t);
      list, rest := t[..n], t[n+1..];
      assert t == list + ([t[n]] + rest) && s == s[..5] + t;
    }
  }

  lemma {:induction false} HeadMatches(id: string, gap: string, rest: string)
    requires LegalId(id) && |gap| > 0 && Blank(gap)
    ensures ParseHead(id + (gap + ("[" + rest))) == Some((id, rest))
  {
    var line := id + (gap + ("[" + rest));
    var d, w := |id| - 3, |gap|;
    var digits, t := line[3..], line[3+d..];
    assert line[..3+d] == id && line[..3] == id[..3];
    forall i | 0 <= i < d ensures Digit(digits[i]) { assert digits[i] == id[3+i]; }
    assert digits[d] == gap[0];
    PrefixIs(Digit, digits, d);
    assert t == gap + ("[" + rest);
    PrefixIs(Space, t, w);
    assert t[w+1..] == rest;
  }

  lemma {:induction false} IdIsRead(s: string)
    requires ParseHead(s).Some?
    ensures LegalId(ParseHead(s).value.0)
  {
    var id := ParseHead(s).value.0;
    assert id[..3] == s[..3];
    forall i | 3 <= i < |id| ensures Digit(id[i]) { assert id[i] == s[3..][i-3]; }
  }

  lemma {:induction false} HeadIsRead(line: string) returns (gap: string)
    requires ParseHead(line).Some?
    ensures line == ParseHead(line).value.0 + (gap + ("[" + ParseHead(line).value.1)) && |gap| > 0 && Blank(gap)
  {
    var d := PrefixLength(Digit, line[3..]);
    var t := line[3+d..];
    var w := PrefixLength(Space, t);
    gap := t[..w];
    assert t == gap + ([t[w]] + t[w+1..]);
    assert line == line[..3+d] + t;
  }

  /** A line is read as a criterion if and only if it has the format, and as what its parts mean: the pattern
      leaves no choice that changes the result. */
  lemma {:induction false} LineIsExact(line: string, c: Criterion)
    ensures ParseLine(line) == Some(c) <==>
              exists gap, list, sep, text :: Shape(line, c, gap, list, sep, text)
  {
    if ParseLine(line) == Some(c) {
      IdIsRead(line);
      var gap := HeadIsRead(line);
      var head := ParseHead(line).value;
      var list, rest := KindIsRead(head.0, head.1);
      var sep, text := SummaryIsRead(rest);
      assert Shape(line, c, gap, list, sep, text);
    }
    if gap, list, sep, text :| Shape(line, c, gap, list, sep, text) {
      SummaryMatches(sep, text, c.summary);
      if c.human {
        HumanMatches(c.id, sep + text);
        HeadMatches(c.id, gap, "HUMAN" + ("]" + (sep + text)));
      } else {
        AutoMatches(c.id, list, sep + text);
        HeadMatches(c.id, gap, "AUTO:" + (list + ("]" + (sep + text))));
      }
    }
  }

  // ------------------------------------------------------------ round trip

  lemma {:induction false} SplitJoin(parts: seq<string>)
    requires |parts| > 0 && forall i :: 0 <= i < |parts| ==> LegalCheck(parts[i])
    ensures Split(Join(parts)) == parts
  {
    forall i | 0 <= i < |parts| ensures ',' !in parts[i] {
      forall k | 0 <= k < |parts[i]| ensures parts[i][k] != ',' { assert CheckChar(parts[i][k]); }
    }
    SplitIsExact(Join(parts), parts);
  }

  lemma {:induction false} JoinStaysInside(parts: seq<string>)
    requires |parts| > 0 && forall i :: 0 <= i < |parts| ==> LegalCheck(parts[i])
    ensures |Join(parts)| > 0 && forall i :: 0 <= i < |Join(parts)| ==> NotClosing(Join(parts)[i])
  {
    var p := parts[0];
    forall i | 0 <= i < |p| ensures NotClosing(p[i]) { assert CheckChar(p[i]); }
    if |parts| > 1 { JoinStaysInside(parts[1..]); }
  }

  lemma {:induction false} NothingToTrim(summary: string)
    requires LegalSummary(summary)
    ensures Trimmed(summary, summary) && OneLine(summary)
  {
    assert summary == "" + (summary + "") && Blank("");
  }

  lemma {:induction false} SummaryRoundTrip(summary: string)
    requires LegalSummary(summary)
    ensures ParseSummary(" " + summary) == Some(summary)
  {
    NothingToTrim(summary);
    SummaryMatches(" ", summary, summary);
  }

  lemma {:induction false} KindRoundTrip(c: Criterion)
    requires WellFormed(c)
    ensures ParseKind(c.id, RenderKind(c)) == Some(c)
  {
    SummaryRoundTrip(c.summary);
    if c.human {
      HumanMatches(c.id, " " + c.summary);
    } else {
      JoinStaysInside(c.checkIds);
      SplitJoin(c.checkIds);
      AutoMatches(c.id, Join(c.checkIds), " " + c.summary);
    }
  }

  lemma {:induction false} LineRoundTrip(c: Criterion)
    requires WellFormed(c)
    ensures ParseLine(Render(c)) == Some(c)
  {
    HeadMatches(c.id, " ", RenderKind(c));
    KindRoundTrip(c);
  }

  /** Criteria with legal checks and different ids are all collected. */
  lemma {:induction false} CollectAll(all: seq<Criterion>, parsed: seq<Option<Criterion>>, n: nat)
    requires n <= |all| == |parsed|
    requires forall i :: 0 <= i < |all| ==> parsed[i] == Some(all[i]) && ChecksOk(all[i].checkIds)
    requires forall i, k :: 0 <= i < k < |all| ==> all[i].id != all[k].id
    ensures Collect(all[..n], parsed[n..]) == Ok(all)
    decreases |all| - n
  {
    if n == |all| {
      assert all[..n] == all;
    } else {
      assert parsed[n..][0] == parsed[n] && parsed[n..][1..] == parsed[n+1..];
      assert all[..n] + [all[n]] == all[..n+1];
      CollectAll(all, parsed, n + 1);
    }
  }

  lemma {:induction false} GoodLinesParse(lines: seq<string>, criteria: seq<Criterion>)
    requires |criteria| == |lines| > 0
    requires forall i :: 0 <= i < |lines| ==>
      ParseLine(lines[i]) == Some(criteria[i]) && ChecksOk(criteria[i].checkIds)
    requires forall i, k :: 0 <= i < k < |criteria| ==> criteria[i].id != criteria[k].id
    ensures Parse(lines) == Ok(criteria)
  {
    var parsed := ParseLines(lines);
    assert parsed[0..] == parsed && criteria[..0] == [];
    CollectAll(criteria, parsed, 0);
  }

  /** Writing a well-formed list of criteria and reading it back gives the list. */
  lemma {:induction false} RoundTrip(criteria: seq<Criterion>)
    requires |criteria| > 0 && Distinct(Ids(criteria))
    requires forall i :: 0 <= i < |criteria| ==> WellFormed(criteria[i])
    ensures Parse(RenderAll(criteria)) == Ok(criteria)
  {
    var lines := RenderAll(criteria);
    forall i | 0 <= i < |criteria| ensures ParseLine(lines[i]) == Some(criteria[i]) {
      LineRoundTrip(criteria[i]);
    }
    forall i, k | 0 <= i < k < |criteria| ensures criteria[i].id != criteria[k].id {
      assert Ids(criteria)[i] != Ids(criteria)[k];
    }
    GoodLinesParse(lines, criteria);
  }

  /** What the parser guarantees of one accepted criterion. */
  predicate AcceptedCriterion(c: Criterion) {
    LegalId(c.id) && ChecksOk(c.checkIds) && (if c.human then c.checkIds == [] else |c.checkIds| > 0)
  }

  lemma {:induction false} LineAccepted(s: string)
    requires ParseLine(s).Some? && ChecksOk(ParseLine(s).value.checkIds)
    ensures AcceptedCriterion(ParseLine(s).value)
  {
    IdIsRead(s);
  }

  lemma {:induction false} CollectSound(done: seq<Criterion>, parsed: seq<Option<Criterion>>)
    requires Distinct(Ids(done)) && forall i :: 0 <= i < |done| ==> AcceptedCriterion(done[i])
    requires forall i :: 0 <= i < |parsed| && parsed[i].Some? && ChecksOk(parsed[i].value.checkIds) ==>
      AcceptedCriterion(parsed[i].value)
    requires Collect(done, parsed).Ok?
    ensures
      var r := Collect(done, parsed).value;
      && |r| == |done| + |parsed| && Distinct(Ids(r))
      && (forall i :: 0 <= i < |r| ==> AcceptedCriterion(r[i]))
      && done <= r && forall i :: 0 <= i < |parsed| ==> parsed[i] == Some(r[|done|+i])
    decreases |parsed|
  {
    if |parsed| > 0 {
      var c := parsed[0].value;
      assert AcceptedCriterion(c);
      assert Ids(done + [c]) == Ids(done) + [c.id];
      CollectSound(done + [c], parsed[1..]);
      var r := Collect(done, parsed).value;
      forall i | 0 <= i < |parsed| ensures parsed[i] == Some(r[|done|+i]) {
        if i > 0 { assert parsed[1..][i-1] == Some(r[|done|+1+(i-1)]); }
      }
    }
  }

  /** Conversely every accepted list has one criterion per line, in order, with distinct ids, and for each AUTO
      criterion at least one check, all of them legal and distinct. */
  lemma {:induction false} ParseSound(lines: seq<string>)
    requires Parse(lines).Ok?
    ensures
      var r := Parse(lines).value;
      && |r| == |lines| > 0 && Distinct(Ids(r))
      && (forall i :: 0 <= i < |r| ==> AcceptedCriterion(r[i]) && ParseLine(lines[i]) == Some(r[i]))
  {
    var parsed := ParseLines(lines);
    forall i | 0 <= i < |parsed| && parsed[i].Some? && ChecksOk(parsed[i].value.checkIds)
      ensures AcceptedCriterion(parsed[i].value)
    {
      LineAccepted(lines[i]);
    }
    CollectSound([], parsed);
    var r := Parse(lines).value;
    forall i | 0 <= i < |r| ensures ParseLine(lines[i]) == Some(r[i]) {
      assert parsed[i] == Some(r[0+i]);
    }
  }

  lemma {:induction false} ChecksAreLegal(checks: seq<string>)
    ensures ChecksOk(checks) <==>
              && (forall i :: 0 <= i < |checks| ==> checks[i] != "" && forall c :: c in checks[i] ==> CheckChar(c))
              && forall i, k :: 0 <= i < k < |checks| ==> checks[i] != checks[k]
  {
    if forall i :: 0 <= i < |checks| ==> checks[i] != "" && forall c :: c in checks[i] ==> CheckChar(c) {
      forall i | 0 <= i < |checks| ensures LegalCheck(checks[i]) {
        assert forall k :: 0 <= k < |checks[i]| ==> checks[i][k] in checks[i];
      }
    }
  }

  /** A list is accepted if and only if there is one, every line is read, no id repeats and all checks are legal. */
  lemma {:induction false} ParseIsExact(lines: seq<string>, criteria: seq<Criterion>)
    ensures Parse(lines) == Ok(criteria) <==>
              && |criteria| == |lines| > 0
              && (forall i :: 0 <= i < |lines| ==>
                    ParseLine(lines[i]) == Some(criteria[i]) && ChecksOk(criteria[i].checkIds))
              && forall i, k :: 0 <= i < k < |criteria| ==> criteria[i].id != criteria[k].id
  {
    if Parse(lines) == Ok(criteria) {
      ParseSound(lines);
      forall i, k | 0 <= i < k < |criteria| ensures criteria[i].id != criteria[k].id {
        assert Ids(criteria)[i] != Ids(criteria)[k];
      }
    } else if
      && |criteria| == |lines| > 0
      && (forall i :: 0 <= i < |lines| ==>
            ParseLine(lines[i]) == Some(criteria[i]) && ChecksOk(criteria[i].checkIds))
      && forall i, k :: 0 <= i < k < |criteria| ==> criteria[i].id != criteria[k].id
    {
      GoodLinesParse(lines, criteria);
    }
  }

  // ------------------------------------------------------------------ plan

  function AllChecks(criteria: seq<Criterion>): seq<string> {
    if |criteria| == 0 then [] else criteria[0].checkIds + AllChecks(criteria[1..])
  }

  /** The spread of a set built from a list: every element once, where it first occurs. */
  function Unique(s: seq<string>): seq<string> {
    if |s| == 0 then []
    else
      var before := Unique(s[..|s|-1]);
      if s[|s|-1] in before then before else before + [s[|s|-1]]
  }

  datatype Plan = Plan(criteria: seq<Criterion>, checkIds: seq<string>)

  function PlanFor(lines: seq<string>, available: seq<string>): Result<Plan> {
    var parsed := Parse(lines);
    if parsed.Err? then Err(parsed.error)
    else
      var ids := Unique(AllChecks(parsed.value));
      if exists i :: 0 <= i < |ids| && ids[i] !in available then Err("Unknown verification checks")
      else Ok(Plan(parsed.value, ids))
  }

  /** Where an element first occurs, or the length. */
  function FirstUse(s: seq<string>, x: string): (n: nat)
    ensures n <= |s| && (n < |s| <==> x in s)
    ensures forall i :: 0 <= i < n ==> s[i] != x
    ensures n < |s| ==> s[n] == x
  {
    FirstIndex(s, (y: string) => y == x)
  }

  lemma {:induction false} UniqueIsSet(s: seq<string>)
    ensures Distinct(Unique(s)) && forall x :: x in Unique(s) <==> x in s
  {
    if |s| > 0 {
      var p := s[..|s|-1];
      UniqueIsSet(p);
      assert s == p + [s[|s|-1]];
    }
  }

  lemma {:induction false} FirstUseInPrefix(s: seq<string>, m: nat, x: string)
    requires m <= |s| && x in s[..m]
    ensures FirstUse(s, x) == FirstUse(s[..m], x) < m
  {
    assert s[FirstUse(s[..m], x)] == x;
  }

  lemma {:induction false} UniqueKeepsFirstUses(s: seq<string>)
    ensures forall i, k :: 0 <= i < k < |Unique(s)| ==> FirstUse(s, Unique(s)[i]) < FirstUse(s, Unique(s)[k])
  {
    if |s| > 0 {
      var m := |s| - 1;
      var p, u, v := s[..m], Unique(s[..m]), Unique(s);
      UniqueKeepsFirstUses(p);
      UniqueIsSet(p);
      forall i | 0 <= i < |u| ensures FirstUse(s, u[i]) == FirstUse(p, u[i]) < m {
        assert u[i] in u;
        FirstUseInPrefix(s, m, u[i]);
      }
      forall i, k | 0 <= i < k < |v| ensures FirstUse(s, v[i]) < FirstUse(s, v[k]) {
        if k < |u| { assert v[i] == u[i] && v[k] == u[k]; }
      }
    }
  }

  lemma {:induction false} AllChecksAre(criteria: seq<Criterion>, x: string)
    ensures x in AllChecks(criteria) <==> exists i :: 0 <= i < |criteria| && x in criteria[i].checkIds
  {
    if |criteria| > 0 {
      AllChecksAre(criteria[1..], x);
      if i :| 0 <= i < |criteria| && x in criteria[i].checkIds {
        assert i == 0 || x in criteria[1..][i-1].checkIds;
      }
    }
  }

  predicate Names(criteria: seq<Criterion>, x: string) {
    exists i :: 0 <= i < |criteria| && x in criteria[i].checkIds
  }

  lemma {:induction false} NamedChecks(criteria: seq<Criterion>, x: string)
    ensures x in Unique(AllChecks(criteria)) <==> Names(criteria, x)
  {
    UniqueIsSet(AllChecks(criteria));
    AllChecksAre(criteria, x);
  }

  /** There is a plan if and only if the criteria are accepted and every check they name is available. */
  lemma {:induction false} PlanNeedsChecks(lines: seq<string>, available: seq<string>)
    ensures PlanFor(lines, available).Ok? <==>
              Parse(lines).Ok? && forall x :: Names(Parse(lines).value, x) ==> x in available
  {
    if Parse(lines).Ok? {
      var criteria := Parse(lines).value;
      var ids := Unique(AllChecks(criteria));
      if PlanFor(lines, available).Ok? {
        forall x | Names(criteria, x) ensures x in available {
          NamedChecks(criteria, x);
          var i :| 0 <= i < |ids| && ids[i] == x;
        }
      } else {
        var i :| 0 <= i < |ids| && ids[i] !in available;
        NamedChecks(criteria, ids[i]);
      }
    }
  }

  /** A plan runs exactly the checks its criteria name, each once, in first-use order, all of them available. */
  lemma {:induction false} PlanIsExact(lines: seq<string>, available: seq<string>)
    requires PlanFor(lines, available).Ok?
    ensures
      var plan := PlanFor(lines, available).value;
      && Parse(lines) == Ok(plan.criteria) && Distinct(plan.checkIds)
      && (forall x :: x in plan.checkIds <==> Names(plan.criteria, x))
      && (forall x :: x in plan.checkIds ==> x in available)
      && (forall i, k :: 0 <= i < k < |plan.checkIds| ==>
            FirstUse(AllChecks(plan.criteria), plan.checkIds[i]) < FirstUse(AllChecks(plan.criteria), plan.checkIds[k]))
  {
    var plan := PlanFor(lines, available).value;
    UniqueIsSet(AllChecks(plan.criteria));
    UniqueKeepsFirstUses(AllChecks(plan.criteria));
    forall x ensures x in plan.checkIds <==> Names(plan.criteria, x) { NamedChecks(plan.criteria, x); }
  }
}
