/** Reordering a changelog: split at second-level headings, newest section first, footers last. */
module Changelog {
  datatype Section = Section(heading: string, body: string)

  datatype Doc = Doc(preamble: string, sections: seq<Section>)

  // --------------------------------------------------------- split and print

  /** The end of the first line. */
  function LineEnd(s: string): (e: nat)
    ensures e <= |s| && (forall i :: 0 <= i < e ==> s[i] != '\n') && (e < |s| ==> s[e] == '\n')
  {
    if s == "" || s[0] == '\n' then 0 else 1 + LineEnd(s[1..])
  }

  /** A line "## " with something after it. */
  predicate IsHeading(line: string) {
    |line| >= 4 && line[..3] == "## "
  }

  /** A line in front of an already split text. */
  function OnTop(line: string, rest: Doc): Doc {
    if IsHeading(line) then Doc("", [Section(line, "\n" + rest.preamble)] + rest.sections)
    else Doc(line + "\n" + rest.preamble, rest.sections)
  }

  /** Splits a text at its heading lines; a body starts with the newline that ends its heading. */
  function Parse(s: string): Doc {
    var e := LineEnd(s);
    if e < |s| then OnTop(s[..e], Parse(s[e + 1..]))
    else if IsHeading(s) then Doc("", [Section(s, "")])
    else Doc(s, [])
  }

  function PrintAll(sections: seq<Section>): string {
    if sections == [] then "" else sections[0].heading + sections[0].body + PrintAll(sections[1..])
  }

  function Print(doc: Doc): string {
    doc.preamble + PrintAll(doc.sections)
  }

  predicate EndsLine(s: string) {
    s != "" && s[|s| - 1] == '\n'
  }

  lemma PrintFirst(sec: Section, rest: seq<Section>)
    ensures PrintAll([sec] + rest) == sec.heading + sec.body + PrintAll(rest)
    ensures PrintAll([sec]) == sec.heading + sec.body
  {
    assert ([sec] + rest)[1..] == rest && [sec][1..] == [];
    assert sec.heading + sec.body + "" == sec.heading + sec.body;
  }

  lemma PrintOnTop(line: string, rest: Doc)
    ensures Print(OnTop(line, rest)) == line + "\n" + Print(rest)
  {
    hide IsHeading;
    PrintFirst(Section(line, "\n" + rest.preamble), rest.sections);
  }

  /** Splitting loses nothing. */
  lemma {:induction false} PrintParse(s: string)
    ensures Print(Parse(s)) == s
    decreases |s|
  {
    hide IsHeading, OnTop, Print;
    var e := LineEnd(s);
    if e < |s| {
      var rest := s[e + 1..];
      PrintParse(rest);
      PrintOnTop(s[..e], Parse(rest));
      assert Parse(s) == OnTop(s[..e], Parse(rest));
      assert s == s[..e] + "\n" + rest;
    } else {
      PrintLastLine(s);
    }
  }

  lemma PrintLastLine(s: string)
    ensures Print(Doc("", [Section(s, "")])) == s && Print(Doc(s, [])) == s
  {
    PrintFirst(Section(s, ""), []);
    PrintNone();
    hide PrintAll;
    assert s + "" == s;
  }

  lemma PrintNone()
    ensures PrintAll([]) == ""
  {
  }

  /** Two split texts joined at a line boundary. */
  function Join(a: Doc, b: Doc): Doc {
    if a.sections == [] then Doc(a.preamble + b.preamble, b.sections)
    else
      var k := |a.sections| - 1;
      var last := a.sections[k];
      Doc(a.preamble, a.sections[..k] + [last.(body := last.body + b.preamble)] + b.sections)
  }

  lemma OnTopJoins(line: string, a: Doc, b: Doc)
    ensures OnTop(line, Join(a, b)) == Join(OnTop(line, a), b)
  {
    var left, right := OnTop(line, Join(a, b)), Join(OnTop(line, a), b);
    if a.sections == [] {
      assert "\n" + (a.preamble + b.preamble) == "\n" + a.preamble + b.preamble;
      assert line + "\n" + (a.preamble + b.preamble) == line + "\n" + a.preamble + b.preamble;
    }
    assert left.sections == right.sections;
  }

  predicate OneLine(s: string) {
    forall i :: 0 <= i < |s| ==> s[i] != '\n'
  }

  lemma {:induction false} LineEndOf(line: string, rest: string)
    requires OneLine(line)
    ensures LineEnd(line + "\n" + rest) == |line|
  {
    var s := line + "\n" + rest;
    if line != "" {
      assert s[0] == line[0] && s[1..] == line[1..] + "\n" + rest;
      LineEndOf(line[1..], rest);
    }
  }

  lemma ParseTopLine(line: string, rest: string)
    requires OneLine(line)
    ensures Parse(line + "\n" + rest) == OnTop(line, Parse(rest))
  {
    var s := line + "\n" + rest;
    hide OnTop, IsHeading;
    LineEndOf(line, rest);
    assert s[..|line|] == line && s[|line| + 1..] == rest;
  }

  lemma ParseOneLine(line: string)
    requires OneLine(line)
    ensures Parse(line) == if IsHeading(line) then Doc("", [Section(line, "")]) else Doc(line, [])
  {
    assert LineEnd(line) == |line|;
  }

  /** A text that ends a line splits independently of what follows it. */
  lemma {:induction false} ParseConcat(a: string, b: string)
    requires a == "" || EndsLine(a)
    ensures Parse(a + b) == Join(Parse(a), Parse(b))
    decreases |a|
  {
    if a == "" {
      assert a + b == b;
      assert "" + Parse(b).preamble == Parse(b).preamble;
      ParseOneLine("");
    } else {
      var e := LineEnd(a);
      var line, rest := a[..e], a[e + 1..];
      assert a == line + "\n" + rest && a + b == line + "\n" + (rest + b);
      ParseTopLine(line, rest);
      ParseTopLine(line, rest + b);
      ParseConcat(rest, b);
      OnTopJoins(line, Parse(rest), Parse(b));
    }
  }

  // ---------------------------------------------------------- what splits back

  ghost predicate Plain(s: string) {
    Parse(s).sections == []
  }

  ghost predicate ProperSection(sec: Section) {
    && IsHeading(sec.heading) && OneLine(sec.heading)
    && (sec.body != "" ==> sec.body[0] == '\n' && Plain(sec.body[1..]))
  }

  ghost predicate Proper(sections: seq<Section>) {
    forall i :: 0 <= i < |sections| ==> ProperSection(sections[i])
  }

  /** Every section but the last ends its line. */
  ghost predicate Separated(sections: seq<Section>) {
    forall i :: 0 <= i < |sections| - 1 ==> EndsLine(sections[i].body)
  }

  ghost predicate ProperTop(doc: Doc) {
    Plain(doc.preamble) && (doc.sections != [] && doc.preamble != "" ==> EndsLine(doc.preamble))
  }

  lemma PlainLine(line: string, rest: string)
    requires OneLine(line) && !IsHeading(line) && Plain(rest)
    ensures Plain(line + "\n" + rest)
  {
    ParseTopLine(line, rest);
  }

  lemma {:induction false} ParseIsProper(s: string)
    ensures Proper(Parse(s).sections) && Separated(Parse(s).sections) && ProperTop(Parse(s))
    decreases |s|
  {
    var e := LineEnd(s);
    EmptyIsPlain();
    if e < |s| {
      assert OneLine(s[..e]);
      ParseIsProper(s[e + 1..]);
      OnTopIsProper(s[..e], Parse(s[e + 1..]));
    }
  }

  lemma EmptyIsPlain()
    ensures Plain("")
  {
  }

  lemma OnTopIsProper(line: string, rest: Doc)
    requires OneLine(line) && Proper(rest.sections) && Separated(rest.sections) && ProperTop(rest)
    ensures var doc := OnTop(line, rest); Proper(doc.sections) && Separated(doc.sections) && ProperTop(doc)
  {
    hide Plain;
    EmptyIsPlain();
    if IsHeading(line) {
      var body := "\n" + rest.preamble;
      assert body[1..] == rest.preamble;
      assert ProperSection(Section(line, body));
      assert rest.sections != [] ==> EndsLine(body);
    } else {
      PlainLine(line, rest.preamble);
    }
  }

  lemma ParseSection(sec: Section)
    requires ProperSection(sec)
    ensures Parse(sec.heading + sec.body) == Doc("", [sec])
  {
    var heading, body := sec.heading, sec.body;
    if body != "" {
      var rest := body[1..];
      assert body == "\n" + rest;
      assert heading + body == heading + "\n" + rest;
      ParseTopLine(heading, rest);
      PlainIsPreamble(rest);
      hide Parse, IsHeading;
      assert [sec] + [] == [sec];
    } else {
      assert heading + body == heading;
      ParseOneLine(heading);
    }
  }

  lemma PlainIsPreamble(s: string)
    requires Plain(s)
    ensures Parse(s) == Doc(s, [])
  {
    PrintParse(s);
    PrintNone();
    hide Parse, PrintAll;
    assert Parse(s).preamble + "" == Parse(s).preamble;
  }

  lemma ParsePrintMore(sec: Section, rest: seq<Section>)
    requires Parse(sec.heading + sec.body) == Doc("", [sec]) && Parse(PrintAll(rest)) == Doc("", rest)
    requires EndsLine(sec.heading + sec.body)
    ensures Parse(PrintAll([sec] + rest)) == Doc("", [sec] + rest)
  {
    PrintFirst(sec, rest);
    hide *;
    ParseConcat(sec.heading + sec.body, PrintAll(rest));
    JoinOne(sec, rest);
  }

  lemma FirstAndRest(sections: seq<Section>)
    requires Proper(sections) && Separated(sections) && sections != []
    ensures var sec, rest := sections[0], sections[1..];
            && sections == [sec] + rest && ProperSection(sec) && Proper(rest) && Separated(rest)
            && (rest != [] ==> EndsLine(sec.heading + sec.body))
  {
    hide ProperSection;
  }

  lemma {:induction false} ParsePrintAll(sections: seq<Section>)
    requires Proper(sections) && Separated(sections)
    ensures Parse(PrintAll(sections)) == Doc("", sections)
  {
    hide *;
    if sections == [] {
      PrintNone();
      ParseOneLine("");
      EmptyIsPlain();
    } else {
      var sec, rest := sections[0], sections[1..];
      FirstAndRest(sections);
      ParseSection(sec);
      if rest == [] {
        PrintFirst(sec, []);
        assert sections == [sec];
      } else {
        ParsePrintAll(rest);
        ParsePrintMore(sec, rest);
      }
    }
  }

  lemma JoinOne(sec: Section, rest: seq<Section>)
    ensures Join(Doc("", [sec]), Doc("", rest)) == Doc("", [sec] + rest)
  {
    assert sec.body + "" == sec.body;
    assert [sec][..0] + [sec] + rest == [sec] + rest;
  }

  /** Sections taken from a text, in any new order, split back exactly when each but the last ends its line. */
  lemma ParsePrintIff(preamble: string, sections: seq<Section>)
    requires Proper(sections) && ProperTop(Doc(preamble, sections))
    ensures Parse(Print(Doc(preamble, sections))) == Doc(preamble, sections) <==> Separated(sections)
  {
    var doc := Doc(preamble, sections);
    ParseIsProper(Print(doc));
    if Separated(sections) {
      PrintParse(preamble);
      ParsePrintAll(sections);
      if sections == [] {
        assert Print(doc) == preamble;
      } else {
        ParseConcat(preamble, PrintAll(sections));
        assert preamble + "" == preamble;
      }
    }
  }

  // -------------------------------------------------- where sections begin

  /** Every line that begins with two hashes and a blank and goes on opens a section: what stands before the line is
      what the sections before that one print. */
  lemma HeadingLineOpensSection(before: string, line: string, after: string) returns (k: nat)
    requires (before == "" || EndsLine(before)) && OneLine(line) && (after == "" || after[0] == '\n')
    requires |line| > 3 && line[0] == '#' && line[1] == '#' && line[2] == ' '
    ensures var doc := Parse(before + line + after);
            && k < |doc.sections| && doc.sections[k].heading == line
            && Print(Doc(doc.preamble, doc.sections[..k])) == before
  {
    var a, b := Parse(before), Parse(line + after);
    StartsHeading(line);
    hide *;
    Regroup(before, line, after, "");
    ParseHeadingLine(line, after);
    ParseConcat(before, line + after);
    PrintParse(before);
    assert a == Doc(a.preamble, a.sections);
    k := |a.sections|;
    JoinBeforeHeading(a, b);
  }

  lemma Regroup(a: string, b: string, c: string, d: string)
    ensures a + b + c == a + (b + c) && a + (b + c + d) == a + b + c + d
  {
  }

  lemma StartsHeading(line: string)
    requires |line| > 3 && line[0] == '#' && line[1] == '#' && line[2] == ' '
    ensures IsHeading(line)
  {
  }

  lemma ParseHeadingLine(line: string, after: string)
    requires OneLine(line) && IsHeading(line) && (after == "" || after[0] == '\n')
    ensures var doc := Parse(line + after); doc.preamble == "" && doc.sections != [] && doc.sections[0].heading == line
  {
    hide *;
    if after == "" {
      assert line + after == line;
      ParseOneLine(line);
    } else {
      var rest := after[1..];
      assert after == "\n" + rest;
      Regroup(line, "\n", rest, "");
      ParseTopLine(line, rest);
      OnTopOfHeading(line, Parse(rest));
    }
  }

  lemma OnTopOfHeading(line: string, rest: Doc)
    requires IsHeading(line)
    ensures var doc := OnTop(line, rest); doc.preamble == "" && doc.sections != [] && doc.sections[0].heading == line
  {
  }

  lemma JoinBeforeHeading(a: Doc, b: Doc)
    requires b.preamble == "" && b.sections != []
    ensures var doc := Join(a, b);
            && doc.preamble == a.preamble && |doc.sections| > |a.sections|
            && doc.sections[|a.sections|] == b.sections[0] && doc.sections[..|a.sections|] == a.sections
  {
    if a.sections != [] {
      var last := a.sections[|a.sections| - 1];
      assert last.body + "" == last.body;
    } else {
      assert a.preamble + "" == a.preamble;
    }
  }

  /** And only such lines do. */
  lemma SectionOpensAtHeadingLine(content: string, k: nat)
    requires k < |Parse(content).sections|
    ensures var doc := Parse(content);
            var before, sec := Print(Doc(doc.preamble, doc.sections[..k])), doc.sections[k];
            && (before == "" || EndsLine(before)) && before + sec.heading + sec.body <= content
            && OneLine(sec.heading) && (sec.body == "" || sec.body[0] == '\n')
            && |sec.heading| > 3 && sec.heading[..3] == "## "
  {
    var doc := Parse(content);
    ParseIsProper(content);
    PrintParse(content);
    hide Parse, Plain, PrintAll;
    assert ProperSection(doc.sections[k]);
    hide OneLine, EndsLine, Proper, ProperSection, Separated, ProperTop;
    PrintSplit(doc.sections, k);
    PrintEndsLine(doc, k);
    var sec := doc.sections[k];
    StartsWith(doc.preamble, PrintAll(doc.sections[..k]), sec.heading, sec.body, PrintAll(doc.sections[k + 1..]));
  }

  lemma StartsWith(a: string, b: string, c: string, d: string, e: string)
    ensures a + b + c + d <= a + (b + (c + d) + e)
  {
  }

  lemma {:induction false} PrintSplit(sections: seq<Section>, k: nat)
    requires k < |sections|
    ensures PrintAll(sections)
         == PrintAll(sections[..k]) + (sections[k].heading + sections[k].body) + PrintAll(sections[k + 1..])
  {
    var sec, rest, front := sections[k], sections[k + 1..], PrintAll(sections[..k]);
    if k == 0 {
      Regroup("", sec.heading + sec.body, PrintAll(rest), "");
    } else {
      var first, others := sections[0], sections[1..];
      PrintSplit(others, k - 1);
      assert sections[..k][1..] == others[..k - 1] && others[k..] == rest && others[k - 1] == sec;
      assert sections[..k][0] == first;
      var between := PrintAll(others[..k - 1]);
      assert front == first.heading + first.body + between;
      assert PrintAll(sections) == first.heading + first.body + PrintAll(others);
      hide PrintAll;
      Regroup(first.heading + first.body, between, sec.heading + sec.body, PrintAll(rest));
    }
  }

  lemma PrintEndsLine(doc: Doc, k: nat)
    requires k < |doc.sections| && Separated(doc.sections) && ProperTop(doc)
    ensures var before := Print(Doc(doc.preamble, doc.sections[..k])); before == "" || EndsLine(before)
  {
    hide Plain;
    if k > 0 {
      var front, last := doc.sections[..k], doc.sections[k - 1];
      PrintSplit(front, k - 1);
      assert front[k..] == [];
      var printed := PrintAll(front);
      assert EndsLine(last.body);
      hide PrintAll;
    }
  }

  // ------------------------------------------------------------- ordering

  function Regular(sections: seq<Section>, footer: string -> bool): seq<Section> {
    if sections == [] then []
    else
      var sec := sections[|sections| - 1];
      Regular(sections[..|sections| - 1], footer) + if footer(sec.heading) then [] else [sec]
  }

  function Footers(sections: seq<Section>, footer: string -> bool): seq<Section> {
    if sections == [] then []
    else
      var sec := sections[|sections| - 1];
      Footers(sections[..|sections| - 1], footer) + if footer(sec.heading) then [sec] else []
  }

  /** Newer sections and earlier ones of the same date come first. */
  function Insert(sec: Section, sorted: seq<Section>, date: string -> nat): seq<Section> {
    if sorted == [] || date(sorted[0].heading) <= date(sec.heading) then [sec] + sorted
    else [sorted[0]] + Insert(sec, sorted[1..], date)
  }

  /** The stable sort by date, descending; an unreadable date is 0. */
  function Sort(sections: seq<Section>, date: string -> nat): seq<Section> {
    if sections == [] then [] else Insert(sections[0], Sort(sections[1..], date), date)
  }

  function Arranged(sections: seq<Section>, date: string -> nat, footer: string -> bool): seq<Section> {
    Sort(Regular(sections, footer), date) + Footers(sections, footer)
  }

  /** The check that decides whether to rewrite: neighbours that both have a date. */
  ghost predicate LooksOrdered(regular: seq<Section>, date: string -> nat) {
    forall i, j :: 0 <= i && j == i + 1 && j < |regular| ==>
      var a, b := date(regular[i].heading), date(regular[j].heading);
      a != 0 && b != 0 ==> a >= b
  }

  ghost predicate NewestFirst(sections: seq<Section>, date: string -> nat) {
    forall i, j :: 0 <= i < j < |sections| ==> date(sections[i].heading) >= date(sections[j].heading)
  }

  /** The sections of one date, in their order. */
  function OfDate(sections: seq<Section>, date: string -> nat, d: nat): seq<Section> {
    if sections == [] then []
    else (if date(sections[0].heading) == d then [sections[0]] else []) + OfDate(sections[1..], date, d)
  }

  lemma OfDateFirst(sec: Section, rest: seq<Section>, date: string -> nat, d: nat)
    ensures OfDate([sec] + rest, date, d) == (if date(sec.heading) == d then [sec] else []) + OfDate(rest, date, d)
  {
    assert ([sec] + rest)[1..] == rest;
  }

  /** The text after one run. */
  ghost function Fixed(content: string, date: string -> nat, footer: string -> bool): string {
    var doc := Parse(content);
    if doc.sections == [] || LooksOrdered(Regular(doc.sections, footer), date) then content
    else Print(Doc(doc.preamble, Arranged(doc.sections, date, footer)))
  }

  lemma {:induction false} InsertPermutes(sec: Section, sorted: seq<Section>, date: string -> nat)
    ensures multiset(Insert(sec, sorted, date)) == multiset(sorted) + multiset{sec}
  {
    if sorted != [] && date(sorted[0].heading) > date(sec.heading) {
      assert sorted == [sorted[0]] + sorted[1..];
      InsertPermutes(sec, sorted[1..], date);
    }
  }

  lemma {:induction false} InsertKeepsOrder(sec: Section, sorted: seq<Section>, date: string -> nat)
    requires NewestFirst(sorted, date)
    ensures NewestFirst(Insert(sec, sorted, date), date)
  {
    if sorted != [] && date(sorted[0].heading) > date(sec.heading) {
      var top, rest := sorted[0], sorted[1..];
      InsertKeepsOrder(sec, rest, date);
      InsertPermutes(sec, rest, date);
      var out := Insert(sec, rest, date);
      assert Insert(sec, sorted, date) == [top] + out;
      hide Insert;
      forall i | 0 <= i < |out| ensures date(out[i].heading) <= date(top.heading) {
        assert out[i] in multiset(out);
        assert out[i] == sec || out[i] in rest;
      }
    }
  }

  lemma {:induction false} InsertIsStable(sec: Section, sorted: seq<Section>, date: string -> nat, d: nat)
    requires NewestFirst(sorted, date)
    ensures OfDate(Insert(sec, sorted, date), date, d) == OfDate([sec] + sorted, date, d)
  {
    assert ([sec] + sorted)[1..] == sorted;
    if sorted != [] && date(sorted[0].heading) > date(sec.heading) {
      var rest := sorted[1..];
      InsertIsStable(sec, rest, date, d);
      assert ([sec] + rest)[1..] == rest;
      assert ([sorted[0]] + Insert(sec, rest, date))[1..] == Insert(sec, rest, date);
    }
  }

  /** The sort is a permutation, newest first, with ties in their original order. */
  lemma {:induction false} SortIsStable(sections: seq<Section>, date: string -> nat)
    ensures var out := Sort(sections, date);
            && NewestFirst(out, date) && multiset(out) == multiset(sections)
            && forall d: nat :: OfDate(out, date, d) == OfDate(sections, date, d)
  {
    if sections != [] {
      var sec, rest := sections[0], sections[1..];
      SortIsStable(rest, date);
      var sorted := Sort(rest, date);
      assert sections == [sec] + rest;
      assert Sort(sections, date) == Insert(sec, sorted, date);
      hide Sort, Insert, NewestFirst, OfDate;
      InsertKeepsOrder(sec, sorted, date);
      InsertPermutes(sec, sorted, date);
      forall d: nat ensures OfDate(Insert(sec, sorted, date), date, d) == OfDate(sections, date, d) {
        InsertIsStable(sec, sorted, date, d);
        OfDateFirst(sec, sorted, date, d);
        OfDateFirst(sec, rest, date, d);
      }
    }
  }

  lemma {:induction false} PartitionIsPermutation(sections: seq<Section>, footer: string -> bool)
    ensures multiset(Regular(sections, footer)) + multiset(Footers(sections, footer)) == multiset(sections)
    ensures forall sec :: sec in Regular(sections, footer) ==> !footer(sec.heading)
    ensures forall sec :: sec in Footers(sections, footer) ==> footer(sec.heading)
  {
    if sections != [] {
      var before, sec := sections[..|sections| - 1], sections[|sections| - 1];
      assert sections == before + [sec];
      PartitionIsPermutation(before, footer);
    }
  }

  lemma {:induction false} RegularConcat(a: seq<Section>, b: seq<Section>, footer: string -> bool)
    ensures Regular(a + b, footer) == Regular(a, footer) + Regular(b, footer)
  {
    if b == [] {
      assert a + b == a;
    } else {
      assert (a + b)[..|a + b| - 1] == a + b[..|b| - 1];
      RegularConcat(a, b[..|b| - 1], footer);
    }
  }

  lemma {:induction false} RegularOfUniform(sections: seq<Section>, footer: string -> bool, isFooter: bool)
    requires forall sec :: sec in sections ==> footer(sec.heading) == isFooter
    ensures Regular(sections, footer) == if isFooter then [] else sections
  {
    if sections != [] {
      var before, sec := sections[..|sections| - 1], sections[|sections| - 1];
      assert sections == before + [sec];
      RegularOfUniform(before, footer, isFooter);
    }
  }

  /** Footers keep their order. */
  lemma {:induction false} FootersConcat(a: seq<Section>, b: seq<Section>, footer: string -> bool)
    ensures Footers(a + b, footer) == Footers(a, footer) + Footers(b, footer)
  {
    if b == [] {
      assert a + b == a;
    } else {
      assert (a + b)[..|a + b| - 1] == a + b[..|b| - 1];
      FootersConcat(a, b[..|b| - 1], footer);
    }
  }

  /** A new arrangement is a permutation whose regular part comes first, sorted, and whose footers come last. */
  lemma ArrangedIsPermutation(sections: seq<Section>, date: string -> nat, footer: string -> bool)
    ensures var regular := Regular(sections, footer);
            var out := Arranged(sections, date, footer);
            && multiset(out) == multiset(sections) && |regular| <= |out|
            && Regular(out, footer) == Sort(regular, date) == out[..|regular|]
            && out[|regular|..] == Footers(sections, footer)
  {
    var regular, footers := Regular(sections, footer), Footers(sections, footer);
    var sorted := Sort(regular, date);
    PartitionIsPermutation(sections, footer);
    SortIsStable(regular, date);
    hide Regular, Footers, Sort;
    assert |sorted| == |regular| by { assert |multiset(sorted)| == |multiset(regular)|; }
    forall sec | sec in sorted ensures !footer(sec.heading) {
      assert sec in multiset(sorted);
    }
    RegularConcat(sorted, footers, footer);
    RegularOfUniform(sorted, footer, false);
    RegularOfUniform(footers, footer, true);
  }

  // ------------------------------------------------------------ main results

  lemma ArrangedIsProper(sections: seq<Section>, date: string -> nat, footer: string -> bool)
    requires Proper(sections)
    ensures Proper(Arranged(sections, date, footer))
  {
    ArrangedIsPermutation(sections, date, footer);
    hide Arranged, ProperSection, Regular, Sort, Footers;
    var out := Arranged(sections, date, footer);
    forall i | 0 <= i < |out| ensures ProperSection(out[i]) {
      assert out[i] in multiset(out);
      assert out[i] in sections;
    }
  }

  /**
   After a rewrite the text splits into exactly the arranged sections if and
   only if the section that came last originally ends its line or still comes
   last; otherwise it runs into the heading that follows it.
   */
  lemma RewriteSplitsBackIff(content: string, date: string -> nat, footer: string -> bool)
    requires Parse(content).sections != []
    ensures var doc := Parse(content);
            var out := Arranged(doc.sections, date, footer);
            var last := doc.sections[|doc.sections| - 1];
            && |out| == |doc.sections|
            && (Parse(Print(Doc(doc.preamble, out))) == Doc(doc.preamble, out)
                <==> EndsLine(last.body) || out[|out| - 1] == last)
  {
    ParseIsProper(content);
    hide Parse, Arranged, Proper, Separated, ProperTop;
    ArrangedSplitsBackIff(Parse(content), date, footer);
  }

  lemma ArrangedSplitsBackIff(doc: Doc, date: string -> nat, footer: string -> bool)
    requires doc.sections != [] && Proper(doc.sections) && Separated(doc.sections) && ProperTop(doc)
    ensures var out := Arranged(doc.sections, date, footer);
            var last := doc.sections[|doc.sections| - 1];
            && |out| == |doc.sections|
            && (Parse(Print(Doc(doc.preamble, out))) == Doc(doc.preamble, out)
                <==> EndsLine(last.body) || out[|out| - 1] == last)
  {
    hide *;
    ArrangedIsProper(doc.sections, date, footer);
    ArrangedKeepsLength(doc.sections, date, footer);
    ReorderedSplitsBackIff(doc, Arranged(doc.sections, date, footer));
  }

  lemma ReorderedSplitsBackIff(doc: Doc, out: seq<Section>)
    requires doc.sections != [] && Separated(doc.sections) && ProperTop(doc) && Proper(out)
    requires multiset(out) == multiset(doc.sections) && |out| == |doc.sections|
    ensures Parse(Print(Doc(doc.preamble, out))) == Doc(doc.preamble, out)
            <==> EndsLine(doc.sections[|doc.sections| - 1].body) || out[|out| - 1] == doc.sections[|doc.sections| - 1]
  {
    hide *;
    SameTop(doc.preamble, doc.sections, out);
    ParsePrintIff(doc.preamble, out);
    SeparatedIff(doc.sections, out);
  }

  lemma SameTop(preamble: string, a: seq<Section>, b: seq<Section>)
    requires ProperTop(Doc(preamble, a)) && a != [] && |a| == |b|
    ensures ProperTop(Doc(preamble, b))
  {
    hide Plain, EndsLine;
  }

  lemma ArrangedKeepsLength(sections: seq<Section>, date: string -> nat, footer: string -> bool)
    ensures var out := Arranged(sections, date, footer); multiset(out) == multiset(sections) && |out| == |sections|
  {
    ArrangedIsPermutation(sections, date, footer);
    hide Arranged, Regular, Sort, Footers;
    assert |multiset(Arranged(sections, date, footer))| == |multiset(sections)|;
  }

  lemma SeparatedIff(sections: seq<Section>, out: seq<Section>)
    requires multiset(out) == multiset(sections) && |out| == |sections| && sections != [] && Separated(sections)
    ensures Separated(out) <==> EndsLine(sections[|sections| - 1].body) || out[|out| - 1] == sections[|sections| - 1]
  {
    hide EndsLine;
    var n := |sections|;
    var last := sections[n - 1];
    if EndsLine(last.body) {
      forall i | 0 <= i < n ensures EndsLine(out[i].body) {
        assert out[i] in multiset(out);
        assert out[i] in sections;
      }
    } else if out[n - 1] == last {
      SamePrefix(sections, out);
      forall i | 0 <= i < n - 1 ensures EndsLine(out[i].body) {
        assert out[..n - 1][i] in multiset(out[..n - 1]);
        assert out[i] in sections[..n - 1];
      }
    } else {
      assert last in multiset(out);
      var i :| 0 <= i < n && out[i] == last;
      assert i < n - 1;
    }
  }

  lemma SamePrefix(a: seq<Section>, b: seq<Section>)
    requires multiset(a) == multiset(b) && |a| == |b| > 0 && a[|a| - 1] == b[|b| - 1]
    ensures multiset(a[..|a| - 1]) == multiset(b[..|b| - 1])
  {
    WithoutLast(a);
    WithoutLast(b);
  }

  lemma WithoutLast(s: seq<Section>)
    requires s != []
    ensures multiset(s[..|s| - 1]) == multiset(s) - multiset{s[|s| - 1]}
  {
    assert s == s[..|s| - 1] + [s[|s| - 1]];
  }

  lemma WithoutOne(s: seq<Section>, i: nat)
    requires i < |s|
    ensures multiset(s[..i] + s[i + 1..]) == multiset(s) - multiset{s[i]}
  {
    var a, b := s[..i], s[i + 1..];
    assert s == a + [s[i]] + b;
  }

  lemma SortedLooksOrdered(regular: seq<Section>, date: string -> nat)
    requires NewestFirst(regular, date)
    ensures LooksOrdered(regular, date)
  {
  }

  /** A second run changes nothing when the last section ends its line, stays last, or nothing was rewritten. */
  lemma SecondRunAfterCleanSplit(content: string, date: string -> nat, footer: string -> bool)
    requires var sections := Parse(content).sections;
             sections != [] ==>
               EndsLine(sections[|sections| - 1].body)
               || Arranged(sections, date, footer)[|Arranged(sections, date, footer)| - 1] == sections[|sections| - 1]
    ensures Fixed(Fixed(content, date, footer), date, footer) == Fixed(content, date, footer)
  {
    var doc := Parse(content);
    if doc.sections != [] && !LooksOrdered(Regular(doc.sections, footer), date) {
      var out := Arranged(doc.sections, date, footer);
      RewriteSplitsBackIff(content, date, footer);
      ArrangedIsPermutation(doc.sections, date, footer);
      SortIsStable(Regular(doc.sections, footer), date);
      hide Parse, Arranged, Regular, Sort, Footers;
      SortedLooksOrdered(Regular(out, footer), date);
    }
  }

  /** When every regular section has a date, the run leaves them newest first. */
  lemma DatedSectionsEndNewestFirst(content: string, date: string -> nat, footer: string -> bool)
    requires forall sec :: sec in Regular(Parse(content).sections, footer) ==> date(sec.heading) != 0
    ensures var regular := Regular(Parse(content).sections, footer);
            LooksOrdered(regular, date) <==> NewestFirst(regular, date)
    ensures Fixed(content, date, footer) == content <== NewestFirst(Regular(Parse(content).sections, footer), date)
  {
    var regular := Regular(Parse(content).sections, footer);
    hide Parse, Regular;
    if LooksOrdered(regular, date) {
      forall i, j | 0 <= i < j < |regular| ensures date(regular[i].heading) >= date(regular[j].heading) {
        OrderedBetween(regular, date, i, j);
      }
    }
  }

  lemma {:induction false} OrderedBetween(regular: seq<Section>, date: string -> nat, i: nat, j: nat)
    requires i <= j < |regular| && LooksOrdered(regular, date)
    requires forall sec :: sec in regular ==> date(sec.heading) != 0
    ensures date(regular[i].heading) >= date(regular[j].heading)
  {
    if i < j {
      OrderedBetween(regular, date, i, j - 1);
      assert regular[j - 1] in regular && regular[j] in regular;
    }
  }

  /** One run over the file. */
  method FixChangelogOrder(content: string, date: string -> nat, footer: string -> bool)
    returns (out: string, rewritten: bool)
    ensures out == Fixed(content, date, footer)
    ensures rewritten
            <==> Parse(content).sections != [] && !LooksOrdered(Regular(Parse(content).sections, footer), date)
  {
    hide Parse, Regular, Footers, LooksOrdered, Sort, Print;
    var doc := Parse(content);
    if doc.sections == [] { return content, false; }
    var regular, footers := Partition(doc.sections, footer);
    var ordered := CheckOrder(regular, date);
    if ordered { return content, false; }
    out := Render(doc.preamble, Sort(regular, date) + footers);
    rewritten := true;
  }

  method Partition(sections: seq<Section>, footer: string -> bool)
    returns (regular: seq<Section>, footers: seq<Section>)
    ensures regular == Regular(sections, footer) && footers == Footers(sections, footer)
  {
    regular, footers := [], [];
    for i := 0 to |sections|
      invariant regular == Regular(sections[..i], footer) && footers == Footers(sections[..i], footer)
    {
      var sec := sections[i];
      assert sections[..i + 1][..i] == sections[..i];
      if footer(sec.heading) { footers := footers + [sec]; } else { regular := regular + [sec]; }
    }
    assert sections[..|sections|] == sections;
  }

  method Render(preamble: string, sections: seq<Section>) returns (out: string)
    ensures out == Print(Doc(preamble, sections))
  {
    out := preamble;
    for i := 0 to |sections|
      invariant out + PrintAll(sections[i..]) == Print(Doc(preamble, sections))
    {
      assert sections[i..][1..] == sections[i + 1..];
      out := out + (sections[i].heading + sections[i].body);
    }
    assert out + "" == out;
  }

  method CheckOrder(regular: seq<Section>, date: string -> nat) returns (ordered: bool)
    ensures ordered <==> LooksOrdered(regular, date)
  {
    if regular == [] { return true; }
    for j := 1 to |regular|
      invariant forall i, k :: 0 <= i && k == i + 1 && k < j && k < |regular| ==>
                  var a, b := date(regular[i].heading), date(regular[k].heading);
                  a != 0 && b != 0 ==> a >= b
    {
      var a, b := date(regular[j - 1].heading), date(regular[j].heading);
      if a != 0 && b != 0 && a < b { return false; }
    }
    return true;
  }

  /** An undated section between two dated ones hides that they are out of order. */
  lemma UndatedSectionHidesDisorder(date: string -> nat, a: Section, undated: Section, b: Section)
    requires 0 < date(a.heading) < date(b.heading) && date(undated.heading) == 0
    ensures LooksOrdered([a, undated, b], date) && !NewestFirst([a, undated, b], date)
  {
    var s := [a, undated, b];
    assert s[0] == a && s[2] == b;
  }

  /** A footer that is not last stays where it is when the dated sections already look ordered. */
  lemma FooterStaysWhenOrdered(date: string -> nat, footer: string -> bool, notes: Section, a: Section)
    requires footer(notes.heading) && !footer(a.heading)
    ensures LooksOrdered(Regular([notes, a], footer), date) && Arranged([notes, a], date, footer) == [a, notes]
  {
    var s := [notes, a];
    assert s[..1] == [notes] && s[..1][..0] == [];
    assert Regular([notes], footer) == Regular([], footer) + [];
    assert Footers([notes], footer) == Footers([], footer) + [notes];
    assert [] + [a] == [a] && [a][1..] == [];
    assert Regular(s, footer) == [a] && Footers(s, footer) == [notes];
    assert Sort([a], date) == [a];
  }

  lemma SamePreamble(preamble: string, doc: Doc)
    requires Print(Doc(preamble, doc.sections)) == Print(doc)
    ensures preamble == doc.preamble
  {
    hide PrintAll;
    var tail := PrintAll(doc.sections);
    var text := doc.preamble + tail;
    assert preamble + tail == text && |preamble| == |doc.preamble|;
    assert preamble == text[..|preamble|] == doc.preamble;
  }

  /** Re-reading a printed arrangement gives its sections exactly when it gives the whole document. */
  lemma SectionsMeanDoc(preamble: string, sections: seq<Section>)
    ensures Parse(Print(Doc(preamble, sections))).sections == sections
            <==> Parse(Print(Doc(preamble, sections))) == Doc(preamble, sections)
  {
    var text := Print(Doc(preamble, sections));
    PrintParse(text);
    var doc := Parse(text);
    hide Parse, Print;
    if doc.sections == sections {
      SamePreamble(preamble, doc);
    }
  }

  /**
   After a run the sections are the arranged ones if and only if: where the dated
   neighbours looked ordered, there was nothing to arrange; and where they did
   not, the section that came last ends its line or still comes last.
   */
  lemma ResultIsArrangedIff(content: string, date: string -> nat, footer: string -> bool)
    requires Parse(content).sections != []
    ensures var sections := Parse(content).sections;
            var arranged, last := Arranged(sections, date, footer), sections[|sections| - 1];
            && |arranged| == |sections|
            && (Parse(Fixed(content, date, footer)).sections == arranged <==>
                if LooksOrdered(Regular(sections, footer), date) then sections == arranged
                else EndsLine(last.body) || arranged[|arranged| - 1] == last)
  {
    RewriteSplitsBackIff(content, date, footer);
    var doc := Parse(content);
    SectionsMeanDoc(doc.preamble, Arranged(doc.sections, date, footer));
    hide Parse, Print, Arranged, LooksOrdered, Regular, EndsLine;
  }
}
