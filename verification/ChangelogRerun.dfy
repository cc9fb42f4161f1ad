/** A second run over the changelog changes nothing, for every file, even one whose last line is not closed. */
module ChangelogRerun {
  import opened Changelog
  import opened Wrappers

  /**
   How pattern searches read a heading y glued to text x: a search finds its
   first match, and no match can reach across the "## " in between.  An
   impossible date (such as Feb 31) is read as none.
   */
  ghost predicate ReadsThrough(date: string -> nat, footer: string -> bool, x: string, y: string) {
    && footer(x + y) == (footer(x) || footer(y))
    && (if date(x) != 0 then date(x + y) == date(x) else date(x + y) == 0 || date(x + y) == date(y))
  }

  ghost predicate SearchLaws(date: string -> nat, footer: string -> bool) {
    && (forall x, y :: IsHeading(y) ==> ReadsThrough(date, footer, x, y))
    && !footer("## ") && (forall y :: IsHeading(y) ==> date("## " + y) == date(y))
  }

  /** The text before the first '#'. */
  function Cut(s: string): string {
    if s == "" || s[0] == '#' then "" else [s[0]] + Cut(s[1..])
  }

  /** A pattern tried at the start of a text: its matches contain no '#' and are longer than one blank. */
  ghost predicate Pattern(at: string -> Option<nat>) {
    at("").None? && at(" ").None? && forall s :: at(s) == at(Cut(s))
  }

  /** What the first match of a pattern reads, wherever it starts. */
  function Search(s: string, at: string -> Option<nat>): Option<nat> {
    if s == "" then None else if at(s).Some? then at(s) else Search(s[1..], at)
  }

  function DateBy(at: string -> Option<nat>): string -> nat {
    s => var found := Search(s, at); if found.Some? then found.value else 0
  }

  function FooterBy(hit: string -> Option<nat>): string -> bool {
    s => Search(s, hit).Some?
  }

  lemma {:induction false} CutThrough(x: string, y: string)
    requires y != "" && y[0] == '#'
    ensures Cut(x + y) == Cut(x)
  {
    if x == "" {
      assert x + y == y;
    } else {
      assert (x + y)[1..] == x[1..] + y;
      CutThrough(x[1..], y);
    }
  }

  lemma {:induction false} SearchThrough(x: string, y: string, at: string -> Option<nat>)
    requires Pattern(at) && y != "" && y[0] == '#'
    ensures Search(x + y, at) == if Search(x, at).Some? then Search(x, at) else Search(y, at)
  {
    if x == "" {
      assert x + y == y;
    } else {
      assert (x + y)[1..] == x[1..] + y;
      CutThrough(x, y);
      assert at(x + y) == at(Cut(x + y)) == at(x);
      SearchThrough(x[1..], y, at);
    }
  }

  lemma NothingInMarks(at: string -> Option<nat>)
    requires Pattern(at)
    ensures Search("## ", at).None?
  {
    assert at("## ") == at(Cut("## ")) && at("# ") == at(Cut("# "));
    assert "## "[1..] == "# " && "# "[1..] == " " && " "[1..] == "";
  }

  /** Dates and footers found by searching for such patterns read headings as the laws say. */
  lemma PatternsObeyLaws(at: string -> Option<nat>, hit: string -> Option<nat>)
    requires Pattern(at) && Pattern(hit)
    ensures SearchLaws(DateBy(at), FooterBy(hit))
  {
    var date, footer := DateBy(at), FooterBy(hit);
    NothingInMarks(at);
    NothingInMarks(hit);
    hide Search, Pattern;
    forall x, y | IsHeading(y) ensures ReadsThrough(date, footer, x, y) {
      assert y[0] == y[..3][0] == '#';
      SearchThrough(x, y, at);
      SearchThrough(x, y, hit);
    }
    forall y | IsHeading(y) ensures date("## " + y) == date(y) {
      assert y[0] == y[..3][0] == '#';
      SearchThrough("## ", y, at);
    }
  }

  // ------------------------------------------- two sections run together

  /** A text as closed lines followed by one open line. */
  lemma {:induction false} OpenLine(p: string) returns (lines: string, line: string)
    ensures p == lines + line && (lines == "" || EndsLine(lines)) && OneLine(line)
  {
    if p == "" || p[|p| - 1] == '\n' {
      lines, line := p, "";
    } else {
      var l, q := OpenLine(p[..|p| - 1]);
      lines, line := l, q + [p[|p| - 1]];
      assert p == p[..|p| - 1] + [p[|p| - 1]];
    }
  }

  lemma PlainParts(lines: string, line: string)
    requires Plain(lines + line) && (lines == "" || EndsLine(lines)) && OneLine(line)
    ensures Plain(lines) && !IsHeading(line)
  {
    ParseConcat(lines, line);
    ParseOneLine(line);
    hide Parse, IsHeading;
  }

  /** Only an open line "## " turns the heading glued to it into another heading. */
  lemma GluedHeading(line: string, heading: string)
    requires line != "" && !IsHeading(line) && IsHeading(heading) && IsHeading(line + heading)
    ensures line == "## "
  {
    var glued := line + heading;
    assert glued[..3] == "## " && heading[..3] == "## ";
    assert glued[2] == ' ' && heading[0] == '#' && heading[1] == '#';
    if |line| >= 3 {
      assert glued[..3] == line[..3];
    }
  }

  /** What the sections left and right read as when left's last line is open. */
  ghost predicate RunTogether(left: Section, right: Section, got: seq<Section>) {
    || (|got| == 1 && got[0].heading == left.heading)
    || (|got| == 1 && got[0].heading == left.heading + right.heading)
    || (|got| == 2 && got[0].heading == left.heading && got[1].heading == "## " + right.heading)
  }

  ghost predicate Closed(sections: seq<Section>) {
    forall i :: 0 <= i < |sections| ==> EndsLine(sections[i].body)
  }

  /** A bare heading line swallows the heading that follows it. */
  lemma BareHeading(left: Section, right: Section) returns (got: seq<Section>)
    requires ProperSection(left) && ProperSection(right) && left.body == "" && EndsLine(right.body)
    ensures Parse(left.heading + left.body + (right.heading + right.body)) == Doc("", got)
    ensures Proper(got) && Closed(got) && RunTogether(left, right, got)
  {
    var merged := Section(left.heading + right.heading, right.body);
    assert left.heading + "" + (right.heading + right.body) == merged.heading + merged.body;
    assert merged.heading[..3] == left.heading[..3];
    ParseSection(merged);
    got := [merged];
  }

  /** The open line at the end of a section's body. */
  lemma OpenTail(left: Section) returns (lines: string, line: string)
    requires ProperSection(left) && left.body != "" && !EndsLine(left.body)
    ensures left.body == "\n" + (lines + line) && line != "" && OneLine(line) && !IsHeading(line)
    ensures Plain(lines) && (lines == "" || EndsLine(lines))
  {
    lines, line := OpenLine(left.body[1..]);
    assert left.body == "\n" + (lines + line);
    hide Plain, IsHeading, OneLine;
    PlainParts(lines, line);
  }

  lemma ParseGlued(glued: string, rest: string)
    requires OneLine(glued) && Plain(rest)
    ensures Parse(glued + "\n" + rest) == if IsHeading(glued) then Doc("", [Section(glued, "\n" + rest)])
                                          else Doc(glued + "\n" + rest, [])
  {
    hide Parse, IsHeading;
    ParseTopLine(glued, rest);
    PlainIsPreamble(rest);
    assert [Section(glued, "\n" + rest)] + [] == [Section(glued, "\n" + rest)];
  }

  /** A closed section followed by more text. */
  lemma ParseBelow(top: Section, lower: string)
    requires ProperSection(top) && EndsLine(top.body)
    ensures Parse(top.heading + top.body + lower) == Join(Doc("", [top]), Parse(lower))
  {
    hide Parse, ProperSection;
    ParseSection(top);
    ParseConcat(top.heading + top.body, lower);
  }

  lemma JoinLone(top: Section, lower: Doc)
    ensures Join(Doc("", [top]), lower) == Doc("", [top.(body := top.body + lower.preamble)] + lower.sections)
  {
    assert [top][..0] == [];
  }

  lemma Regroup(h: string, lines: string, line: string, h2: string, rest: string)
    ensures h + ("\n" + (lines + line)) + (h2 + ("\n" + rest)) == h + ("\n" + lines) + (line + h2 + "\n" + rest)
    ensures "\n" + lines + (line + h2 + "\n" + rest) == "\n" + (lines + line) + h2 + ("\n" + rest)
  {
  }

  lemma ClosedTop(left: Section, lines: string) returns (top: Section)
    requires ProperSection(left) && Plain(lines) && (lines == "" || EndsLine(lines))
    ensures top == Section(left.heading, "\n" + lines) && ProperSection(top) && EndsLine(top.body)
  {
    hide Plain;
    top := Section(left.heading, "\n" + lines);
    assert top.body[1..] == lines;
  }

  lemma OpenBody(left: Section, right: Section) returns (got: seq<Section>)
    requires ProperSection(left) && ProperSection(right) && left.body != "" && !EndsLine(left.body)
    requires EndsLine(right.body)
    ensures Parse(left.heading + left.body + (right.heading + right.body)) == Doc("", got)
    ensures Proper(got) && Closed(got) && RunTogether(left, right, got)
  {
    var rest := right.body[1..];
    assert right.body == "\n" + rest && Plain(rest);
    var lines, line := OpenTail(left);
    var glued := line + right.heading;
    assert OneLine(glued);
    hide Parse, IsHeading, Plain, ProperSection, EndsLine, Join, RunTogether, Proper, Closed, OneLine;
    var top := ClosedTop(left, lines);
    var lower := glued + "\n" + rest;
    Regroup(left.heading, lines, line, right.heading, rest);
    ParseBelow(top, lower);
    ParseGlued(glued, rest);
    JoinLone(top, Parse(lower));
    if IsHeading(glued) {
      got := GluedIsHeading(left, right, top, line);
    } else {
      got := GluedIsBody(left, right, lines, line, rest);
    }
  }

  lemma GluedIsBody(left: Section, right: Section, lines: string, line: string, rest: string)
    returns (got: seq<Section>)
    requires ProperSection(left) && left.body == "\n" + (lines + line) && right.body == "\n" + rest
    requires EndsLine(right.body)
    requires Plain(lines) && (lines == "" || EndsLine(lines)) && Plain(rest)
    requires OneLine(line + right.heading) && !IsHeading(line + right.heading)
    ensures got == [Section(left.heading, "\n" + lines + (line + right.heading + "\n" + rest))] + []
    ensures Proper(got) && Closed(got) && RunTogether(left, right, got)
  {
    hide Plain, IsHeading, OneLine;
    GluedBody(left, right, lines, line, rest);
    Regroup(left.heading, lines, line, right.heading, rest);
    got := [Section(left.heading, left.body + right.heading + right.body)];
    assert got + [] == got;
  }

  lemma GluedIsHeading(left: Section, right: Section, top: Section, line: string) returns (got: seq<Section>)
    requires ProperSection(top) && EndsLine(top.body) && top.heading == left.heading
    requires ProperSection(right) && EndsLine(right.body)
    requires line != "" && OneLine(line) && !IsHeading(line) && IsHeading(line + right.heading)
    ensures got == [top.(body := top.body + "")] + [Section(line + right.heading, right.body)]
    ensures Proper(got) && Closed(got) && RunTogether(left, right, got)
  {
    hide Plain;
    GluedHeading(line, right.heading);
    assert top.body + "" == top.body;
    got := [top, Section(line + right.heading, right.body)];
  }

  lemma GluedText(lines: string, line: string, heading: string, rest: string)
    ensures var body := "\n" + (lines + line) + heading + ("\n" + rest);
            body[0] == '\n' && body[1..] == lines + (line + heading + "\n" + rest)
  {
  }

  lemma GluedBody(left: Section, right: Section, lines: string, line: string, rest: string)
    requires ProperSection(left) && left.body == "\n" + (lines + line) && right.body == "\n" + rest
    requires Plain(lines) && (lines == "" || EndsLine(lines)) && Plain(rest)
    requires OneLine(line + right.heading) && !IsHeading(line + right.heading)
    ensures ProperSection(Section(left.heading, left.body + right.heading + right.body))
  {
    var body := left.body + right.heading + right.body;
    var lower := line + right.heading + "\n" + rest;
    GluedText(lines, line, right.heading, rest);
    assert Plain(lines + lower) by {
      hide ProperSection, Parse, IsHeading;
      PlainLine(line + right.heading, rest);
      ParseConcat(lines, lower);
    }
    hide Plain, IsHeading, OneLine;
  }

  lemma ReadTogether(left: Section, right: Section) returns (got: seq<Section>)
    requires ProperSection(left) && ProperSection(right) && !EndsLine(left.body) && EndsLine(right.body)
    ensures PrintAll(got) == PrintAll([left, right])
    ensures Proper(got) && Closed(got) && RunTogether(left, right, got)
  {
    hide Parse, ProperSection, RunTogether;
    if left.body == "" {
      got := BareHeading(left, right);
    } else {
      got := OpenBody(left, right);
    }
    var text := left.heading + left.body + (right.heading + right.body);
    PrintParse(text);
    PrintFirst(left, [right]);
    PrintFirst(right, []);
    assert [left] + [right] == [left, right];
    assert "" + PrintAll(got) == PrintAll(got);
  }

  // --------------------------------------------------------- dates survive

  lemma RegularOfTwo(a: Section, b: Section, footer: string -> bool)
    ensures Regular([a], footer) == (if footer(a.heading) then [] else [a])
    ensures Regular([a, b], footer) == Regular([a], footer) + Regular([b], footer)
  {
    assert [a][..0] == [] && [b][..0] == [];
    assert [a, b] == [a] + [b];
    RegularConcat([a], [b], footer);
  }

  /** Each date left over was there before, and they are in order if they were. */
  ghost predicate DatesFrom(got: seq<Section>, was: seq<Section>, date: string -> nat) {
    && (forall i :: 0 <= i < |got| ==> HasDate(was, date, date(got[i].heading)))
    && (NewestFirst(was, date) ==> NewestFirst(got, date))
  }

  ghost predicate HasDate(sections: seq<Section>, date: string -> nat, d: nat) {
    exists j :: 0 <= j < |sections| && date(sections[j].heading) == d
  }

  lemma SameDates(got: seq<Section>, was: seq<Section>, date: string -> nat)
    requires |got| == |was| && forall i :: 0 <= i < |got| ==> date(got[i].heading) == date(was[i].heading)
    ensures DatesFrom(got, was, date)
  {
    forall i | 0 <= i < |got| ensures HasDate(was, date, date(got[i].heading)) {
      assert date(was[i].heading) == date(got[i].heading);
    }
  }

  lemma OneDate(got: Section, was: seq<Section>, j: nat, date: string -> nat)
    requires j < |was| && date(was[j].heading) == date(got.heading)
    ensures DatesFrom([got], was, date)
  {
  }

  lemma NoDates(was: seq<Section>, date: string -> nat)
    ensures DatesFrom([], was, date)
  {
  }

  lemma KeptHeading(left: Section, right: Section, got: Section, date: string -> nat, footer: string -> bool)
    requires got.heading == left.heading
    ensures DatesFrom(Regular([got], footer), Regular([left, right], footer), date)
  {
    RegularOfTwo(left, right, footer);
    RegularOfTwo(got, left, footer);
    hide Regular, DatesFrom;
    var was := Regular([left, right], footer);
    if footer(left.heading) {
      NoDates(was, date);
    } else {
      assert was[0] == left;
      OneDate(got, was, 0, date);
    }
  }

  lemma MergedHeading(left: Section, right: Section, got: Section, date: string -> nat, footer: string -> bool)
    requires ReadsThrough(date, footer, left.heading, right.heading) && got.heading == left.heading + right.heading
    ensures DatesFrom(Regular([got], footer), Regular([left, right], footer), date)
  {
    RegularOfTwo(left, right, footer);
    RegularOfTwo(right, left, footer);
    RegularOfTwo(got, left, footer);
    hide Regular, DatesFrom;
    var was := Regular([left, right], footer);
    if footer(got.heading) {
      NoDates(was, date);
    } else {
      assert was[0] == left && was[1] == right;
      OneDate(got, was, if date(got.heading) == date(left.heading) then 0 else 1, date);
    }
  }

  lemma SplitHeading(left: Section, right: Section, g: Section, h: Section, date: string -> nat, footer: string -> bool)
    requires g.heading == left.heading && date(h.heading) == date(right.heading)
    requires footer(h.heading) == footer(right.heading)
    ensures DatesFrom(Regular([g, h], footer), Regular([left, right], footer), date)
  {
    RegularOfTwo(left, right, footer);
    RegularOfTwo(right, left, footer);
    RegularOfTwo(g, h, footer);
    RegularOfTwo(h, g, footer);
    hide Regular, DatesFrom;
    var was, now := Regular([left, right], footer), Regular([g, h], footer);
    var one, two := if footer(g.heading) then [] else [left], if footer(h.heading) then [] else [right];
    assert was == one + two;
    assert now == (if footer(g.heading) then [] else [g]) + (if footer(h.heading) then [] else [h]);
    SameDates(now, was, date);
  }

  lemma TogetherKeepsDates(left: Section, right: Section, got: seq<Section>, date: string -> nat,
                           footer: string -> bool)
    requires SearchLaws(date, footer) && RunTogether(left, right, got) && IsHeading(right.heading)
    ensures DatesFrom(Regular(got, footer), Regular([left, right], footer), date)
  {
    assert ReadsThrough(date, footer, left.heading, right.heading);
    assert ReadsThrough(date, footer, "## ", right.heading);
    hide Regular, DatesFrom, IsHeading;
    if |got| == 2 {
      assert got == [got[0], got[1]];
      SplitHeading(left, right, got[0], got[1], date, footer);
    } else {
      assert got == [got[0]];
      if got[0].heading == left.heading {
        KeptHeading(left, right, got[0], date, footer);
      } else {
        MergedHeading(left, right, got[0], date, footer);
      }
    }
  }

  lemma PartOrdered(a: seq<Section>, was: seq<Section>, b: seq<Section>, date: string -> nat)
    requires NewestFirst(a + was + b, date)
    ensures NewestFirst(was, date)
  {
    var all := a + was + b;
    forall i, j | 0 <= i < j < |was| ensures date(was[i].heading) >= date(was[j].heading) {
      assert all[|a| + i] == was[i] && all[|a| + j] == was[j];
    }
  }

  /** Two positions not both in the replaced part keep their order. */
  lemma SqueezeAt(a: seq<Section>, was: seq<Section>, got: seq<Section>, b: seq<Section>, date: string -> nat, i: nat,
                  j: nat)
    requires NewestFirst(a + was + b, date) && DatesFrom(got, was, date)
    requires i < j < |a + got + b| && (i < |a| || |a| + |got| <= j)
    ensures date((a + got + b)[i].heading) >= date((a + got + b)[j].heading)
  {
    hide DatesFrom, NewestFirst;
    var i' := WasAt(a, was, got, b, date, i);
    var j' := WasAt(a, was, got, b, date, j);
    OrderedAt(a + was + b, date, i', j');
  }

  lemma OrderedAt(s: seq<Section>, date: string -> nat, i: nat, j: nat)
    requires NewestFirst(s, date) && i < j < |s|
    ensures date(s[i].heading) >= date(s[j].heading)
  {}

  lemma Squeeze(a: seq<Section>, was: seq<Section>, got: seq<Section>, b: seq<Section>, date: string -> nat)
    requires NewestFirst(a + was + b, date) && DatesFrom(got, was, date)
    ensures NewestFirst(a + got + b, date)
  {
    var after := a + got + b;
    PartOrdered(a, was, b, date);
    assert NewestFirst(got, date);
    forall i, j | 0 <= i < j < |after| ensures date(after[i].heading) >= date(after[j].heading) {
      hide DatesFrom, NewestFirst;
      if |a| <= i && j < |a| + |got| {
        OrderedAt(got, date, i - |a|, j - |a|);
      } else {
        SqueezeAt(a, was, got, b, date, i, j);
      }
    }
    hide DatesFrom;
  }

  /** A position of the old list with the same date, in the same part. */
  lemma WasAt(a: seq<Section>, was: seq<Section>, got: seq<Section>, b: seq<Section>, date: string -> nat, i: nat)
    returns (k: nat)
    requires DatesFrom(got, was, date) && i < |a + got + b|
    ensures k < |a + was + b| && date((a + was + b)[k].heading) == date((a + got + b)[i].heading)
    ensures i < |a| ==> k == i
    ensures |a| <= i < |a| + |got| ==> |a| <= k < |a| + |was|
    ensures |a| + |got| <= i ==> k == i - |got| + |was|
  {
    if i < |a| {
      k := i;
    } else if i < |a| + |got| {
      assert HasDate(was, date, date(got[i - |a|].heading));
      var j :| 0 <= j < |was| && date(was[j].heading) == date(got[i - |a|].heading);
      k := |a| + j;
    } else {
      k := i - |got| + |was|;
    }
  }

  // --------------------------------------------------------- the second run

  lemma {:induction false} PrintConcat(a: seq<Section>, b: seq<Section>)
    ensures PrintAll(a + b) == PrintAll(a) + PrintAll(b)
  {
    if a == [] {
      assert a + b == b;
    } else {
      assert (a + b)[1..] == a[1..] + b;
      PrintConcat(a[1..], b);
    }
  }

  lemma PrintReplaced(preamble: string, a: seq<Section>, was: seq<Section>, got: seq<Section>, b: seq<Section>)
    requires PrintAll(was) == PrintAll(got)
    ensures Print(Doc(preamble, a + was + b)) == Print(Doc(preamble, a + got + b))
  {
    hide PrintAll;
    PrintConcat(a + was, b);
    PrintConcat(a + got, b);
    PrintConcat(a, was);
    PrintConcat(a, got);
  }

  /** Only the section that came last can leave its line open. */
  lemma OthersClosed(sections: seq<Section>, out: seq<Section>, i: nat)
    requires multiset(out) == multiset(sections) && sections != [] && Separated(sections) && i < |out|
    requires out[i] == sections[|sections| - 1]
    ensures Closed(out[..i] + out[i + 1..])
  {
    hide EndsLine;
    var n, rest := |sections|, out[..i] + out[i + 1..];
    var others := sections[..n - 1];
    assert Closed(others);
    hide Closed, Separated;
    WithoutOne(out, i);
    WithoutOne(sections, n - 1);
    assert sections[..n - 1] + sections[n..] == others;
    ClosedPermuted(others, rest);
  }

  lemma ClosedPermuted(a: seq<Section>, b: seq<Section>)
    requires multiset(a) == multiset(b) && Closed(a)
    ensures Closed(b)
  {
    hide EndsLine;
    forall k | 0 <= k < |b| ensures EndsLine(b[k].body) {
      assert b[k] in multiset(b);
      assert b[k] in a;
    }
  }

  lemma ReplacedStaysOrdered(a: seq<Section>, left: Section, right: Section, got: seq<Section>, b: seq<Section>,
                             date: string -> nat, footer: string -> bool)
    requires SearchLaws(date, footer) && RunTogether(left, right, got) && IsHeading(right.heading)
    requires NewestFirst(Regular(a + [left, right] + b, footer), date)
    ensures NewestFirst(Regular(a + got + b, footer), date)
  {
    hide Regular, RunTogether, SearchLaws, IsHeading, NewestFirst, DatesFrom;
    TogetherKeepsDates(left, right, got, date, footer);
    RegularConcat(a + [left, right], b, footer);
    RegularConcat(a, [left, right], footer);
    RegularConcat(a + got, b, footer);
    RegularConcat(a, got, footer);
    Squeeze(Regular(a, footer), Regular([left, right], footer), Regular(got, footer), Regular(b, footer), date);
  }

  lemma ProperParts(preamble: string, out: seq<Section>, i: nat)
    requires Proper(out) && ProperTop(Doc(preamble, out)) && i + 1 < |out|
    ensures ProperSection(out[i]) && ProperSection(out[i + 1]) && IsHeading(out[i + 1].heading)
    ensures Plain(preamble) && (preamble != "" ==> EndsLine(preamble))
  {
    hide Plain, EndsLine;
  }

  lemma PartsClosed(out: seq<Section>, i: nat)
    requires i + 1 < |out| && Closed(out[..i] + out[i + 1..]) && Proper(out)
    ensures Closed(out[..i]) && EndsLine(out[i + 1].body) && Closed(out[i + 2..])
    ensures Proper(out[..i]) && Proper(out[i + 2..])
  {
    hide EndsLine, ProperSection;
    var others, a, b := out[..i] + out[i + 1..], out[..i], out[i + 2..];
    assert others[i] == out[i + 1];
    forall k | 0 <= k < |a| ensures EndsLine(a[k].body) { assert others[k] == a[k]; }
    forall k | 0 <= k < |b| ensures EndsLine(b[k].body) { assert others[i + 1 + k] == b[k]; }
  }

  lemma MergedReadsOrdered(preamble: string, a: seq<Section>, left: Section, right: Section, b: seq<Section>,
                           date: string -> nat, footer: string -> bool)
    requires SearchLaws(date, footer) && Proper(a) && Proper(b) && Closed(a) && Closed(b)
    requires ProperSection(left) && ProperSection(right) && !EndsLine(left.body) && EndsLine(right.body)
    requires IsHeading(right.heading)
    requires Plain(preamble) && (preamble != "" ==> EndsLine(preamble))
    requires NewestFirst(Regular(a + [left, right] + b, footer), date)
    ensures LooksOrdered(Regular(Parse(Print(Doc(preamble, a + [left, right] + b))).sections, footer), date)
  {
    hide *;
    var got := ReadTogether(left, right);
    PrintReplaced(preamble, a, [left, right], got, b);
    ReadsAs(preamble, a, got, b);
    ReplacedStaysOrdered(a, left, right, got, b, date, footer);
    SortedLooksOrdered(Regular(a + got + b, footer), date);
  }

  /** The arranged text of a file whose open section moved up: it reads as a list still in date order. */
  lemma OpenSectionStaysOrdered(preamble: string, out: seq<Section>, i: nat, date: string -> nat,
                                footer: string -> bool)
    requires SearchLaws(date, footer) && Proper(out) && ProperTop(Doc(preamble, out)) && i + 1 < |out|
    requires !EndsLine(out[i].body) && Closed(out[..i] + out[i + 1..])
    requires NewestFirst(Regular(out, footer), date)
    ensures LooksOrdered(Regular(Parse(Print(Doc(preamble, out))).sections, footer), date)
  {
    hide *;
    ProperParts(preamble, out, i);
    PartsClosed(out, i);
    assert out == out[..i] + [out[i], out[i + 1]] + out[i + 2..];
    MergedReadsOrdered(preamble, out[..i], out[i], out[i + 1], out[i + 2..], date, footer);
  }

  lemma ReadsAs(preamble: string, a: seq<Section>, got: seq<Section>, b: seq<Section>)
    requires Proper(a) && Proper(got) && Proper(b) && Closed(a) && Closed(got) && Closed(b)
    requires Plain(preamble) && (preamble != "" ==> EndsLine(preamble))
    ensures Parse(Print(Doc(preamble, a + got + b))) == Doc(preamble, a + got + b)
  {
    hide Parse, PrintAll, ProperSection, EndsLine, Plain;
    ParsePrintIff(preamble, a + got + b);
  }

  lemma RegularOfArranged(sections: seq<Section>, date: string -> nat, footer: string -> bool)
    ensures NewestFirst(Regular(Arranged(sections, date, footer), footer), date)
  {
    hide Arranged, Regular, Sort, Footers;
    ArrangedIsPermutation(sections, date, footer);
    SortIsStable(Regular(sections, footer), date);
  }

  lemma RewriteStaysOrdered(content: string, date: string -> nat, footer: string -> bool)
    requires SearchLaws(date, footer) && Parse(content).sections != []
    requires var doc := Parse(content);
             var out, last := Arranged(doc.sections, date, footer), doc.sections[|doc.sections| - 1];
             !EndsLine(last.body) && last in out && out[|out| - 1] != last
    ensures var doc := Parse(content);
            var again := Parse(Print(Doc(doc.preamble, Arranged(doc.sections, date, footer))));
            LooksOrdered(Regular(again.sections, footer), date)
  {
    var doc := Parse(content);
    ParseIsProper(content);
    hide Parse, Arranged, LooksOrdered, Regular, Proper, SearchLaws, Print, EndsLine, Plain;
    ArrangedIsProper(doc.sections, date, footer);
    RegularOfArranged(doc.sections, date, footer);
    ArrangedKeepsLength(doc.sections, date, footer);
    var out, last := Arranged(doc.sections, date, footer), doc.sections[|doc.sections| - 1];
    var i :| 0 <= i < |out| && out[i] == last;
    OthersClosed(doc.sections, out, i);
    OpenSectionStaysOrdered(doc.preamble, out, i, date, footer);
  }

  /** A second run changes nothing, whatever the file. */
  lemma SecondRunChangesNothing(content: string, date: string -> nat, footer: string -> bool)
    requires SearchLaws(date, footer)
    ensures Fixed(Fixed(content, date, footer), date, footer) == Fixed(content, date, footer)
  {
    hide Parse, Arranged, LooksOrdered, Regular, SearchLaws, Print, EndsLine;
    var doc := Parse(content);
    if doc.sections != [] && !LooksOrdered(Regular(doc.sections, footer), date) {
      var out, last := Arranged(doc.sections, date, footer), doc.sections[|doc.sections| - 1];
      ArrangedKeepsLength(doc.sections, date, footer);
      assert last in multiset(doc.sections);
      assert last in multiset(out);
      if EndsLine(last.body) || out[|out| - 1] == last {
        SecondRunAfterCleanSplit(content, date, footer);
      } else {
        RewriteStaysOrdered(content, date, footer);
      }
    }
  }
}
