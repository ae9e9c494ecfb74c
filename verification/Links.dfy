/** The profile form's links box: one "Label https://url" per line. */
module Links {
  import opened Text

  datatype Link = Link(caption: string, url: string)

  const BREAK := '\n'

  predicate Blank(c: char) {
    c == ' ' || c == '\t'
  }

  /** `strings.LastIndexAny(s, " \t")` */
  function LastBlank(s: string): (i: int)
    ensures -1 <= i < |s|
    ensures i >= 0 ==> Blank(s[i])
    ensures forall k :: i < k < |s| ==> !Blank(s[k])
  {
    if s == [] then -1
    else if Blank(s[|s| - 1]) then |s| - 1
    else LastBlank(s[..|s| - 1])
  }

  function ParseLine(line: string): seq<Link> {
    var trimmed := TrimSpace(line);
    if trimmed == "" then []
    else
      var i := LastBlank(trimmed);
      if i < 0 then [Link(trimmed, trimmed)]
      else [Link(TrimSpace(trimmed[..i]), TrimSpace(trimmed[i + 1..]))]
  }

  function ParseLines(lines: seq<string>): seq<Link> {
    if lines == [] then [] else ParseLines(lines[..|lines| - 1]) + ParseLine(lines[|lines| - 1])
  }

  function Parsed(raw: string): seq<Link> {
    ParseLines(Split(raw, BREAK))
  }

  method ParseLinks(raw: string) returns (links: seq<Link>)
    ensures links == Parsed(raw)
  {
    links := [];
    var lines := Split(raw, BREAK);
    for n := 0 to |lines|
      invariant links == ParseLines(lines[..n])
    {
      assert lines[..n + 1][..n] == lines[..n];
      var line := TrimSpace(lines[n]);
      if line == "" { continue; }
      var idx := LastBlank(line);
      if idx < 0 {
        links := links + [Link(line, line)];
        continue;
      }
      var caption := TrimSpace(line[..idx]);
      var u := TrimSpace(line[idx + 1..]);
      links := links + [Link(caption, u)];
    }
    assert lines[..|lines|] == lines;
  }

  function PrintedLine(l: Link): string {
    l.caption + " " + l.url
  }

  /** One printed line a link, each with `tail` at its end. */
  function Lines(links: seq<Link>, tail: string): (lines: seq<string>)
    ensures |lines| == |links|
  {
    if links == [] then []
    else Lines(links[..|links| - 1], tail) + [PrintedLine(links[|links| - 1]) + tail]
  }

  function Printed(links: seq<Link>): string {
    Join(Lines(links, ""), BREAK)
  }

  /** The links part of `profileToForm`. */
  method ProfileLinks(links: seq<Link>) returns (form: string)
    ensures form == Printed(links)
  {
    var lines := [];
    for n := 0 to |links|
      invariant lines == Lines(links[..n], "")
    {
      lines := lines + [links[n].caption + " " + links[n].url];
      assert links[..n + 1][..n] == links[..n];
      assert PrintedLine(links[n]) + "" == PrintedLine(links[n]);
    }
    assert links[..|links|] == links;
    form := Join(lines, BREAK);
  }

  // ---- what parsing yields ----

  /** A link the box can hold: both halves non-empty and trimmed, on one line,
      with no blank inside the URL. */
  predicate Canonical(l: Link) {
    && l.caption != "" && Trimmed(l.caption) && BREAK !in l.caption
    && l.url != "" && Trimmed(l.url) && BREAK !in l.url
    && (forall c :: c in l.url ==> !Blank(c))
  }

  lemma LineIsCanonical(line: string)
    requires BREAK !in line
    ensures forall l :: l in ParseLine(line) ==> Canonical(l)
  {
    var trimmed := TrimSpace(line);
    TrimCuts(line);
    var i := LastBlank(trimmed);
    if trimmed != "" && i >= 0 {
      assert i != 0 && i != |trimmed| - 1;
      TrimCuts(trimmed[..i]);
      TrimCuts(trimmed[i + 1..]);
      assert trimmed[0] in trimmed[..i] && trimmed[|trimmed| - 1] in trimmed[i + 1..];
    }
  }

  // ---- what a line means ----

  lemma {:induction false} ParseLinesConcat(xs: seq<string>, ys: seq<string>)
    ensures ParseLines(xs + ys) == ParseLines(xs) + ParseLines(ys)
  {
    if ys == [] {
      assert xs + ys == xs;
    } else {
      var n := |ys| - 1;
      assert (xs + ys)[..|xs + ys| - 1] == xs + ys[..n];
      ParseLinesConcat(xs, ys[..n]);
    }
  }

  /** The box is read line by line, in order. */
  lemma LineByLine(line: string, rest: string)
    requires '\n' !in line
    ensures Parsed(line + "\n" + rest) == ParseLine(line) + Parsed(rest)
    ensures Parsed(line) == ParseLine(line)
  {
    SplitHead(line, rest, '\n');
    SplitWhole(line, '\n');
    assert line + ['\n'] + rest == line + "\n" + rest;
    ParseLinesConcat([line], Split(rest, '\n'));
    ParseLast([], line);
    assert [] + [line] == [line];
  }

  /** And written line by line. */
  lemma PrintedLineByLine(l: Link, links: seq<Link>)
    ensures Printed([l]) == l.caption + " " + l.url
    ensures links != [] ==> Printed([l] + links) == l.caption + " " + l.url + "\n" + Printed(links)
  {
    LinesConcat([l], links);
    assert [l][..0] == [] && PrintedLine(l) + "" == PrintedLine(l);
    if links != [] {
      assert (Lines([l], "") + Lines(links, ""))[1..] == Lines(links, "");
    }
  }

  lemma {:induction false} LinesConcat(xs: seq<Link>, ys: seq<Link>)
    ensures Lines(xs + ys, "") == Lines(xs, "") + Lines(ys, "")
  {
    if ys == [] {
      assert xs + ys == xs;
    } else {
      var n := |ys| - 1;
      assert (xs + ys)[..|xs + ys| - 1] == xs + ys[..n];
      LinesConcat(xs, ys[..n]);
    }
  }

  lemma LastBlankIs(s: string, i: int)
    requires -1 <= i < |s| && (i >= 0 ==> Blank(s[i])) && forall k :: i < k < |s| ==> !Blank(s[k])
    ensures LastBlank(s) == i
  {
  }

  /** A line that is all space is skipped. One without a space or tab inside it, a bare
      URL say, is one link with both halves equal to it. */
  lemma BareLine(line: string)
    ensures TrimSpace(line) == "" ==> ParseLine(line) == []
    ensures TrimSpace(line) != "" && ' ' !in TrimSpace(line) && '\t' !in TrimSpace(line) ==>
              ParseLine(line) == [Link(TrimSpace(line), TrimSpace(line))]
  {
    var t := TrimSpace(line);
    if ' ' !in t && '\t' !in t {
      assert forall k :: 0 <= k < |t| ==> t[k] in t;
      LastBlankIs(t, -1);
    }
  }

  /** Otherwise the URL is what follows the last space or tab, and the label all before it. */
  lemma LabelledLine(line: string, before: string, blank: char, after: string)
    requires TrimSpace(line) == before + [blank] + after && blank in {' ', '\t'}
    requires ' ' !in after && '\t' !in after
    ensures ParseLine(line) == [Link(TrimSpace(before), TrimSpace(after))]
  {
    var t := before + [blank] + after;
    assert forall k :: |before| < k < |t| ==> t[k] == after[k - |before| - 1] && t[k] in after;
    LastBlankIs(t, |before|);
    assert t[..|before|] == before && t[|before| + 1..] == after;
  }

  predicate AllCanonical(links: seq<Link>) {
    links == [] || (AllCanonical(links[..|links| - 1]) && Canonical(links[|links| - 1]))
  }

  lemma {:induction false} AllMeansEach(links: seq<Link>)
    ensures AllCanonical(links) <==> forall l :: l in links ==> Canonical(l)
  {
    if links != [] {
      AllMeansEach(links[..|links| - 1]);
      assert links == links[..|links| - 1] + [links[|links| - 1]];
    }
  }

  lemma {:induction false} LinesAreCanonical(lines: seq<string>)
    requires forall line :: line in lines ==> BREAK !in line
    ensures AllCanonical(ParseLines(lines))
  {
    if lines != [] {
      var n := |lines| - 1;
      LinesAreCanonical(lines[..n]);
      LineIsCanonical(lines[n]);
      var last := ParseLine(lines[n]);
      var links := ParseLines(lines);
      if last == [] {
        assert links == ParseLines(lines[..n]);
      } else {
        assert last[0] in last;
        assert links[..|links| - 1] == ParseLines(lines[..n]);
      }
    }
  }

  /** Every label and URL that parsing yields is non-empty and trimmed. */
  lemma ParsedIsCanonical(raw: string)
    ensures AllCanonical(Parsed(raw))
    ensures forall l :: l in Parsed(raw) ==> Canonical(l)
  {
    LinesAreCanonical(Split(raw, BREAK));
    AllMeansEach(Parsed(raw));
  }

  // ---- round trip ----

  lemma LastBlankOfPrinted(l: Link)
    requires forall c :: c in l.url ==> !Blank(c)
    ensures LastBlank(PrintedLine(l)) == |l.caption|
  {
    var s := PrintedLine(l);
    assert Blank(s[|l.caption|]);
    assert forall k :: |l.caption| < k < |s| ==> s[k] == l.url[k - |l.caption| - 1];
  }

  lemma TrimOfTrimmed(s: string)
    requires s != "" && Trimmed(s)
    ensures TrimSpace(s) == s
  {
    TrimPadded("", s, "");
    assert "" + s + "" == s;
  }

  /** A printed line, with whatever space the line end added, parses back to its link. */
  lemma LineRoundTrip(l: Link, tail: string)
    requires Canonical(l)
    requires forall c :: c in tail ==> IsSpace(c)
    ensures ParseLine(PrintedLine(l) + tail) == [l]
  {
    var line := PrintedLine(l);
    assert Trimmed(line) by {
      assert line[0] == l.caption[0] && line[|line| - 1] == l.url[|l.url| - 1];
    }
    assert TrimSpace(line + tail) == line by {
      TrimPadded("", line, tail);
      assert "" + line + tail == line + tail;
    }
    LastBlankOfPrinted(l);
    assert line[..|l.caption|] == l.caption && line[|l.caption| + 1..] == l.url;
    TrimOfTrimmed(l.caption);
    TrimOfTrimmed(l.url);
  }

  lemma ParseLast(lines: seq<string>, line: string)
    ensures ParseLines(lines + [line]) == ParseLines(lines) + ParseLine(line)
  {
    assert (lines + [line])[..|lines|] == lines;
  }

  lemma {:induction false} LinesRoundTrip(links: seq<Link>, tail: string)
    requires AllCanonical(links)
    requires forall c :: c in tail ==> IsSpace(c)
    ensures ParseLines(Lines(links, tail)) == links
  {
    if links != [] {
      LinesRoundTrip(links[..|links| - 1], tail);
      LastRoundTrips(links, tail);
    }
  }

  lemma LastRoundTrips(links: seq<Link>, tail: string)
    requires links != [] && Canonical(links[|links| - 1])
    requires forall c :: c in tail ==> IsSpace(c)
    requires ParseLines(Lines(links[..|links| - 1], tail)) == links[..|links| - 1]
    ensures ParseLines(Lines(links, tail)) == links
  {
    LineRoundTrip(links[|links| - 1], tail);
    LinesSnoc(links, tail);
    Snoc(links);
  }

  lemma LinesSnoc(links: seq<Link>, tail: string)
    requires links != []
    ensures var n := |links| - 1;
            ParseLines(Lines(links, tail))
            == ParseLines(Lines(links[..n], tail)) + ParseLine(PrintedLine(links[n]) + tail)
  {
    var n := |links| - 1;
    ParseLast(Lines(links[..n], tail), PrintedLine(links[n]) + tail);
  }

  lemma {:induction false} LinesUnbroken(links: seq<Link>, tail: string)
    requires AllCanonical(links)
    requires BREAK !in tail
    ensures forall line :: line in Lines(links, tail) ==> BREAK !in line
  {
    if links != [] {
      var n := |links| - 1;
      LinesUnbroken(links[..n], tail);
    }
  }

  lemma JoinRoundTrip(lines: seq<string>)
    requires forall line :: line in lines ==> BREAK !in line
    ensures Parsed(Join(lines, BREAK)) == ParseLines(lines)
  {
    if lines == [] {
      assert Split("", BREAK) == [""];
      assert [""][..0] == [];
      assert TrimSpace("") == "";
    } else {
      SplitOfJoin(lines, BREAK);
    }
  }

  /** The printed form with every line break turned into CRLF. */
  function PrintedCrLf(links: seq<Link>): string {
    if links == [] then ""
    else
      var n := |links| - 1;
      Join(Lines(links[..n], "\r") + [PrintedLine(links[n])], BREAK)
  }

  lemma PrintParseAll(links: seq<Link>)
    requires AllCanonical(links)
    ensures Parsed(Printed(links)) == links
  {
    LinesRoundTrip(links, "");
    LinesUnbroken(links, "");
    JoinRoundTrip(Lines(links, ""));
  }

  lemma PrintCrLfParseAll(links: seq<Link>)
    requires AllCanonical(links)
    ensures Parsed(PrintedCrLf(links)) == links
  {
    if links == [] {
      JoinRoundTrip([]);
    } else {
      var n := |links| - 1;
      var last := links[n];
      LinesRoundTrip(links[..n], "\r");
      LinesUnbroken(links[..n], "\r");
      LineRoundTrip(last, "");
      assert PrintedLine(last) + "" == PrintedLine(last);
      ParseLast(Lines(links[..n], "\r"), PrintedLine(last));
      JoinRoundTrip(Lines(links[..n], "\r") + [PrintedLine(last)]);
      Snoc(links);
    }
  }

  /** Parse, print as the profile form does, parse again: the same list, also
      when the browser sends the box back with CRLF line ends. */
  lemma ParsePrintParse(raw: string)
    ensures Parsed(Printed(Parsed(raw))) == Parsed(raw)
    ensures Parsed(PrintedCrLf(Parsed(raw))) == Parsed(raw)
  {
    ParsedIsCanonical(raw);
    PrintParseAll(Parsed(raw));
    PrintCrLfParseAll(Parsed(raw));
  }

  /** Printing loses nothing on exactly the canonical links. */
  lemma PrintParse(l: Link)
    ensures Parsed(Printed([l])) == [l] <==> Canonical(l)
  {
    assert [l][..0] == [];
    if Canonical(l) {
      PrintParseAll([l]);
    }
    ParsedIsCanonical(Printed([l]));
    assert l in [l];
  }
}
