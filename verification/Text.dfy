/** The parts of Python's text model the archive and the cookie parser lean on. */
module Text {
  /** str.isspace on one character. */
  predicate IsSpace(c: char) {
    || '\t' <= c <= '\r' || '\U{1c}' <= c <= ' ' || c == '\U{85}' || c == '\U{a0}' || c == '\U{1680}'
    || '\U{2000}' <= c <= '\U{200a}' || c == '\U{2028}' || c == '\U{2029}' || c == '\U{202f}' || c == '\U{205f}' || c == '\U{3000}'
  }

  /** The whitespace of Unicode with the four separator controls, by code point. */
  lemma SpacesAre(c: char)
    ensures IsSpace(c) <==>
      var n := c as int;
      || 9 <= n <= 13 || 28 <= n <= 32 || n == 133 || n == 160 || n == 5760 || 8192 <= n <= 8202
      || n == 8232 || n == 8233 || n == 8239 || n == 8287 || n == 12288
  {
  }

  /** Where str.splitlines breaks. */
  predicate IsBreak(c: char) {
    '\n' <= c <= '\r' || '\U{1c}' <= c <= '\U{1e}' || c == '\U{85}' || c == '\U{2028}' || c == '\U{2029}'
  }

  lemma BreaksAre(c: char)
    ensures IsBreak(c) <==>
      var n := c as int;
      10 <= n <= 13 || n == 28 || n == 29 || n == 30 || n == 133 || n == 8232 || n == 8233
  {
  }

  predicate NoBreaks(s: string) {
    forall i :: 0 <= i < |s| ==> !IsBreak(s[i])
  }

  predicate NoSpaces(s: string) {
    forall i :: 0 <= i < |s| ==> !IsSpace(s[i])
  }

  predicate AllSpaces(s: string) {
    forall i :: 0 <= i < |s| ==> IsSpace(s[i])
  }

  // ---------------------------------------------------------------- strip and split

  /** How many characters of leading whitespace. */
  function Lead(s: string): (n: nat)
    ensures n <= |s|
  {
    if s == "" || !IsSpace(s[0]) then 0 else 1 + Lead(s[1..])
  }

  lemma {:induction false} LeadMeans(s: string)
    ensures AllSpaces(s[..Lead(s)]) && (Lead(s) < |s| ==> !IsSpace(s[Lead(s)]))
  {
    if s != "" && IsSpace(s[0]) {
      LeadMeans(s[1..]);
      assert s[..Lead(s)] == [s[0]] + s[1..][..Lead(s[1..])];
    }
  }

  /** How many characters of trailing whitespace. */
  function Trail(s: string): (n: nat)
    ensures n <= |s|
  {
    if s == "" || !IsSpace(s[|s| - 1]) then 0 else 1 + Trail(s[..|s| - 1])
  }

  lemma {:induction false} TrailMeans(s: string)
    ensures AllSpaces(s[|s| - Trail(s)..]) && (Trail(s) < |s| ==> !IsSpace(s[|s| - Trail(s) - 1]))
  {
    if s != "" && IsSpace(s[|s| - 1]) {
      var t := s[..|s| - 1];
      TrailMeans(t);
      assert s[|s| - Trail(s)..] == t[|t| - Trail(t)..] + [s[|s| - 1]];
    }
  }

  function RStrip(s: string): string {
    s[..|s| - Trail(s)]
  }

  function Strip(s: string): string {
    RStrip(s[Lead(s)..])
  }

  /** split()[-1] on a non-empty stripped text: what follows the last whitespace. */
  function LastToken(s: string): string {
    if s == "" || IsSpace(s[|s| - 1]) then "" else LastToken(s[..|s| - 1]) + [s[|s| - 1]]
  }

  lemma {:induction false} LeadIs(a: string, rest: string)
    requires AllSpaces(a) && (rest != "" ==> !IsSpace(rest[0]))
    ensures Lead(a + rest) == |a|
  {
    if a == "" {
      assert a + rest == rest;
    } else {
      assert (a + rest)[1..] == a[1..] + rest;
      LeadIs(a[1..], rest);
    }
  }

  lemma {:induction false} TrailIs(rest: string, b: string)
    requires AllSpaces(b) && (rest != "" ==> !IsSpace(rest[|rest| - 1]))
    ensures Trail(rest + b) == |b|
  {
    var s := rest + b;
    if b == "" {
      assert s == rest;
    } else {
      assert s[..|s| - 1] == rest + b[..|b| - 1];
      TrailIs(rest, b[..|b| - 1]);
    }
  }

  /** Stripping recovers a core that neither starts nor ends with whitespace. */
  lemma StripIs(a: string, core: string, b: string)
    requires AllSpaces(a) && AllSpaces(b)
    requires core != "" ==> !IsSpace(core[0]) && !IsSpace(core[|core| - 1])
    ensures Strip(a + core + b) == core
  {
    var s := a + core + b;
    if core == "" {
      assert AllSpaces(s);
      LeadIs(s, "");
      assert s + "" == s;
    } else {
      assert s == a + (core + b) && (core + b)[0] == core[0];
      LeadIs(a, core + b);
      assert s[|a|..] == core + b;
      TrailIs(core, b);
    }
  }

  lemma RStripEnds(t: string)
    ensures RStrip(t) != "" ==> RStrip(t)[0] == t[0] && !IsSpace(RStrip(t)[|RStrip(t)| - 1])
    ensures t != "" && !IsSpace(t[0]) ==> RStrip(t) != ""
  {
    TrailMeans(t);
  }

  lemma ThreeParts(s: string, i: nat, k: nat)
    requires i + k <= |s|
    ensures s == s[..i] + s[i..][..k] + s[i..][k..]
  {
  }

  /** Every text is whitespace, its stripped core, whitespace. */
  lemma StripParts(s: string) returns (a: string, b: string)
    ensures s == a + Strip(s) + b && AllSpaces(a) && AllSpaces(b)
    ensures Strip(s) != "" ==> !IsSpace(Strip(s)[0]) && !IsSpace(Strip(s)[|Strip(s)| - 1])
  {
    var t := s[Lead(s)..];
    LeadMeans(s);
    TrailMeans(t);
    RStripEnds(t);
    a, b := s[..Lead(s)], t[|t| - Trail(t)..];
    ThreeParts(s, Lead(s), |t| - Trail(t));
  }

  lemma StripStart(s: string)
    requires s != "" && !IsSpace(s[0])
    ensures Strip(s) != "" && Strip(s)[0] == s[0]
  {
    RStripEnds(s);
    assert Lead(s) == 0 && s[0..] == s;
  }

  lemma StripIgnores(a: string, s: string, b: string)
    requires AllSpaces(a) && AllSpaces(b)
    ensures Strip(a + s + b) == Strip(s)
  {
    var x, y := StripParts(s);
    assert a + s + b == (a + x) + Strip(s) + (y + b);
    StripIs(a + x, Strip(s), y + b);
  }

  lemma {:induction false} TokenIs(a: string, t: string)
    requires NoSpaces(t) && (a != "" ==> IsSpace(a[|a| - 1]))
    ensures LastToken(a + t) == t
  {
    var s := a + t;
    if t == "" {
      assert s == a;
    } else {
      assert s[..|s| - 1] == a + t[..|t| - 1];
      TokenIs(a, t[..|t| - 1]);
    }
  }

  // ---------------------------------------------------------------- lines

  /** Length of the first line with its terminator; "\r\n" is one terminator. */
  function FirstLine(s: string): (n: nat)
    requires s != ""
    ensures 1 <= n <= |s|
  {
    if IsBreak(s[0]) then (if s[0] == '\r' && |s| > 1 && s[1] == '\n' then 2 else 1)
    else if |s| == 1 then 1
    else 1 + FirstLine(s[1..])
  }

  /** splitlines(keepends=True) */
  function SplitKeepEnds(s: string): seq<string> {
    if s == "" then [] else [s[..FirstLine(s)]] + SplitKeepEnds(s[FirstLine(s)..])
  }

  /** A line without its terminator. */
  function Bare(line: string): string {
    if line == "" || !IsBreak(line[|line| - 1]) then line
    else if |line| >= 2 && line[|line| - 2] == '\r' && line[|line| - 1] == '\n' then line[..|line| - 2]
    else line[..|line| - 1]
  }

  function BareAll(lines: seq<string>): seq<string> {
    if lines == [] then [] else [Bare(lines[0])] + BareAll(lines[1..])
  }

  /** splitlines() */
  function SplitLines(s: string): seq<string> {
    BareAll(SplitKeepEnds(s))
  }

  function Concat(lines: seq<string>): string {
    if lines == [] then "" else lines[0] + Concat(lines[1..])
  }

  lemma ConcatOne(line: string)
    ensures Concat([line]) == line
  {
    assert [line][1..] == [] && line + "" == line;
  }

  lemma {:induction false} ConcatAppend(a: seq<string>, b: seq<string>)
    ensures Concat(a + b) == Concat(a) + Concat(b)
  {
    if a == [] {
      assert a + b == b;
    } else {
      assert (a + b)[1..] == a[1..] + b;
      ConcatAppend(a[1..], b);
    }
  }

  lemma ConcatCons(line: string, rest: seq<string>)
    ensures Concat([line] + rest) == line + Concat(rest)
  {
    assert ([line] + rest)[1..] == rest;
  }

  lemma {:induction false} SplitConcat(s: string)
    ensures Concat(SplitKeepEnds(s)) == s
  {
    if s != "" {
      var n := FirstLine(s);
      SplitConcat(s[n..]);
      ConcatCons(s[..n], SplitKeepEnds(s[n..]));
      assert s[..n] + s[n..] == s;
    }
  }

  // ---------------------------------------------------------------- lines of text without '\r'

  /** Text as `read_text` delivers it: "\r\n" and "\r" have become "\n". */
  predicate Translated(s: string) {
    '\r' !in s
  }

  /** Universal newlines. */
  function Universal(s: string): (r: string)
    ensures Translated(r)
  {
    if s == "" then ""
    else if s[0] == '\r' then "\n" + Universal(if |s| > 1 && s[1] == '\n' then s[2..] else s[1..])
    else [s[0]] + Universal(s[1..])
  }

  lemma {:induction false} UniversalId(s: string)
    requires Translated(s)
    ensures Universal(s) == s
  {
    if s != "" {
      UniversalId(s[1..]);
    }
  }

  /** A line: breaks only at its end. */
  ghost predicate IsLine(l: string) {
    l != "" && NoBreaks(l[..|l| - 1])
  }

  ghost predicate Ended(l: string) {
    l != "" && IsBreak(l[|l| - 1])
  }

  lemma {:induction false} FirstLineOf(l: string, rest: string)
    requires IsLine(l) && Translated(l) && (Ended(l) || rest == "")
    ensures FirstLine(l + rest) == |l|
  {
    var s := l + rest;
    if |l| > 1 {
      assert l[..|l| - 1][0] == l[0];
      assert s[1..] == l[1..] + rest;
      assert l[1..][..|l| - 2] == l[..|l| - 1][1..];
      FirstLineOf(l[1..], rest);
    }
  }

  lemma {:induction false} FirstLineIsLine(s: string)
    requires s != "" && Translated(s)
    ensures var n := FirstLine(s); IsLine(s[..n]) && (n < |s| ==> Ended(s[..n]))
  {
    var n := FirstLine(s);
    if !IsBreak(s[0]) && |s| > 1 {
      FirstLineIsLine(s[1..]);
      var l := s[1..][..n - 1];
      assert s[..n] == [s[0]] + l;
      assert s[..n][..n - 1] == [s[0]] + l[..n - 2];
    }
  }

  /** Lines as splitting yields them: only the last may lack a terminator. */
  ghost predicate ProperLines(lines: seq<string>) {
    forall i :: 0 <= i < |lines| ==> IsLine(lines[i]) && Translated(lines[i]) && (i < |lines| - 1 ==> Ended(lines[i]))
  }

  lemma ProperCons(line: string, rest: seq<string>)
    requires IsLine(line) && Translated(line) && ProperLines(rest) && (rest != [] ==> Ended(line))
    ensures ProperLines([line] + rest)
  {
  }

  ghost predicate LastEnded(lines: seq<string>) {
    lines != [] && Ended(lines[|lines| - 1])
  }

  lemma {:induction false} SplitIsProper(s: string)
    requires Translated(s)
    ensures ProperLines(SplitKeepEnds(s)) && (s != "" ==> SplitKeepEnds(s) != []) && (Ended(s) <==> LastEnded(SplitKeepEnds(s)))
  {
    if s != "" {
      var n := FirstLine(s);
      var line, rest := s[..n], s[n..];
      FirstLineIsLine(s);
      SplitIsProper(rest);
      ProperCons(line, SplitKeepEnds(rest));
      if rest == "" {
        assert line == s;
      } else {
        assert rest[|rest| - 1] == s[|s| - 1];
      }
    }
  }

  /** Splitting the concatenation of proper lines gives the lines back. */
  lemma {:induction false} SplitOfLines(lines: seq<string>)
    requires ProperLines(lines)
    ensures SplitKeepEnds(Concat(lines)) == lines && Translated(Concat(lines))
  {
    if lines != [] {
      var l, rest := lines[0], lines[1..];
      SplitOfLines(rest);
      FirstLineOf(l, Concat(rest));
      assert (l + Concat(rest))[..|l|] == l && (l + Concat(rest))[|l|..] == Concat(rest);
      assert [l] + rest == lines;
    }
  }

  lemma JoinLines(a: seq<string>, b: seq<string>)
    requires ProperLines(a) && ProperLines(b) && (a == [] || LastEnded(a))
    ensures SplitKeepEnds(Concat(a) + Concat(b)) == a + b
  {
    ConcatAppend(a, b);
    SplitOfLines(a + b);
  }

  /** After a terminated text, further text starts a line of its own. */
  lemma SplitAppend(a: string, b: string)
    requires Translated(a) && Translated(b) && (a == "" || Ended(a))
    ensures SplitKeepEnds(a + b) == SplitKeepEnds(a) + SplitKeepEnds(b)
  {
    SplitIsProper(a);
    SplitIsProper(b);
    SplitConcat(a);
    SplitConcat(b);
    JoinLines(SplitKeepEnds(a), SplitKeepEnds(b));
  }
}
