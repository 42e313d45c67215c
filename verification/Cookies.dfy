/** Cookie text in three formats, and the canonical Netscape text they all become. */
module Cookies {
  import opened Prelude
  import opened Text

  const HEADER := "# Netscape HTTP Cookie File"
  const DEFAULT_DOMAIN := ".tiktok.com"
  const MAX_EXPIRY_TS := 4133894400

  // ---------------------------------------------------------------- split and join on one character

  function Split(s: string, c: char): (parts: seq<string>)
    ensures parts != []
  {
    if s == "" then [""]
    else if s[0] == c then [""] + Split(s[1..], c)
    else [[s[0]] + Split(s[1..], c)[0]] + Split(s[1..], c)[1..]
  }

  function Join(parts: seq<string>, c: char): string
    requires parts != []
  {
    if |parts| == 1 then parts[0] else parts[0] + [c] + Join(parts[1..], c)
  }

  lemma OntoFirst(x: char, a: seq<string>, b: seq<string>)
    requires a != []
    ensures [[x] + (a + b)[0]] + (a + b)[1..] == [[x] + a[0]] + a[1..] + b
  {
  }

  lemma {:induction false} SplitWithin(a: string, b: string, c: char)
    ensures Split(a + [c] + b, c) == Split(a, c) + Split(b, c)
  {
    var s := a + [c] + b;
    if a == "" {
      assert s[1..] == b;
    } else {
      assert s[1..] == a[1..] + [c] + b;
      SplitWithin(a[1..], b, c);
      OntoFirst(a[0], Split(a[1..], c), Split(b, c));
    }
  }

  /** A text is split in one piece exactly when the separator is not in it. */
  lemma {:induction false} SplitWhole(s: string, c: char)
    ensures |Split(s, c)| == 1 <==> c !in s
    ensures c !in s ==> Split(s, c) == [s]
  {
    if s != "" {
      SplitWhole(s[1..], c);
      assert s == [s[0]] + s[1..];
    }
  }

  predicate NoneHolds(parts: seq<string>, c: char) {
    forall i :: 0 <= i < |parts| ==> c !in parts[i]
  }

  /** Splitting a join gives the parts back exactly when none of them holds the separator; otherwise there are more. */
  lemma {:induction false} SplitOfJoin(parts: seq<string>, c: char)
    requires parts != []
    ensures |Split(Join(parts, c), c)| >= |parts|
    ensures |Split(Join(parts, c), c)| == |parts| <==> NoneHolds(parts, c)
    ensures NoneHolds(parts, c) ==> Split(Join(parts, c), c) == parts
  {
    SplitWhole(parts[0], c);
    if |parts| > 1 {
      SplitOfJoin(parts[1..], c);
      SplitWithin(parts[0], Join(parts[1..], c), c);
      assert parts == [parts[0]] + parts[1..];
      assert NoneHolds(parts, c) <==> c !in parts[0] && NoneHolds(parts[1..], c);
    }
  }

  lemma JoinCons(first: string, rest: seq<string>, c: char)
    requires rest != []
    ensures Join([first] + rest, c) == first + [c] + Join(rest, c)
  {
    assert ([first] + rest)[1..] == rest;
  }

  lemma JoinHead(x: char, parts: seq<string>, c: char)
    requires parts != []
    ensures Join([[x] + parts[0]] + parts[1..], c) == [x] + Join(parts, c)
  {
    assert ([[x] + parts[0]] + parts[1..])[1..] == parts[1..];
  }

  lemma {:induction false} JoinOfSplit(s: string, c: char)
    ensures Join(Split(s, c), c) == s
  {
    if s != "" {
      var rest := Split(s[1..], c);
      JoinOfSplit(s[1..], c);
      JoinCons("", rest, c);
      JoinHead(s[0], rest, c);
      assert s == [s[0]] + s[1..];
    }
  }

  // ---------------------------------------------------------------- detection

  datatype Format = Netscape | Json | CookieString

  function Count(s: string, c: char): nat {
    if s == "" then 0 else (if s[0] == c then 1 else 0) + Count(s[1..], c)
  }

  /** A data line: seven tab-separated fields, not a comment. */
  predicate IsData(line: string) {
    var left := line[Lead(line)..];
    line != "" && !(left != "" && left[0] == '#') && Count(line, '\t') == 6
  }

  function Detect(text: string): Format {
    var stripped, lines := Strip(text), SplitLines(text);
    if stripped != "" && stripped[0] == '[' then Json
    else if lines != [] && Strip(lines[0]) == HEADER then Netscape
    else if exists i :: 0 <= i < |lines| && IsData(lines[i]) then Netscape
    else CookieString
  }

  lemma {:induction false} FieldsCounted(s: string, c: char)
    ensures |Split(s, c)| == Count(s, c) + 1
  {
    if s != "" {
      FieldsCounted(s[1..], c);
    }
  }

  lemma LeadingStays(s: string)
    ensures s[Lead(s)..] == "" <==> Strip(s) == ""
    ensures s[Lead(s)..] != "" ==> s[Lead(s)..][0] == Strip(s)[0]
  {
    LeadMeans(s);
    RStripEnds(s[Lead(s)..]);
  }

  /** A data line: it does not start with '#', leading whitespace apart, and has seven tab-separated fields. */
  lemma DataLineIs(line: string)
    ensures IsData(line) <==> line != "" && (Strip(line) == "" || Strip(line)[0] != '#') && |Split(line, '\t')| == 7
  {
    FieldsCounted(line, '\t');
    LeadingStays(line);
  }

  /** JSON by its opening bracket; Netscape by its magic first line, or by any data line; otherwise a cookie string. */
  lemma DetectIs(text: string)
    ensures var lines := SplitLines(text);
      Detect(text) ==
        if Strip(text) != "" && Strip(text)[0] == '[' then Json
        else if lines != [] && Strip(lines[0]) == "# Netscape HTTP Cookie File" then Netscape
        else if exists l :: l in lines && IsData(l) then Netscape
        else CookieString
  {
    var lines := SplitLines(text);
    if l :| l in lines && IsData(l) {
      var i :| 0 <= i < |lines| && lines[i] == l;
      assert IsData(lines[i]);
    }
  }

  // ---------------------------------------------------------------- the three bodies

  /** One object of the JSON list; absent strings are "", a missing name is None. */
  datatype Cookie = Cookie(domain: string, path: string, secure: bool, expires: int, name: Option<string>, value: string)

  function Digits(n: nat): (s: string)
    ensures s != "" && forall i :: 0 <= i < |s| ==> '0' <= s[i] <= '9'
  {
    (if n < 10 then "" else Digits(n / 10)) + [('0' as int + n % 10) as char]
  }

  function Decimal(n: int): string {
    if n < 0 then "-" + Digits(-n) else Digits(n)
  }

  function ClampExpiry(ts: int): int {
    if ts < MAX_EXPIRY_TS then ts else MAX_EXPIRY_TS
  }

  function Flag(b: bool): string {
    if b then "TRUE" else "FALSE"
  }

  function NetscapeLine(domain: string, subdomains: string, path: string, secure: bool, expires: int, name: string, value: string): string {
    Join([domain, subdomains, if path == "" then "/" else path, Flag(secure), Decimal(expires), name, value], '\t')
  }

  function JsonLine(c: Cookie): string
    requires c.name.Some?
  {
    var domain := if c.domain == "" then DEFAULT_DOMAIN else c.domain;
    NetscapeLine(domain, Flag(domain[0] == '.'), c.path, c.secure, ClampExpiry(c.expires), c.name.value, c.value)
  }

  /** A cookie without a name raises. */
  function JsonLines(cookies: seq<Cookie>): Option<seq<string>> {
    if cookies == [] then Some([])
    else if cookies[0].name.None? || JsonLines(cookies[1..]).None? then None
    else Some([JsonLine(cookies[0])] + JsonLines(cookies[1..]).value)
  }

  /** Where the first '=' is, or the length. */
  function Equals(s: string): (n: nat)
    ensures n <= |s| && (n < |s| ==> s[n] == '=') && forall i :: 0 <= i < n ==> s[i] != '='
  {
    if s == "" || s[0] == '=' then 0 else 1 + Equals(s[1..])
  }

  datatype Pair = Pair(name: string, value: string)

  /** One segment between semicolons; without '=' it is no pair. */
  function ParsePair(segment: string): Option<Pair> {
    var pair := Strip(segment);
    var n := Equals(pair);
    if pair == "" || n == |pair| then None else Some(Pair(Strip(pair[..n]), Strip(pair[n + 1..])))
  }

  function Pairs(segments: seq<string>): seq<Pair> {
    if segments == [] then []
    else (match ParsePair(segments[0]) case Some(p) => [p] case None => []) + Pairs(segments[1..])
  }

  /** The name/value pairs a cookie string stands for. */
  function PairsOf(text: string): seq<Pair> {
    Pairs(Split(text, ';'))
  }

  function PairLine(p: Pair): string {
    NetscapeLine(DEFAULT_DOMAIN, "TRUE", "/", true, 0, p.name, p.value)
  }

  function PairLines(pairs: seq<Pair>): seq<string> {
    if pairs == [] then [] else [PairLine(pairs[0])] + PairLines(pairs[1..])
  }

  /** Neither blank nor the header: what a Netscape text keeps. */
  predicate Keepable(line: string) {
    Strip(line) != "" && Strip(line) != HEADER
  }

  function Keep(lines: seq<string>): seq<string> {
    if lines == [] then [] else (if Keepable(lines[0]) then [lines[0]] else []) + Keep(lines[1..])
  }

  /** A Netscape text keeps its lines, in order, but for the blank ones and the headers. */
  lemma {:induction false} KeptAre(lines: seq<string>)
    ensures forall l :: l in Keep(lines) <==> l in lines && Strip(l) != "" && Strip(l) != "# Netscape HTTP Cookie File"
  {
    if lines != [] {
      KeptAre(lines[1..]);
    }
  }

  lemma {:induction false} KeptInOrder(a: seq<string>, b: seq<string>)
    ensures Keep(a + b) == Keep(a) + Keep(b)
  {
    if a == [] {
      assert a + b == b;
    } else {
      assert (a + b)[1..] == a[1..] + b;
      KeptInOrder(a[1..], b);
    }
  }

  /** `parsed` is what json.loads makes of the text; None when it raises or is no list of objects. */
  function Body(text: string, parsed: Option<seq<Cookie>>): Option<seq<string>> {
    match Detect(text)
    case Json => if parsed.None? then None else JsonLines(parsed.value)
    case CookieString => Some(PairLines(PairsOf(text)))
    case Netscape => Some(Keep(SplitLines(text)))
  }

  function Canon(body: seq<string>): string {
    Join([HEADER] + body, '\n') + "\n"
  }

  function ToCanonicalNetscape(text: string, parsed: Option<seq<Cookie>>): Option<string> {
    var body := Body(text, parsed);
    if body.None? then None else Some(Canon(body.value))
  }

  // ---------------------------------------------------------------- reading a canonical text back

  function Unlines(lines: seq<string>): string {
    if lines == [] then "" else lines[0] + "\n" + Unlines(lines[1..])
  }

  lemma {:induction false} JoinUnlines(first: string, rest: seq<string>)
    ensures Join([first] + rest, '\n') + "\n" == first + "\n" + Unlines(rest)
    decreases |rest|
  {
    if rest != [] {
      JoinUnlines(rest[0], rest[1..]);
      assert ([first] + rest)[1..] == [rest[0]] + rest[1..];
      assert Join([first] + rest, '\n') == first + "\n" + Join([rest[0]] + rest[1..], '\n');
    }
  }

  lemma LineSplits(l: string, rest: string)
    requires NoBreaks(l)
    ensures SplitLines(l + "\n" + rest) == [l] + SplitLines(rest)
  {
    var line := l + "\n";
    assert line[..|line| - 1] == l;
    FirstLineOf(line, rest);
    var s := line + rest;
    assert s[..|line|] == line && s[|line|..] == rest;
    assert SplitKeepEnds(s) == [line] + SplitKeepEnds(rest);
    assert BareAll([line] + SplitKeepEnds(rest)) == [Bare(line)] + BareAll(SplitKeepEnds(rest)) by {
      assert ([line] + SplitKeepEnds(rest))[1..] == SplitKeepEnds(rest);
    }
    assert Bare(line) == l;
  }

  lemma {:induction false} UnlinesSplit(lines: seq<string>)
    requires forall i :: 0 <= i < |lines| ==> NoBreaks(lines[i])
    ensures SplitLines(Unlines(lines)) == lines
  {
    if lines != [] {
      UnlinesSplit(lines[1..]);
      LineSplits(lines[0], Unlines(lines[1..]));
    }
  }

  lemma HeaderIsPlain()
    ensures NoBreaks(HEADER) && Strip(HEADER) == HEADER
  {
    StripIs("", HEADER, "");
    assert "" + HEADER + "" == HEADER;
  }

  /** A canonical text is recognised as Netscape whatever its body, and its body read again line by line. */
  lemma CanonRereads(body: seq<string>, parsed: Option<seq<Cookie>>)
    ensures Detect(Canon(body)) == Netscape
    ensures SplitLines(Canon(body)) == [HEADER] + SplitLines(Unlines(body))
    ensures ToCanonicalNetscape(Canon(body), parsed) == Some(Canon(Reread(body)))
  {
    var text := Canon(body);
    HeaderIsPlain();
    JoinUnlines(HEADER, body);
    LineSplits(HEADER, Unlines(body));
    StripStart(text);
    var rest := SplitLines(Unlines(body));
    assert Keep([HEADER] + rest) == Keep(rest) by { assert ([HEADER] + rest)[1..] == rest; }
  }

  // ---------------------------------------------------------------- idempotence

  predicate Clean(line: string) {
    NoBreaks(line) && Keepable(line)
  }

  /** Every '\n'-separated piece of the line is a keepable line in its own right. */
  predicate Tame(line: string) {
    forall p :: p in Split(line, '\n') ==> Clean(p)
  }

  /** The lines with the '\n' inside them taken as line ends. */
  function Flat(lines: seq<string>): seq<string> {
    if lines == [] then [] else Split(lines[0], '\n') + Flat(lines[1..])
  }

  lemma {:induction false} FirstLineBare(s: string)
    requires s != ""
    ensures NoBreaks(Bare(s[..FirstLine(s)]))
  {
    if !IsBreak(s[0]) && |s| > 1 {
      FirstLineBare(s[1..]);
      var l := s[1..][..FirstLine(s[1..])];
      assert s[..FirstLine(s)] == [s[0]] + l;
      assert Bare([s[0]] + l) == [s[0]] + Bare(l);
    }
  }

  lemma {:induction false} SplitLinesBare(s: string)
    ensures forall i :: 0 <= i < |SplitLines(s)| ==> NoBreaks(SplitLines(s)[i])
  {
    if s != "" {
      FirstLineBare(s);
      SplitLinesBare(s[FirstLine(s)..]);
      assert SplitKeepEnds(s)[1..] == SplitKeepEnds(s[FirstLine(s)..]);
      assert SplitLines(s) == [Bare(s[..FirstLine(s)])] + SplitLines(s[FirstLine(s)..]);
    }
  }

  lemma {:induction false} KeepIsClean(lines: seq<string>)
    requires forall i :: 0 <= i < |lines| ==> NoBreaks(lines[i])
    ensures forall i :: 0 <= i < |Keep(lines)| ==> Clean(Keep(lines)[i])
    ensures (forall i :: 0 <= i < |lines| ==> Keepable(lines[i])) ==> Keep(lines) == lines
  {
    if lines != [] {
      KeepIsClean(lines[1..]);
    }
  }

  lemma {:induction false} SplitUnlines(lines: seq<string>)
    ensures Split(Unlines(lines), '\n') == Flat(lines) + [""]
  {
    if lines != [] {
      SplitUnlines(lines[1..]);
      SplitWithin(lines[0], Unlines(lines[1..]), '\n');
    }
  }

  lemma {:induction false} FlatOfPlain(lines: seq<string>)
    requires forall i :: 0 <= i < |lines| ==> NoBreaks(lines[i])
    ensures Flat(lines) == lines
  {
    if lines != [] {
      assert '\n' !in lines[0];
      SplitWhole(lines[0], '\n');
      FlatOfPlain(lines[1..]);
    }
  }

  lemma {:induction false} FlatIsSame(lines: seq<string>)
    ensures Unlines(Flat(lines)) == Unlines(lines)
  {
    if lines != [] {
      FlatIsSame(lines[1..]);
      UnlinesAppend(Split(lines[0], '\n'), Flat(lines[1..]));
      JoinOfSplit(lines[0], '\n');
      var parts := Split(lines[0], '\n');
      JoinUnlines(parts[0], parts[1..]);
      assert parts == [parts[0]] + parts[1..];
    }
  }

  lemma {:induction false} UnlinesAppend(a: seq<string>, b: seq<string>)
    ensures Unlines(a + b) == Unlines(a) + Unlines(b)
  {
    if a == [] {
      assert a + b == b;
    } else {
      assert (a + b)[1..] == a[1..] + b;
      UnlinesAppend(a[1..], b);
    }
  }

  ghost predicate AllClean(lines: seq<string>) {
    forall l :: l in lines ==> Clean(l)
  }

  ghost predicate AllTame(lines: seq<string>) {
    forall l :: l in lines ==> Tame(l)
  }

  lemma {:induction false} FlatOfTame(lines: seq<string>)
    ensures AllTame(lines) <==> AllClean(Flat(lines))
  {
    if lines != [] {
      FlatOfTame(lines[1..]);
      AllCleanAppend(Split(lines[0], '\n'), Flat(lines[1..]));
      FirstTame(lines);
    }
  }

  lemma FirstTame(lines: seq<string>)
    requires lines != []
    ensures AllTame(lines) <==> AllClean(Split(lines[0], '\n')) && AllTame(lines[1..])
  {
    assert Tame(lines[0]) <==> AllClean(Split(lines[0], '\n'));
    assert lines[0] in lines && forall l :: l in lines <==> l == lines[0] || l in lines[1..];
  }

  lemma AllCleanAppend(a: seq<string>, b: seq<string>)
    ensures AllClean(a + b) <==> AllClean(a) && AllClean(b)
  {
    assert forall l :: l in a + b <==> l in a || l in b;
  }

  /** What a canonical text becomes when it is canonicalised again. */
  function Reread(body: seq<string>): seq<string> {
    Keep(SplitLines(Unlines(body)))
  }

  lemma RereadIsClean(body: seq<string>)
    ensures AllClean(Reread(body)) && forall i :: 0 <= i < |Reread(body)| ==> NoBreaks(Reread(body)[i])
  {
    SplitLinesBare(Unlines(body));
    KeepIsClean(SplitLines(Unlines(body)));
  }

  lemma FixedMeansTame(body: seq<string>)
    requires Unlines(Reread(body)) == Unlines(body)
    ensures AllTame(body)
  {
    var again := Reread(body);
    RereadIsClean(body);
    SplitUnlines(again);
    SplitUnlines(body);
    FlatOfPlain(again);
    assert Flat(body) == (Flat(body) + [""])[..|Flat(body)|] == (again + [""])[..|again|] == again;
    FlatOfTame(body);
  }

  lemma TameMeansFixed(body: seq<string>)
    requires AllTame(body)
    ensures Unlines(Reread(body)) == Unlines(body)
  {
    FlatOfTame(body);
    FlatIsSame(body);
    assert forall i :: 0 <= i < |Flat(body)| ==> Clean(Flat(body)[i]);
    UnlinesSplit(Flat(body));
    KeepIsClean(Flat(body));
  }

  lemma CanonInjective(a: seq<string>, b: seq<string>)
    ensures Canon(a) == Canon(b) <==> Unlines(a) == Unlines(b)
  {
    JoinUnlines(HEADER, a);
    JoinUnlines(HEADER, b);
    var head := HEADER + "\n";
    assert (head + Unlines(a))[|head|..] == Unlines(a) && (head + Unlines(b))[|head|..] == Unlines(b);
  }

  /** Canonicalising again changes nothing exactly when every line of the body is tame. */
  lemma IdempotentIffTame(body: seq<string>, parsed: Option<seq<Cookie>>)
    ensures ToCanonicalNetscape(Canon(body), parsed) == Some(Canon(body)) <==> AllTame(body)
  {
    CanonRereads(body, parsed);
    CanonInjective(Reread(body), body);
    if Unlines(Reread(body)) == Unlines(body) {
      FixedMeansTame(body);
    }
    if AllTame(body) {
      TameMeansFixed(body);
    }
  }

  lemma {:induction false} SpaceFreeStays(s: string, c: char)
    requires c in s && !IsSpace(c)
    ensures c in Strip(s)
  {
    var a, b := StripParts(s);
    assert c !in a && c !in b;
  }

  lemma CleanIsTame(line: string)
    requires Clean(line)
    ensures Tame(line)
  {
    assert '\n' !in line;
    SplitWhole(line, '\n');
  }

  /** A line of seven break-free fields is tame: its flag columns keep it from being blank or the header. */
  lemma NetscapeLineIsTame(domain: string, subdomains: bool, path: string, secure: bool, expires: int, name: string, value: string)
    requires NoBreaks(domain) && NoBreaks(path) && NoBreaks(name) && NoBreaks(value)
    ensures Tame(NetscapeLine(domain, Flag(subdomains), path, secure, expires, name, value))
  {
    var line := NetscapeLine(domain, Flag(subdomains), path, secure, expires, name, value);
    var parts := [domain, Flag(subdomains), if path == "" then "/" else path, Flag(secure), Decimal(expires), name, value];
    JoinNoBreaks(parts);
    var tail := Join(parts[1..], '\t');
    var e := if subdomains then 3 else 4;
    assert tail[e] == 'E';
    assert line == domain + ['\t'] + tail && line[|domain| + 1 + e] == tail[e];
    SpaceFreeStays(line, 'E');
    assert 'E' !in HEADER;
    CleanIsTame(line);
  }

  lemma {:induction false} JoinNoBreaks(parts: seq<string>)
    requires parts != [] && forall i :: 0 <= i < |parts| ==> NoBreaks(parts[i])
    ensures NoBreaks(Join(parts, '\t'))
  {
    if |parts| > 1 {
      JoinNoBreaks(parts[1..]);
    }
  }

  lemma KeptAreTame(text: string)
    ensures AllTame(Keep(SplitLines(text)))
  {
    SplitLinesBare(text);
    KeepIsClean(SplitLines(text));
    forall l | l in Keep(SplitLines(text))
      ensures Tame(l)
    {
      CleanIsTame(l);
    }
  }

  /** Canonicalisation of a Netscape text is idempotent, for every text. */
  lemma NetscapeIsIdempotent(text: string, parsed: Option<seq<Cookie>>)
    requires Detect(text) == Netscape
    ensures var c := ToCanonicalNetscape(text, parsed); c.Some? && ToCanonicalNetscape(c.value, parsed) == c
  {
    KeptAreTame(text);
    IdempotentIffTame(Keep(SplitLines(text)), parsed);
  }

  predicate BreakFree(p: Pair) {
    NoBreaks(p.name) && NoBreaks(p.value)
  }

  ghost predicate AllBreakFree(pairs: seq<Pair>) {
    forall p :: p in pairs ==> BreakFree(p)
  }

  lemma {:induction false} PairLinesAre(pairs: seq<Pair>)
    ensures |PairLines(pairs)| == |pairs|
    ensures forall i :: 0 <= i < |pairs| ==> PairLines(pairs)[i] == PairLine(pairs[i])
  {
    if pairs != [] {
      PairLinesAre(pairs[1..]);
    }
  }

  lemma {:induction false} PairLinesAreTame(pairs: seq<Pair>)
    requires AllBreakFree(pairs)
    ensures AllTame(PairLines(pairs))
  {
    if pairs != [] {
      assert BreakFree(pairs[0]);
      NetscapeLineIsTame(DEFAULT_DOMAIN, true, "/", true, 0, pairs[0].name, pairs[0].value);
      PairLinesAreTame(pairs[1..]);
    }
  }

  /** Likewise for a cookie string whose names and values have no line breaks. */
  lemma CookieStringIsIdempotent(text: string, parsed: Option<seq<Cookie>>)
    requires Detect(text) == CookieString && AllBreakFree(PairsOf(text))
    ensures var c := ToCanonicalNetscape(text, parsed); c.Some? && ToCanonicalNetscape(c.value, parsed) == c
  {
    var pairs := PairsOf(text);
    PairLinesAreTame(pairs);
    IdempotentIffTame(PairLines(pairs), parsed);
  }

  predicate BreakFreeCookie(c: Cookie) {
    NoBreaks(c.domain) && NoBreaks(c.path) && NoBreaks(c.value) && (c.name.Some? ==> NoBreaks(c.name.value))
  }

  lemma {:induction false} JsonLinesAreTame(cookies: seq<Cookie>)
    requires JsonLines(cookies).Some? && forall i :: 0 <= i < |cookies| ==> BreakFreeCookie(cookies[i])
    ensures AllTame(JsonLines(cookies).value)
  {
    if cookies != [] {
      var c := cookies[0];
      var domain := if c.domain == "" then DEFAULT_DOMAIN else c.domain;
      JsonLinesAreTame(cookies[1..]);
      NetscapeLineIsTame(domain, domain[0] == '.', c.path, c.secure, ClampExpiry(c.expires), c.name.value, c.value);
    }
  }

  /** And for a JSON list whose fields have no line breaks. */
  lemma JsonIsIdempotent(text: string, cookies: seq<Cookie>)
    requires Detect(text) == Json && JsonLines(cookies).Some? && forall i :: 0 <= i < |cookies| ==> BreakFreeCookie(cookies[i])
    ensures var c := ToCanonicalNetscape(text, Some(cookies)); c.Some? && ToCanonicalNetscape(c.value, Some(cookies)) == c
  {
    JsonLinesAreTame(cookies);
    IdempotentIffTame(JsonLines(cookies).value, Some(cookies));
  }

  // ---------------------------------------------------------------- the header, once

  lemma {:induction false} BreakStopsFirstLine(a: string, b: string)
    ensures FirstLine(a + "\n" + b) == FirstLine(a + "\n")
  {
    if a != "" && !IsBreak(a[0]) {
      assert (a + "\n" + b)[1..] == a[1..] + "\n" + b && (a + "\n")[1..] == a[1..] + "\n";
      BreakStopsFirstLine(a[1..], b);
    }
  }

  /** A '\n' separates the lines before it from the lines after it, whatever they are. */
  lemma {:induction false} LinesSeparate(a: string, b: string)
    ensures SplitLines(a + "\n" + b) == SplitLines(a + "\n") + SplitLines(b)
    decreases |a|
  {
    var n := FirstLine(a + "\n");
    var line := (a + "\n")[..n];
    BreakStopsFirstLine(a, b);
    FirstThenRest(a + "\n");
    FirstThenRest(a + "\n" + b);
    assert (a + "\n" + b)[..n] == line;
    if n <= |a| {
      LinesSeparate(a[n..], b);
      RestSeparates(a, b, n);
      OneThenTwo(Bare(line), SplitLines(a[n..] + "\n"), SplitLines(b));
    } else {
      assert (a + "\n" + b)[n..] == b && (a + "\n")[n..] == "";
    }
  }

  lemma RestSeparates(a: string, b: string, n: nat)
    requires n <= |a|
    ensures (a + "\n" + b)[n..] == a[n..] + "\n" + b && (a + "\n")[n..] == a[n..] + "\n"
  {
  }

  lemma OneThenTwo(x: string, a: seq<string>, b: seq<string>)
    ensures [x] + (a + b) == ([x] + a) + b
  {
  }

  lemma FirstThenRest(s: string)
    requires s != ""
    ensures SplitLines(s) == [Bare(s[..FirstLine(s)])] + SplitLines(s[FirstLine(s)..])
  {
    assert SplitKeepEnds(s)[1..] == SplitKeepEnds(s[FirstLine(s)..]);
  }

  predicate IsHeader(line: string) {
    Strip(line) == HEADER
  }

  ghost predicate HeaderFree(lines: seq<string>) {
    forall l :: l in lines ==> !IsHeader(l)
  }

  lemma HeaderFreeAppend(a: seq<string>, b: seq<string>)
    ensures HeaderFree(a + b) <==> HeaderFree(a) && HeaderFree(b)
  {
    assert forall l :: l in a + b <==> l in a || l in b;
  }

  lemma EmptyEnded()
    ensures SplitLines("\n") == [""] && SplitLines("") == []
  {
    assert FirstLine("\n") == 1 && "\n"[..1] == "\n" && "\n"[1..] == "";
    FirstThenRest("\n");
    assert Bare("\n") == "\n"[..0] == "";
    assert SplitLines("") == BareAll([]) == [];
    assert SplitLines("\n") == [""] + [];
  }

  /** Ending a text with '\n' changes no line; at most it adds an empty one. */
  lemma {:induction false} EndedLines(s: string)
    ensures SplitLines(s + "\n") == SplitLines(s) || SplitLines(s + "\n") == SplitLines(s) + [""]
    decreases |s|
  {
    var t := s + "\n";
    EmptyEnded();
    if s == "" {
      assert t == "\n" && SplitLines(s) + [""] == [""];
    } else {
      var n, m := FirstLine(s), FirstLine(t);
      FirstThenRest(s);
      FirstThenRest(t);
      EndedFirstLine(s);
      if m == n {
        EndedLines(s[n..]);
        assert t[n..] == s[n..] + "\n";
        OneThenTwo(Bare(s[..n]), SplitLines(s[n..]), [""]);
      } else {
        assert t[m..] == "" == s[n..];
      }
    }
  }

  lemma EndShowsNoHeader(s: string)
    ensures HeaderFree(SplitLines(s + "\n")) <==> HeaderFree(SplitLines(s))
  {
    EndedLines(s);
    HeaderFreeAppend(SplitLines(s), [""]);
    assert Strip("") == "";
  }

  /** The first line of a text with a '\n' appended: the same, unless the text has only that line and it is open. */
  lemma {:induction false} EndedFirstLine(s: string)
    requires s != ""
    ensures var t := s + "\n"; var n, m := FirstLine(s), FirstLine(t);
      && (m == n || (n == |s| && m == n + 1))
      && Bare(t[..m]) == Bare(s[..n])
  {
    var t := s + "\n";
    assert t[1..] == s[1..] + "\n";
    if !IsBreak(s[0]) && |s| > 1 {
      EndedFirstLine(s[1..]);
      var l, k := s[1..][..FirstLine(s[1..])], t[1..][..FirstLine(t[1..])];
      assert s[..FirstLine(s)] == [s[0]] + l && t[..FirstLine(t)] == [s[0]] + k;
      BareBehind(s[0], l);
      BareBehind(s[0], k);
    } else if !IsBreak(s[0]) {
      assert t[1..] == "\n" && FirstLine(t) == 2 && t[..2] == s + "\n";
    }
  }

  lemma BareBehind(c: char, line: string)
    requires !IsBreak(c) && line != ""
    ensures Bare([c] + line) == [c] + Bare(line)
  {
  }

  /** No piece of any of the lines is a header. */
  ghost predicate HeaderFreeInside(lines: seq<string>) {
    forall l :: l in lines ==> HeaderFree(SplitLines(l))
  }

  lemma FirstInside(lines: seq<string>)
    requires lines != []
    ensures HeaderFreeInside(lines) <==> HeaderFree(SplitLines(lines[0])) && HeaderFreeInside(lines[1..])
  {
    assert lines[0] in lines && forall l :: l in lines <==> l == lines[0] || l in lines[1..];
  }

  lemma {:induction false} HeaderInBody(body: seq<string>)
    ensures HeaderFree(SplitLines(Unlines(body))) <==> HeaderFreeInside(body)
  {
    if body != [] {
      var rest := Unlines(body[1..]);
      LinesSeparate(body[0], rest);
      HeaderFreeAppend(SplitLines(body[0] + "\n"), SplitLines(rest));
      EndShowsNoHeader(body[0]);
      HeaderInBody(body[1..]);
      FirstInside(body);
    }
  }

  /** The first line is the header and no later one is. */
  ghost predicate HeaderOnce(text: string) {
    var lines := SplitLines(text);
    lines != [] && lines[0] == "# Netscape HTTP Cookie File" && HeaderFree(lines[1..])
  }

  /** The canonical text has the header exactly once if and only if no piece of a line of the body is a header. */
  lemma HeaderOnceIff(body: seq<string>)
    ensures HeaderOnce(Canon(body)) <==> HeaderFreeInside(body)
  {
    CanonRereads(body, None);
    assert SplitLines(Canon(body))[1..] == SplitLines(Unlines(body));
    HeaderInBody(body);
  }

  /** A text that canonicalising leaves alone has it once. */
  lemma TameHasOneHeader(body: seq<string>)
    requires AllTame(body)
    ensures HeaderOnce(Canon(body))
  {
    CanonRereads(body, None);
    TameReads(body);
    assert SplitLines(Canon(body))[1..] == SplitLines(Unlines(body));
  }

  lemma TameReads(body: seq<string>)
    requires AllTame(body)
    ensures HeaderFree(SplitLines(Unlines(body)))
  {
    FlatOfTame(body);
    FlatIsSame(body);
    assert forall i :: 0 <= i < |Flat(body)| ==> Clean(Flat(body)[i]);
    UnlinesSplit(Flat(body));
  }

  /** So has every Netscape text, and the other two formats when no field has a line break. */
  lemma CanonicalHasOneHeader(text: string, parsed: Option<seq<Cookie>>)
    requires Body(text, parsed).Some?
    requires Detect(text) == CookieString ==> AllBreakFree(PairsOf(text))
    requires Detect(text) == Json ==> forall i :: 0 <= i < |parsed.value| ==> BreakFreeCookie(parsed.value[i])
    ensures ToCanonicalNetscape(text, parsed).Some? && HeaderOnce(ToCanonicalNetscape(text, parsed).value)
  {
    match Detect(text) {
      case Json => JsonLinesAreTame(parsed.value);
      case CookieString => PairLinesAreTame(PairsOf(text));
      case Netscape => KeptAreTame(text);
    }
    TameHasOneHeader(Body(text, parsed).value);
  }

  /** A cookie string with a line break before another line. */
  function Repeating(line: string): string {
    "sid=x\n" + line
  }

  lemma {:induction false} CountNone(s: string, c: char)
    requires c !in s
    ensures Count(s, c) == 0
  {
    if s != "" {
      CountNone(s[1..], c);
    }
  }

  lemma OneLine(line: string)
    requires line != "" && NoBreaks(line)
    ensures SplitLines(line) == [line]
  {
    assert NoBreaks(line[..|line| - 1]) && '\r' !in line;
    ConcatOne(line);
    SplitOfLines([line]);
    assert SplitLines(line) == BareAll([line]) == [Bare(line)] + BareAll([]);
  }

  lemma RepeatingLines(line: string)
    requires line != "" && NoBreaks(line)
    ensures SplitLines(Repeating(line)) == ["sid=x", line]
  {
    OneLine(line);
    LineSplits("sid=x", line);
    assert "sid=x" + "\n" + line == Repeating(line);
  }

  lemma RepeatingPairs(line: string)
    requires line != "" && NoBreaks(line) && Strip(line) == line && ';' !in line
    ensures PairsOf(Repeating(line)) == [Pair("sid", "x\n" + line)]
  {
    assert ';' !in Repeating(line);
    SplitWhole(Repeating(line), ';');
    RepeatingPair(line);
    OnePair(Repeating(line), Pair("sid", "x\n" + line));
  }

  lemma RepeatingPair(line: string)
    requires line != "" && Strip(line) == line
    ensures ParsePair(Repeating(line)) == Some(Pair("sid", "x\n" + line))
  {
    var value := "x\n" + line;
    RepeatingValue(line);
    assert Repeating(line) == "sid" + "=" + value;
    PairParses("sid", value);
    StripPlain("sid");
  }

  lemma OnePair(segment: string, p: Pair)
    requires ParsePair(segment) == Some(p)
    ensures Pairs([segment]) == [p]
  {
    assert [segment][1..] == [] && [p] + Pairs([]) == [p];
  }

  lemma RepeatingValue(line: string)
    requires line != "" && Strip(line) == line
    ensures Strip("x\n" + line) == "x\n" + line
  {
    StrippedEnds(line);
    BehindX(line, "x\n" + line);
    StripPlain("x\n" + line);
  }

  lemma StrippedEnds(s: string)
    requires s != "" && Strip(s) == s
    ensures !IsSpace(s[|s| - 1])
  {
    var a, b := StripParts(s);
  }

  lemma BehindX(line: string, s: string)
    requires line != "" && s == "x\n" + line
    ensures s[0] == 'x' && s[|s| - 1] == line[|line| - 1]
  {
  }

  lemma StripPlain(s: string)
    requires s != "" && !IsSpace(s[0]) && !IsSpace(s[|s| - 1])
    ensures Strip(s) == s
  {
    StripIs("", s, "");
    assert "" + s + "" == s;
  }

  lemma RepeatingIsACookieString(line: string)
    requires line != "" && NoBreaks(line) && '\t' !in line
    requires HEADER[0] != 's'
    ensures Detect(Repeating(line)) == CookieString
  {
    RepeatingLines(line);
    StripStart(Repeating(line));
    StripPlain("sid=x");
    CountNone("sid=x", '\t');
    CountNone(line, '\t');
  }

  lemma HeaderHoldsNoSeparator()
    ensures ';' !in HEADER && '\t' !in HEADER && HEADER[0] != 's'
  {
  }

  const SID_LINE := NetscapeLine(DEFAULT_DOMAIN, "TRUE", "/", true, 0, "sid", "x")

  lemma RepeatingCanon(line: string)
    requires line != "" && NoBreaks(line)
    ensures SplitLines(Canon([PairLine(Pair("sid", "x\n" + line))])) == [HEADER] + ([SID_LINE] + [line])
  {
    var body := [PairLine(Pair("sid", "x\n" + line))];
    LongValue(line);
    JoinNoBreaks([DEFAULT_DOMAIN, "TRUE", "/", Flag(true), Decimal(0), "sid", "x"]);
    CanonRereads(body, None);
    TwoLines(SID_LINE, line);
    assert Unlines(body) == body[0] + "\n" + "" == SID_LINE + "\n" + line + "\n";
  }

  lemma TwoLines(a: string, b: string)
    requires NoBreaks(a) && NoBreaks(b)
    ensures SplitLines(a + "\n" + b + "\n") == [a] + [b]
  {
    LineSplits(a, b + "\n");
    LineSplits(b, "");
    assert a + "\n" + (b + "\n") == a + "\n" + b + "\n" && b + "\n" + "" == b + "\n";
    assert SplitLines("") == BareAll([]) == [];
  }

  lemma LongValue(line: string)
    ensures PairLine(Pair("sid", "x\n" + line)) == SID_LINE + "\n" + line
  {
    var parts := [DEFAULT_DOMAIN, "TRUE", "/", Flag(true), Decimal(0), "sid"];
    JoinLast(parts, "x", "\n" + line);
    assert "x" + ("\n" + line) == "x\n" + line;
    assert parts + ["x"] == [DEFAULT_DOMAIN, "TRUE", "/", Flag(true), Decimal(0), "sid", "x"];
    assert parts + ["x\n" + line] == [DEFAULT_DOMAIN, "TRUE", "/", Flag(true), Decimal(0), "sid", "x\n" + line];
    assert SID_LINE + ("\n" + line) == SID_LINE + "\n" + line;
  }

  lemma {:induction false} JoinLast(parts: seq<string>, last: string, more: string)
    ensures Join(parts + [last + more], '\t') == Join(parts + [last], '\t') + more
  {
    if parts != [] {
      assert (parts + [last + more])[1..] == parts[1..] + [last + more] && (parts + [last])[1..] == parts[1..] + [last];
      JoinLast(parts[1..], last, more);
    }
  }

  lemma OnePairLine(p: Pair)
    ensures PairLines([p]) == [PairLine(p)]
  {
    assert [p][1..] == [];
  }

  /** It fails for a cookie string with a line break before a header: the header is then the third line as well. */
  lemma HeaderCanRepeat(parsed: Option<seq<Cookie>>)
    ensures ToCanonicalNetscape(Repeating(HEADER), parsed).Some?
    ensures var lines := SplitLines(ToCanonicalNetscape(Repeating(HEADER), parsed).value);
      |lines| == 3 && lines[0] == lines[2] == HEADER
  {
    HeaderIsPlain();
    HeaderHoldsNoSeparator();
    RepeatingIsACookieString(HEADER);
    RepeatingPairs(HEADER);
    OnePairLine(Pair("sid", "x\n" + HEADER));
    RepeatingCanon(HEADER);
  }

  // ---------------------------------------------------------------- reading the pairs back

  predicate TabFree(p: Pair) {
    '\t' !in p.name && '\t' !in p.value
  }

  /** A pair's line splits into the five defaults, then the name, then the value; in seven fields iff it is tab-free. */
  lemma PairLineSplits(p: Pair)
    ensures |Split(PairLine(p), '\t')| == 7 <==> TabFree(p)
    ensures TabFree(p) ==> Split(PairLine(p), '\t') == [".tiktok.com", "TRUE", "/", "TRUE", "0", p.name, p.value]
  {
    var parts := [DEFAULT_DOMAIN, "TRUE", "/", "TRUE", "0", p.name, p.value];
    assert Decimal(0) == "0";
    SplitOfJoin(parts, '\t');
    assert parts[5] == p.name && parts[6] == p.value;
  }

  // ---------------------------------------------------------------- what the fields of a JSON cookie become

  function ReadDigits(s: string): int {
    if s == "" then 0 else 10 * ReadDigits(s[..|s| - 1]) + (s[|s| - 1] as int - '0' as int)
  }

  function ReadDecimal(s: string): int {
    if s != "" && s[0] == '-' then -ReadDigits(s[1..]) else ReadDigits(s)
  }

  lemma {:induction false} DigitsRead(n: nat)
    ensures ReadDigits(Digits(n)) == n
  {
    var s := Digits(n);
    if n >= 10 {
      DigitsRead(n / 10);
      assert s[..|s| - 1] == Digits(n / 10);
    }
  }

  lemma SignedReads(digits: string)
    requires digits != "" && forall i :: 0 <= i < |digits| ==> '0' <= digits[i] <= '9'
    ensures ReadDecimal("-" + digits) == -ReadDigits(digits) && '\t' !in "-" + digits
    ensures ReadDecimal(digits) == ReadDigits(digits) && '\t' !in digits
  {
    assert ("-" + digits)[1..] == digits;
  }

  lemma DecimalReads(n: int)
    ensures ReadDecimal(Decimal(n)) == n && '\t' !in Decimal(n)
  {
    var size: nat := if n < 0 then -n else n;
    DigitsRead(size);
    SignedReads(Digits(size));
  }

  predicate TabFreeCookie(c: Cookie) {
    '\t' !in c.domain && '\t' !in c.path && '\t' !in c.value && c.name.Some? && '\t' !in c.name.value
  }

  lemma SevenFields(a: string, b: string, c: string, d: string, e: string, f: string, g: string)
    requires '\t' !in a && '\t' !in b && '\t' !in c && '\t' !in d && '\t' !in e && '\t' !in f && '\t' !in g
    ensures Split(Join([a, b, c, d, e, f, g], '\t'), '\t') == [a, b, c, d, e, f, g]
  {
    SplitOfJoin([a, b, c, d, e, f, g], '\t');
  }

  lemma FlagIsTabFree(b: bool)
    ensures '\t' !in Flag(b) && (Flag(b) == "TRUE" <==> b)
  {
    assert "FALSE"[0] != "TRUE"[0];
  }

  lemma ClampReads(ts: int)
    ensures var r := ReadDecimal(Decimal(ClampExpiry(ts)));
      r <= ts && r <= MAX_EXPIRY_TS && (r == ts || r == MAX_EXPIRY_TS)
  {
    DecimalReads(ClampExpiry(ts));
  }

  lemma LineFields(domain: string, subdomains: bool, path: string, secure: bool, expires: int, name: string, value: string)
    returns (e: string)
    requires '\t' !in domain && '\t' !in path && '\t' !in name && '\t' !in value && path != ""
    ensures e == Decimal(expires)
    ensures Split(NetscapeLine(domain, Flag(subdomains), path, secure, expires, name, value), '\t')
      == [domain, Flag(subdomains), path, Flag(secure), e, name, value]
  {
    e := Decimal(expires);
    DecimalReads(expires);
    FlagIsTabFree(subdomains);
    FlagIsTabFree(secure);
    SevenFields(domain, Flag(subdomains), path, Flag(secure), e, name, value);
  }

  /** A cookie read back from its fields: defaults filled in, the expiry clamped to the ceiling. */
  lemma JsonLineSplits(c: Cookie) returns (expires: string)
    requires TabFreeCookie(c)
    ensures var domain := if c.domain != "" then c.domain else ".tiktok.com";
      Split(JsonLine(c), '\t')
      == [domain, Flag(domain[0] == '.'), if c.path != "" then c.path else "/", Flag(c.secure), expires, c.name.value, c.value]
    ensures ReadDecimal(expires) <= c.expires && ReadDecimal(expires) <= 4133894400
    ensures ReadDecimal(expires) == c.expires || ReadDecimal(expires) == 4133894400
  {
    var domain := if c.domain == "" then DEFAULT_DOMAIN else c.domain;
    var path := if c.path == "" then "/" else c.path;
    expires := LineFields(domain, domain[0] == '.', path, c.secure, ClampExpiry(c.expires), c.name.value, c.value);
    ClampReads(c.expires);
  }

  // ---------------------------------------------------------------- what the text of a cookie string says

  lemma {:induction false} EqualsAt(name: string, rest: string)
    requires '=' !in name
    ensures Equals(name + "=" + rest) == |name|
  {
    if name != "" {
      assert (name + "=" + rest)[1..] == name[1..] + "=" + rest;
      EqualsAt(name[1..], rest);
    }
  }

  lemma TrimLeft(s: string) returns (a: string, left: string)
    ensures s == a + left && AllSpaces(a) && (left != "" ==> !IsSpace(left[0])) && Strip(left) == Strip(s)
  {
    LeadMeans(s);
    a, left := s[..Lead(s)], s[Lead(s)..];
    StripIgnores(a, left, "");
    assert a + left + "" == s;
  }

  lemma TrimRight(s: string) returns (right: string, b: string)
    ensures s == right + b && AllSpaces(b) && (right != "" ==> !IsSpace(right[|right| - 1])) && Strip(right) == Strip(s)
  {
    TrailMeans(s);
    var k := |s| - Trail(s);
    right, b := s[..k], s[k..];
    ThreeParts(s, 0, k);
    StripIgnores(s[..0], right, b);
  }

  lemma Inwards(a: string, left: string, right: string, b: string)
    ensures (a + left) + "=" + (right + b) == a + (left + "=" + right) + b
  {
  }

  /** A segment around its first '=' is the pair of its stripped halves. */
  lemma PairParses(name: string, value: string)
    requires '=' !in name
    ensures ParsePair(name + "=" + value) == Some(Pair(Strip(name), Strip(value)))
  {
    var a, left := TrimLeft(name);
    var right, b := TrimRight(value);
    PairCore(a, left, right, b);
    Inwards(a, left, right, b);
  }

  lemma CoreOf(a: string, left: string, right: string, b: string)
    requires AllSpaces(a) && AllSpaces(b)
    requires (left != "" ==> !IsSpace(left[0])) && (right != "" ==> !IsSpace(right[|right| - 1]))
    ensures Strip(a + (left + "=" + right) + b) == left + "=" + right
  {
    var pair := left + "=" + right;
    assert pair[0] == if left == "" then '=' else left[0];
    assert pair[|pair| - 1] == if right == "" then '=' else right[|right| - 1];
    StripIs(a, pair, b);
  }

  lemma PairAt(segment: string, left: string, right: string)
    requires Strip(segment) == left + "=" + right && '=' !in left
    ensures ParsePair(segment) == Some(Pair(Strip(left), Strip(right)))
  {
    var pair := Strip(segment);
    EqualsAt(left, right);
    assert pair[..|left|] == left && pair[|left| + 1..] == right;
  }

  lemma PairCore(a: string, left: string, right: string, b: string)
    requires AllSpaces(a) && AllSpaces(b) && '=' !in left
    requires (left != "" ==> !IsSpace(left[0])) && (right != "" ==> !IsSpace(right[|right| - 1]))
    ensures ParsePair(a + (left + "=" + right) + b) == Some(Pair(Strip(left), Strip(right)))
  {
    CoreOf(a, left, right, b);
    PairAt(a + (left + "=" + right) + b, left, right);
  }

  function Segments(pairs: seq<Pair>): seq<string> {
    if pairs == [] then [] else [pairs[0].name + "=" + pairs[0].value] + Segments(pairs[1..])
  }

  function Stripped(pairs: seq<Pair>): seq<Pair> {
    if pairs == [] then [] else [Pair(Strip(pairs[0].name), Strip(pairs[0].value))] + Stripped(pairs[1..])
  }

  ghost predicate Separable(pairs: seq<Pair>) {
    forall p :: p in pairs ==> '=' !in p.name && ';' !in p.name && ';' !in p.value
  }

  lemma {:induction false} SegmentsParse(pairs: seq<Pair>)
    requires Separable(pairs)
    ensures Pairs(Segments(pairs)) == Stripped(pairs) && NoneHolds(Segments(pairs), ';')
  {
    if pairs != [] {
      var p, rest := pairs[0], Segments(pairs[1..]);
      assert p in pairs && forall q :: q in pairs[1..] ==> q in pairs;
      PairParses(p.name, p.value);
      SegmentsParse(pairs[1..]);
      assert ([p.name + "=" + p.value] + rest)[1..] == rest;
    }
  }

  /** "n=v; n=v; ..." stands for its stripped pairs, in order. */
  lemma CookieStringReads(pairs: seq<Pair>)
    requires Separable(pairs) && pairs != []
    ensures Segments(pairs) != [] && PairsOf(Join(Segments(pairs), ';')) == Stripped(pairs)
  {
    SegmentsParse(pairs);
    SplitOfJoin(Segments(pairs), ';');
  }

  /** Splitting the canonical text of a break-free cookie string gives the pairs back, in order. */
  lemma PairsRoundTrip(text: string, parsed: Option<seq<Cookie>>)
    requires Detect(text) == CookieString && AllBreakFree(PairsOf(text))
    ensures var pairs, c := PairsOf(text), ToCanonicalNetscape(text, parsed);
      && c.Some?
      && SplitLines(c.value) == [HEADER] + PairLines(pairs)
      && |PairLines(pairs)| == |pairs|
      && forall i :: 0 <= i < |pairs| && TabFree(pairs[i]) ==>
        Split(PairLines(pairs)[i], '\t') == [DEFAULT_DOMAIN, "TRUE", "/", "TRUE", "0", pairs[i].name, pairs[i].value]
  {
    var pairs := PairsOf(text);
    PairLinesAre(pairs);
    PairLinesBare(pairs);
    forall i | 0 <= i < |pairs| && TabFree(pairs[i])
      ensures Split(PairLines(pairs)[i], '\t') == [DEFAULT_DOMAIN, "TRUE", "/", "TRUE", "0", pairs[i].name, pairs[i].value]
    {
      PairLineSplits(pairs[i]);
    }
    CanonRereads(PairLines(pairs), parsed);
    UnlinesSplit(PairLines(pairs));
  }

  lemma {:induction false} PairLinesBare(pairs: seq<Pair>)
    requires AllBreakFree(pairs)
    ensures forall i :: 0 <= i < |PairLines(pairs)| ==> NoBreaks(PairLines(pairs)[i])
  {
    if pairs != [] {
      assert BreakFree(pairs[0]);
      JoinNoBreaks([DEFAULT_DOMAIN, "TRUE", "/", Flag(true), Decimal(0), pairs[0].name, pairs[0].value]);
      PairLinesBare(pairs[1..]);
    }
  }

  /** A line of seven fields whose sixth is the name. */
  ghost predicate Names(line: string, name: string) {
    var fields := Split(line, '\t');
    |fields| == 7 && fields[5] == name
  }

  ghost predicate Listed(lines: seq<string>, name: string) {
    exists i :: 1 <= i < |lines| && Names(lines[i], name)
  }

  ghost function WarnMissingSidTt(canonical: string): seq<string> {
    if Listed(SplitLines(canonical), "sid_tt") then [] else ["sid_tt"]
  }

  predicate IsSession(p: Pair) {
    p.name == "sid_tt" && '\t' !in p.value
  }

  lemma PairNames(p: Pair)
    ensures Names(PairLine(p), "sid_tt") <==> IsSession(p)
  {
    PairLineSplits(p);
    assert '\t' !in "sid_tt";
  }

  lemma ListedIffSession(lines: seq<string>, pairs: seq<Pair>)
    requires lines == [HEADER] + PairLines(pairs)
    ensures Listed(lines, "sid_tt") <==> exists p :: p in pairs && IsSession(p)
  {
    PairLinesAre(pairs);
    forall i | 1 <= i < |lines|
      ensures Names(lines[i], "sid_tt") <==> IsSession(pairs[i - 1])
    {
      PairNames(pairs[i - 1]);
      assert lines[i] == PairLine(pairs[i - 1]);
    }
    if p :| p in pairs && IsSession(p) {
      var i :| 0 <= i < |pairs| && pairs[i] == p;
      assert pairs[(i + 1) - 1] == p;
      assert Names(lines[i + 1], "sid_tt");
    }
  }

  /** For a break-free cookie string the sid_tt warning is raised exactly when no pair has that name and a tab-free value. */
  lemma WarnsIffMissing(text: string, parsed: Option<seq<Cookie>>)
    requires Detect(text) == CookieString && AllBreakFree(PairsOf(text))
    ensures ToCanonicalNetscape(text, parsed).Some?
    ensures WarnMissingSidTt(ToCanonicalNetscape(text, parsed).value) == ["sid_tt"] <==> !exists p :: p in PairsOf(text) && IsSession(p)
  {
    PairsRoundTrip(text, parsed);
    ListedIffSession(SplitLines(ToCanonicalNetscape(text, parsed).value), PairsOf(text));
  }

  // ---------------------------------------------------------------- the loops

  /** What the loop has written so far, then what the remaining segments will add. */
  function WithRest(lines: seq<string>, segments: seq<string>): seq<string> {
    lines + PairLines(Pairs(segments))
  }

  lemma PairStep(lines: seq<string>, segments: seq<string>)
    requires segments != []
    ensures var p := ParsePair(segments[0]);
      WithRest(lines, segments) == WithRest(if p.Some? then lines + [PairLine(p.value)] else lines, segments[1..])
  {
    var p, rest := ParsePair(segments[0]), Pairs(segments[1..]);
    if p.Some? {
      assert ([p.value] + rest)[1..] == rest;
      assert lines + ([PairLine(p.value)] + PairLines(rest)) == (lines + [PairLine(p.value)]) + PairLines(rest);
    } else {
      assert [] + rest == rest;
    }
  }

  method CookieStringToLines(text: string) returns (lines: seq<string>)
    ensures lines == PairLines(PairsOf(text))
  {
    var segments := Split(text, ';');
    lines := [];
    for i := 0 to |segments|
      invariant WithRest(lines, segments[i..]) == PairLines(PairsOf(text))
    {
      PairStep(lines, segments[i..]);
      assert segments[i..][1..] == segments[i + 1..];
      var pair := ReadPair(segments[i]);
      if pair.Some? {
        lines := lines + [PairLine(pair.value)];
      }
    }
  }

  method ReadPair(segment: string) returns (p: Option<Pair>)
    ensures p == ParsePair(segment)
  {
    var pair := Strip(segment);
    var n := Equals(pair);
    if pair == "" || n == |pair| {
      return None;
    }
    return Some(Pair(Strip(pair[..n]), Strip(pair[n + 1..])));
  }

  /** What the loop has written so far, then what the remaining cookies will add, unless one of them raises. */
  function WithCookies(lines: seq<string>, cookies: seq<Cookie>): Option<seq<string>> {
    var rest := JsonLines(cookies);
    if rest.None? then None else Some(lines + rest.value)
  }

  lemma JsonStep(lines: seq<string>, cookies: seq<Cookie>)
    requires cookies != []
    ensures WithCookies(lines, cookies)
      == if cookies[0].name.None? then None else WithCookies(lines + [JsonLine(cookies[0])], cookies[1..])
  {
    var rest := JsonLines(cookies[1..]);
    if cookies[0].name.Some? && rest.Some? {
      var line := JsonLine(cookies[0]);
      assert lines + ([line] + rest.value) == (lines + [line]) + rest.value;
    }
  }

  method JsonToLines(cookies: seq<Cookie>) returns (lines: Option<seq<string>>)
    ensures lines == JsonLines(cookies)
  {
    var done: seq<string> := [];
    assert cookies[0..] == cookies && (JsonLines(cookies).Some? ==> done + JsonLines(cookies).value == JsonLines(cookies).value);
    for i := 0 to |cookies|
      invariant WithCookies(done, cookies[i..]) == JsonLines(cookies)
    {
      JsonStep(done, cookies[i..]);
      assert cookies[i..][1..] == cookies[i + 1..];
      if cookies[i].name.None? {
        return None;
      }
      done := done + [JsonLine(cookies[i])];
    }
    assert cookies[|cookies|..] == [] && done + [] == done;
    return Some(done);
  }
}
