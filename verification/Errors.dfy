/**
 The project-wide error classifier: an ordered rule table over the exception text, after long digit runs
 (video ids) have been redacted from it.
 */
module Errors {
  import opened Prelude

  // ---------------------------------------------------------------- the rule table

  datatype Category = Definitive | Transient | Local | Info

  datatype Rule = Rule(markers: seq<string>, statusArm: bool, category: Category)

  const AUTH_MARKERS: seq<string> := [
    "requiring login", "login required", "log into an account", "log in for access", "permission to view",
    "account is private", "captcha", "banned", "suspended", "session expired"]

  const IP_BLOCK := Rule(["blocked", "ip address is blocked"], false, Transient)
  const AUTH := Rule(AUTH_MARKERS, false, Definitive)
  const FORBIDDEN := Rule(["403"], false, Transient)
  const STATUS_ZERO := Rule(["status code 0"], false, Transient)
  const NONEXISTENT := Rule(["video unavailable", "404", "removed"], true, Definitive)
  const FEED_MARKERS: seq<string> :=
    ["keeps sending the same page", "unable to extract", "no entries", "invalid json", "unable to parse json"]
  const CHALLENGE_MARKERS: seq<string> :=
    ["jsondecodeerror", "unable to solve js challenge", "unable to extract challenge data", "please wait"]
  const EXTRACTOR := Rule(FEED_MARKERS + CHALLENGE_MARKERS, false, Transient)
  const LOCAL_DISK := Rule(["no space left", "enospc"], false, Local)
  const EMPTY_ACCOUNT := Rule(["does not have any videos posted"], false, Info)
  const RATE_TIMEOUT := Rule(["429", "timed out", "timeout", "service unavailable"], false, Transient)

  /** Evaluated top to bottom; the status-code-0 rule precedes the nonexistent rule on purpose. */
  const ERROR_RULES: seq<Rule> :=
    [IP_BLOCK, AUTH, FORBIDDEN, STATUS_ZERO, NONEXISTENT, EXTRACTOR, LOCAL_DISK, EMPTY_ACCOUNT, RATE_TIMEOUT]

  // ---------------------------------------------------------------- matching

  /** What the regular expressions' \d accepts: at least 0-9, and nothing of the texts below. */
  predicate IsDigitClass(digit: char -> bool) {
    && (forall c :: '0' <= c <= '9' ==> digit(c))
    && !digit('<') && !digit('>') && (forall c :: 'a' <= c <= 'z' ==> !digit(c)) && !digit(' ')
  }

  predicate StartsWith(h: string, m: string) {
    |m| <= |h| && h[..|m|] == m
  }

  predicate Contains(h: string, m: string) {
    StartsWith(h, m) || (h != "" && Contains(h[1..], m))
  }

  predicate ContainsAny(h: string, markers: seq<string>) {
    exists i :: 0 <= i < |markers| && Contains(h, markers[i])
  }

  /** Length of the digit run at the start of the text. */
  function Run(h: string, digit: char -> bool): (n: nat)
    ensures n <= |h| && (forall i :: 0 <= i < n ==> digit(h[i])) && (n < |h| ==> !digit(h[n]))
  {
    if h == "" || !digit(h[0]) then 0 else 1 + Run(h[1..], digit)
  }

  const STATUS_CODE := "status code "

  /** The group of the leftmost match of `status code (\d+)`. */
  function StatusGroup(h: string, digit: char -> bool): Option<string> {
    if StartsWith(h, STATUS_CODE) && Run(h[|STATUS_CODE|..], digit) > 0
    then Some(h[|STATUS_CODE|..][..Run(h[|STATUS_CODE|..], digit)])
    else if h == "" then None
    else StatusGroup(h[1..], digit)
  }

  predicate UnknownNonzeroStatusCode(h: string, digit: char -> bool) {
    StatusGroup(h, digit).Some? && StatusGroup(h, digit).value != "0"
  }

  predicate Matches(rule: Rule, h: string, digit: char -> bool) {
    ContainsAny(h, rule.markers) || (rule.statusArm && UnknownNonzeroStatusCode(h, digit))
  }

  // ---------------------------------------------------------------- redaction

  const LONG_RUN := 15
  const ID := "<id>"

  /** re.sub(r"\d{15,}", "<id>", h) */
  function Redact(h: string, digit: char -> bool): string {
    if h == "" then ""
    else
      var n := Run(h, digit);
      if n == 0 then [h[0]] + Redact(h[1..], digit)
      else if n < LONG_RUN then h[..n] + Redact(h[n..], digit)
      else ID + Redact(h[n..], digit)
  }

  // ---------------------------------------------------------------- classification

  /** The rules alone: the category of the first rule that matches, and 'transient' when none does. */
  function FirstMatch(rules: seq<Rule>, h: string, digit: char -> bool): Category {
    if rules == [] then Transient
    else if Matches(rules[0], h, digit) then rules[0].category
    else FirstMatch(rules[1..], h, digit)
  }

  function Classify(lowered: string, digit: char -> bool): Category {
    FirstMatch(ERROR_RULES, Redact(lowered, digit), digit)
  }

  /** `classify_error` on a text: lower-cased by the caller, redacted, then matched in order. */
  method ClassifyText(lowered: string, digit: char -> bool) returns (category: Category)
    ensures category == Classify(lowered, digit)
  {
    var haystack := Redact(lowered, digit);
    var i := 0;
    while i < |ERROR_RULES|
      invariant 0 <= i <= |ERROR_RULES|
      invariant FirstMatch(ERROR_RULES, haystack, digit) == FirstMatch(ERROR_RULES[i..], haystack, digit)
    {
      if Matches(ERROR_RULES[i], haystack, digit) {
        return ERROR_RULES[i].category;
      }
      assert ERROR_RULES[i..][1..] == ERROR_RULES[i + 1..];
      i := i + 1;
    }
    return Transient;
  }

  // ---------------------------------------------------------------- redaction never adds a match

  /** A marker that no redaction placeholder can take part in. */
  predicate Plain(m: string) {
    |m| >= 3 && '<' !in m && '>' !in m
  }

  lemma RedactStep(h: string, digit: char -> bool) returns (kept: string, rest: string)
    requires IsDigitClass(digit) && h != ""
    ensures Redact(h, digit) == kept + Redact(rest, digit) && |rest| < |h|
    ensures (h == kept + rest && kept != "") || (kept == ID && exists n :: 15 <= n <= |h| && rest == h[n..])
  {
    var n := Run(h, digit);
    if n == 0 {
      kept, rest := [h[0]], h[1..];
    } else {
      kept, rest := if n < LONG_RUN then h[..n] else ID, h[n..];
    }
  }

  /** What the redacted text starts with, the text itself starts with, placeholders apart. */
  lemma {:induction false} RedactedPrefix(h: string, m: string, digit: char -> bool)
    requires IsDigitClass(digit) && StartsWith(Redact(h, digit), m) && '<' !in m
    ensures StartsWith(h, m)
    decreases |h|
  {
    if m != "" {
      var kept, rest := RedactStep(h, digit);
      assert m[0] == kept[0];
      if |m| > |kept| {
        assert m[..|kept|] == kept;
        assert StartsWith(Redact(rest, digit), m[|kept|..]);
        RedactedPrefix(rest, m[|kept|..], digit);
        assert m == kept + m[|kept|..];
      } else {
        assert m == kept[..|m|];
      }
    }
  }

  lemma {:induction false} ContainsAfter(a: string, b: string, m: string)
    requires Contains(b, m)
    ensures Contains(a + b, m)
  {
    if a == [] {
      assert a + b == b;
    } else {
      assert (a + b)[1..] == a[1..] + b;
      ContainsAfter(a[1..], b, m);
    }
  }

  /** An occurrence in a concatenation starts within the first part or lies in the second. */
  lemma {:induction false} ContainsSplit(a: string, b: string, m: string) returns (k: nat)
    requires Contains(a + b, m)
    ensures k <= |a| && (k < |a| ==> StartsWith(a[k..] + b, m)) && (k == |a| ==> Contains(b, m))
  {
    if a == [] {
      assert a + b == b;
      k := 0;
    } else if StartsWith(a + b, m) {
      k := 0;
      assert a[0..] == a;
    } else {
      assert (a + b)[1..] == a[1..] + b;
      k := ContainsSplit(a[1..], b, m);
      assert k < |a[1..]| ==> a[1..][k..] == a[k + 1..];
      k := k + 1;
    }
  }

  lemma {:induction false} ContainsAt(h: string, k: nat, m: string)
    requires k <= |h| && StartsWith(h[k..], m)
    ensures Contains(h, m)
  {
    if k == 0 {
      assert h[0..] == h;
    } else {
      assert h[1..][k - 1..] == h[k..];
      ContainsAt(h[1..], k - 1, m);
    }
  }

  /** A plain marker found in the redacted text was in the text. */
  lemma {:induction false} RedactedMarker(h: string, m: string, digit: char -> bool)
    requires IsDigitClass(digit) && Plain(m) && Contains(Redact(h, digit), m)
    ensures Contains(h, m)
    decreases |h|
  {
    if h != "" {
      var kept, rest := RedactStep(h, digit);
      var k := ContainsSplit(kept, Redact(rest, digit), m);
      if k == |kept| {
        RedactedMarker(rest, m, digit);
        var n := |h| - |rest|;
        assert h == h[..n] + rest;
        ContainsAfter(h[..n], rest, m);
      } else if h == kept + rest && kept != ID {
        MarkerFromKept(h, kept, rest, k, m, digit);
      } else {
        PlaceholderHasNoMarker(k, Redact(rest, digit), m);
      }
    }
  }

  lemma PlaceholderHasNoMarker(k: nat, tail: string, m: string)
    requires k < |ID| && Plain(m)
    ensures !StartsWith(ID[k..] + tail, m)
  {
    var t := ID[k..] + tail;
    if |m| <= |t| {
      assert t[..|m|][if k == 0 then 0 else 3 - k] == if k == 0 then '<' else '>';
    }
  }

  lemma MarkerFromKept(h: string, kept: string, rest: string, k: nat, m: string, digit: char -> bool)
    requires IsDigitClass(digit) && h == kept + rest && k < |kept|
    requires Plain(m) && StartsWith(kept[k..] + Redact(rest, digit), m)
    ensures Contains(h, m)
  {
    var head := kept[k..];
    assert h[k..] == head + rest;
    if |m| > |head| {
      assert m[..|head|] == head;
      assert StartsWith(Redact(rest, digit), m[|head|..]);
      RedactedPrefix(rest, m[|head|..], digit);
      assert m == head + m[|head|..];
    } else {
      assert m == head[..|m|];
    }
    assert StartsWith(h[k..], m);
    ContainsAt(h, k, m);
  }

  // ---------------------------------------------------------------- redaction and the status-code arm

  predicate NoDigits(s: string, digit: char -> bool) {
    forall i :: 0 <= i < |s| ==> !digit(s[i])
  }

  /** A digit run ends where the digits end. */
  lemma {:induction false} RunIs(d: string, tail: string, digit: char -> bool)
    requires (forall i :: 0 <= i < |d| ==> digit(d[i])) && (tail != "" ==> !digit(tail[0]))
    ensures Run(d + tail, digit) == |d|
  {
    if d == "" {
      assert d + tail == tail;
    } else {
      assert (d + tail)[1..] == d[1..] + tail;
      RunIs(d[1..], tail, digit);
    }
  }

  lemma {:induction false} RedactAfterText(p: string, tail: string, digit: char -> bool)
    requires NoDigits(p, digit)
    ensures Redact(p + tail, digit) == p + Redact(tail, digit)
  {
    if p == "" {
      assert p + tail == tail;
    } else {
      assert (p + tail)[1..] == p[1..] + tail;
      RedactAfterText(p[1..], tail, digit);
      assert [p[0]] + (p[1..] + Redact(tail, digit)) == p + Redact(tail, digit);
    }
  }

  lemma RedactKeepsFirst(h: string, digit: char -> bool)
    requires IsDigitClass(digit) && (h != "" ==> !digit(h[0]))
    ensures Redact(h, digit) != "" ==> h != "" && Redact(h, digit)[0] == h[0]
    ensures h != "" ==> Redact(h, digit) != ""
  {
  }

  /** A short run after "status code " survives redaction as the same group. */
  lemma ShortGroupKept(d: string, tail: string, digit: char -> bool)
    requires IsDigitClass(digit) && 0 < |d| < LONG_RUN && (forall i :: 0 <= i < |d| ==> digit(d[i]))
    requires tail != "" ==> !digit(tail[0])
    ensures Redact(STATUS_CODE + (d + tail), digit) == STATUS_CODE + (d + Redact(tail, digit))
    ensures StatusGroup(STATUS_CODE + (d + tail), digit) == Some(d)
    ensures StatusGroup(STATUS_CODE + (d + Redact(tail, digit)), digit) == Some(d)
  {
    assert Redact(d + tail, digit) == d + Redact(tail, digit) by {
      RedactLeadingRun(d, tail, digit);
    }
    RedactAfterText(STATUS_CODE, d + tail, digit);
    assert StatusGroup(STATUS_CODE + (d + tail), digit) == Some(d) by {
      RunIs(d, tail, digit);
      GroupAtStart(d, tail, digit);
    }
    assert StatusGroup(STATUS_CODE + (d + Redact(tail, digit)), digit) == Some(d) by {
      RedactKeepsFirst(tail, digit);
      RunIs(d, Redact(tail, digit), digit);
      GroupAtStart(d, Redact(tail, digit), digit);
    }
  }

  lemma GroupAtStart(d: string, tail: string, digit: char -> bool)
    requires d != "" && Run(d + tail, digit) == |d|
    ensures StatusGroup(STATUS_CODE + (d + tail), digit) == Some(d)
  {
    var h := STATUS_CODE + (d + tail);
    assert h[..|STATUS_CODE|] == STATUS_CODE && h[|STATUS_CODE|..] == d + tail;
    assert (d + tail)[..|d|] == d;
  }

  /** Text that cannot begin the pattern is skipped by the search. */
  lemma {:induction false} GroupSkips(p: string, tail: string, digit: char -> bool)
    requires forall i :: 0 <= i < |p| ==> p[i] != 's'
    ensures StatusGroup(p + tail, digit) == StatusGroup(tail, digit)
  {
    if p == "" {
      assert p + tail == tail;
    } else {
      assert (p + tail)[1..] == p[1..] + tail;
      assert (p + tail)[0] != STATUS_CODE[0];
      GroupSkips(p[1..], tail, digit);
    }
  }

  ghost predicate SameGroup(h: string, r: string, digit: char -> bool) {
    StatusGroup(r, digit).Some? ==>
      || StatusGroup(h, digit) == StatusGroup(r, digit)
      || (StatusGroup(h, digit).Some? && |StatusGroup(h, digit).value| >= LONG_RUN)
  }

  lemma GroupSkipsRun(h: string, n: nat, digit: char -> bool)
    requires IsDigitClass(digit) && n == Run(h, digit) > 0
    ensures StatusGroup(h, digit) == StatusGroup(h[n..], digit)
  {
    assert h == h[..n] + h[n..];
    assert forall i :: 0 <= i < n ==> h[i] != 's';
    GroupSkips(h[..n], h[n..], digit);
  }

  lemma GroupSkipsRedacted(h: string, n: nat, digit: char -> bool)
    requires IsDigitClass(digit) && n == Run(h, digit) > 0
    ensures StatusGroup(Redact(h, digit), digit) == StatusGroup(Redact(h[n..], digit), digit)
  {
    var start := if n < LONG_RUN then h[..n] else ID;
    assert forall i :: 0 <= i < n ==> h[i] != 's';
    assert Redact(h, digit) == start + Redact(h[n..], digit);
    GroupSkips(start, Redact(h[n..], digit), digit);
  }

  lemma GroupAtMatch(h: string, digit: char -> bool)
    requires IsDigitClass(digit) && StartsWith(h, STATUS_CODE) && Run(h[|STATUS_CODE|..], digit) > 0
    ensures SameGroup(h, Redact(h, digit), digit)
  {
    var rest := h[|STATUS_CODE|..];
    var d, tail := rest[..Run(rest, digit)], rest[Run(rest, digit)..];
    assert rest == d + tail && h == STATUS_CODE + (d + tail);
    if |d| < LONG_RUN {
      ShortGroupKept(d, tail, digit);
    } else {
      assert StatusGroup(h, digit) == Some(d);
    }
  }

  /** The group found after redaction is the one found before, unless the original's is a long run of its own. */
  lemma {:induction false} RedactedGroup(h: string, digit: char -> bool)
    requires IsDigitClass(digit)
    ensures SameGroup(h, Redact(h, digit), digit)
    decreases |h|
  {
    if h != "" {
      var n := Run(h, digit);
      if n > 0 {
        GroupSkipsRun(h, n, digit);
        GroupSkipsRedacted(h, n, digit);
        RedactedGroup(h[n..], digit);
      } else if StartsWith(h, STATUS_CODE) && Run(h[|STATUS_CODE|..], digit) > 0 {
        GroupAtMatch(h, digit);
      } else {
        NoMatchAtStart(h, digit);
        assert (Redact(h, digit))[1..] == Redact(h[1..], digit);
        RedactedGroup(h[1..], digit);
      }
    }
  }

  /** If the pattern does not match at the start of the text, it does not match there after redaction. */
  lemma NoMatchAtStart(h: string, digit: char -> bool)
    requires IsDigitClass(digit) && !(StartsWith(h, STATUS_CODE) && Run(h[|STATUS_CODE|..], digit) > 0)
    ensures var r := Redact(h, digit); !(StartsWith(r, STATUS_CODE) && Run(r[|STATUS_CODE|..], digit) > 0)
  {
    var r := Redact(h, digit);
    if StartsWith(r, STATUS_CODE) {
      RedactedPrefix(h, STATUS_CODE, digit);
      var rest := h[|STATUS_CODE|..];
      assert h == STATUS_CODE + rest;
      RedactAfterText(STATUS_CODE, rest, digit);
      assert r[|STATUS_CODE|..] == Redact(rest, digit);
      RedactKeepsFirst(rest, digit);
    }
  }

  // ---------------------------------------------------------------- the main results

  /** A rule of the table, its status-code arm included, matches the redacted text only if it matched the text. */
  lemma RedactionAddsNoMatch(h: string, rule: Rule, digit: char -> bool)
    requires IsDigitClass(digit) && rule in ERROR_RULES && Matches(rule, Redact(h, digit), digit)
    ensures Matches(rule, h, digit)
  {
    MarkersArePlain(rule);
    if ContainsAny(Redact(h, digit), rule.markers) {
      var i :| 0 <= i < |rule.markers| && Contains(Redact(h, digit), rule.markers[i]);
      RedactedMarker(h, rule.markers[i], digit);
    } else {
      RedactedGroup(h, digit);
    }
  }

  lemma MarkersArePlain(rule: Rule)
    requires rule in ERROR_RULES
    ensures forall i :: 0 <= i < |rule.markers| ==> Plain(rule.markers[i])
  {
    AuthMarkersArePlain();
    FeedMarkersArePlain();
    ChallengeMarkersArePlain();
    StatusMarkersArePlain();
    TailMarkersArePlain();
    RateMarkersArePlain();
  }

  ghost predicate AllPlain(markers: seq<string>) {
    forall i :: 0 <= i < |markers| ==> Plain(markers[i])
  }

  lemma AuthMarkersArePlain()
    ensures AllPlain(AUTH_MARKERS)
  {
  }

  lemma FeedMarkersArePlain()
    ensures AllPlain(FEED_MARKERS)
  {
  }

  lemma ChallengeMarkersArePlain()
    ensures AllPlain(CHALLENGE_MARKERS)
  {
  }

  lemma StatusMarkersArePlain()
    ensures AllPlain(IP_BLOCK.markers) && AllPlain(FORBIDDEN.markers) && AllPlain(STATUS_ZERO.markers)
    ensures AllPlain(NONEXISTENT.markers)
  {
  }

  lemma TailMarkersArePlain()
    ensures AllPlain(LOCAL_DISK.markers) && AllPlain(EMPTY_ACCOUNT.markers)
  {
  }

  lemma RateMarkersArePlain()
    ensures AllPlain(RATE_TIMEOUT.markers)
  {
  }

  predicate AllDigits(d: string, digit: char -> bool) {
    forall i :: 0 <= i < |d| ==> digit(d[i])
  }

  lemma RedactLeadingRun(run: string, post: string, digit: char -> bool)
    requires |run| > 0 && AllDigits(run, digit) && (post != "" ==> !digit(post[0]))
    ensures Redact(run + post, digit) == (if |run| < LONG_RUN then run else ID) + Redact(post, digit)
  {
    RunIs(run, post, digit);
    assert (run + post)[|run|..] == post && (run + post)[..|run|] == run;
  }

  lemma Regroup(a: string, b: string, c: string)
    ensures a + (b + c) == (a + b) + c
  {
  }

  lemma LongerTail(p: string, tail: string, digit: char -> bool)
    requires p != "" && !digit(p[0])
    ensures p + tail != "" && !digit((p + tail)[0])
  {
  }

  lemma RedactAfterRun(run: string, p: string, tail: string, digit: char -> bool)
    requires |run| > 0 && AllDigits(run, digit) && p != "" && !digit(p[0])
    requires Redact(p + tail, digit) == Redact(p, digit) + Redact(tail, digit)
    ensures Redact(run + p + tail, digit) == Redact(run + p, digit) + Redact(tail, digit)
  {
    LongerTail(p, tail, digit);
    var whole := p + tail;
    RedactLeadingRun(run, whole, digit);
    RedactLeadingRun(run, p, digit);
    Regroup(if |run| < LONG_RUN then run else ID, Redact(p, digit), Redact(tail, digit));
    Regroup(run, p, tail);
  }

  lemma RedactNonDigit(c: char, tail: string, digit: char -> bool)
    requires !digit(c)
    ensures Redact([c] + tail, digit) == [c] + Redact(tail, digit)
  {
    assert ([c] + tail)[1..] == tail;
  }

  lemma RedactAfterChar(c: char, p: string, tail: string, digit: char -> bool)
    requires !digit(c) && Redact(p + tail, digit) == Redact(p, digit) + Redact(tail, digit)
    ensures Redact([c] + p + tail, digit) == Redact([c] + p, digit) + Redact(tail, digit)
  {
    RedactNonDigit(c, p, digit);
    RedactNonDigit(c, p + tail, digit);
    Regroup([c], Redact(p, digit), Redact(tail, digit));
    Regroup([c], p, tail);
  }

  lemma RunThenRest(pre: string, digit: char -> bool) returns (run: string, p: string)
    requires pre != "" && digit(pre[0]) && !digit(pre[|pre| - 1])
    ensures pre == run + p && |run| > 0 && AllDigits(run, digit)
    ensures p != "" && !digit(p[0]) && !digit(p[|p| - 1])
  {
    run, p := pre[..Run(pre, digit)], pre[Run(pre, digit)..];
  }

  /** Redaction goes through a text ending in a non-digit as it would alone. */
  lemma {:induction false} RedactSplits(pre: string, tail: string, digit: char -> bool)
    requires pre != "" ==> !digit(pre[|pre| - 1])
    ensures Redact(pre + tail, digit) == Redact(pre, digit) + Redact(tail, digit)
    decreases |pre|
  {
    if pre == "" {
      assert pre + tail == tail;
    } else if !digit(pre[0]) {
      RedactSplits(pre[1..], tail, digit);
      RedactAfterChar(pre[0], pre[1..], tail, digit);
      assert pre == [pre[0]] + pre[1..];
    } else {
      var run, p := RunThenRest(pre, digit);
      RedactSplits(p, tail, digit);
      RedactAfterRun(run, p, tail, digit);
    }
  }

  /** Redaction of a maximal long run, whatever its digits. */
  lemma RedactLongRun(pre: string, run: string, post: string, digit: char -> bool)
    requires |run| >= LONG_RUN && AllDigits(run, digit)
    requires (pre != "" ==> !digit(pre[|pre| - 1])) && (post != "" ==> !digit(post[0]))
    ensures Redact(pre + (run + post), digit) == Redact(pre, digit) + (ID + Redact(post, digit))
  {
    RedactSplits(pre, run + post, digit);
    RedactLeadingRun(run, post, digit);
  }

  /** Swapping one maximal long digit run for another never changes the category. */
  lemma LongRunsDoNotMatter(pre: string, run: string, other: string, post: string, digit: char -> bool)
    requires |run| >= LONG_RUN && |other| >= LONG_RUN && AllDigits(run, digit) && AllDigits(other, digit)
    requires (pre != "" ==> !digit(pre[|pre| - 1])) && (post != "" ==> !digit(post[0]))
    ensures Classify(pre + (run + post), digit) == Classify(pre + (other + post), digit)
  {
    assert Redact(pre + (run + post), digit) == Redact(pre + (other + post), digit) by {
      RedactLongRun(pre, run, post, digit);
      RedactLongRun(pre, other, post, digit);
    }
  }

  /** 'definitive' needs the auth rule or the nonexistent rule, and no rule above it. */
  lemma WhenDefinitive(h: string, digit: char -> bool)
    ensures FirstMatch(ERROR_RULES, h, digit) == Definitive <==>
            && !Matches(IP_BLOCK, h, digit)
            && (Matches(AUTH, h, digit)
                || (!Matches(FORBIDDEN, h, digit) && !Matches(STATUS_ZERO, h, digit) && Matches(NONEXISTENT, h, digit)))
  {
    Unroll(ERROR_RULES, 0, h, digit);
    Unroll(ERROR_RULES, 1, h, digit);
    Unroll(ERROR_RULES, 2, h, digit);
    Unroll(ERROR_RULES, 3, h, digit);
    Unroll(ERROR_RULES, 4, h, digit);
    NoneDefinitive(ERROR_RULES[5..], h, digit);
    assert ERROR_RULES[0..] == ERROR_RULES;
  }

  lemma Unroll(rules: seq<Rule>, i: nat, h: string, digit: char -> bool)
    requires i < |rules|
    ensures FirstMatch(rules[i..], h, digit)
            == if Matches(rules[i], h, digit) then rules[i].category else FirstMatch(rules[i + 1..], h, digit)
  {
    assert rules[i..][1..] == rules[i + 1..];
  }

  lemma {:induction false} NoneDefinitive(rules: seq<Rule>, h: string, digit: char -> bool)
    requires forall i :: 0 <= i < |rules| ==> rules[i].category != Definitive
    ensures FirstMatch(rules, h, digit) != Definitive
  {
    if rules != [] {
      NoneDefinitive(rules[1..], h, digit);
    }
  }

  // ---------------------------------------------------------------- the table, marker by marker

  predicate SaysBlocked(h: string) {
    Contains(h, "blocked") || Contains(h, "ip address is blocked")
  }

  predicate SaysLogin(h: string) {
    || Contains(h, "requiring login") || Contains(h, "login required") || Contains(h, "log into an account")
    || Contains(h, "log in for access") || Contains(h, "permission to view") || Contains(h, "account is private")
    || Contains(h, "captcha") || Contains(h, "banned") || Contains(h, "suspended") || Contains(h, "session expired")
  }

  predicate SaysGone(h: string, digit: char -> bool) {
    || Contains(h, "video unavailable") || Contains(h, "404") || Contains(h, "removed")
    || (StatusGroup(h, digit).Some? && StatusGroup(h, digit).value != "0")
  }

  predicate SaysExtractor(h: string) {
    || Contains(h, "keeps sending the same page") || Contains(h, "unable to extract") || Contains(h, "no entries")
    || Contains(h, "invalid json") || Contains(h, "unable to parse json") || Contains(h, "jsondecodeerror")
    || Contains(h, "unable to solve js challenge") || Contains(h, "unable to extract challenge data") || Contains(h, "please wait")
  }

  lemma Finds(h: string, markers: seq<string>, i: nat)
    requires i < |markers| && Contains(h, markers[i])
    ensures ContainsAny(h, markers)
  {
  }

  lemma {:induction false} AnyOf(h: string, markers: seq<string>)
    ensures ContainsAny(h, markers) <==> markers != [] && (Contains(h, markers[0]) || ContainsAny(h, markers[1..]))
  {
    if ContainsAny(h, markers) {
      var i :| 0 <= i < |markers| && Contains(h, markers[i]);
      if i > 0 {
        Finds(h, markers[1..], i - 1);
      }
    }
    if markers != [] && ContainsAny(h, markers[1..]) {
      var i :| 0 <= i < |markers[1..]| && Contains(h, markers[1..][i]);
      Finds(h, markers, i + 1);
    }
  }

  lemma LoginSpelledOut(h: string)
    ensures ContainsAny(h, AUTH_MARKERS) <==> SaysLogin(h)
  {
    forall i | 0 <= i < 10 && Contains(h, AUTH_MARKERS[i])
      ensures ContainsAny(h, AUTH_MARKERS)
    {
      Finds(h, AUTH_MARKERS, i);
    }
    assert |AUTH_MARKERS| == 10;
    assert AUTH_MARKERS[0] == "requiring login" && AUTH_MARKERS[1] == "login required" && AUTH_MARKERS[2] == "log into an account";
    assert AUTH_MARKERS[3] == "log in for access" && AUTH_MARKERS[4] == "permission to view";
    assert AUTH_MARKERS[5] == "account is private" && AUTH_MARKERS[6] == "captcha" && AUTH_MARKERS[7] == "banned";
    assert AUTH_MARKERS[8] == "suspended" && AUTH_MARKERS[9] == "session expired";
  }

  lemma ExtractorSpelledOut(h: string)
    ensures ContainsAny(h, EXTRACTOR.markers) <==> SaysExtractor(h)
  {
    var m := EXTRACTOR.markers;
    forall i | 0 <= i < 9 && Contains(h, m[i])
      ensures ContainsAny(h, m)
    {
      Finds(h, m, i);
    }
    assert |m| == 9 && m[0] == "keeps sending the same page" && m[1] == "unable to extract" && m[2] == "no entries";
    assert m[3] == "invalid json" && m[4] == "unable to parse json" && m[5] == "jsondecodeerror";
    assert m[6] == "unable to solve js challenge" && m[7] == "unable to extract challenge data" && m[8] == "please wait";
  }

  lemma ShortRulesSpelledOut(h: string, digit: char -> bool)
    ensures Matches(IP_BLOCK, h, digit) <==> SaysBlocked(h)
    ensures Matches(FORBIDDEN, h, digit) <==> Contains(h, "403")
    ensures Matches(STATUS_ZERO, h, digit) <==> Contains(h, "status code 0")
    ensures Matches(LOCAL_DISK, h, digit) <==> Contains(h, "no space left") || Contains(h, "enospc")
    ensures Matches(EMPTY_ACCOUNT, h, digit) <==> Contains(h, "does not have any videos posted")
  {
    AnyOf(h, IP_BLOCK.markers);
    AnyOf(h, IP_BLOCK.markers[1..]);
    AnyOf(h, FORBIDDEN.markers);
    AnyOf(h, STATUS_ZERO.markers);
    AnyOf(h, LOCAL_DISK.markers);
    AnyOf(h, LOCAL_DISK.markers[1..]);
    AnyOf(h, EMPTY_ACCOUNT.markers);
  }

  lemma GoneSpelledOut(h: string, digit: char -> bool)
    ensures Matches(NONEXISTENT, h, digit) <==> SaysGone(h, digit)
  {
    AnyOf(h, NONEXISTENT.markers);
    AnyOf(h, NONEXISTENT.markers[1..]);
    AnyOf(h, NONEXISTENT.markers[1..][1..]);
  }

  /** The category of a redacted text, in the order in which its markers are looked for. */
  lemma RulesSpelledOut(h: string, digit: char -> bool)
    ensures FirstMatch(ERROR_RULES, h, digit) ==
      if SaysBlocked(h) then Transient
      else if SaysLogin(h) then Definitive
      else if Contains(h, "403") || Contains(h, "status code 0") then Transient
      else if SaysGone(h, digit) then Definitive
      else if SaysExtractor(h) then Transient
      else if Contains(h, "no space left") || Contains(h, "enospc") then Local
      else if Contains(h, "does not have any videos posted") then Info
      else Transient
  {
    LoginSpelledOut(h);
    ShortRulesSpelledOut(h, digit);
    GoneSpelledOut(h, digit);
    ExtractorSpelledOut(h);
    FirstRules(h, digit);
    LastRules(h, digit);
  }

  lemma FirstRules(h: string, digit: char -> bool)
    ensures FirstMatch(ERROR_RULES, h, digit) ==
      if Matches(IP_BLOCK, h, digit) then Transient
      else if Matches(AUTH, h, digit) then Definitive
      else if Matches(FORBIDDEN, h, digit) || Matches(STATUS_ZERO, h, digit) then Transient
      else if Matches(NONEXISTENT, h, digit) then Definitive
      else FirstMatch(ERROR_RULES[5..], h, digit)
  {
    Unroll(ERROR_RULES, 0, h, digit);
    Unroll(ERROR_RULES, 1, h, digit);
    Unroll(ERROR_RULES, 2, h, digit);
    Unroll(ERROR_RULES, 3, h, digit);
    Unroll(ERROR_RULES, 4, h, digit);
    assert ERROR_RULES[0..] == ERROR_RULES;
  }

  lemma LastRules(h: string, digit: char -> bool)
    ensures FirstMatch(ERROR_RULES[5..], h, digit) ==
      if Matches(EXTRACTOR, h, digit) then Transient
      else if Matches(LOCAL_DISK, h, digit) then Local
      else if Matches(EMPTY_ACCOUNT, h, digit) then Info
      else Transient
  {
    Unroll(ERROR_RULES, 5, h, digit);
    Unroll(ERROR_RULES, 6, h, digit);
    Unroll(ERROR_RULES, 7, h, digit);
    Unroll(ERROR_RULES, 8, h, digit);
    assert ERROR_RULES[9..] == [];
  }

  /** A match of `status code (\d+)` with this group, as many digits as there are. */
  ghost predicate MatchAt(h: string, k: nat, group: string, digit: char -> bool) {
    && k + 12 + |group| <= |h| && h[k..k + 12] == "status code " && h[k + 12..k + 12 + |group|] == group
    && group != "" && AllDigits(group, digit) && (k + 12 + |group| < |h| ==> !digit(h[k + 12 + |group|]))
  }

  lemma MatchAfter(h: string, k: nat, group: string, digit: char -> bool)
    requires h != ""
    ensures MatchAt(h[1..], k, group, digit) <==> MatchAt(h, k + 1, group, digit)
  {
    if k + 13 + |group| <= |h| {
      assert h[1..][k..k + 12] == h[k + 1..k + 13];
      assert h[1..][k + 12..k + 12 + |group|] == h[k + 13..k + 13 + |group|];
    }
  }

  lemma MatchHere(h: string, group: string, digit: char -> bool)
    ensures MatchAt(h, 0, group, digit) <==>
      StartsWith(h, STATUS_CODE) && Run(h[|STATUS_CODE|..], digit) > 0 && group == h[|STATUS_CODE|..][..Run(h[|STATUS_CODE|..], digit)]
  {
    if StartsWith(h, STATUS_CODE) {
      var rest := h[|STATUS_CODE|..];
      if MatchAt(h, 0, group, digit) {
        assert rest[..|group|] == group;
        RunIs(group, rest[|group|..], digit);
        assert rest == group + rest[|group|..];
      }
    }
  }

  /** The group is that of the leftmost match, and there is none exactly when the pattern matches nowhere. */
  lemma {:induction false} GroupIsLeftmost(h: string, digit: char -> bool) returns (k: nat)
    ensures StatusGroup(h, digit).Some? ==> MatchAt(h, k, StatusGroup(h, digit).value, digit)
    ensures forall j: nat, group :: MatchAt(h, j, group, digit) ==> StatusGroup(h, digit).Some? && k <= j
  {
    k := 0;
    forall group
      ensures MatchAt(h, 0, group, digit) <==>
        StartsWith(h, STATUS_CODE) && Run(h[|STATUS_CODE|..], digit) > 0 && group == h[|STATUS_CODE|..][..Run(h[|STATUS_CODE|..], digit)]
    {
      MatchHere(h, group, digit);
    }
    if h != "" && !(StartsWith(h, STATUS_CODE) && Run(h[|STATUS_CODE|..], digit) > 0) {
      var r := GroupIsLeftmost(h[1..], digit);
      k := r + 1;
      forall j: nat, group | MatchAt(h, j, group, digit)
        ensures StatusGroup(h, digit).Some? && k <= j
      {
        assert j > 0;
        MatchAfter(h, j - 1, group, digit);
      }
      if StatusGroup(h, digit).Some? {
        MatchAfter(h, r, StatusGroup(h, digit).value, digit);
      }
    }
  }

  // ---------------------------------------------------------------- what redaction takes out, and what it leaves

  ghost predicate LongRunAt(s: string, i: nat, digit: char -> bool) {
    i + 15 <= |s| && AllDigits(s[i..i + 15], digit)
  }

  /** No fifteen digits in a row. */
  ghost predicate NoLongRun(s: string, digit: char -> bool) {
    forall i: nat :: !LongRunAt(s, i, digit)
  }

  lemma RunBehind(a: string, s: string, i: nat, digit: char -> bool)
    ensures LongRunAt(a + s, |a| + i, digit) <==> LongRunAt(s, i, digit)
  {
    if i + 15 <= |s| {
      assert (a + s)[|a| + i..|a| + i + 15] == s[i..i + 15];
    }
  }

  lemma NotThrough(s: string, i: nat, k: nat, digit: char -> bool)
    requires i <= k < i + 15 && k < |s| && !digit(s[k])
    ensures !LongRunAt(s, i, digit)
  {
    assert i + 15 <= |s| ==> s[i..i + 15][k - i] == s[k];
  }

  lemma ShortBefore(run: string, s: string, digit: char -> bool)
    requires |run| < 15 && NoLongRun(s, digit) && (s != "" ==> !digit(s[0]))
    ensures NoLongRun(run + s, digit)
  {
    forall i: nat
      ensures !LongRunAt(run + s, i, digit)
    {
      if i >= |run| {
        RunBehind(run, s, i - |run|, digit);
      } else if s != "" {
        NotThrough(run + s, i, |run|, digit);
      }
    }
  }

  lemma NonDigitBefore(c: char, s: string, digit: char -> bool)
    requires !digit(c) && NoLongRun(s, digit)
    ensures NoLongRun([c] + s, digit)
  {
    forall i: nat
      ensures !LongRunAt([c] + s, i, digit)
    {
      if i == 0 {
        NotThrough([c] + s, 0, 0, digit);
      } else {
        RunBehind([c], s, i - 1, digit);
      }
    }
  }

  lemma PlaceholderBefore(s: string, digit: char -> bool)
    requires IsDigitClass(digit) && NoLongRun(s, digit)
    ensures NoLongRun(ID + s, digit)
  {
    NonDigitBefore('>', s, digit);
    NonDigitBefore('d', ['>'] + s, digit);
    NonDigitBefore('i', ['d'] + (['>'] + s), digit);
    NonDigitBefore('<', ['i'] + (['d'] + (['>'] + s)), digit);
    assert ID + s == ['<'] + (['i'] + (['d'] + (['>'] + s)));
  }

  /** After redaction no run of fifteen digits is left. */
  lemma {:induction false} RedactedHasNoLongRun(h: string, digit: char -> bool)
    requires IsDigitClass(digit)
    ensures NoLongRun(Redact(h, digit), digit)
    decreases |h|
  {
    if h != "" {
      var n := Run(h, digit);
      if n == 0 {
        RedactedHasNoLongRun(h[1..], digit);
        NonDigitBefore(h[0], Redact(h[1..], digit), digit);
      } else {
        RedactedHasNoLongRun(h[n..], digit);
        RedactKeepsFirst(h[n..], digit);
        if n < LONG_RUN {
          ShortBefore(h[..n], Redact(h[n..], digit), digit);
        } else {
          PlaceholderBefore(Redact(h[n..], digit), digit);
        }
      }
    }
  }

  lemma LongRunShows(h: string, digit: char -> bool)
    requires Run(h, digit) >= 15
    ensures LongRunAt(h, 0, digit)
  {
  }

  /** A text without a run of fifteen digits is left as it is; so redacting twice is redacting once. */
  lemma {:induction false} ShortRunsStay(h: string, digit: char -> bool)
    requires NoLongRun(h, digit)
    ensures Redact(h, digit) == h
    decreases |h|
  {
    if h != "" {
      var n := Run(h, digit);
      var m := if n == 0 then 1 else n;
      if n >= 15 {
        LongRunShows(h, digit);
      }
      assert h == h[..m] + h[m..] && |h[..m]| == m;
      forall i: nat
        ensures !LongRunAt(h[m..], i, digit)
      {
        RunBehind(h[..m], h[m..], i, digit);
      }
      ShortRunsStay(h[m..], digit);
      assert h[..1] == [h[0]];
    }
  }

  lemma RedactingTwice(h: string, digit: char -> bool)
    requires IsDigitClass(digit)
    ensures Redact(Redact(h, digit), digit) == Redact(h, digit)
  {
    RedactedHasNoLongRun(h, digit);
    ShortRunsStay(Redact(h, digit), digit);
  }

  lemma DiffersAt(h: string, m: string, k: nat)
    requires k < |m| && k < |h| && m[k] != h[k]
    ensures !StartsWith(h, m)
  {
  }

  lemma {:induction false} NotInRun(run: string, rest: string, m: string, digit: char -> bool)
    requires AllDigits(run, digit) && NoDigits(m, digit) && m != "" && Contains(run + rest, m)
    ensures Contains(rest, m)
  {
    if run == "" {
      assert run + rest == rest;
    } else {
      assert (run + rest)[1..] == run[1..] + rest;
      DiffersAt(run + rest, m, 0);
      NotInRun(run[1..], rest, m, digit);
    }
  }

  /** A marker without digits outlives redaction. */
  lemma {:induction false} WordsSurvive(h: string, m: string, digit: char -> bool)
    requires NoDigits(m, digit) && m != "" && Contains(h, m)
    ensures Contains(Redact(h, digit), m)
    decreases |h|
  {
    if StartsWith(h, m) {
      RedactAfterText(m, h[|m|..], digit);
      assert h == m + h[|m|..];
      ContainsAt(m + Redact(h[|m|..], digit), 0, m);
    } else {
      var n := Run(h, digit);
      if n == 0 {
        WordsSurvive(h[1..], m, digit);
        ContainsAfter([h[0]], Redact(h[1..], digit), m);
      } else {
        assert h == h[..n] + h[n..];
        NotInRun(h[..n], h[n..], m, digit);
        WordsSurvive(h[n..], m, digit);
        ContainsAfter(if n < LONG_RUN then h[..n] else ID, Redact(h[n..], digit), m);
      }
    }
  }

  // ---------------------------------------------------------------- the chained causes

  class PyException {
    const text: string
    const repr: string
    var cause: PyException?

    constructor (text: string, repr: string, cause: PyException?)
      ensures this.text == text && this.repr == repr && this.cause == cause
    {
      this.text, this.repr, this.cause := text, repr, cause;
    }
  }

  ghost predicate Closed(all: set<PyException>)
    reads all
  {
    forall e :: e in all && e.cause != null ==> e.cause in all
  }

  /** The exceptions met on the way along __cause__, up to the end or to the first one met before. */
  ghost function Chain(e: PyException?, seen: set<PyException>, all: set<PyException>): seq<PyException>
    requires Closed(all) && (e != null ==> e in all) && seen <= all
    reads all
    decreases all - seen
  {
    if e == null || e in seen then [] else [e] + Chain(e.cause, seen + {e}, all)
  }

  ghost function Parts(chain: seq<PyException>): seq<string> {
    if chain == [] then [] else [chain[0].text, chain[0].repr] + Parts(chain[1..])
  }

  /** The cause walk of `classify_error`: it terminates on cyclic chains and reads every exception of the chain once. */
  method CollectParts(e: PyException, ghost all: set<PyException>) returns (parts: seq<string>)
    requires Closed(all) && e in all
    ensures parts == Parts(Chain(e, {}, all))
  {
    parts := [];
    var seen: set<PyException> := {};
    var current: PyException? := e;
    while current != null && current !in seen
      invariant seen <= all && (current != null ==> current in all)
      invariant parts + Parts(Chain(current, seen, all)) == Parts(Chain(e, {}, all))
      decreases all - seen
    {
      assert Chain(current, seen, all)[1..] == Chain(current.cause, seen + {current}, all);
      seen := seen + {current};
      parts := parts + [current.text, current.repr];
      current := current.cause;
    }
  }

  /** The chain follows the causes without repetition and stops only at an end or at an exception already read. */
  lemma {:induction false} ChainIsWhole(e: PyException, seen: set<PyException>, all: set<PyException>)
    requires Closed(all) && e in all && seen <= all && e !in seen
    ensures var c := Chain(e, seen, all);
      && c != [] && c[0] == e
      && (forall i :: 0 <= i < |c| ==> c[i] !in seen)
      && (forall i, j :: 0 <= i < j < |c| ==> c[i] != c[j])
      && (forall i :: 0 <= i < |c| - 1 ==> c[i].cause == c[i + 1])
      && (c[|c| - 1].cause == null || c[|c| - 1].cause in seen || exists i :: 0 <= i < |c| && c[|c| - 1].cause == c[i])
    decreases all - seen
  {
    var c := Chain(e, seen, all);
    if e.cause != null && e.cause !in seen + {e} {
      ChainIsWhole(e.cause, seen + {e}, all);
      var rest := Chain(e.cause, seen + {e}, all);
      assert c == [e] + rest;
      forall i | 0 <= i < |c| - 1 ensures c[i].cause == c[i + 1] {
        if i > 0 { assert rest[i - 1].cause == rest[i]; }
      }
      var last := c[|c| - 1].cause;
      if last != null && last !in seen && last != e {
        var i :| 0 <= i < |rest| && last == rest[i];
        assert c[i + 1] == last;
      } else if last == e {
        assert c[0] == last;
      }
    } else {
      assert Chain(e.cause, seen + {e}, all) == [];
    }
  }

  /** " \n".join */
  function Joined(parts: seq<string>): string {
    if parts == [] then "" else if |parts| == 1 then parts[0] else parts[0] + " \n" + Joined(parts[1..])
  }

  // ---------------------------------------------------------------- nothing in the chain is lost

  lemma {:induction false} ContainsBefore(a: string, b: string, m: string)
    requires Contains(a, m)
    ensures Contains(a + b, m)
  {
    if StartsWith(a, m) {
      assert (a + b)[..|m|] == a[..|m|];
    } else {
      assert (a + b)[1..] == a[1..] + b;
      ContainsBefore(a[1..], b, m);
    }
  }

  /** A marker in a part is in the joined text. */
  lemma {:induction false} PartIsJoined(parts: seq<string>, i: nat, m: string)
    requires i < |parts| && Contains(parts[i], m)
    ensures Contains(Joined(parts), m)
  {
    if |parts| > 1 {
      if i == 0 {
        ContainsBefore(parts[0], " \n" + Joined(parts[1..]), m);
        assert parts[0] + " \n" + Joined(parts[1..]) == parts[0] + (" \n" + Joined(parts[1..]));
      } else {
        PartIsJoined(parts[1..], i - 1, m);
        ContainsAfter(parts[0] + " \n", Joined(parts[1..]), m);
      }
    }
  }

  lemma NotAcross(a: string, b: string, m: string)
    requires m != "" && ' ' !in m && '\n' !in m && Contains(a + " \n" + b, m)
    ensures Contains(a, m) || Contains(b, m)
  {
    assert a + " \n" + b == a + (" \n" + b);
    var k := ContainsSplit(a, " \n" + b, m);
    if k < |a| {
      if StartsWith(a[k..], m) {
        ContainsAt(a, k, m);
      } else {
        NotPastTheEnd(a[k..], b, m);
      }
    } else {
      assert (" \n" + b)[1..] == "\n" + b && ("\n" + b)[1..] == b;
      assert m[0] != ' ' && m[0] != '\n';
      assert !StartsWith(" \n" + b, m) && !StartsWith("\n" + b, m);
    }
  }

  lemma NotPastTheEnd(a: string, b: string, m: string)
    requires ' ' !in m && !StartsWith(a, m)
    ensures !StartsWith(a + (" \n" + b), m)
  {
    var t := a + (" \n" + b);
    if |m| <= |a| {
      assert t[..|m|] == a[..|m|];
    } else {
      DiffersAt(t, m, |a|);
    }
  }

  /** A word in the joined text is in one of the parts. */
  lemma {:induction false} WordIsInAPart(parts: seq<string>, m: string) returns (i: nat)
    requires m != "" && ' ' !in m && '\n' !in m && Contains(Joined(parts), m)
    ensures i < |parts| && Contains(parts[i], m)
  {
    if |parts| == 1 || Contains(parts[0], m) {
      i := 0;
    } else {
      NotAcross(parts[0], Joined(parts[1..]), m);
      var j := WordIsInAPart(parts[1..], m);
      i := j + 1;
    }
  }

  function LowerAll(parts: seq<string>, lower: string -> string): seq<string> {
    if parts == [] then [] else [lower(parts[0])] + LowerAll(parts[1..], lower)
  }

  /** str.lower does not look across the separator. */
  ghost predicate LowersApart(lower: string -> string) {
    forall a, b :: lower(a + " \n" + b) == lower(a) + " \n" + lower(b)
  }

  lemma {:induction false} LowerJoined(parts: seq<string>, lower: string -> string)
    requires LowersApart(lower) && parts != []
    ensures |LowerAll(parts, lower)| == |parts| && lower(Joined(parts)) == Joined(LowerAll(parts, lower))
    ensures forall i :: 0 <= i < |parts| ==> LowerAll(parts, lower)[i] == lower(parts[i])
  {
    if |parts| > 1 {
      LowerJoined(parts[1..], lower);
      var rest := LowerAll(parts[1..], lower);
      assert ([lower(parts[0])] + rest)[1..] == rest;
    }
  }

  lemma {:induction false} PartsAre(chain: seq<PyException>)
    ensures |Parts(chain)| == 2 * |chain|
    ensures forall i :: 0 <= i < |chain| ==> Parts(chain)[2 * i] == chain[i].text && Parts(chain)[2 * i + 1] == chain[i].repr
  {
    if chain != [] {
      PartsAre(chain[1..]);
    }
  }

  /** Some exception of the chain has the marker in its text or its repr. */
  ghost predicate Mentions(chain: seq<PyException>, m: string, lower: string -> string) {
    exists i :: 0 <= i < |chain| && (Contains(lower(chain[i].text), m) || Contains(lower(chain[i].repr), m))
  }

  /** A marker mentioned anywhere in the chain is in the text that is classified, and a word only if it is mentioned. */
  lemma MentionedIsJoined(chain: seq<PyException>, m: string, lower: string -> string)
    requires LowersApart(lower) && chain != []
    ensures Mentions(chain, m, lower) ==> Contains(lower(Joined(Parts(chain))), m)
    ensures m != "" && ' ' !in m && '\n' !in m && Contains(lower(Joined(Parts(chain))), m) ==> Mentions(chain, m, lower)
  {
    var parts := Parts(chain);
    PartsAre(chain);
    LowerJoined(parts, lower);
    if Mentions(chain, m, lower) {
      var i :| 0 <= i < |chain| && (Contains(lower(chain[i].text), m) || Contains(lower(chain[i].repr), m));
      PartIsJoined(LowerAll(parts, lower), if Contains(lower(chain[i].text), m) then 2 * i else 2 * i + 1, m);
    }
    if m != "" && ' ' !in m && '\n' !in m && Contains(lower(Joined(parts)), m) {
      var j := WordIsInAPart(LowerAll(parts, lower), m);
      assert j == 2 * (j / 2) || j == 2 * (j / 2) + 1;
      assert Contains(lower(chain[j / 2].text), m) || Contains(lower(chain[j / 2].repr), m);
    }
  }

  lemma MarkersHaveNoDigits(digit: char -> bool)
    requires IsDigitClass(digit)
    ensures NoDigits("blocked", digit)
    ensures forall k :: 0 <= k < |AUTH_MARKERS| ==> AUTH_MARKERS[k] != "" && NoDigits(AUTH_MARKERS[k], digit)
  {
    assert forall c | 'a' <= c <= 'z' || c == ' ' :: !digit(c);
    AuthMarkersAreWords();
  }

  predicate Letters(m: string) {
    m != "" && forall i :: 0 <= i < |m| ==> 'a' <= m[i] <= 'z' || m[i] == ' '
  }

  lemma AuthMarkersAreWords()
    ensures forall k :: 0 <= k < |AUTH_MARKERS| ==> Letters(AUTH_MARKERS[k])
  {
  }

  /** An IP block named anywhere in the chain is transient; without one, a login marker anywhere in it is definitive. */
  lemma ChainDecides(chain: seq<PyException>, lower: string -> string, digit: char -> bool)
    requires IsDigitClass(digit) && LowersApart(lower) && chain != []
    ensures var category := Classify(lower(Joined(Parts(chain))), digit);
      if Mentions(chain, "blocked", lower) then category == Transient
      else (exists k :: 0 <= k < |AUTH_MARKERS| && Mentions(chain, AUTH_MARKERS[k], lower)) ==> category == Definitive
  {
    var h := lower(Joined(Parts(chain)));
    MarkersHaveNoDigits(digit);
    RulesSpelledOut(Redact(h, digit), digit);
    MentionedIsJoined(chain, "blocked", lower);
    if Mentions(chain, "blocked", lower) {
      WordsSurvive(h, "blocked", digit);
    } else {
      NotBlocked(h, digit);
      if k :| 0 <= k < |AUTH_MARKERS| && Mentions(chain, AUTH_MARKERS[k], lower) {
        MentionedIsJoined(chain, AUTH_MARKERS[k], lower);
        WordsSurvive(h, AUTH_MARKERS[k], digit);
        Finds(Redact(h, digit), AUTH_MARKERS, k);
        LoginSpelledOut(Redact(h, digit));
      }
    }
  }

  lemma NotBlocked(h: string, digit: char -> bool)
    requires IsDigitClass(digit) && !Contains(h, "blocked")
    ensures !SaysBlocked(Redact(h, digit))
  {
    var r := Redact(h, digit);
    if Contains(r, "ip address is blocked") {
      assert "ip address is blocked" == "ip address is " + "blocked";
      LongerMarker(r, "ip address is ", "blocked");
    }
    if Contains(r, "blocked") {
      RedactedMarker(h, "blocked", digit);
    }
  }

  lemma {:induction false} LongerMarker(h: string, a: string, m: string)
    requires Contains(h, a + m)
    ensures Contains(h, m)
  {
    if StartsWith(h, a + m) {
      assert h[|a|..][..|m|] == h[..|a + m|][|a|..] == m;
      ContainsAt(h, |a|, m);
    } else {
      LongerMarker(h[1..], a, m);
      ContainsAfter([h[0]], h[1..], m);
      assert h == [h[0]] + h[1..];
    }
  }

  /**
   `classify_error` on an exception: the texts of its whole cause chain, joined, lower-cased, redacted and matched in
   order. An IP block or a login marker decides wherever in the chain it stands.
   */
  method ClassifyException(e: PyException, lower: string -> string, digit: char -> bool, ghost all: set<PyException>)
    returns (category: Category)
    requires e in all && Closed(all)
    ensures category == Classify(lower(Joined(Parts(Chain(e, {}, all)))), digit)
    ensures IsDigitClass(digit) && LowersApart(lower) ==>
      if Mentions(Chain(e, {}, all), "blocked", lower) then category == Transient
      else (exists k :: 0 <= k < |AUTH_MARKERS| && Mentions(Chain(e, {}, all), AUTH_MARKERS[k], lower)) ==> category == Definitive
  {
    var parts := CollectParts(e, all);
    category := ClassifyText(lower(Joined(parts)), digit);
    if IsDigitClass(digit) && LowersApart(lower) {
      ChainDecides(Chain(e, {}, all), lower, digit);
    }
  }
}
