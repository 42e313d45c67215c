/** The download archive: a text file that stands for a list of video ids, and survives crashes. */
module Archive {
  import opened Prelude
  import opened Text

  /** The id of a line is its last whitespace-separated token; blank lines and comments have none. */
  function ParseLine(line: string): Option<string> {
    var stripped := Strip(line);
    if stripped == "" || stripped[0] == '#' then None else Some(LastToken(stripped))
  }

  /** The lines a reader gets: `read_text` translates newlines, `splitlines` keeps the ends. */
  function Lines(disk: string): seq<string> {
    SplitKeepEnds(Universal(disk))
  }

  /** The ids a list of lines stands for. */
  function Ids(lines: seq<string>): seq<string> {
    if lines == [] then [] else LineIds(lines[0]) + Ids(lines[1..])
  }

  function LineIds(line: string): seq<string> {
    match ParseLine(line) case Some(id) => [id] case None => []
  }

  function Without(ids: seq<string>, id: string): seq<string> {
    if ids == [] then [] else (if ids[0] == id then [] else [ids[0]]) + Without(ids[1..], id)
  }

  lemma {:induction false} WithoutIs(ids: seq<string>, id: string)
    ensures id !in Without(ids, id)
    ensures id !in ids ==> Without(ids, id) == ids
    ensures forall x :: x in Without(ids, id) <==> x in ids && x != id
  {
    if ids != [] {
      WithoutIs(ids[1..], id);
    }
  }

  predicate EndsNewline(line: string) {
    line != "" && line[|line| - 1] == '\n'
  }

  /** `remove` leaves the last line alone unless it is complete. */
  predicate Drops(lines: seq<string>, id: string)
    requires lines != []
  {
    (EndsNewline(lines[0]) || |lines| > 1) && ParseLine(lines[0]) == Some(id)
  }

  function Kept(lines: seq<string>, id: string): (kept: seq<string>)
    ensures |kept| <= |lines|
  {
    if lines == [] then [] else (if Drops(lines, id) then [] else [lines[0]]) + Kept(lines[1..], id)
  }

  /** The id held by a last line still lacking its newline: a writer may be in the middle of it. */
  function Torn(lines: seq<string>): Option<string> {
    if lines == [] || EndsNewline(lines[|lines| - 1]) then None else ParseLine(lines[|lines| - 1])
  }

  function Written(id: string): string {
    "tiktok " + id + "\n"
  }

  predicate IsId(id: string) {
    id != "" && NoSpaces(id)
  }

  // ---------------------------------------------------------------- remove

  lemma {:induction false} IdsAppend(a: seq<string>, b: seq<string>)
    ensures Ids(a + b) == Ids(a) + Ids(b)
  {
    if a == [] {
      assert a + b == b;
    } else {
      assert (a + b)[1..] == a[1..] + b;
      IdsAppend(a[1..], b);
    }
  }

  lemma IdsOne(line: string)
    ensures Ids([line]) == LineIds(line)
  {
    assert [line][1..] == [] && LineIds(line) + [] == LineIds(line);
  }

  lemma {:induction false} KeptIsProper(lines: seq<string>, id: string)
    requires ProperLines(lines)
    ensures ProperLines(Kept(lines, id))
    ensures lines != [] && Ended(lines[|lines| - 1]) && Kept(lines, id) != [] ==> Ended(Kept(lines, id)[|Kept(lines, id)| - 1])
  {
    if lines != [] {
      KeptIsProper(lines[1..], id);
    }
  }

  /** Removing and reading again shows exactly the kept lines, verbatim and in order. */
  lemma RewriteReadsBack(disk: string, id: string)
    ensures var kept := Kept(Lines(disk), id);
      Translated(Concat(kept)) && Lines(Concat(kept)) == kept
  {
    var lines := Lines(disk);
    SplitIsProper(Universal(disk));
    KeptIsProper(lines, id);
    SplitOfLines(Kept(lines, id));
    UniversalId(Concat(Kept(lines, id)));
  }

  /** What is kept: every line but the complete ones that hold the id. */
  lemma {:induction false} KeptIds(lines: seq<string>, id: string)
    ensures Ids(Kept(lines, id)) == Without(Ids(lines), id) + TornIds(lines, id)
  {
    if |lines| == 1 {
      OnlyLineKept(lines, id);
    } else if lines != [] {
      KeptIds(lines[1..], id);
      FirstLineKept(lines, id);
      TornOfRest(lines, id);
      FirstIdsKept(lines, id);
    }
  }

  lemma FirstIdsKept(lines: seq<string>, id: string)
    requires lines != []
    ensures Without(Ids(lines), id) == Without(LineIds(lines[0]), id) + Without(Ids(lines[1..]), id)
  {
    WithoutAppend(LineIds(lines[0]), Ids(lines[1..]), id);
  }

  function TornIds(lines: seq<string>, id: string): seq<string> {
    if Torn(lines) == Some(id) then [id] else []
  }

  lemma TornOfRest(lines: seq<string>, id: string)
    requires |lines| > 1
    ensures TornIds(lines, id) == TornIds(lines[1..], id)
  {
    assert lines[|lines| - 1] == lines[1..][|lines| - 2];
  }

  lemma FirstLineKept(lines: seq<string>, id: string)
    requires |lines| > 1
    ensures Ids(Kept(lines, id)) == Without(LineIds(lines[0]), id) + Ids(Kept(lines[1..], id))
  {
    var rest := Kept(lines[1..], id);
    if ParseLine(lines[0]) == Some(id) {
      assert Without(LineIds(lines[0]), id) == [];
      assert Kept(lines, id) == rest;
    } else {
      assert Without(LineIds(lines[0]), id) == LineIds(lines[0]);
      assert Kept(lines, id) == [lines[0]] + rest && ([lines[0]] + rest)[1..] == rest;
    }
  }

  lemma OnlyLineKept(lines: seq<string>, id: string)
    requires |lines| == 1
    ensures Ids(Kept(lines, id)) == Without(Ids(lines), id) + TornIds(lines, id)
  {
    var head := LineIds(lines[0]);
    assert lines[1..] == [] && Ids(lines) == head + [] == head;
    assert Kept(lines[1..], id) == [];
    assert Kept(lines, id) == if Drops(lines, id) then [] else lines;
  }

  lemma {:induction false} WithoutAppend(a: seq<string>, b: seq<string>, id: string)
    ensures Without(a + b, id) == Without(a, id) + Without(b, id)
  {
    if a == [] {
      assert a + b == b;
    } else {
      assert (a + b)[1..] == a[1..] + b;
      WithoutAppend(a[1..], b, id);
    }
  }

  /** One round of the loop: what is kept so far, then what the rest will keep. */
  lemma KeepStep(lines: seq<string>, id: string, index: nat, kept: seq<string>)
    requires index < |lines|
    ensures kept + Kept(lines[index..], id)
      == (if Drops(lines[index..], id) then kept else kept + [lines[index]]) + Kept(lines[index + 1..], id)
  {
    var rest := Kept(lines[index + 1..], id);
    assert lines[index..][1..] == lines[index + 1..];
    assert kept + ([] + rest) == kept + rest && kept + ([lines[index]] + rest) == (kept + [lines[index]]) + rest;
  }

  lemma {:induction false} NothingDropped(lines: seq<string>, id: string)
    ensures Kept(lines, id) == lines <==> |Kept(lines, id)| == |lines|
  {
    if lines != [] {
      NothingDropped(lines[1..], id);
    }
  }

  lemma {:induction false} TornIsListed(lines: seq<string>)
    requires Torn(lines).Some?
    ensures Torn(lines).value in Ids(lines)
  {
    if |lines| > 1 {
      TornIsListed(lines[1..]);
    }
  }

  /** Exactly when the id is still listed after a remove, and exactly when remove is a plain list filter. */
  lemma RemoveRefinesList(disk: string, id: string)
    ensures var lines := Lines(disk); var after := Lines(Concat(Kept(lines, id)));
      && (Ids(after) == Without(Ids(lines), id) <==> Torn(lines) != Some(id))
      && (id in Ids(after) <==> Torn(lines) == Some(id))
  {
    RewriteReadsBack(disk, id);
    KeptIds(Lines(disk), id);
    WithoutIs(Ids(Lines(disk)), id);
  }

  /** The lines `remove` may drop. */
  function Complete(lines: seq<string>): seq<string> {
    if lines == [] || EndsNewline(lines[|lines| - 1]) then lines else lines[..|lines| - 1]
  }

  predicate Finds(lines: seq<string>, id: string) {
    Kept(lines, id) != lines
  }

  lemma CompleteRest(lines: seq<string>)
    requires |lines| > 1
    ensures Complete(lines) == [lines[0]] + Complete(lines[1..])
    ensures Ids(Complete(lines)) == LineIds(lines[0]) + Ids(Complete(lines[1..]))
  {
    assert lines[1..][..|lines| - 2] == lines[1..|lines| - 1];
    assert lines[..|lines| - 1] == [lines[0]] + lines[1..|lines| - 1];
    assert ([lines[0]] + Complete(lines[1..]))[1..] == Complete(lines[1..]);
  }

  lemma OneLineFound(lines: seq<string>, id: string)
    requires |lines| == 1
    ensures Kept(lines, id) == (if Drops(lines, id) then [] else lines)
    ensures Drops(lines, id) <==> id in Ids(Complete(lines))
  {
    assert lines[1..] == [] && lines[..0] == [];
    assert Ids(lines) == LineIds(lines[0]) + [];
  }

  /** `remove` reports true exactly when a complete line holds the id. */
  lemma {:induction false} FoundIffPresent(lines: seq<string>, id: string)
    ensures Finds(lines, id) <==> id in Ids(Complete(lines))
  {
    NothingDropped(lines, id);
    if |lines| == 1 {
      OneLineFound(lines, id);
    } else if lines != [] {
      FoundIffPresent(lines[1..], id);
      NothingDropped(lines[1..], id);
      CompleteRest(lines);
    }
  }

  // ---------------------------------------------------------------- add

  lemma {:induction false} UniversalAppend(a: string, b: string)
    requires Translated(b) && b != "" && b[0] != '\n'
    ensures Universal(a + b) == Universal(a) + b
  {
    if a == "" {
      assert a + b == b;
      UniversalId(b);
    } else {
      var n := if a[0] == '\r' && |a| > 1 && a[1] == '\n' then 2 else 1;
      assert (a + b)[n..] == a[n..] + b;
      UniversalAppend(a[n..], b);
    }
  }

  lemma WrittenIsLine(id: string)
    requires IsId(id)
    ensures IsLine(Written(id)) && Translated(Written(id)) && EndsNewline(Written(id))
    ensures SplitKeepEnds(Written(id)) == [Written(id)]
  {
    var w := Written(id);
    forall i | 0 <= i < |w| - 1
      ensures !IsBreak(w[i])
    {
      assert i >= 7 ==> w[i] == id[i - 7];
    }
    SplitOfLines([w]);
    ConcatOne(w);
  }

  /** The id on a line to which an entry was appended: hidden only if the line was a comment. */
  lemma EntryParses(tail: string, id: string)
    requires IsId(id)
    ensures ParseLine(tail + Written(id)) == if Strip(tail) != "" && Strip(tail)[0] == '#' then None else Some(id)
  {
    var text := EntryStrips(tail, id);
    TokenIs(text, id);
    assert (text + id)[0] == text[0];
  }

  lemma EntryStrips(tail: string, id: string) returns (text: string)
    requires IsId(id)
    ensures Strip(tail + Written(id)) == text + id
    ensures text != "" && IsSpace(text[|text| - 1]) && text[0] == if Strip(tail) == "" then 't' else Strip(tail)[0]
  {
    var a, b := StripParts(tail);
    var core := Strip(tail);
    if core == "" {
      text := "tiktok ";
      assert tail + Written(id) == (a + b) + (text + id) + "\n";
      StripIs(a + b, text + id, "\n");
    } else {
      text := core + b + "tiktok ";
      assert tail + Written(id) == a + (text + id) + "\n";
      StripIs(a, text + id, "\n");
    }
  }

  /** Both line formats: whatever words stand before it, the last one is the id, unless the line is a comment. */
  lemma LineParses(before: string, words: string, id: string, after: string)
    requires AllSpaces(before) && AllSpaces(after) && IsId(id)
    requires words != "" ==> !IsSpace(words[0]) && IsSpace(words[|words| - 1])
    ensures ParseLine(before + (words + id) + after) == if (words + id)[0] == '#' then None else Some(id)
  {
    StripIs(before, words + id, after);
    TokenIs(words, id);
  }

  /** The last line when nothing ends it. */
  ghost function OpenTail(lines: seq<string>): string {
    if lines == [] || Ended(lines[|lines| - 1]) then "" else lines[|lines| - 1]
  }

  lemma AddToEndedText(disk: string, id: string)
    requires IsId(id) && (Universal(disk) == "" || Ended(Universal(disk)))
    ensures Lines(disk + Written(id)) == Lines(disk) + [Written(id)]
  {
    WrittenIsLine(id);
    UniversalAppend(disk, Written(id));
    SplitAppend(Universal(disk), Written(id));
  }

  lemma AddToOpenText(disk: string, id: string)
    requires IsId(id) && Universal(disk) != "" && !Ended(Universal(disk))
    ensures Lines(disk) != []
    ensures var n := |Lines(disk)| - 1; Lines(disk + Written(id)) == Lines(disk)[..n] + [Lines(disk)[n] + Written(id)]
  {
    WrittenIsLine(id);
    UniversalAppend(disk, Written(id));
    SplitIsProper(Universal(disk));
    SplitConcat(Universal(disk));
    ExtendLastLine(Lines(disk), Written(id));
  }

  lemma ExtendLastLine(lines: seq<string>, w: string)
    requires ProperLines(lines) && lines != [] && !Ended(lines[|lines| - 1]) && IsLine(w) && Translated(w)
    ensures SplitKeepEnds(Concat(lines) + w) == lines[..|lines| - 1] + [lines[|lines| - 1] + w]
  {
    var front, tail := lines[..|lines| - 1], lines[|lines| - 1];
    ConcatLast(front, tail, w);
    assert lines == front + [tail];
    OpenLineExtended(tail, w);
    SplitOfLines(front + [tail + w]);
  }

  lemma ConcatLast(front: seq<string>, tail: string, w: string)
    ensures Concat(front + [tail + w]) == Concat(front + [tail]) + w
  {
    ConcatAppend(front, [tail]);
    ConcatAppend(front, [tail + w]);
    ConcatOne(tail);
    ConcatOne(tail + w);
    assert Concat(front) + (tail + w) == (Concat(front) + tail) + w;
  }

  lemma OpenLineExtended(tail: string, w: string)
    requires IsLine(tail) && !Ended(tail) && Translated(tail) && IsLine(w) && Translated(w)
    ensures IsLine(tail + w) && Translated(tail + w)
  {
    forall i | 0 <= i < |tail + w| - 1
      ensures !IsBreak((tail + w)[i])
    {
      assert i < |tail| - 1 ==> (tail + w)[i] == tail[..|tail| - 1][i];
      assert i >= |tail| ==> (tail + w)[i] == w[..|w| - 1][i - |tail|];
    }
  }

  /** `add` appends one id to the list exactly when no unfinished text is waiting at the end of the file. */
  lemma AddAppends(disk: string, id: string)
    requires IsId(id)
    ensures Ids(Lines(disk + Written(id))) == Ids(Lines(disk)) + [id] <==> Strip(OpenTail(Lines(disk))) == ""
  {
    SplitIsProper(Universal(disk));
    if Universal(disk) == "" || Ended(Universal(disk)) {
      AddToEndedText(disk, id);
      EndedAddAppends(Lines(disk), id);
      assert Strip("") == "";
    } else {
      OpenAddAppends(disk, id);
    }
  }

  lemma OpenAddAppends(disk: string, id: string)
    requires IsId(id) && Universal(disk) != "" && !Ended(Universal(disk))
    ensures Lines(disk) != []
    ensures Ids(Lines(disk + Written(id))) == Ids(Lines(disk)) + [id] <==> Strip(Lines(disk)[|Lines(disk)| - 1]) == ""
  {
    AddToOpenText(disk, id);
    OpenLinesAppend(Lines(disk), Lines(disk + Written(id)), id);
  }

  lemma OpenLinesAppend(lines: seq<string>, after: seq<string>, id: string)
    requires IsId(id) && lines != [] && after == lines[..|lines| - 1] + [lines[|lines| - 1] + Written(id)]
    ensures Ids(after) == Ids(lines) + [id] <==> Strip(lines[|lines| - 1]) == ""
  {
    var front, tail := lines[..|lines| - 1], lines[|lines| - 1];
    assert lines == front + [tail];
    AddToOpenLine(front, tail, id);
  }

  lemma EndedAddAppends(lines: seq<string>, id: string)
    requires IsId(id)
    ensures Ids(lines + [Written(id)]) == Ids(lines) + [id]
  {
    EntryParses("", id);
    assert "" + Written(id) == Written(id);
    StripIs("", "", "");
    IdsAppend(lines, [Written(id)]);
    IdsOne(Written(id));
  }

  lemma AddToOpenLine(front: seq<string>, tail: string, id: string)
    requires IsId(id)
    ensures Ids(front + [tail + Written(id)]) == Ids(front + [tail]) + [id] <==> Strip(tail) == ""
  {
    EntryParses(tail, id);
    IdsAppend(front, [tail]);
    IdsAppend(front, [tail + Written(id)]);
    IdsOne(tail);
    IdsOne(tail + Written(id));
    assert |Ids(front + [tail + Written(id)])| == |Ids(front)| + |LineIds(tail + Written(id))|;
  }

  // ---------------------------------------------------------------- crashes

  /** How far a remove gets before the process dies: `Unstaged` is before the staged file is opened. */
  datatype Death = Survives | Unstaged | Staging(written: nat) | Staged | Rewriting(written: nat) | Rewritten

  /** The archive and the staged rewrite beside it. */
  datatype Disk = Disk(archive: Option<string>, staged: Option<string>)

  function Upto(text: string, n: nat): string {
    if n < |text| then text[..n] else text
  }

  function Content(disk: Disk): string {
    if disk.archive.Some? then disk.archive.value else ""
  }

  function Remaining(disk: Disk, id: string): string {
    Concat(Kept(Lines(Content(disk)), id))
  }

  /** What a remove leaves on disk. */
  function AfterRemove(disk: Disk, id: string, death: Death): Disk {
    var rest := Remaining(disk, id);
    if !Finds(Lines(Content(disk)), id) then disk else
    match death
    case Survives => Disk(Some(rest), None)
    case Unstaged => disk
    case Staging(n) => disk.(staged := Some(Upto(rest, n)))
    case Staged => disk.(staged := Some(rest))
    case Rewriting(n) => Disk(Some(Upto(rest, n)), Some(rest))
    case Rewritten => Disk(Some(rest), Some(rest))
  }

  /** What the next process starts from. */
  function AfterRecovery(disk: Disk): Disk {
    if disk.staged.Some? then Disk(disk.staged, None) else disk
  }

  function AfterAdd(disk: Disk, id: string): Disk {
    disk.(archive := Some(Content(disk) + Written(id)))
  }

  lemma RemainingDiffers(disk: Disk, id: string)
    requires Finds(Lines(Content(disk)), id)
    ensures Remaining(disk, id) != Content(disk)
  {
    RewriteReadsBack(Content(disk), id);
  }

  /** Death leaves no trace after recovery exactly when it comes neither before the staging nor in the middle of it. */
  lemma CrashIsInvisible(disk: Disk, id: string, death: Death)
    requires disk.staged == None
    ensures AfterRecovery(AfterRemove(disk, id, death)) == AfterRemove(disk, id, Survives)
      <==> (Finds(Lines(Content(disk)), id) ==>
              !death.Unstaged? && (death.Staging? ==> death.written >= |Remaining(disk, id)|))
  {
    var rest := Remaining(disk, id);
    if Finds(Lines(Content(disk)), id) {
      RemainingDiffers(disk, id);
      if death.Staging? && death.written < |rest| {
        assert |Upto(rest, death.written)| < |rest|;
      }
    }
  }

  /** Dying before the staging leaves the id listed, with nothing to recover. */
  lemma UnstagedDeathUndoesNothing(disk: Disk, id: string)
    requires disk.staged == None && Finds(Lines(Content(disk)), id)
    ensures AfterRecovery(AfterRemove(disk, id, Unstaged)) == disk
    ensures id in Ids(Complete(Lines(Content(disk))))
  {
    FoundIffPresent(Lines(Content(disk)), id);
  }

  /** That window loses data: dying at the first staged byte drops ids that the remove was to keep. */
  lemma TornStagingLosesIds(disk: Disk, id: string, other: string)
    requires Finds(Lines(Content(disk)), id) && other in Ids(Lines(Content(disk))) && other != id
    ensures other in Ids(Lines(Content(AfterRemove(disk, id, Survives))))
    ensures other !in Ids(Lines(Content(AfterRecovery(AfterRemove(disk, id, Staging(0))))))
  {
    RewriteReadsBack(Content(disk), id);
    KeptIds(Lines(Content(disk)), id);
    WithoutIs(Ids(Lines(Content(disk))), id);
    assert Upto(Remaining(disk, id), 0) == "";
  }

  /** The lines of a text cut after `n` characters: those staged whole, then the one cut short. */
  function StagedLines(lines: seq<string>, n: nat): seq<string> {
    if lines == [] || n == 0 then []
    else if n < |lines[0]| then [lines[0][..n]]
    else [lines[0]] + StagedLines(lines[1..], n - |lines[0]|)
  }

  lemma {:induction false} StagedIsCut(lines: seq<string>, n: nat)
    requires ProperLines(lines)
    ensures ProperLines(StagedLines(lines, n)) && Concat(StagedLines(lines, n)) == Upto(Concat(lines), n)
  {
    if lines != [] && n != 0 {
      var line, rest := lines[0], lines[1..];
      if n < |line| {
        CutLine(line, n);
        ConcatOne(line[..n]);
        assert (line + Concat(rest))[..n] == line[..n];
      } else {
        StagedIsCut(rest, n - |line|);
        ConcatCons(line, StagedLines(rest, n - |line|));
        CutBehind(line, Concat(rest), n);
        StagedEnds(rest, n - |line|);
        ProperCons(line, StagedLines(rest, n - |line|));
      }
    }
  }

  lemma CutLine(line: string, n: nat)
    requires IsLine(line) && Translated(line) && 0 < n < |line|
    ensures IsLine(line[..n]) && Translated(line[..n])
  {
    assert line[..n][..n - 1] == line[..|line| - 1][..n - 1];
  }

  lemma CutBehind(line: string, rest: string, n: nat)
    requires n >= |line|
    ensures Upto(line + rest, n) == line + Upto(rest, n - |line|)
  {
  }

  lemma StagedEnds(lines: seq<string>, n: nat)
    ensures StagedLines(lines, n) != [] ==> lines != []
  {
  }

  /** What the next process reads after a death in the middle of the staging. */
  lemma TornTextReads(disk: Disk, id: string, n: nat)
    requires Finds(Lines(Content(disk)), id)
    ensures Lines(Content(AfterRecovery(AfterRemove(disk, id, Staging(n))))) == StagedLines(Kept(Lines(Content(disk)), id), n)
  {
    var kept := Kept(Lines(Content(disk)), id);
    SplitIsProper(Universal(Content(disk)));
    KeptIsProper(Lines(Content(disk)), id);
    StagedIsCut(kept, n);
    SplitOfLines(StagedLines(kept, n));
    UniversalId(Concat(StagedLines(kept, n)));
  }

  // ---------------------------------------------------------------- append-only, or not

  lemma {:induction false} KeptIsShorter(lines: seq<string>, id: string)
    ensures |Concat(Kept(lines, id))| <= |Concat(lines)|
    ensures Finds(lines, id) ==> |Concat(Kept(lines, id))| < |Concat(lines)|
  {
    if lines != [] {
      KeptIsShorter(lines[1..], id);
      NothingDropped(lines, id);
      NothingDropped(lines[1..], id);
      if Drops(lines, id) {
        SomeLineIsNotEmpty(lines[0]);
        assert Kept(lines, id) == Kept(lines[1..], id);
      } else {
        ConcatCons(lines[0], Kept(lines[1..], id));
        assert Kept(lines, id) == [lines[0]] + Kept(lines[1..], id);
      }
    }
  }

  lemma SomeLineIsNotEmpty(line: string)
    requires ParseLine(line).Some?
    ensures line != ""
  {
    var a, b := StripParts(line);
  }

  lemma {:induction false} UniversalIsNoLonger(s: string)
    ensures |Universal(s)| <= |s|
  {
    if s != "" {
      UniversalIsNoLonger(s[if s[0] == '\r' && |s| > 1 && s[1] == '\n' then 2 else 1..]);
    }
  }

  /** The old content is the start of the new one after a remove exactly when no complete line holds the id. */
  lemma AppendOnlyIffAbsent(disk: Disk, id: string)
    ensures Content(disk) <= Content(AfterRemove(disk, id, Survives)) <==> id !in Ids(Complete(Lines(Content(disk))))
  {
    var text := Content(disk);
    FoundIffPresent(Lines(text), id);
    if Finds(Lines(text), id) {
      KeptIsShorter(Lines(text), id);
      SplitConcat(Universal(text));
      UniversalIsNoLonger(text);
    }
  }

  /** An add is always an append. */
  lemma AddOnlyAppends(disk: Disk, id: string)
    ensures Content(disk) <= Content(AfterAdd(disk, id))
  {
  }

  // ---------------------------------------------------------------- whole histories

  datatype Op = Add(id: string) | Remove(id: string) | RemoveAndDie(id: string, death: Death)

  predicate Lawful(op: Op) {
    IsId(op.id) && (op.RemoveAndDie? ==> !op.death.Staging?)
  }

  function PlayOne(disk: Disk, op: Op): Disk {
    match op
    case Add(id) => AfterAdd(disk, id)
    case Remove(id) => AfterRemove(disk, id, Survives)
    case RemoveAndDie(id, death) => AfterRecovery(AfterRemove(disk, id, death))
  }

  function Play(disk: Disk, ops: seq<Op>): Disk
    decreases |ops|
  {
    if ops == [] then disk else Play(PlayOne(disk, ops[0]), ops[1..])
  }

  /** One operation on a plain list; a remove that dies before its staging has not happened. */
  function ListOne(ids: seq<string>, op: Op): seq<string> {
    match op
    case Add(id) => ids + [id]
    case Remove(id) => Without(ids, id)
    case RemoveAndDie(id, death) => if death.Unstaged? then ids else Without(ids, id)
  }

  /** The same history on a plain list. */
  function PlayList(ids: seq<string>, ops: seq<Op>): seq<string>
    decreases |ops|
  {
    if ops == [] then ids else PlayList(ListOne(ids, ops[0]), ops[1..])
  }

  ghost predicate AllEndNewline(lines: seq<string>) {
    forall i :: 0 <= i < |lines| ==> EndsNewline(lines[i])
  }

  /** An archive only ever written line by line, with no rewrite pending. */
  ghost predicate Tidy(disk: Disk) {
    disk.staged == None && AllEndNewline(Lines(Content(disk)))
  }

  lemma {:induction false} KeptEndNewline(lines: seq<string>, id: string)
    requires AllEndNewline(lines)
    ensures AllEndNewline(Kept(lines, id))
  {
    if lines != [] {
      KeptEndNewline(lines[1..], id);
    }
  }

  lemma RemoveStaysTidy(disk: Disk, id: string)
    requires Tidy(disk)
    ensures Tidy(AfterRemove(disk, id, Survives))
    ensures Ids(Lines(Content(AfterRemove(disk, id, Survives)))) == Without(Ids(Lines(Content(disk))), id)
  {
    var lines := Lines(Content(disk));
    KeptEndNewline(lines, id);
    RewriteReadsBack(Content(disk), id);
    KeptIds(lines, id);
    assert Without(Ids(lines), id) + [] == Without(Ids(lines), id);
  }

  lemma AddStaysTidy(disk: Disk, id: string)
    requires Tidy(disk) && IsId(id)
    ensures Tidy(AfterAdd(disk, id))
    ensures Ids(Lines(Content(AfterAdd(disk, id)))) == Ids(Lines(Content(disk))) + [id]
  {
    var lines := Lines(Content(disk));
    SplitIsProper(Universal(Content(disk)));
    assert OpenTail(lines) == "";
    AddAppends(Content(disk), id);
    AddToEndedText(Content(disk), id);
    WrittenIsLine(id);
  }

  lemma OneOpRefinesList(disk: Disk, op: Op)
    requires Tidy(disk) && Lawful(op)
    ensures Tidy(PlayOne(disk, op))
    ensures Ids(Lines(Content(PlayOne(disk, op)))) == ListOne(Ids(Lines(Content(disk))), op)
  {
    match op
    case Add(id) => AddStaysTidy(disk, id);
    case Remove(id) => RemoveStaysTidy(disk, id);
    case RemoveAndDie(id, death) =>
      if !death.Unstaged? {
        RemoveStaysTidy(disk, id);
        CrashIsInvisible(disk, id, death);
      }
  }

  /** Over every history of adds, removes and removes cut short, the file is the plain list. */
  lemma {:induction false} ArchiveRefinesList(disk: Disk, ops: seq<Op>)
    requires Tidy(disk) && forall i :: 0 <= i < |ops| ==> Lawful(ops[i])
    ensures Tidy(Play(disk, ops))
    ensures Ids(Lines(Content(Play(disk, ops)))) == PlayList(Ids(Lines(Content(disk))), ops)
    decreases |ops|
  {
    if ops != [] {
      OneOpRefinesList(disk, ops[0]);
      ArchiveRefinesList(PlayOne(disk, ops[0]), ops[1..]);
    }
  }

  // ---------------------------------------------------------------- the object over the two files

  datatype Outcome = Died | Returned(found: bool)

  class DownloadArchive {
    var archive: Option<string>
    var staged: Option<string>

    ghost function Contents(): Disk
      reads this
    {
      Disk(archive, staged)
    }

    /** A fresh process over the files it finds; `published` is whether os.replace succeeds. */
    constructor (archive: Option<string>, staged: Option<string>, published: bool)
      ensures Contents() == if published then AfterRecovery(Disk(archive, staged)) else Disk(archive, staged)
    {
      this.archive := archive;
      this.staged := staged;
      new;
      if staged.Some? && published {
        this.archive := staged;
        this.staged := None;
      }
    }

    method Add(id: string)
      modifies this
      ensures Contents() == AfterAdd(old(Contents()), id)
    {
      var text := if archive.Some? then archive.value else "";
      archive := Some(text + ("tiktok " + id + "\n"));
    }

    /** The loop of `remove`: keep every line but the complete ones holding the id. */
    method KeepLines(lines: seq<string>, id: string) returns (kept: seq<string>, found: bool)
      ensures kept == Kept(lines, id) && found == Finds(lines, id)
    {
      kept, found := [], false;
      for index := 0 to |lines|
        invariant kept + Kept(lines[index..], id) == Kept(lines, id)
        invariant |kept| <= index && (found <==> |kept| < index)
      {
        var line := lines[index];
        var complete := EndsNewline(line) || index < |lines| - 1;
        KeepStep(lines, id, index, kept);
        if complete && ParseLine(line) == Some(id) {
          found := true;
        } else {
          kept := kept + [line];
        }
      }
      NothingDropped(lines, id);
    }

    method Remove(id: string, death: Death) returns (outcome: Outcome)
      modifies this
      ensures Contents() == AfterRemove(old(Contents()), id, death)
      ensures var found := id in Ids(Complete(Lines(Content(old(Contents())))));
        outcome == if found && death != Survives then Died else Returned(found)
    {
      FoundIffPresent(Lines(Content(Contents())), id);
      if archive == None {
        return Returned(false);
      }
      var kept, found := KeepLines(Lines(archive.value), id);
      if !found {
        return Returned(false);
      }
      if death.Unstaged? {
        return Died;
      }
      var text := Concat(kept);
      staged := Some(if death.Staging? then Upto(text, death.written) else text);
      if death.Staging? || death.Staged? {
        return Died;
      }
      archive := Some(if death.Rewriting? then Upto(text, death.written) else text);
      if death != Survives {
        return Died;
      }
      staged := None;
      return Returned(true);
    }
  }
}
