/** The capped file search: files in walk order, then lines, up to a number of results. */
module Search {
  import opened Wrappers

  /** What a content search makes of one file. */
  datatype Text = Lines(lines: seq<string>) | Binary | Unreadable

  /** A walked file. Its size is none when its metadata cannot be read. */
  datatype File = File(path: string, relative: string, name: Option<string>, size: Option<nat>, text: Text)
  datatype Kind = Glob(globs: string -> bool) | Literal(pattern: string)

  /** `fold` is the case folding; `filter` is the compiled include filter, when there is one. */
  datatype Query = Query(
    kind: Kind,
    filter: Option<string -> bool>,
    caseSensitive: bool,
    fold: string -> string,
    maxResults: nat,
    maxFileBytes: nat)
  {
    predicate Included(file: File) {
      filter.Some? ==>
        filter.value(file.relative) || filter.value(file.path) || (file.name.Some? && filter.value(file.name.value))
    }

    function Needle(): string
      requires kind.Literal?
    {
      if caseSensitive then kind.pattern else fold(kind.pattern)
    }

    predicate Hits(line: string)
      requires kind.Literal?
    {
      Contains(if caseSensitive then line else fold(line), Needle())
    }

    predicate TooLarge(file: File) {
      file.size.Some? && maxFileBytes < file.size.value
    }
  }

  predicate Contains(text: string, needle: string) {
    needle <= text || (text != "" && Contains(text[1..], needle))
  }

  datatype Match = Match(path: string, lineNumber: nat, line: string)

  // ---- the uncapped search -------------------------------------------------------------------------

  /** The matching lines, numbered from one. */
  function LineMatches(query: Query, path: string, lines: seq<string>): seq<Match>
    requires query.kind.Literal?
  {
    if lines == [] then []
    else
      var n := |lines| - 1;
      LineMatches(query, path, lines[..n]) + if query.Hits(lines[n]) then [Match(path, n + 1, lines[n])] else []
  }

  /** Every match of one file in scope. */
  function FileMatches(query: Query, file: File): seq<Match> {
    if !query.Included(file) then []
    else match query.kind
      case Glob(globs) => if globs(file.relative) then [Match(file.path, 0, "")] else []
      case Literal(_) =>
        if query.TooLarge(file) || !file.text.Lines? then [] else LineMatches(query, file.path, file.text.lines)
  }

  /** Every match, files in walk order, then lines. */
  function AllMatches(query: Query, files: seq<File>): seq<Match> {
    if files == [] then [] else AllMatches(query, files[..|files| - 1]) + FileMatches(query, files[|files| - 1])
  }

  /** What a literal search counts a file in scope as. */
  datatype Tally = Tally(scanned: nat, large: nat, binary: nat, unreadable: nat) {
    function Add(other: Tally): Tally {
      Tally(scanned + other.scanned, large + other.large, binary + other.binary, unreadable + other.unreadable)
    }
  }

  const ZERO := Tally(0, 0, 0, 0)

  function FileTally(query: Query, file: File): Tally {
    if !query.Included(file) || query.kind.Glob? then ZERO
    else if query.TooLarge(file) then Tally(0, 1, 0, 0)
    else match file.text
      case Lines(_) => Tally(1, 0, 0, 0)
      case Binary => Tally(0, 0, 1, 0)
      case Unreadable => Tally(0, 0, 0, 1)
  }

  function AllTallies(query: Query, files: seq<File>): Tally {
    if files == [] then ZERO
    else AllTallies(query, files[..|files| - 1]).Add(FileTally(query, files[|files| - 1]))
  }

  /** How many files are looked at: all of them, or those up to the first match beyond the cap. */
  function Reach(query: Query, files: seq<File>): (reached: nat)
    ensures reached <= |files|
  {
    if files == [] then 0
    else if |AllMatches(query, files[..|files| - 1])| <= query.maxResults then |files|
    else Reach(query, files[..|files| - 1])
  }

  /** `kept` is the first `cap` elements of `all`, and `dropped` says whether there are more. */
  predicate Capped(cap: nat, kept: seq<Match>, dropped: bool, all: seq<Match>) {
    kept == all[..Min(cap, |all|)] && (dropped <==> cap < |all|)
  }

  // ---- what a match is -----------------------------------------------------------------------------

  predicate StandsAt(text: string, needle: string, at: nat) {
    at + |needle| <= |text| && text[at..at + |needle|] == needle
  }

  /** `needle` stands somewhere in `text`. */
  predicate StandsIn(text: string, needle: string) {
    exists at :: 0 <= at <= |text| && StandsAt(text, needle, at)
  }

  lemma OneLater(text: string, needle: string, at: nat)
    requires text != ""
    ensures StandsAt(text[1..], needle, at) <==> StandsAt(text, needle, at + 1)
  {
    if at + |needle| <= |text| - 1 {
      assert text[1..][at..at + |needle|] == text[at + 1..at + 1 + |needle|];
    }
  }

  lemma {:induction false} ContainsExactly(text: string, needle: string)
    ensures Contains(text, needle) <==> StandsIn(text, needle)
  {
    assert needle <= text <==> StandsAt(text, needle, 0) by {
      if |needle| <= |text| {
        assert text[0..0 + |needle|] == text[..|needle|];
      }
    }
    if text != "" {
      ContainsExactly(text[1..], needle);
      forall at: nat ensures StandsAt(text[1..], needle, at) <==> StandsAt(text, needle, at + 1) {
        OneLater(text, needle, at);
      }
      if StandsIn(text[1..], needle) {
        var at :| 0 <= at <= |text[1..]| && StandsAt(text[1..], needle, at);
        assert StandsAt(text, needle, at + 1);
      }
      if StandsIn(text, needle) && !StandsAt(text, needle, 0) {
        var at :| 0 <= at <= |text| && StandsAt(text, needle, at);
        assert StandsAt(text[1..], needle, at - 1);
      }
    }
  }

  /** A file is in scope: there is no filter, or it admits the file's path, relative path or name. */
  predicate InScope(query: Query, file: File) {
    match query.filter
    case None => true
    case Some(admits) => admits(file.path) || admits(file.relative) || (file.name.Some? && admits(file.name.value))
  }

  /** A line of a text is hit: the pattern stands in it, as both are or with both folded. */
  predicate IsHit(query: Query, line: string)
    requires query.kind.Literal?
  {
    if query.caseSensitive then StandsIn(line, query.kind.pattern)
    else StandsIn(query.fold(line), query.fold(query.kind.pattern))
  }

  /** A match of one file: the file itself for a glob, else one of its lines that is hit, by its number. */
  predicate IsMatch(query: Query, file: File, found: Match) {
    && InScope(query, file) && found.path == file.path
    && match query.kind
       case Glob(globs) => globs(file.relative) && found.lineNumber == 0 && found.line == ""
       case Literal(_) =>
         && file.text.Lines? && !(file.size.Some? && query.maxFileBytes < file.size.value)
         && 1 <= found.lineNumber <= |file.text.lines| && found.line == file.text.lines[found.lineNumber - 1]
         && IsHit(query, found.line)
  }

  predicate Ascending(found: seq<Match>) {
    forall i, j :: 0 <= i < j < |found| ==> found[i].lineNumber < found[j].lineNumber
  }

  predicate IsLineMatch(query: Query, path: string, lines: seq<string>, found: Match)
    requires query.kind.Literal?
  {
    && found.path == path && 1 <= found.lineNumber <= |lines|
    && found.line == lines[found.lineNumber - 1] && IsHit(query, found.line)
  }

  lemma OneLineMore(query: Query, path: string, lines: seq<string>, found: Match)
    requires query.kind.Literal? && lines != []
    ensures IsLineMatch(query, path, lines, found) <==>
            || IsLineMatch(query, path, lines[..|lines| - 1], found)
            || (query.Hits(lines[|lines| - 1]) && found == Match(path, |lines|, lines[|lines| - 1]))
  {
    HitsExactly(query, lines[|lines| - 1]);
  }

  lemma AscendingMore(before: seq<Match>, last: Match)
    requires Ascending(before) && forall found <- before :: found.lineNumber < last.lineNumber
    ensures Ascending(before + [last])
  {
    assert forall i | 0 <= i < |before| :: before[i] in before;
  }

  lemma {:induction false} LineMatchesExactly(query: Query, path: string, lines: seq<string>)
    requires query.kind.Literal?
    ensures forall found :: found in LineMatches(query, path, lines) <==> IsLineMatch(query, path, lines, found)
    ensures Ascending(LineMatches(query, path, lines))
  {
    if lines != [] {
      var n := |lines| - 1;
      var before, last := LineMatches(query, path, lines[..n]), Match(path, n + 1, lines[n]);
      LineMatchesExactly(query, path, lines[..n]);
      if query.Hits(lines[n]) {
        AscendingMore(before, last);
      }
      forall found ensures found in LineMatches(query, path, lines) <==> IsLineMatch(query, path, lines, found) {
        OneLineMore(query, path, lines, found);
        assert found in before + [last] <==> found in before || found == last;
        NothingMore(before);
      }
    }
  }

  lemma HitsExactly(query: Query, line: string)
    requires query.kind.Literal?
    ensures query.Hits(line) <==> IsHit(query, line)
  {
    ContainsExactly(if query.caseSensitive then line else query.fold(line), query.Needle());
  }

  /** What a search finds in a file is exactly its matches, in line order, each once. */
  lemma FileMatchesExactly(query: Query, file: File)
    ensures forall found :: found in FileMatches(query, file) <==> IsMatch(query, file, found)
    ensures Ascending(FileMatches(query, file))
  {
    if query.kind.Literal? && file.text.Lines? {
      LineMatchesExactly(query, file.path, file.text.lines);
    }
  }

  /** A literal search counts each file in scope once: too large first, then as what it is. */
  lemma FilesAreCounted(query: Query, file: File)
    ensures var t := FileTally(query, file);
            && t.scanned + t.large + t.binary + t.unreadable
               == (if query.kind.Literal? && InScope(query, file) then 1 else 0)
            && (t.large == 1 ==> file.size.Some? && query.maxFileBytes < file.size.value)
            && (t.scanned == 1 ==> file.text.Lines? && (file.size.None? || file.size.value <= query.maxFileBytes))
            && (t.binary == 1 ==> file.text.Binary?) && (t.unreadable == 1 ==> file.text.Unreadable?)
  {}

  // ---- the search ----------------------------------------------------------------------------------

  class SearchOutcome {
    var matches: seq<Match>
    var truncated: bool
    var filesScanned: nat
    var skippedLarge: nat
    var skippedBinary: nat
    var skippedUnreadable: nat

    constructor ()
      ensures matches == [] && !truncated && Counted() == ZERO
    {
      matches, truncated := [], false;
      filesScanned, skippedLarge, skippedBinary, skippedUnreadable := 0, 0, 0, 0;
    }

    function Counted(): Tally
      reads this
    {
      Tally(filesScanned, skippedLarge, skippedBinary, skippedUnreadable)
    }

    /** The outcome of trying to add `found`: the first matches up to the cap, and whether one was dropped. */
    twostate predicate Took(query: Query, found: seq<Match>, stop: bool)
      reads this
    {
      && Capped(query.maxResults, matches, stop, old(matches) + found)
      && truncated == (old(truncated) || stop)
    }

    /** Takes a file's one match or none; `stop` exactly when there was no room for it. */
    method CollectGlob(query: Query, file: File) returns (stop: bool)
      requires query.kind.Glob? && query.Included(file) && |matches| <= query.maxResults
      modifies this`matches, this`truncated
      ensures Took(query, FileMatches(query, file), stop)
    {
      if !query.kind.globs(file.relative) {
        assert matches + [] == matches;
        return false;
      }
      if query.maxResults <= |matches| {
        truncated := true;
        assert (matches + FileMatches(query, file))[..query.maxResults] == matches;
        return true;
      }
      matches := matches + [Match(file.path, 0, "")];
      return false;
    }

    /** Takes what fits of a file's matches, and adds exactly its own tally. */
    method ScanLiteral(query: Query, file: File) returns (stop: bool)
      requires query.kind.Literal? && query.Included(file) && |matches| <= query.maxResults
      modifies this
      ensures Took(query, FileMatches(query, file), stop)
      ensures Counted() == old(Counted()).Add(FileTally(query, file))
    {
      assert matches + [] == matches;
      if query.TooLarge(file) {
        skippedLarge := skippedLarge + 1;
        return false;
      }
      match file.text {
        case Binary =>
          skippedBinary := skippedBinary + 1;
          return false;
        case Unreadable =>
          skippedUnreadable := skippedUnreadable + 1;
          return false;
        case Lines(lines) =>
          filesScanned := filesScanned + 1;
          stop := CollectLiteral(query, file.path, lines);
      }
    }

    /** Takes what fits of the matches in `lines`; `stop` exactly when one did not. */
    method CollectLiteral(query: Query, path: string, lines: seq<string>) returns (stop: bool)
      requires query.kind.Literal? && |matches| <= query.maxResults
      modifies this`matches, this`truncated
      ensures Took(query, LineMatches(query, path, lines), stop)
    {
      for i := 0 to |lines|
        invariant |matches| <= query.maxResults && truncated == old(truncated)
        invariant matches == old(matches) + LineMatches(query, path, lines[..i])
      {
        assert lines[..i + 1][..i] == lines[..i];
        if !query.Hits(lines[i]) {
          continue;
        }
        if query.maxResults <= |matches| {
          truncated := true;
          LinesGrow(query, path, lines, i + 1);
          return true;
        }
        matches := matches + [Match(path, i + 1, lines[i])];
      }
      assert lines[..|lines|] == lines;
      return false;
    }
  }

  /** One file of the walk; a file the caller excluded is neither read, counted nor capped. */
  method SearchFile(query: Query, file: File, outcome: SearchOutcome) returns (stop: bool)
    requires |outcome.matches| <= query.maxResults
    modifies outcome
    ensures outcome.Took(query, FileMatches(query, file), stop)
    ensures outcome.Counted() == old(outcome.Counted()).Add(FileTally(query, file))
  {
    if !query.Included(file) {
      assert outcome.matches + [] == outcome.matches;
      return false;
    }
    if query.kind.Glob? {
      stop := outcome.CollectGlob(query, file);
    } else {
      stop := outcome.ScanLiteral(query, file);
    }
  }

  lemma {:induction false} LinesGrow(query: Query, path: string, lines: seq<string>, upTo: nat)
    requires query.kind.Literal? && upTo <= |lines|
    ensures LineMatches(query, path, lines[..upTo]) <= LineMatches(query, path, lines)
    decreases |lines|
  {
    if upTo == |lines| {
      assert lines[..upTo] == lines;
    } else {
      assert lines[..|lines| - 1][..upTo] == lines[..upTo];
      LinesGrow(query, path, lines[..|lines| - 1], upTo);
    }
  }

  lemma {:induction false} MatchesGrow(query: Query, files: seq<File>, upTo: nat)
    requires upTo <= |files|
    ensures AllMatches(query, files[..upTo]) <= AllMatches(query, files)
    ensures upTo < |files|
            && |AllMatches(query, files[..upTo])| <= query.maxResults < |AllMatches(query, files[..upTo + 1])|
            ==> Reach(query, files) == upTo + 1
    decreases |files|
  {
    if upTo < |files| {
      assert files[..|files| - 1][..upTo] == files[..upTo];
      MatchesGrow(query, files[..|files| - 1], upTo);
      if upTo + 1 < |files| {
        assert files[..|files| - 1][..upTo + 1] == files[..upTo + 1];
        MatchesGrow(query, files[..|files| - 1], upTo + 1);
      } else {
        assert files[..upTo + 1] == files;
      }
    } else {
      assert files[..upTo] == files;
    }
  }

  /** The outcome after the first `i` files. */
  predicate Reported(query: Query, files: seq<File>, i: nat, kept: seq<Match>, tally: Tally, dropped: bool)
    requires i <= |files|
  {
    && Capped(query.maxResults, kept, dropped, AllMatches(query, files[..i])) && tally == AllTallies(query, files[..i])
    && (dropped ==> 0 < i && |AllMatches(query, files[..i - 1])| <= query.maxResults)
  }

  lemma OneFileMore(
      query: Query, files: seq<File>, i: nat, kept: seq<Match>, tally: Tally, kept': seq<Match>, dropped: bool)
    requires i < |files| && Reported(query, files, i, kept, tally, false)
    requires Capped(query.maxResults, kept', dropped, kept + FileMatches(query, files[i]))
    ensures Reported(query, files, i + 1, kept', tally.Add(FileTally(query, files[i])), dropped)
  {
    assert files[..i + 1][..i] == files[..i];
  }

  /** A match dropped in file `i`: what is kept is the head of every match, and later files are not reached. */
  lemma Dropped(query: Query, files: seq<File>, i: nat)
    requires i < |files| && |AllMatches(query, files[..i])| <= query.maxResults
    requires query.maxResults < |AllMatches(query, files[..i + 1])|
    ensures forall kept :: Capped(query.maxResults, kept, true, AllMatches(query, files[..i + 1]))
                           ==> Capped(query.maxResults, kept, true, AllMatches(query, files))
    ensures Reach(query, files) == i + 1
  {
    MatchesGrow(query, files, i);
    MatchesGrow(query, files, i + 1);
  }

  lemma NothingDropped(query: Query, files: seq<File>)
    requires |AllMatches(query, files)| <= query.maxResults
    ensures Reach(query, files) == |files|
  {
    if files != [] {
      MatchesGrow(query, files, |files| - 1);
    }
  }

  /**
    A capped search reports exactly the first matches of the uncapped one, and says it was truncated
    exactly when there was at least one more. The counters speak for the files it reached: all of
    them unless it was truncated.
   */
  method SearchBlocking(query: Query, files: seq<File>) returns (outcome: SearchOutcome)
    requires 0 < query.maxResults
    ensures fresh(outcome)
    ensures Capped(query.maxResults, outcome.matches, outcome.truncated, AllMatches(query, files))
    ensures outcome.Counted() == AllTallies(query, files[..Reach(query, files)])
    ensures !outcome.truncated ==> Reach(query, files) == |files|
  {
    outcome := new SearchOutcome();
    var i, stop := 0, false;
    while i < |files| && !stop
      invariant i <= |files| && fresh(outcome) && outcome.truncated == stop
      invariant Reported(query, files, i, outcome.matches, outcome.Counted(), stop)
    {
      ghost var kept, tally := outcome.matches, outcome.Counted();
      stop := SearchFile(query, files[i], outcome);
      OneFileMore(query, files, i, kept, tally, outcome.matches, stop);
      i := i + 1;
    }
    AtEnd(query, files, i, outcome.matches, outcome.Counted(), stop);
  }

  lemma AtEnd(query: Query, files: seq<File>, i: nat, kept: seq<Match>, tally: Tally, dropped: bool)
    requires i <= |files| && Reported(query, files, i, kept, tally, dropped) && (dropped || i == |files|)
    ensures Capped(query.maxResults, kept, dropped, AllMatches(query, files))
    ensures tally == AllTallies(query, files[..Reach(query, files)])
    ensures !dropped ==> Reach(query, files) == |files|
  {
    assert files[..|files|] == files;
    if dropped {
      Dropped(query, files, i - 1);
    } else {
      NothingDropped(query, files);
    }
  }
}
