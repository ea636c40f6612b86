/**
 * The POST handler's scan: files in the order the workspace enumerator returns
 * them, each read (an unreadable file reads as ""), split on "\n", and its lines
 * tried in order against one regular expression; the first line of the first
 * file that matches gives the reported `path:line:column`.
 */
module Search {

  import opened Optional
  import opened Text

  /**
   * The compiled pattern, as `regex.exec(line)` sees it: the index at which the
   * first match of the pattern in `line` starts, or `None` when there is none.
   * The pattern has no `g` or `y` flag, so every call is independent of the last.
   */
  type Matcher = string -> Option<nat>

  /** A match never starts beyond the end of the line it was found in. */
  ghost predicate Bounded(m: Matcher) {
    forall line :: m(line).Some? ==> m(line).value <= |line|
  }

  /**
   * A candidate file: its URI path, and the outcome of reading it: the
   * decoded text, or `None` when the read failed.
   */
  datatype FileEntry = FileEntry(path: string, read: Option<string>)

  /** `readFileContent`: the file's text, or "" when the read failed. */
  function ReadFileContent(f: FileEntry): (content: string)
    ensures f.read.Some? ==> content == f.read.value
    ensures f.read.None? ==> content == ""
  {
    f.read.GetOr("")
  }

  /** The lines the scan tries, in order: the file's text cut at each newline, with nothing lost. */
  function Lines(f: FileEntry): (lines: seq<string>)
    ensures |lines| >= 1
    ensures forall k :: 0 <= k < |lines| ==> NoNewline(lines[k])
    ensures Join(lines) == ReadFileContent(f)
  {
    JoinSplit(ReadFileContent(f));
    Split(ReadFileContent(f))
  }

  /** A match inside one file: 0-based line index and 0-based match index within that line. */
  datatype Hit = Hit(line: nat, index: nat)

  /**
   * The handler's outcome before it is written out: the found file's path
   * with the 1-based line and column of the match, or nothing found.
   */
  datatype SearchResult = Found(path: string, line: nat, column: nat) | NotFound

  /** True when some line of `f` matches. */
  predicate FileMatches(f: FileEntry, m: Matcher) {
    exists k :: 0 <= k < |Lines(f)| && m(Lines(f)[k]).Some?
  }

  /** True when no file in `files[lo..hi]` has a matching line. */
  predicate NoMatchBetween(files: seq<FileEntry>, m: Matcher, lo: nat, hi: nat)
    requires lo <= hi <= |files|
  {
    forall g :: lo <= g < hi ==> !FileMatches(files[g], m)
  }

  /** True when line `li` of `f` is its first matching line and its match starts at index `j`. */
  predicate FirstLineHit(f: FileEntry, m: Matcher, li: nat, j: nat) {
    && li < |Lines(f)|
    && m(Lines(f)[li]) == Some(j)
    && forall k :: 0 <= k < li ==> m(Lines(f)[k]).None?
  }

  /**
   * True when the first match of the whole scan is in `files[fi]`, at 0-based
   * line `li`, starting at index `j`: no earlier file matches, no earlier line
   * of this file matches, and this line does.
   */
  predicate IsFirstHit(files: seq<FileEntry>, m: Matcher, fi: nat, li: nat, j: nat) {
    && fi < |files|
    && NoMatchBetween(files, m, 0, fi)
    && FirstLineHit(files[fi], m, li, j)
  }

  /** The first line at or after `i` that matches, with where its match starts. */
  function FirstMatchFrom(lines: seq<string>, m: Matcher, i: nat): (r: Option<Hit>)
    requires i <= |lines|
    ensures r.Some? ==> i <= r.value.line < |lines| && m(lines[r.value.line]) == Some(r.value.index)
    ensures r.Some? ==> forall k :: i <= k < r.value.line ==> m(lines[k]).None?
    ensures r.None? ==> forall k :: i <= k < |lines| ==> m(lines[k]).None?
    decreases |lines| - i
  {
    if i == |lines| then None
    else match m(lines[i])
      case Some(j) => Some(Hit(i, j))
      case None => FirstMatchFrom(lines, m, i + 1)
  }

  /** The scan's result over `files[f..]`: the first hit of the first file that has one. */
  function FirstHitFrom(files: seq<FileEntry>, m: Matcher, f: nat): (r: SearchResult)
    requires f <= |files|
    ensures r.Found? ==> r.line >= 1 && r.column >= 1
    decreases |files| - f
  {
    if f == |files| then NotFound
    else match FirstMatchFrom(Lines(files[f]), m, 0)
      case Some(h) => Found(files[f].path, h.line + 1, h.index + 1)
      case None => FirstHitFrom(files, m, f + 1)
  }

  /**
   * The scan's result over all candidate files: a 1-based location, or
   * nothing found exactly when no file has a matching line.
   */
  function FirstHit(files: seq<FileEntry>, m: Matcher): (r: SearchResult)
    ensures r.Found? ==> r.line >= 1 && r.column >= 1
    ensures r.NotFound? <==> NoMatchBetween(files, m, 0, |files|)
  {
    FirstHitFromNotFound(files, m, 0);
    FirstHitFrom(files, m, 0)
  }

  /** A file's first line hit, when it has one, is the one `FirstMatchFrom` finds. */
  lemma FirstLineHitUnique(f: FileEntry, m: Matcher, li: nat, j: nat)
    requires FirstLineHit(f, m, li, j)
    ensures FirstMatchFrom(Lines(f), m, 0) == Some(Hit(li, j))
  {
    assert m(Lines(f)[li]).Some?;
  }

  /** `FirstMatchFrom` from the start finds nothing exactly when the file does not match. */
  lemma FirstMatchNoneIff(f: FileEntry, m: Matcher)
    ensures FirstMatchFrom(Lines(f), m, 0).None? <==> !FileMatches(f, m)
  {
    var r := FirstMatchFrom(Lines(f), m, 0);
    if r.Some? {
      assert m(Lines(f)[r.value.line]).Some?;
    }
  }

  /** True when `r` is the first hit among `files[f..]`, found in `files[fi]`. */
  predicate ReportsHitIn(files: seq<FileEntry>, m: Matcher, f: nat, fi: nat, r: SearchResult)
    requires f <= fi < |files|
  {
    && r.Found? && r.line >= 1 && r.column >= 1
    && files[fi].path == r.path
    && NoMatchBetween(files, m, f, fi)
    && FirstLineHit(files[fi], m, r.line - 1, r.column - 1)
  }

  /** The scan over `files[f..]` reports nothing exactly when none of them matches. */
  lemma {:induction false} FirstHitFromNotFound(files: seq<FileEntry>, m: Matcher, f: nat)
    requires f <= |files|
    ensures FirstHitFrom(files, m, f).NotFound? <==> NoMatchBetween(files, m, f, |files|)
    decreases |files| - f
  {
    if f < |files| {
      FirstMatchNoneIff(files[f], m);
      FirstHitFromNotFound(files, m, f + 1);
    }
  }

  /** A location reported by the scan over `files[f..]` is a first hit in one of them. */
  lemma {:induction false} FirstHitFromFound(files: seq<FileEntry>, m: Matcher, f: nat) returns (fi: nat)
    requires f <= |files|
    requires FirstHitFrom(files, m, f).Found?
    ensures f <= fi < |files| && ReportsHitIn(files, m, f, fi, FirstHitFrom(files, m, f))
    decreases |files| - f
  {
    var r := FirstMatchFrom(Lines(files[f]), m, 0);
    if r.None? {
      FirstMatchNoneIff(files[f], m);
      fi := FirstHitFromFound(files, m, f + 1);
    } else {
      fi := f;
    }
  }

  /**
   * A reported location is the first hit: the path is that of a file none of
   * whose predecessors has a matching line, the line (1-based) is that file's
   * first matching line, and the column (1-based) is where its match starts.
   */
  lemma FoundIsFirstHit(files: seq<FileEntry>, m: Matcher)
    requires FirstHit(files, m).Found?
    ensures FirstHit(files, m).line >= 1 && FirstHit(files, m).column >= 1
    ensures exists fi ::
      && 0 <= fi < |files|
      && files[fi].path == FirstHit(files, m).path
      && IsFirstHit(files, m, fi, FirstHit(files, m).line - 1, FirstHit(files, m).column - 1)
  {
    var r := FirstHit(files, m);
    var fi := FirstHitFromFound(files, m, 0);
    assert ReportsHitIn(files, m, 0, fi, r);
    assert IsFirstHit(files, m, fi, r.line - 1, r.column - 1);
  }

  /** The scan reports nothing exactly when no line of any file matches. */
  lemma NotFoundIffNoMatch(files: seq<FileEntry>, m: Matcher)
    ensures FirstHit(files, m).NotFound? <==> forall fi :: 0 <= fi < |files| ==> !FileMatches(files[fi], m)
  {
    FirstHitFromNotFound(files, m, 0);
  }

  /** Conversely, the first hit is what gets reported. */
  lemma {:induction false} FirstHitIsReported(files: seq<FileEntry>, m: Matcher, fi: nat, li: nat, j: nat)
    requires IsFirstHit(files, m, fi, li, j)
    ensures FirstHit(files, m) == Found(files[fi].path, li + 1, j + 1)
  {
    FirstLineHitUnique(files[fi], m, li, j);
    var f := fi;
    while f > 0
      invariant 0 <= f <= fi
      invariant FirstHitFrom(files, m, f) == Found(files[fi].path, li + 1, j + 1)
    {
      FirstMatchNoneIff(files[f - 1], m);
      f := f - 1;
    }
  }

  /** With a bounded matcher, the column is at most one past the end of the reported line. */
  lemma ColumnWithinLine(files: seq<FileEntry>, m: Matcher)
    requires Bounded(m)
    requires FirstHit(files, m).Found?
    ensures exists fi ::
      && 0 <= fi < |files|
      && files[fi].path == FirstHit(files, m).path
      && FirstHit(files, m).line <= |Lines(files[fi])|
      && FirstHit(files, m).column <= |Lines(files[fi])[FirstHit(files, m).line - 1]| + 1
  {
    FoundIsFirstHit(files, m);
  }

  /**
   * A file whose read failed is the single empty line: it matches exactly when
   * the pattern matches the empty string, and then, for a bounded matcher, at
   * line 1, column 1.
   */
  lemma UnreadableFile(f: FileEntry, m: Matcher)
    requires f.read.None?
    ensures Lines(f) == [""]
    ensures FileMatches(f, m) <==> m("").Some?
    ensures Bounded(m) && m("").Some? ==> FirstLineHit(f, m, 0, 0)
  {
    assert Lines(f)[0] == "";
  }

  /** An unreadable file reached by the scan is reported at 1:1 when the pattern matches "". */
  lemma UnreadableFileReportedAtStart(files: seq<FileEntry>, m: Matcher, fi: nat)
    requires Bounded(m)
    requires fi < |files| && files[fi].read.None?
    requires NoMatchBetween(files, m, 0, fi)
    requires m("").Some?
    ensures FirstHit(files, m) == Found(files[fi].path, 1, 1)
  {
    UnreadableFile(files[fi], m);
    FirstHitIsReported(files, m, fi, 0, 0);
  }

  /** A match location as the reply writes it. */
  datatype Location = Location(path: string, line: nat, column: nat)

  /** The template `${path}:${line}:${column}`: a text from which a client reads the location back. */
  function LocationText(loc: Location): (text: string)
    ensures ParseLocation(text) == Some(loc)
  {
    ParseLocationText(loc);
    loc.path + ":" + Decimal(loc.line) + ":" + Decimal(loc.column)
  }

  /**
   * How a client reads a location text back: the numerals after the last two
   * colons are the column and the line, and everything before them, colons
   * included, is the path. Numerals with a superfluous leading zero are refused,
   * since no rendered number has one.
   */
  function ParseLocation(s: string): Option<Location> {
    match LastIndexOf(s, ':')
    case None => None
    case Some(j) =>
      var head := s[..j];
      var columnText := s[j + 1..];
      match LastIndexOf(head, ':')
      case None => None
      case Some(i) =>
        var lineText := head[i + 1..];
        if IsCanonicalNumeral(lineText) && IsCanonicalNumeral(columnText)
        then Some(Location(head[..i], ParseDecimal(lineText), ParseDecimal(columnText)))
        else None
  }

  /** The last position holding `c` is the one `LastIndexOf` finds. */
  lemma LastIndexOfIs(s: string, c: char, p: nat)
    requires p < |s| && s[p] == c
    requires forall k :: p < k < |s| ==> s[k] != c
    ensures LastIndexOf(s, c) == Some(p)
  {
    var r := LastIndexOf(s, c);
  }

  /** A colon followed only by digits is the last colon. */
  lemma LastColonAt(s: string, p: nat)
    requires p < |s| && s[p] == ':' && IsNumeral(s[p + 1..])
    ensures LastIndexOf(s, ':') == Some(p)
  {
    forall k | p < k < |s|
      ensures s[k] != ':'
    {
      assert s[k] == s[p + 1..][k - p - 1];
    }
    LastIndexOfIs(s, ':', p);
  }

  /** In `text + ":" + numeral`, the last colon is the one before the numeral. */
  lemma LastColonBeforeNumeral(text: string, numeral: string)
    requires IsNumeral(numeral)
    ensures LastIndexOf(text + ":" + numeral, ':') == Some(|text|)
  {
    var s := text + ":" + numeral;
    LastColonAt(s, |text|);
  }

  /** The template's text reads back as the location it was written from, whatever colons the path holds. */
  lemma ParseLocationText(loc: Location)
    ensures ParseLocation(loc.path + ":" + Decimal(loc.line) + ":" + Decimal(loc.column)) == Some(loc)
  {
    var lineText, columnText := Decimal(loc.line), Decimal(loc.column);
    var head := loc.path + ":" + lineText;
    var s := loc.path + ":" + lineText + ":" + columnText;
    assert s == head + ":" + columnText;
    LastColonBeforeNumeral(head, columnText);
    LastColonBeforeNumeral(loc.path, lineText);
    assert s[..|head|] == head && s[|head| + 1..] == columnText;
    assert head[..|loc.path|] == loc.path && head[|loc.path| + 1..] == lineText;
    ParseDecimalOfDecimal(loc.line);
    ParseDecimalOfDecimal(loc.column);
  }

  /** A text a client accepts is a path, a colon, a canonical numeral, a colon and a canonical numeral. */
  lemma ParsedParts(s: string) returns (lineText: string, columnText: string)
    requires ParseLocation(s).Some?
    ensures IsCanonicalNumeral(lineText) && IsCanonicalNumeral(columnText)
    ensures ParseLocation(s).value.line == ParseDecimal(lineText)
    ensures ParseLocation(s).value.column == ParseDecimal(columnText)
    ensures s == ParseLocation(s).value.path + ":" + lineText + ":" + columnText
  {
    var j := LastIndexOf(s, ':').value;
    var head := s[..j];
    var i := LastIndexOf(head, ':').value;
    lineText, columnText := head[i + 1..], s[j + 1..];
    assert head[..i] + ":" + lineText == head;
    assert head + ":" + columnText == s;
  }

  /** Conversely, every text a client accepts is the template's text for the location it reads. */
  lemma LocationTextOfParse(s: string)
    requires ParseLocation(s).Some?
    ensures LocationText(ParseLocation(s).value) == s
  {
    var lineText, columnText := ParsedParts(s);
    DecimalOfParseDecimal(lineText);
    DecimalOfParseDecimal(columnText);
  }

  /** The JSON body the handler sends: `{status: "success", path}` or `{status: "notFound"}`. */
  datatype Reply = Reply(status: string, path: Option<string>)

  /** The reply for a scan result. */
  function Respond(r: SearchResult): (reply: Reply)
    ensures reply.status == "success" <==> r.Found?
    ensures reply.status == "notFound" <==> r.NotFound?
    ensures reply.path.Some? <==> r.Found?
    ensures r.Found? ==> ParseLocation(reply.path.value) == Some(Location(r.path, r.line, r.column))
  {
    match r
    case Found(path, line, column) =>
      Reply("success", Some(LocationText(Location(path, line, column))))
    case NotFound => Reply("notFound", None)
  }

  /**
   * The handler's nested loop: files in order, lines in order, leaving both
   * loops at the first line whose `regex.exec` succeeds.
   */
  method FindFirstMatch(files: seq<FileEntry>, m: Matcher) returns (r: SearchResult)
    ensures r == FirstHit(files, m)
  {
    var foundFile: Option<FileEntry> := None;
    var lineNumber: nat := 0;
    var columnNumber: nat := 0;
    var f := 0;
    while f < |files|
      invariant 0 <= f <= |files|
      invariant foundFile.None?
      invariant FirstHitFrom(files, m, f) == FirstHit(files, m)
      decreases |files| - f
    {
      var lines := Split(ReadFileContent(files[f]));
      var i := 0;
      while i < |lines|
        invariant 0 <= i <= |lines|
        invariant foundFile.None?
        invariant FirstMatchFrom(lines, m, i) == FirstMatchFrom(lines, m, 0)
        decreases |lines| - i
      {
        var found := m(lines[i]);
        if found.Some? {
          foundFile := Some(files[f]);
          lineNumber := i + 1;
          columnNumber := found.value + 1;
          break;
        }
        i := i + 1;
      }
      if foundFile.Some? {
        break;
      }
      f := f + 1;
    }
    if foundFile.Some? {
      r := Found(foundFile.value.path, lineNumber, columnNumber);
    } else {
      r := NotFound;
    }
  }
}
