/** The canonical diff printer, and a parser that recovers exactly what it was given. */
module CanonicalDiff {
  import opened Evidence

  datatype Change = Change(path: string, before: string, after: string)

  // ---- lines ----

  ghost predicate NoNewline(s: string) { '\n' !in s }

  /** The text between newlines; one more part than there are newlines. */
  function Split(text: string): (parts: seq<string>)
    ensures |parts| >= 1
  {
    if text == "" then [""]
    else
      var rest := Split(text[1..]);
      if text[0] == '\n' then [""] + rest else [[text[0]] + rest[0]] + rest[1..]
  }

  function Join(parts: seq<string>): string {
    if parts == [] then "" else if |parts| == 1 then parts[0] else parts[0] + "\n" + Join(parts[1..])
  }

  /** Every line with its newline. */
  function Unlines(lines: seq<string>): string { if lines == [] then "" else lines[0] + "\n" + Unlines(lines[1..]) }

  ghost predicate LineAt(lines: seq<string>, i: int) { 0 <= i < |lines| ==> NoNewline(lines[i]) }
  ghost predicate AllLines(lines: seq<string>) { forall i :: LineAt(lines, i) }

  lemma {:induction false} SplitParts(text: string)
    ensures AllLines(Split(text)) && Join(Split(text)) == text
    ensures text != "" && text[|text| - 1] == '\n' ==> |Split(text)| >= 2 && Split(text)[|Split(text)| - 1] == ""
    ensures text != "" && text[|text| - 1] != '\n' ==> Split(text)[|Split(text)| - 1] != ""
  {
    var parts := Split(text);
    if text != "" {
      var rest := Split(text[1..]);
      SplitParts(text[1..]);
      forall i
        ensures LineAt(parts, i)
      {
        assert LineAt(rest, i) && LineAt(rest, i - 1);
      }
      if text[0] == '\n' {
        assert parts[1..] == rest;
      } else {
        assert parts[1..] == rest[1..];
      }
      assert text == [text[0]] + text[1..];
    }
  }

  lemma {:induction false} JoinFinal(lines: seq<string>)
    requires lines != []
    ensures Join(lines + [""]) == Join(lines) + "\n"
  {
    if |lines| > 1 {
      assert (lines + [""])[1..] == lines[1..] + [""];
      JoinFinal(lines[1..]);
    }
  }

  lemma {:induction false} SplitFirst(line: string, rest: string)
    requires NoNewline(line)
    ensures Split(line + "\n" + rest) == [line] + Split(rest)
  {
    var text := line + "\n" + rest;
    if line == "" {
      assert text[1..] == rest;
    } else {
      assert text[1..] == line[1..] + "\n" + rest;
      SplitFirst(line[1..], rest);
      assert line == [line[0]] + line[1..];
    }
  }

  /** A printed text splits back into its lines. */
  lemma {:induction false} SplitUnlines(lines: seq<string>)
    requires AllLines(lines)
    ensures Split(Unlines(lines)) == lines + [""]
  {
    if lines != [] {
      assert LineAt(lines, 0);
      forall i
        ensures LineAt(lines[1..], i)
      {
        assert LineAt(lines, i + 1);
      }
      SplitUnlines(lines[1..]);
      SplitFirst(lines[0], Unlines(lines[1..]));
    }
  }

  // ---- one side of a change ----

  const MARKER := "\\ No newline at end of file"

  /** The lines of a text, and whether the last one ends with a newline. */
  function UnifiedLines(content: string): (seq<string>, bool) {
    if content == "" then ([], false)
    else
      var final, parts := content[|content| - 1] == '\n', Split(content);
      (if final then parts[..|parts| - 1] else parts, final)
  }

  /** The text its lines came from. */
  function Assemble(lines: seq<string>, final: bool): string {
    if lines == [] then "" else Join(lines) + if final then "\n" else ""
  }

  lemma LinesAssemble(content: string)
    ensures var (lines, final) := UnifiedLines(content);
            AllLines(lines) && Assemble(lines, final) == content && (lines == [] <==> content == "")
              && (lines == [] ==> !final)
  {
    SplitParts(content);
    if content != "" {
      var parts := Split(content);
      if content[|content| - 1] == '\n' {
        var lines := parts[..|parts| - 1];
        assert parts == lines + [""];
        JoinFinal(lines);
        forall i
          ensures LineAt(lines, i)
        {
          assert LineAt(parts, i);
        }
      }
    }
  }

  function Prefixed(prefix: char, lines: seq<string>): seq<string> {
    if lines == [] then [] else [[prefix] + lines[0]] + Prefixed(prefix, lines[1..])
  }

  /** The printed lines of one side. */
  function PrintSide(prefix: char, content: string): seq<string> {
    var (lines, final) := UnifiedLines(content);
    Prefixed(prefix, lines) + if lines != [] && !final then [MARKER] else []
  }

  // ---- the printer ----

  function Digits(n: nat): string {
    if n < 10 then [(n + '0' as int) as char] else Digits(n / 10) + [(n % 10 + '0' as int) as char]
  }

  function UnifiedRange(count: nat): string { if count == 0 then "0,0" else "1," + Digits(count) }

  function Header(c: Change): (lines: seq<string>)
    ensures |lines| == 4 && lines[1] == "--- a/" + c.path
  {
    ["diff --git a/" + c.path + " b/" + c.path, "--- a/" + c.path, "+++ b/" + c.path,
     "@@ -" + UnifiedRange(|UnifiedLines(c.before).0|) + " +" + UnifiedRange(|UnifiedLines(c.after).0|) + " @@"]
  }

  function SectionLines(c: Change): seq<string> { Header(c) + (PrintSide('-', c.before) + PrintSide('+', c.after)) }

  function DiffLines(changes: seq<Change>): seq<string> {
    if changes == [] then [] else SectionLines(changes[0]) + DiffLines(changes[1..])
  }

  // ---- a parser for the format ----

  function CountPrefixed(prefix: char, lines: seq<string>): (n: nat)
    ensures n <= |lines|
  {
    if lines == [] || lines[0] == "" || lines[0][0] != prefix then 0 else 1 + CountPrefixed(prefix, lines[1..])
  }

  function Stripped(lines: seq<string>): seq<string> {
    if lines == [] then [] else [if lines[0] == "" then "" else lines[0][1..]] + Stripped(lines[1..])
  }

  /** The text of one side, and the lines after it. */
  function ParseSide(prefix: char, lines: seq<string>): (string, seq<string>) {
    var n := CountPrefixed(prefix, lines);
    var marked := n > 0 && n < |lines| && lines[n] == MARKER;
    (Assemble(Stripped(lines[..n]), !marked), lines[if marked then n + 1 else n..])
  }

  /** The number a text begins with, after what was read of it, and the text behind it. */
  function ReadDigits(read: nat, text: string): (nat, string)
    decreases |text|
  {
    if text == "" || !('0' <= text[0] <= '9') then (read, text)
    else ReadDigits(read * 10 + (text[0] as int - '0' as int), text[1..])
  }

  /** A start and a count, and the text behind them. */
  function ReadRange(text: string): Option<((nat, nat), string)> {
    var (start, rest) := ReadDigits(0, text);
    if rest == "" || rest[0] != ',' then None
    else
      var (count, after) := ReadDigits(0, rest[1..]);
      Some(((start, count), after))
  }

  /** The two ranges of a hunk header. */
  function ReadHunk(line: string): Option<((nat, nat), (nat, nat))> {
    if !("@@ -" <= line) then None
    else
      var before := ReadRange(line[4..]);
      if before.None? || !(" +" <= before.value.1) then None
      else
        var after := ReadRange(before.value.1[2..]);
        if after.None? || after.value.1 != " @@" then None else Some((before.value.0, after.value.0))
  }

  /** A range covers all lines of its side: from the first one, or none at all. */
  predicate Covers(range: (nat, nat), count: nat) { range.1 == count && range.0 == if count == 0 then 0 else 1 }

  /** The four lines before a section's body name one path, and count the lines of both sides. */
  predicate HeaderFits(header: seq<string>, removed: nat, added: nat)
    requires |header| == 4
  {
    var hunk := ReadHunk(header[3]);
    |header[1]| >= 6 && header[1][..6] == "--- a/"
    && (var path := header[1][6..]; header[0] == "diff --git a/" + path + " b/" + path && header[2] == "+++ b/" + path)
    && hunk.Some? && Covers(hunk.value.0, removed) && Covers(hunk.value.1, added)
  }

  function ParseSections(lines: seq<string>): seq<Change>
    decreases |lines|
  {
    if |lines| < 4 then []
    else
      var (before, rest) := ParseSide('-', lines[4..]);
      var (after, rest') := ParseSide('+', rest);
      ParseShrinks('-', lines[4..]);
      ParseShrinks('+', rest);
      if !HeaderFits(lines[..4], CountPrefixed('-', lines[4..]), CountPrefixed('+', rest)) then []
      else [Change(lines[1][6..], before, after)] + ParseSections(rest')
  }

  lemma ParseShrinks(prefix: char, lines: seq<string>)
    ensures |ParseSide(prefix, lines).1| <= |lines|
  {}

  /** The changes a diff shows. */
  function Parse(diff: string): seq<Change> {
    var lines := Split(diff);
    ParseSections(lines[..|lines| - 1])
  }

  // ---- printing and parsing back ----

  lemma {:induction false} PrefixedBack(prefix: char, lines: seq<string>, rest: seq<string>)
    requires rest == [] || rest[0] == "" || rest[0][0] != prefix
    ensures var printed := Prefixed(prefix, lines);
            |printed| == |lines| && CountPrefixed(prefix, printed + rest) == |lines| && Stripped(printed) == lines
  {
    if lines != [] {
      PrefixedBack(prefix, lines[1..], rest);
      var printed := Prefixed(prefix, lines);
      assert printed[1..] == Prefixed(prefix, lines[1..]);
      assert (printed + rest)[1..] == Prefixed(prefix, lines[1..]) + rest;
    }
  }

  /** The lines that follow cannot be taken for more of this side. */
  predicate Ends(prefix: char, rest: seq<string>) {
    rest == [] || (rest[0] != "" && rest[0][0] != prefix && rest[0] != MARKER)
  }

  /** The side's lines are cut off where they end, and the marker with them. */
  lemma SideCut(prefix: char, lines: seq<string>, marked: bool, rest: seq<string>)
    requires prefix != '\\' && Ends(prefix, rest) && (marked ==> lines != [])
    ensures var tail := if marked then [MARKER] + rest else rest;
            ParseSide(prefix, Prefixed(prefix, lines) + tail) == (Assemble(lines, !marked), rest)
            && CountPrefixed(prefix, Prefixed(prefix, lines) + tail) == |lines|
  {
    var printed, tail := Prefixed(prefix, lines), if marked then [MARKER] + rest else rest;
    PrefixedBack(prefix, lines, tail);
    CutLines(printed, tail);
    CutLines([MARKER], rest);
  }

  predicate Marked(content: string) { UnifiedLines(content).0 != [] && !UnifiedLines(content).1 }

  lemma SideTail(prefix: char, content: string, rest: seq<string>)
    ensures PrintSide(prefix, content) + rest
         == Prefixed(prefix, UnifiedLines(content).0) + if Marked(content) then [MARKER] + rest else rest
  {}

  lemma MarkedAssembles(content: string)
    ensures Assemble(UnifiedLines(content).0, !Marked(content)) == content
  {
    LinesAssemble(content);
  }

  lemma SideBack(prefix: char, content: string, rest: seq<string>)
    requires prefix != '\\' && Ends(prefix, rest)
    ensures ParseSide(prefix, PrintSide(prefix, content) + rest) == (content, rest)
    ensures CountPrefixed(prefix, PrintSide(prefix, content) + rest) == |UnifiedLines(content).0|
  {
    SideCut(prefix, UnifiedLines(content).0, Marked(content), rest);
    SideTail(prefix, content, rest);
    MarkedAssembles(content);
  }

  lemma CutLines(a: seq<string>, b: seq<string>)
    ensures (a + b)[..|a|] == a && (a + b)[|a|..] == b && (b != [] ==> (a + b)[|a|] == b[0])
    ensures b != [] ==> (a + b)[|a| + 1..] == b[1..]
  {}

  lemma {:induction false} DigitsBack(n: nat, rest: string)
    ensures ReadDigits(0, Digits(n) + rest) == ReadDigits(n, rest)
  {
    var digit := [(n % 10 + '0' as int) as char];
    if n < 10 {
      assert (Digits(n) + rest)[1..] == rest;
    } else {
      DigitsBack(n / 10, digit + rest);
      assert Digits(n) + rest == Digits(n / 10) + (digit + rest) && (digit + rest)[1..] == rest;
    }
  }

  lemma NumberBack(n: nat, rest: string)
    requires rest != "" && !('0' <= rest[0] <= '9')
    ensures ReadDigits(0, Digits(n) + rest) == (n, rest)
  {
    DigitsBack(n, rest);
  }

  lemma RangeBack(count: nat, rest: string)
    requires rest != "" && !('0' <= rest[0] <= '9')
    ensures var range := ReadRange(UnifiedRange(count) + rest);
            range.Some? && range.value.1 == rest && Covers(range.value.0, count)
  {
    var start, tail := if count == 0 then 0 else 1, "," + (Digits(count) + rest);
    assert Digits(0) == "0" && Digits(1) == "1";
    assert UnifiedRange(count) + rest == Digits(start) + tail;
    NumberBack(start, tail);
    assert tail[1..] == Digits(count) + rest;
    NumberBack(count, rest);
  }

  lemma HunkParts(left: string, right: string)
    ensures var line, rest := "@@ -" + left + " +" + right + " @@", " +" + (right + " @@");
            "@@ -" <= line && line[4..] == left + rest && " +" <= rest && rest[2..] == right + " @@"
  {}

  lemma HunkBack(removed: nat, added: nat)
    ensures var hunk := ReadHunk("@@ -" + UnifiedRange(removed) + " +" + UnifiedRange(added) + " @@");
            hunk.Some? && Covers(hunk.value.0, removed) && Covers(hunk.value.1, added)
  {
    HunkParts(UnifiedRange(removed), UnifiedRange(added));
    RangeBack(removed, " +" + (UnifiedRange(added) + " @@"));
    RangeBack(added, " @@");
  }

  lemma HeaderBack(c: Change)
    ensures HeaderFits(Header(c), |UnifiedLines(c.before).0|, |UnifiedLines(c.after).0|)
    ensures Header(c)[1][6..] == c.path
  {
    HunkBack(|UnifiedLines(c.before).0|, |UnifiedLines(c.after).0|);
    assert ("--- a/" + c.path)[..6] == "--- a/" && ("--- a/" + c.path)[6..] == c.path;
  }

  lemma BodyBack(header: seq<string>, body: seq<string>, before: string, after: string, rest: seq<string>)
    requires |header| == 4 && Ends('-', PrintSide('+', after) + rest) && Ends('+', rest)
    requires HeaderFits(header, |UnifiedLines(before).0|, |UnifiedLines(after).0|)
    requires body == PrintSide('-', before) + (PrintSide('+', after) + rest)
    ensures ParseSections(header + body) == [Change(header[1][6..], before, after)] + ParseSections(rest)
  {
    SideBack('-', before, PrintSide('+', after) + rest);
    SideBack('+', after, rest);
    assert (header + body)[4..] == body && (header + body)[..4] == header && (header + body)[1] == header[1];
  }

  lemma SectionBack(c: Change, rest: seq<string>)
    requires Ends('+', rest) && Ends('-', rest)
    ensures ParseSections(SectionLines(c) + rest) == [c] + ParseSections(rest)
  {
    HeaderBack(c);
    SideStarts('+', c.after, rest);
    var body := PrintSide('-', c.before) + (PrintSide('+', c.after) + rest);
    BodyBack(Header(c), body, c.before, c.after, rest);
    Regroup(Header(c), PrintSide('-', c.before), PrintSide('+', c.after), rest);
  }

  lemma Regroup(a: seq<string>, b: seq<string>, c: seq<string>, d: seq<string>)
    ensures a + (b + c) + d == a + (b + (c + d))
  {}

  /** A printed side begins with its prefix, or is nothing. */
  lemma SideStarts(prefix: char, content: string, rest: seq<string>)
    requires prefix == '+' && Ends('-', rest)
    ensures Ends('-', PrintSide(prefix, content) + rest)
  {
    LinesAssemble(content);
  }

  lemma {:induction false} SectionsBack(changes: seq<Change>)
    ensures ParseSections(DiffLines(changes)) == changes
  {
    if changes != [] {
      SectionsBack(changes[1..]);
      DiffStarts(changes[1..]);
      SectionBack(changes[0], DiffLines(changes[1..]));
    }
  }

  lemma DiffStarts(changes: seq<Change>)
    ensures Ends('+', DiffLines(changes)) && Ends('-', DiffLines(changes))
  {
    if changes != [] {
      var first := "diff --git a/" + changes[0].path + " b/" + changes[0].path;
      assert DiffLines(changes)[0] == first && first[0] == 'd';
    }
  }

  // ---- the printed text ----

  lemma {:induction false} UnlinesJoin(lines: seq<string>)
    requires lines != []
    ensures Unlines(lines) == Join(lines) + "\n"
  {
    if |lines| > 1 {
      UnlinesJoin(lines[1..]);
    }
  }

  lemma {:induction false} UnlinesConcat(a: seq<string>, b: seq<string>)
    ensures Unlines(a + b) == Unlines(a) + Unlines(b)
  {
    if a == [] {
      assert a + b == b;
    } else {
      UnlinesConcat(a[1..], b);
      assert (a + b)[1..] == a[1..] + b;
    }
  }

  function Sections(changes: seq<Change>): seq<string> {
    if changes == [] then [] else [Join(SectionLines(changes[0]))] + Sections(changes[1..])
  }

  /** Sections joined by newlines, with a final one. */
  function DiffText(changes: seq<Change>): string { Join(Sections(changes)) + "\n" }

  lemma {:induction false} TextIsLines(changes: seq<Change>)
    requires changes != []
    ensures DiffText(changes) == Unlines(DiffLines(changes))
  {
    var first := SectionLines(changes[0]);
    UnlinesJoin(first);
    if |changes| == 1 {
      assert changes[1..] == [] && DiffLines(changes) == first;
      assert Sections(changes) == [Join(first)];
    } else {
      TextIsLines(changes[1..]);
      UnlinesConcat(first, DiffLines(changes[1..]));
      assert Sections(changes)[1..] == Sections(changes[1..]) && |Sections(changes[1..])| >= 1;
      assert DiffText(changes) == Join(first) + "\n" + DiffText(changes[1..]);
    }
  }

  ghost predicate PathAt(changes: seq<Change>, i: int) { 0 <= i < |changes| ==> NoNewline(changes[i].path) }

  lemma {:induction false} AllLinesConcat(a: seq<string>, b: seq<string>)
    requires AllLines(a) && AllLines(b)
    ensures AllLines(a + b)
  {
    forall i
      ensures LineAt(a + b, i)
    {
      assert LineAt(a, i) && LineAt(b, i - |a|);
    }
  }

  lemma {:induction false} PrefixedLines(prefix: char, lines: seq<string>)
    requires AllLines(lines) && prefix != '\n'
    ensures AllLines(Prefixed(prefix, lines))
  {
    if lines != [] {
      assert LineAt(lines, 0);
      forall i
        ensures LineAt(lines[1..], i)
      {
        assert LineAt(lines, i + 1);
      }
      PrefixedLines(prefix, lines[1..]);
      AllLinesConcat([[prefix] + lines[0]], Prefixed(prefix, lines[1..]));
    }
  }

  lemma SideLines(prefix: char, content: string)
    requires prefix != '\n'
    ensures AllLines(PrintSide(prefix, content))
  {
    var (lines, final) := UnifiedLines(content);
    LinesAssemble(content);
    PrefixedLines(prefix, lines);
    AllLinesConcat(Prefixed(prefix, lines), if lines != [] && !final then [MARKER] else []);
  }

  lemma {:induction false} DigitsLine(n: nat)
    ensures NoNewline(Digits(n))
  {
    if n >= 10 {
      DigitsLine(n / 10);
    }
  }

  lemma HeaderLines(c: Change)
    requires NoNewline(c.path)
    ensures AllLines(Header(c))
  {
    DigitsLine(|UnifiedLines(c.before).0|);
    DigitsLine(|UnifiedLines(c.after).0|);
  }

  lemma {:induction false} DiffIsLines(changes: seq<Change>)
    requires forall i :: PathAt(changes, i)
    ensures AllLines(DiffLines(changes))
  {
    if changes != [] {
      var c := changes[0];
      assert PathAt(changes, 0);
      forall i
        ensures PathAt(changes[1..], i)
      {
        assert PathAt(changes, i + 1);
      }
      DiffIsLines(changes[1..]);
      HeaderLines(c);
      SideLines('-', c.before);
      SideLines('+', c.after);
      AllLinesConcat(PrintSide('-', c.before), PrintSide('+', c.after));
      AllLinesConcat(Header(c), PrintSide('-', c.before) + PrintSide('+', c.after));
      AllLinesConcat(SectionLines(c), DiffLines(changes[1..]));
    }
  }

  /** Parsing a printed diff returns exactly what was printed. */
  lemma ParsePrinted(changes: seq<Change>)
    requires changes != [] && forall i :: PathAt(changes, i)
    ensures Parse(DiffText(changes)) == changes
  {
    var lines := DiffLines(changes);
    TextIsLines(changes);
    DiffIsLines(changes);
    SplitUnlines(lines);
    assert (lines + [""])[..|lines|] == lines;
    SectionsBack(changes);
  }

  // ---- the whole printer ----

  const MAX_DIFF_BYTES := 256 * 1024

  function Utf8Length(text: string): nat {
    if text == "" then 0
    else
      var c := text[0] as int;
      (if c < 0x80 then 1 else if c < 0x800 then 2 else if c < 0x1_0000 then 3 else 4) + Utf8Length(text[1..])
  }

  function Slashes(path: string): string {
    if path == "" then "" else [if path[0] == '\\' then '/' else path[0]] + Slashes(path[1..])
  }

  function Segments(path: string): (parts: seq<string>)
    ensures |parts| >= 1
  {
    if path == "" then [""]
    else
      var rest := Segments(path[1..]);
      if path[0] == '/' then [""] + rest else [[path[0]] + rest[0]] + rest[1..]
  }

  predicate SafePath(path: string) {
    path != "" && path[0] != '/' && (forall i | 0 <= i < |path| :: path[i] != ':' && path[i] as int > 0x1F)
    && forall i | 0 <= i < |Segments(path)| :: Segments(path)[i] !in {"", ".", ".."}
  }

  /** One validated change, or None where the printer throws. */
  function Normalized(c: Change): Option<Change> {
    var path := Slashes(c.path);
    if c.path == "" || !SafePath(path) || c.before == c.after then None else Some(Change(path, c.before, c.after))
  }

  function NormalizedAll(changes: seq<Change>): Option<seq<Change>> {
    if changes == [] then Some([])
    else
      var first, rest := Normalized(changes[0]), NormalizedAll(changes[1..]);
      if first.None? || rest.None? then None else Some([first.value] + rest.value)
  }

  predicate TextBefore(a: string, b: string) {
    if b == "" then false else if a == "" then true
    else if a[0] != b[0] then a[0] < b[0] else TextBefore(a[1..], b[1..])
  }

  function Insert(c: Change, sorted: seq<Change>): seq<Change> {
    if sorted == [] || !TextBefore(sorted[0].path, c.path) then [c] + sorted else [sorted[0]] + Insert(c, sorted[1..])
  }

  function SortByPath(changes: seq<Change>): seq<Change> {
    if changes == [] then [] else Insert(changes[0], SortByPath(changes[1..]))
  }

  predicate UniquePaths(changes: seq<Change>) {
    forall i, j | 0 <= i < j < |changes| :: changes[i].path != changes[j].path
  }

  /** The canonical diff, or None where the printer throws. */
  function CreateDiff(changes: seq<Change>): Option<string> {
    var normalized := NormalizedAll(changes);
    if changes == [] || normalized.None? then None
    else
      var sorted := SortByPath(normalized.value);
      if !UniquePaths(sorted) || Utf8Length(DiffText(sorted)) > MAX_DIFF_BYTES then None else Some(DiffText(sorted))
  }

  lemma {:induction false} InsertKeeps(c: Change, sorted: seq<Change>)
    ensures multiset(Insert(c, sorted)) == multiset(sorted) + multiset{c}
  {
    if sorted != [] && TextBefore(sorted[0].path, c.path) {
      InsertKeeps(c, sorted[1..]);
      assert sorted == [sorted[0]] + sorted[1..];
    }
  }

  lemma {:induction false} SortKeeps(changes: seq<Change>)
    ensures multiset(SortByPath(changes)) == multiset(changes)
  {
    if changes != [] {
      SortKeeps(changes[1..]);
      InsertKeeps(changes[0], SortByPath(changes[1..]));
      assert changes == [changes[0]] + changes[1..];
    }
  }

  // ---- the order ----

  lemma {:induction false} TextOrder(a: string, b: string)
    ensures !(TextBefore(a, b) && TextBefore(b, a))
    ensures TextBefore(a, b) || TextBefore(b, a) || a == b
  {
    if a != "" && b != "" && a[0] == b[0] {
      TextOrder(a[1..], b[1..]);
      assert a == [a[0]] + a[1..] && b == [b[0]] + b[1..];
    }
  }

  /** Whatever stands before `c` and not before `b` has `b` before `c`. */
  lemma {:induction false} TextBetween(a: string, b: string, c: string)
    requires TextBefore(a, c)
    ensures TextBefore(a, b) || TextBefore(b, c)
  {
    if a != "" && b != "" && a[0] == b[0] == c[0] {
      TextBetween(a[1..], b[1..], c[1..]);
    }
  }

  ghost predicate NotAfter(changes: seq<Change>, i: int, j: int) {
    0 <= i < j < |changes| ==> !TextBefore(changes[j].path, changes[i].path)
  }

  ghost predicate Sorted(changes: seq<Change>) { forall i, j :: NotAfter(changes, i, j) }

  lemma SortedFront(first: Change, rest: seq<Change>)
    requires Sorted(rest) && forall c | c in rest :: !TextBefore(c.path, first.path)
    ensures Sorted([first] + rest)
  {
    forall i, j
      ensures NotAfter([first] + rest, i, j)
    {
      assert NotAfter(rest, i - 1, j - 1);
      if 0 == i < j <= |rest| {
        assert rest[j - 1] in rest;
      }
    }
  }

  lemma SortedRest(changes: seq<Change>)
    requires Sorted(changes) && changes != []
    ensures Sorted(changes[1..]) && forall c | c in changes[1..] :: !TextBefore(c.path, changes[0].path)
  {
    forall i, j
      ensures NotAfter(changes[1..], i, j)
    {
      assert NotAfter(changes, i + 1, j + 1);
    }
    forall c | c in changes[1..]
      ensures !TextBefore(c.path, changes[0].path)
    {
      var k :| 0 <= k < |changes| - 1 && changes[1..][k] == c;
      assert NotAfter(changes, 0, k + 1);
    }
  }

  lemma {:induction false} InsertSorts(c: Change, sorted: seq<Change>)
    requires Sorted(sorted)
    ensures Sorted(Insert(c, sorted)) && forall x | x in Insert(c, sorted) :: x == c || x in sorted
  {
    if sorted == [] {
    } else if TextBefore(sorted[0].path, c.path) {
      SortedRest(sorted);
      InsertSorts(c, sorted[1..]);
      TextOrder(sorted[0].path, c.path);
      SortedFront(sorted[0], Insert(c, sorted[1..]));
    } else {
      SortedRest(sorted);
      forall x | x in sorted
        ensures !TextBefore(x.path, c.path)
      {
        if TextBefore(x.path, c.path) {
          TextBetween(x.path, sorted[0].path, c.path);
        }
      }
      SortedFront(c, sorted);
    }
  }

  lemma {:induction false} SortSorts(changes: seq<Change>)
    ensures Sorted(SortByPath(changes))
  {
    if changes != [] {
      SortSorts(changes[1..]);
      InsertSorts(changes[0], SortByPath(changes[1..]));
    }
  }

  lemma SameFirst(a: seq<Change>, b: seq<Change>)
    requires a != [] && Sorted(a) && UniquePaths(a) && Sorted(b) && multiset(a) == multiset(b)
    ensures b != [] && a[0] == b[0]
  {
    assert |a| == |multiset(a)| == |b|;
    assert a[0] in multiset(b) && b[0] in multiset(a);
    var i :| 0 <= i < |a| && a[i] == b[0];
    var j :| 0 <= j < |b| && b[j] == a[0];
    assert NotAfter(a, 0, i) && NotAfter(b, 0, j);
    TextOrder(a[0].path, b[0].path);
  }

  lemma SameRest(a: seq<Change>, b: seq<Change>)
    requires a != [] && b != [] && a[0] == b[0] && multiset(a) == multiset(b)
    ensures multiset(a[1..]) == multiset(b[1..])
  {
    assert a == [a[0]] + a[1..] && b == [a[0]] + b[1..];
    assert multiset(a[1..]) == multiset(a) - multiset{a[0]} == multiset(b[1..]);
  }

  lemma UniqueRest(changes: seq<Change>)
    requires changes != [] && UniquePaths(changes)
    ensures UniquePaths(changes[1..])
  {
    var rest := changes[1..];
    forall i, j | 0 <= i < j < |rest|
      ensures rest[i].path != rest[j].path
    {
      assert rest[i] == changes[i + 1] && rest[j] == changes[j + 1];
    }
  }

  /** A sorted list with distinct paths is the only sorted list of its changes. */
  lemma {:induction false} SortedIsUnique(a: seq<Change>, b: seq<Change>)
    requires Sorted(a) && UniquePaths(a) && Sorted(b) && multiset(a) == multiset(b)
    ensures a == b
  {
    if a == [] {
      assert |b| == |multiset(b)|;
    } else {
      SameFirst(a, b);
      SameRest(a, b);
      UniqueRest(a);
      SortedRest(a);
      SortedRest(b);
      SortedIsUnique(a[1..], b[1..]);
      assert a == [a[0]] + a[1..] && b == [a[0]] + b[1..];
    }
  }

  lemma {:induction false} NormalizedSafe(changes: seq<Change>)
    requires NormalizedAll(changes).Some?
    ensures |NormalizedAll(changes).value| == |changes|
    ensures forall c | c in NormalizedAll(changes).value :: SafePath(c.path)
  {
    if changes != [] {
      NormalizedSafe(changes[1..]);
    }
  }

  /** The diff determines both sides of every change: parsing it returns the normalized changes,
      sorted by path. */
  lemma DiffDeterminesChanges(changes: seq<Change>)
    requires CreateDiff(changes).Some?
    ensures Parse(CreateDiff(changes).value) == SortByPath(NormalizedAll(changes).value)
    ensures multiset(Parse(CreateDiff(changes).value)) == multiset(NormalizedAll(changes).value)
  {
    var normalized := NormalizedAll(changes).value;
    var sorted := SortByPath(normalized);
    SortKeeps(normalized);
    NormalizedSafe(changes);
    assert |sorted| == |multiset(sorted)| == |normalized|;
    forall i
      ensures PathAt(sorted, i)
    {
      if 0 <= i < |sorted| {
        assert sorted[i] in multiset(sorted);
        assert sorted[i] in normalized;
      }
    }
    ParsePrinted(sorted);
  }

  /** The printer is injective: equal diffs come from the same changes, whatever their order. */
  lemma DiffIsInjective(a: seq<Change>, b: seq<Change>)
    requires CreateDiff(a).Some? && CreateDiff(a) == CreateDiff(b)
    ensures multiset(NormalizedAll(a).value) == multiset(NormalizedAll(b).value)
  {
    DiffDeterminesChanges(a);
    DiffDeterminesChanges(b);
  }

  /** The printer is canonical: the order in which the changes are given does not show. */
  lemma DiffIsCanonical(a: seq<Change>, b: seq<Change>)
    requires CreateDiff(a).Some? && NormalizedAll(b).Some?
             && multiset(NormalizedAll(a).value) == multiset(NormalizedAll(b).value)
    ensures CreateDiff(b) == CreateDiff(a)
  {
    var x, y := NormalizedAll(a).value, NormalizedAll(b).value;
    SortKeeps(x);
    SortKeeps(y);
    SortSorts(x);
    SortSorts(y);
    NormalizedSafe(a);
    NormalizedSafe(b);
    assert |x| == |multiset(x)| == |y|;
    SortedIsUnique(SortByPath(x), SortByPath(y));
  }

  // ---- the loops ----

  method BuildUnifiedLines(content: string) returns (lines: seq<string>, final: bool)
    ensures (lines, final) == UnifiedLines(content)
  {
    if |content| == 0 {
      return [], false;
    }
    final := content[|content| - 1] == '\n';
    lines := Split(content);
    if final {
      lines := lines[..|lines| - 1];
    }
  }

  lemma {:induction false} PrefixedAppend(prefix: char, lines: seq<string>, line: string)
    ensures Prefixed(prefix, lines + [line]) == Prefixed(prefix, lines) + [[prefix] + line]
  {
    if lines != [] {
      PrefixedAppend(prefix, lines[1..], line);
      assert (lines + [line])[1..] == lines[1..] + [line];
    }
  }

  /** Pushes each line, and the marker after the last one when its newline is missing. */
  method BuildSide(prefix: char, content: string) returns (result: seq<string>)
    ensures result == PrintSide(prefix, content)
  {
    var lines, final := BuildUnifiedLines(content);
    result := [];
    for index := 0 to |lines|
      invariant result == Prefixed(prefix, lines[..index])
                          + if index > 0 && index == |lines| && !final then [MARKER] else []
    {
      assert lines[..index + 1] == lines[..index] + [lines[index]];
      PrefixedAppend(prefix, lines[..index], lines[index]);
      result := result + [[prefix] + lines[index]];
      if index == |lines| - 1 && !final {
        result := result + [MARKER];
      }
    }
    assert lines[..|lines|] == lines;
  }
}
