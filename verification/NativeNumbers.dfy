/** The native helper's exact parsing of decimals, named counters and process lists, and its
    clock arithmetic. */
module NativeNumbers {
  import opened Evidence

  predicate IsDigit(c: char) { '0' <= c <= '9' }

  function Digit(c: char): nat
    requires IsDigit(c)
  {
    c as int - '0' as int
  }

  /** A canonical decimal: digits only, no leading zero but in "0" itself. */
  predicate IsCanonical(s: string) {
    |s| > 0 && (forall i | 0 <= i < |s| :: IsDigit(s[i])) && (|s| > 1 ==> s[0] != '0')
  }

  function Value(s: string): nat
    requires forall i | 0 <= i < |s| :: IsDigit(s[i])
  {
    if s == [] then 0 else Value(s[..|s| - 1]) * 10 + Digit(s[|s| - 1])
  }

  /** What the parser is for: the value of a canonical decimal that fits in 64 bits. */
  function ParsedDecimal(s: string): Option<nat> {
    if IsCanonical(s) && Value(s) <= MAX_UINT64 then Some(Value(s)) else None
  }

  lemma {:induction false} ValueGrows(s: string, k: nat)
    requires k <= |s| && forall i | 0 <= i < |s| :: IsDigit(s[i])
    ensures Value(s[..k]) <= Value(s)
    decreases |s|
  {
    if k < |s| {
      assert s[..|s| - 1][..k] == s[..k];
      ValueGrows(s[..|s| - 1], k);
    } else {
      assert s[..k] == s;
    }
  }

  /** Multiplies only when the result still fits, so no step wraps. */
  method ParseDecimalU64(text: string) returns (output: Option<nat>)
    ensures output == ParsedDecimal(text)
  {
    if |text| == 0 || (|text| > 1 && text[0] == '0') {
      return None;
    }
    var value: nat := 0;
    for index := 0 to |text|
      invariant forall i | 0 <= i < index :: IsDigit(text[i])
      invariant value == Value(text[..index]) <= MAX_UINT64
    {
      if text[index] < '0' || text[index] > '9' {
        return None;
      }
      var digit := Digit(text[index]);
      assert text[..index + 1][..index] == text[..index];
      if value > (MAX_UINT64 - digit) / 10 {
        if IsCanonical(text) {
          ValueGrows(text, index + 1);
        }
        return None;
      }
      value := value * 10 + digit;
    }
    assert text[..|text|] == text;
    return Some(value);
  }

  // ---- lines ----

  /** The text's lines, as a scan from newline to newline visits them; a final newline adds none. */
  function Lines(text: string): seq<string>
    decreases |text|
  {
    if text == [] then []
    else
      var n := LineLength(text);
      [text[..n]] + Lines(if n < |text| then text[n + 1..] else [])
  }

  function LineLength(text: string): (n: nat)
    ensures n <= |text| && (forall i | 0 <= i < n :: text[i] != '\n') && (n < |text| ==> text[n] == '\n')
  {
    if text == [] || text[0] == '\n' then 0 else 1 + LineLength(text[1..])
  }

  /** The line gives the name a non-empty value. */
  predicate Carries(line: string, name: string) {
    |line| > |name| + 1 && line[..|name|] == name && line[|name|] in {' ', '\t'}
  }

  function Matching(lines: seq<string>, name: string): seq<string> {
    if lines == [] then [] else Matching(lines[..|lines| - 1], name) + Carried(lines[|lines| - 1], name)
  }

  function Carried(line: string, name: string): seq<string> { if Carries(line, name) then [line[|name| + 1..]] else [] }

  /** What the named parser is for: the value of the one line that carries the name. */
  function NamedValue(text: string, name: string): Option<nat> {
    var values := Matching(Lines(text), name);
    if |values| == 1 then ParsedDecimal(values[0]) else None
  }

  method ScanLine(text: string, cursor: nat) returns (end: nat)
    requires cursor < |text|
    ensures cursor <= end <= |text| && end - cursor == LineLength(text[cursor..])
  {
    end := cursor;
    while end < |text| && text[end] != '\n'
      invariant cursor <= end <= |text|
      invariant LineLength(text[cursor..]) == (end - cursor) + LineLength(text[end..])
    {
      assert text[end..][1..] == text[end + 1..];
      end := end + 1;
    }
  }

  function Next(text: string, end: nat): nat { if end < |text| then end + 1 else end }

  lemma LinesStep(rest: string)
    requires rest != []
    ensures var n := LineLength(rest);
            Lines(rest) == [rest[..n]] + Lines(if n < |rest| then rest[n + 1..] else [])
  {}

  lemma LineParts(text: string, cursor: nat, end: nat)
    requires cursor < |text| && cursor <= end <= |text|
    ensures var rest, n := text[cursor..], end - cursor;
            rest[..n] == text[cursor..end]
            && (if n < |rest| then rest[n + 1..] else []) == text[Next(text, end)..]
  {}

  lemma SplitLine(text: string, cursor: nat, end: nat)
    requires cursor < |text| && cursor <= end <= |text| && end - cursor == LineLength(text[cursor..])
    ensures Lines(text[cursor..]) == [text[cursor..end]] + Lines(text[Next(text, end)..])
  {
    LinesStep(text[cursor..]);
    LineParts(text, cursor, end);
  }

  /** The scan has read the first `k` lines and stands at `cursor`. */
  ghost predicate Scanned(text: string, cursor: nat, all: seq<string>, k: nat) {
    cursor <= |text| && k <= |all| && Lines(text[cursor..]) == all[k..]
  }

  lemma ScanStarts(text: string)
    ensures Scanned(text, 0, Lines(text), 0)
  {
    assert text[0..] == text;
  }

  lemma ScanAdvances(text: string, cursor: nat, end: nat, all: seq<string>, k: nat)
    requires Scanned(text, cursor, all, k) && cursor < |text|
    requires cursor <= end <= |text| && end - cursor == LineLength(text[cursor..])
    ensures k < |all| && all[k] == text[cursor..end] && Scanned(text, Next(text, end), all, k + 1)
  {
    SplitLine(text, cursor, end);
    assert all[k..][0] == all[k] && all[k..][1..] == all[k + 1..];
  }

  lemma ScanEnds(text: string, all: seq<string>, k: nat)
    requires Scanned(text, |text|, all, k)
    ensures k == |all|
  {}

  /** The next line of a scan and where the one after it starts. */
  method ReadLine(text: string, cursor: nat, ghost all: seq<string>, ghost k: nat) returns (line: string, next: nat)
    requires Scanned(text, cursor, all, k) && cursor < |text|
    ensures k < |all| && line == all[k] && Scanned(text, next, all, k + 1) && cursor < next
  {
    var end := ScanLine(text, cursor);
    ScanAdvances(text, cursor, end, all, k);
    LineEndsAfter(text, cursor, end);
    return text[cursor..end], Next(text, end);
  }

  lemma LineEndsAfter(text: string, cursor: nat, end: nat)
    requires cursor < |text| && cursor <= end <= |text| && end - cursor == LineLength(text[cursor..])
    ensures cursor < Next(text, end)
  {}

  lemma {:induction false} MatchingGrows(lines: seq<string>, k: nat, name: string)
    requires k <= |lines|
    ensures Matching(lines[..k], name) <= Matching(lines, name)
    decreases |lines|
  {
    if k < |lines| {
      var front := lines[..|lines| - 1];
      assert front[..k] == lines[..k];
      MatchingGrows(front, k, name);
    } else {
      assert lines[..k] == lines;
    }
  }

  lemma MatchingNext(lines: seq<string>, k: nat, name: string)
    requires k < |lines|
    ensures Matching(lines[..k + 1], name) == Matching(lines[..k], name) + Carried(lines[k], name)
  {
    assert lines[..k + 1][..k] == lines[..k];
  }

  /** Fails on a second line that carries the name, and on a value that does not parse. */
  method ParseNamedU64(text: string, name: string) returns (output: Option<nat>)
    ensures output == NamedValue(text, name)
  {
    var cursor: nat, found, value := 0, false, 0;
    ghost var all, k := Lines(text), 0;
    ScanStarts(text);
    while cursor < |text|
      invariant Scanned(text, cursor, all, k)
      invariant if found then |Matching(all[..k], name)| == 1 && ParsedDecimal(Matching(all[..k], name)[0])
                == Some(value)
                else Matching(all[..k], name) == []
      decreases |text| - cursor
    {
      var line, next := ReadLine(text, cursor, all, k);
      MatchingNext(all, k, name);
      if Carries(line, name) {
        var parsed := ParseDecimalU64(line[|name| + 1..]);
        if found || parsed.None? {
          MatchingGrows(all, k + 1, name);
          return None;
        }
        found, value := true, parsed.value;
      }
      cursor, k := next, k + 1;
    }
    ScanEnds(text, all, k);
    assert all[..k] == all;
    return if found then Some(value) else None;
  }

  // ---- processes ----

  /** How many processes a listing names; None when any line is not a process id. */
  function ProcessCount(lines: seq<string>): Option<nat> {
    if lines == [] then Some(0)
    else
      var last := lines[|lines| - 1];
      var front := ProcessCount(lines[..|lines| - 1]);
      if front.None? then None
      else if last == [] then front
      else
        var pid := ParsedDecimal(last);
        if pid.None? || !(1 <= pid.value <= 0x7fff_ffff) || front.value == 0xffff_ffff then None
          else Some(front.value + 1)
  }

  lemma {:induction false} FailureLasts(lines: seq<string>, k: nat)
    requires k <= |lines| && ProcessCount(lines[..k]).None?
    ensures ProcessCount(lines).None?
    decreases |lines|
  {
    if k < |lines| {
      var front := lines[..|lines| - 1];
      assert front[..k] == lines[..k];
      FailureLasts(front, k);
    } else {
      assert lines[..k] == lines;
    }
  }

  function Named(lines: seq<string>): seq<string> {
    if lines == [] then []
    else
      var last := lines[|lines| - 1];
      Named(lines[..|lines| - 1]) + if last == [] then [] else [last]
  }

  predicate IsProcessId(s: string) { IsCanonical(s) && 1 <= Value(s) <= 0x7fff_ffff }

  predicate AllProcessIds(names: seq<string>) { forall i | 0 <= i < |names| :: IsProcessId(names[i]) }

  lemma ProcessIdExactly(s: string)
    ensures IsProcessId(s) <==> ParsedDecimal(s).Some? && 1 <= ParsedDecimal(s).value <= 0x7fff_ffff
  {}

  lemma OneMoreProcessId(names: seq<string>, name: string)
    ensures AllProcessIds(names + [name]) <==> AllProcessIds(names) && IsProcessId(name)
  {
    var more := names + [name];
    assert more[|names|] == name;
    assert forall i | 0 <= i < |names| :: more[i] == names[i];
  }

  /** A listing counts exactly when every line that is not empty is a process id, and there are no
      more of them than 32 bits count; and then it counts those lines. */
  lemma {:induction false} CountsExactly(lines: seq<string>)
    ensures ProcessCount(lines).Some? <==> AllProcessIds(Named(lines)) && |Named(lines)| <= 0xffff_ffff
    ensures ProcessCount(lines).Some? ==> ProcessCount(lines).value == |Named(lines)|
  {
    if lines != [] {
      var front, last := lines[..|lines| - 1], lines[|lines| - 1];
      CountsExactly(front);
      ProcessIdExactly(last);
      var before, names := Named(front), Named(lines);
      if last == [] {
        assert names == before;
      } else {
        assert names == before + [last];
        OneMoreProcessId(before, last);
      }
    }
  }

  /** What one more line makes of the count. */
  lemma CountNext(lines: seq<string>, k: nat, count: nat)
    requires k < |lines| && ProcessCount(lines[..k]) == Some(count) && count <= 0xffff_ffff
    ensures ProcessCount(lines[..k + 1])
         == if lines[k] == [] then Some(count)
            else if IsProcessId(lines[k]) && count < 0xffff_ffff then Some(count + 1) else None
  {
    assert lines[..k + 1][..k] == lines[..k];
    ProcessIdExactly(lines[k]);
  }

  method CountDirectProcesses(text: string) returns (count: Option<nat>)
    ensures count == ProcessCount(Lines(text))
  {
    var cursor: nat, result: nat := 0, 0;
    ghost var all, k := Lines(text), 0;
    ScanStarts(text);
    while cursor < |text|
      invariant Scanned(text, cursor, all, k)
      invariant ProcessCount(all[..k]) == Some(result) && result <= 0xffff_ffff
      decreases |text| - cursor
    {
      var line, next := ReadLine(text, cursor, all, k);
      CountNext(all, k, result);
      if line != [] {
        var pid := ParseDecimalU64(line);
        ProcessIdExactly(line);
        if pid.None? || pid.value == 0 || pid.value > 0x7fff_ffff || result == 0xffff_ffff {
          FailureLasts(all, k + 1);
          return None;
        }
        result := result + 1;
      }
      cursor, k := next, k + 1;
    }
    ScanEnds(text, all, k);
    assert all[..k] == all;
    return Some(result);
  }

  // ---- the clock ----

  const NANOSECONDS := 1_000_000_000

  /** Seconds and nanoseconds as one 64-bit count; the addition is a 64-bit addition. */
  method RawClockNs(seconds: int, nanoseconds: int) returns (output: Option<nat>)
    ensures output.None? <==>
              seconds < 0 || nanoseconds < 0 || nanoseconds >= NANOSECONDS || seconds > MAX_UINT64 / NANOSECONDS
    ensures output.Some? ==> output.value == (seconds * NANOSECONDS + nanoseconds) % (MAX_UINT64 + 1)
  {
    if seconds < 0 || nanoseconds < 0 || nanoseconds >= NANOSECONDS {
      return None;
    }
    if seconds > MAX_UINT64 / NANOSECONDS {
      return None;
    }
    return Some((seconds * NANOSECONDS + nanoseconds) % (MAX_UINT64 + 1));
  }

  /** The count is exact exactly when it is not in the last second's unrepresentable part. */
  lemma RawClockExact(seconds: nat, nanoseconds: nat)
    requires nanoseconds < NANOSECONDS && seconds <= MAX_UINT64 / NANOSECONDS
    ensures (seconds * NANOSECONDS + nanoseconds) % (MAX_UINT64 + 1) == seconds * NANOSECONDS + nanoseconds
       <==> !(seconds == 18_446_744_073 && nanoseconds > 709_551_615)
  {}

  /** And there it wraps to a small number. */
  lemma RawClockWraps()
    ensures (18_446_744_073 * NANOSECONDS + 709_551_616) % (MAX_UINT64 + 1) == 0
  {}
}
