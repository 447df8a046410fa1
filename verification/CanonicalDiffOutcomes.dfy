/** Which changes the diff printer accepts. */
module CanonicalDiffOutcomes {
  import opened Evidence
  import opened CanonicalDiff

  // ---- paths ----

  function Slashed(parts: seq<string>): string {
    if parts == [] then "" else if |parts| == 1 then parts[0] else parts[0] + "/" + Slashed(parts[1..])
  }

  /** The parts between the slashes of the path. */
  predicate PartsOf(parts: seq<string>, path: string) {
    parts != [] && Slashed(parts) == path && forall part | part in parts :: '/' !in part
  }

  lemma {:induction false} SegmentsAreParts(path: string)
    ensures PartsOf(Segments(path), path)
  {
    if path != "" {
      var parts, rest := Segments(path), Segments(path[1..]);
      SegmentsAreParts(path[1..]);
      if path[0] == '/' {
        assert parts[1..] == rest;
      } else {
        assert parts[1..] == rest[1..];
      }
      assert path == [path[0]] + path[1..];
    }
  }

  lemma {:induction false} FirstSegment(part: string, rest: string)
    requires '/' !in part
    ensures Segments(part) == [part] && Segments(part + "/" + rest) == [part] + Segments(rest)
  {
    var path := part + "/" + rest;
    if part == "" {
      assert path[1..] == rest;
    } else {
      assert path[1..] == part[1..] + "/" + rest && part == [part[0]] + part[1..];
      FirstSegment(part[1..], rest);
    }
  }

  lemma {:induction false} PartsAreSegments(parts: seq<string>, path: string)
    requires PartsOf(parts, path)
    ensures parts == Segments(path)
  {
    if |parts| == 1 {
      FirstSegment(parts[0], "");
    } else {
      PartsAreSegments(parts[1..], Slashed(parts[1..]));
      FirstSegment(parts[0], Slashed(parts[1..]));
      assert parts == [parts[0]] + parts[1..];
    }
  }

  lemma {:induction false} SlashesAt(path: string)
    ensures |Slashes(path)| == |path|
    ensures forall i | 0 <= i < |path| :: Slashes(path)[i] == if path[i] == '\\' then '/' else path[i]
  {
    if path != "" {
      SlashesAt(path[1..]);
    }
  }

  /** The text is the path with every backslash a slash. */
  predicate Normalizes(path: string, text: string) {
    |text| == |path| && forall i | 0 <= i < |path| :: text[i] == if path[i] == '\\' then '/' else path[i]
  }

  /** A path that stays where it is: no part is empty or climbs, and no character is a colon or a
      control character. */
  ghost predicate Stays(text: string) {
    (exists parts :: PartsOf(parts, text) && forall part | part in parts :: part != "" && part != "." && part != "..")
    && forall c | c in text :: c != ':' && c >= ' '
  }

  /** A change the printer takes. */
  ghost predicate Acceptable(c: Change) {
    c.before != c.after && exists text :: Normalizes(c.path, text) && Stays(text)
  }

  lemma StaysExactly(text: string)
    ensures SafePath(text) <==> Stays(text)
  {
    SegmentsAreParts(text);
    var parts := Segments(text);
    if SafePath(text) {
      forall c | c in text
        ensures c != ':' && c >= ' '
      {
        var i :| 0 <= i < |text| && text[i] == c;
      }
      assert PartsOf(parts, text);
    }
    if Stays(text) {
      var ps :| PartsOf(ps, text) && forall part | part in ps :: part != "" && part != "." && part != "..";
      PartsAreSegments(ps, text);
      assert parts[0] in ps;
      if text != "" && text[0] == '/' {
        assert false;
      }
      forall i | 0 <= i < |text|
        ensures text[i] != ':' && text[i] as int > 0x1F
      {
        assert text[i] in text;
      }
      forall i | 0 <= i < |parts|
        ensures parts[i] !in {"", ".", ".."}
      {
        assert parts[i] in ps;
      }
    }
  }

  lemma NormalizedExactly(c: Change)
    ensures Normalized(c).Some? <==> Acceptable(c)
    ensures Normalized(c).Some? ==>
              Normalized(c).value.before == c.before && Normalized(c).value.after == c.after
              && Normalizes(c.path, Normalized(c).value.path)
  {
    SlashesAt(c.path);
    StaysExactly(Slashes(c.path));
    forall text | Normalizes(c.path, text)
      ensures text == Slashes(c.path)
    {}
    assert Normalizes(c.path, Slashes(c.path));
  }

  // ---- whole lists ----

  ghost predicate AllAcceptable(changes: seq<Change>) { forall c | c in changes :: Acceptable(c) }

  /** The changes as they are printed: the same texts under normalized paths. */
  ghost predicate Normalization(changes: seq<Change>, printed: seq<Change>) {
    |printed| == |changes|
    && forall i | 0 <= i < |changes| ::
         Normalizes(changes[i].path, printed[i].path) && printed[i].before == changes[i].before
           && printed[i].after == changes[i].after
  }

  lemma {:induction false} AllNormalized(changes: seq<Change>)
    ensures NormalizedAll(changes).Some? <==> AllAcceptable(changes)
    ensures NormalizedAll(changes).Some? ==> Normalization(changes, NormalizedAll(changes).value)
  {
    if changes != [] {
      NormalizedExactly(changes[0]);
      AllNormalized(changes[1..]);
      assert changes == [changes[0]] + changes[1..];
    }
  }

  lemma UniqueFront(first: Change, rest: seq<Change>)
    ensures UniquePaths([first] + rest) <==> UniquePaths(rest) && forall c | c in rest :: c.path != first.path
  {
    var changes := [first] + rest;
    if UniquePaths(changes) {
      UniqueRest(changes);
      forall c | c in rest
        ensures c.path != first.path
      {
        var k :| 0 <= k < |rest| && rest[k] == c;
        assert changes[0].path != changes[k + 1].path;
      }
    }
    if UniquePaths(rest) && forall c | c in rest :: c.path != first.path {
      forall i, j | 0 <= i < j < |changes|
        ensures changes[i].path != changes[j].path
      {
        assert changes[j] == rest[j - 1] && rest[j - 1] in rest;
      }
    }
  }

  lemma {:induction false} UniqueInsert(c: Change, sorted: seq<Change>)
    ensures UniquePaths(Insert(c, sorted)) <==> UniquePaths([c] + sorted)
    ensures forall x :: x in Insert(c, sorted) <==> x == c || x in sorted
  {
    if sorted != [] && TextBefore(sorted[0].path, c.path) {
      UniqueInsert(c, sorted[1..]);
      UniqueFront(c, sorted[1..]);
      UniqueFront(c, sorted);
      UniqueFront(sorted[0], sorted[1..]);
      UniqueFront(sorted[0], Insert(c, sorted[1..]));
      assert sorted == [sorted[0]] + sorted[1..];
    }
  }

  lemma {:induction false} UniqueSorted(changes: seq<Change>)
    ensures UniquePaths(SortByPath(changes)) <==> UniquePaths(changes)
    ensures forall x :: x in SortByPath(changes) <==> x in changes
  {
    if changes != [] {
      var rest := changes[1..];
      UniqueSorted(rest);
      UniqueInsert(changes[0], SortByPath(rest));
      UniqueFront(changes[0], rest);
      UniqueFront(changes[0], SortByPath(rest));
      assert changes == [changes[0]] + rest;
    }
  }

  /** A diff is created exactly when there is a change, every change is acceptable, the normalized
      paths differ, and the text is within the limit. */
  lemma CreatedExactly(changes: seq<Change>)
    ensures CreateDiff(changes).Some? <==>
              changes != [] && AllAcceptable(changes)
              && exists printed :: Normalization(changes, printed) && UniquePaths(printed)
                                   && Utf8Length(DiffText(SortByPath(printed))) <= MAX_DIFF_BYTES
  {
    AllNormalized(changes);
    if AllAcceptable(changes) {
      var normalized := NormalizedAll(changes).value;
      UniqueSorted(normalized);
      forall printed | Normalization(changes, printed)
        ensures printed == normalized
      {
        NormalizationIsOne(changes, printed, normalized);
      }
    }
  }

  lemma NormalizationIsOne(changes: seq<Change>, a: seq<Change>, b: seq<Change>)
    requires Normalization(changes, a) && Normalization(changes, b)
    ensures a == b
  {
    forall i | 0 <= i < |changes|
      ensures a[i] == b[i]
    {
      assert a[i].path == b[i].path;
    }
  }
}
