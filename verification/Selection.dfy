/** What selecting the events of one kind yields, from where they stand. */
module Selection {
  import opened Evidence
  import opened Acceptor

  lemma {:induction false} SelectConcat(a: seq<Event>, b: seq<Event>, k: Kind)
    ensures Select(a + b, k) == Select(a, k) + Select(b, k)
  {
    if b == [] {
      assert a + b == a;
    } else {
      var front, last := b[..|b| - 1], b[|b| - 1];
      SelectConcat(a, front, k);
      SelectAppend(a + front, last, k);
      SelectAppend(front, last, k);
      assert a + b == (a + front) + [last] && b == front + [last];
    }
  }

  lemma SelectFour(a: seq<Event>, b: seq<Event>, c: seq<Event>, d: seq<Event>, k: Kind)
    ensures Select(a + b + c + d, k) == Select(a, k) + Select(b, k) + Select(c, k) + Select(d, k)
  {
    SelectConcat(a + b + c, d, k);
    SelectConcat(a + b, c, k);
    SelectConcat(a, b, k);
  }

  ghost predicate NotKind(events: seq<Event>, k: Kind, i: int) { 0 <= i < |events| ==> KindOf(events[i].body) != k }

  lemma {:induction false} SelectNone(events: seq<Event>, k: Kind)
    requires forall i :: NotKind(events, k, i)
    ensures Select(events, k) == []
  {
    if events != [] {
      var front := events[..|events| - 1];
      forall i
        ensures NotKind(front, k, i)
      {
        assert NotKind(events, k, i);
      }
      SelectNone(front, k);
      assert NotKind(events, k, |events| - 1);
    }
  }

  ghost predicate IsKind(events: seq<Event>, k: Kind, i: int) { 0 <= i < |events| ==> KindOf(events[i].body) == k }

  lemma {:induction false} SelectAll(events: seq<Event>, k: Kind)
    requires forall i :: IsKind(events, k, i)
    ensures Select(events, k) == events
  {
    if events != [] {
      var front := events[..|events| - 1];
      forall i
        ensures IsKind(front, k, i)
      {
        assert IsKind(events, k, i);
      }
      SelectAll(front, k);
      assert IsKind(events, k, |events| - 1);
    }
  }

  ghost predicate HoldsKind(events: seq<Event>, k: Kind, ps: seq<int>, j: int) {
    0 <= j < |ps| ==> 1 <= ps[j] <= |events| && KindOf(events[ps[j] - 1].body) == k
  }

  ghost predicate Listed(events: seq<Event>, k: Kind, ps: seq<int>, i: int) {
    0 <= i < |events| && KindOf(events[i].body) == k ==> i + 1 in ps
  }

  ghost predicate SelectedAt(events: seq<Event>, found: seq<Event>, ps: seq<int>, j: int) {
    0 <= j < |ps| && j < |found| && 1 <= ps[j] <= |events| ==> found[j] == events[ps[j] - 1]
  }

  ghost predicate Lists(events: seq<Event>, k: Kind, ps: seq<int>) {
    Increasing(ps) && (forall j :: HoldsKind(events, k, ps, j)) && (forall i :: Listed(events, k, ps, i))
  }

  function WithoutLast(events: seq<Event>, k: Kind, ps: seq<int>): seq<int> {
    if events != [] && KindOf(events[|events| - 1].body) == k && ps != [] then ps[..|ps| - 1] else ps
  }

  lemma ListsFront(events: seq<Event>, k: Kind, ps: seq<int>)
    requires Lists(events, k, ps) && events != []
    ensures Lists(events[..|events| - 1], k, WithoutLast(events, k, ps))
    ensures KindOf(events[|events| - 1].body) == k ==> |ps| >= 1 && ps[|ps| - 1] == |events|
  {
    var n := |events|;
    var front, ps' := events[..n - 1], WithoutLast(events, k, ps);
    assert Listed(events, k, ps, n - 1);
    if KindOf(events[n - 1].body) == k {
      var at :| 0 <= at < |ps| && ps[at] == n;
      assert HoldsKind(events, k, ps, |ps| - 1) && Below(ps, at, |ps| - 1);
      assert at == |ps| - 1;
    }
    forall j
      ensures HoldsKind(front, k, ps', j)
    {
      assert HoldsKind(events, k, ps, j) && Below(ps, j, |ps| - 1);
    }
    forall i, j | 0 <= i < j < |ps'|
      ensures Below(ps', i, j)
    {
      assert Below(ps, i, j);
    }
    forall i
      ensures Listed(front, k, ps', i)
    {
      assert Listed(events, k, ps, i);
    }
  }

  /** When the increasing positions `ps` are exactly where events of a kind stand, the
      selection holds the events at `ps`, in order. */
  lemma {:induction false} SelectIs(events: seq<Event>, k: Kind, ps: seq<int>)
    requires Lists(events, k, ps)
    ensures |Select(events, k)| == |ps| && forall j :: SelectedAt(events, Select(events, k), ps, j)
  {
    if events == [] {
      assert HoldsKind(events, k, ps, 0);
    } else {
      var front, ps' := events[..|events| - 1], WithoutLast(events, k, ps);
      ListsFront(events, k, ps);
      SelectIs(front, k, ps');
      forall j
        ensures SelectedAt(events, Select(events, k), ps, j)
      {
        assert SelectedAt(front, Select(front, k), ps', j);
        assert HoldsKind(front, k, ps', j);
      }
    }
  }
}
