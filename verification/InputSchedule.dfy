/** Claims agree with the snapshot: priority first, then arrival order. */
module InputSchedule {
  import opened Basics
  import opened RuntimeTypes
  import opened InputLedger
  import opened InputInvariant

  // ---------------------------------------------------------------- filters and sorted lists

  lemma InsertCons(x: Item, y: Item, s: seq<Item>)
    ensures Insert(x, [y] + s) == if !Before(y, x) then [x, y] + s else [y] + Insert(x, s)
  {
    assert ([y] + s)[1..] == s;
  }

  /** Inserting below everything kept puts the newcomer first. */
  lemma InsertFirst(x: Item, s: seq<Item>, p: Item -> bool)
    requires forall y :: y in s ==> !Before(y, x)
    ensures Insert(x, Filter(s, p)) == [x] + Filter(s, p)
  {
    FilterMembers(s, p);
    var kept := Filter(s, p);
    if kept != [] { assert kept[0] in kept; }
  }

  lemma {:induction false} FilterInsert(x: Item, s: seq<Item>, p: Item -> bool)
    requires InOrder(s)
    ensures Filter(Insert(x, s), p) == if p(x) then Insert(x, Filter(s, p)) else Filter(s, p)
  {
    if s == [] || !Before(s[0], x) {
      forall y | y in s ensures !Before(y, x) {
        var k :| 0 <= k < |s| && s[k] == y;
        assert k > 0 ==> !Before(s[k], s[0]);
      }
      FilterCons(x, s, p);
      InsertFirst(x, s, p);
    } else {
      var first, rest := s[0], s[1..];
      assert s == [first] + rest;
      FilterInsert(x, rest, p);
      FilterCons(first, Insert(x, rest), p);
      if p(x) && p(first) { InsertCons(x, first, Filter(rest, p)); }
    }
  }

  lemma SortedCons(x: Item, s: seq<Item>)
    ensures Sorted([x] + s) == Insert(x, Sorted(s))
  {
    assert ([x] + s)[1..] == s;
  }

  lemma {:induction false} FilterSorted(s: seq<Item>, p: Item -> bool)
    ensures Filter(Sorted(s), p) == Sorted(Filter(s, p))
  {
    if s != [] {
      SortedInOrder(s[1..]);
      FilterInsert(s[0], Sorted(s[1..]), p);
      FilterSorted(s[1..], p);
      if p(s[0]) { SortedCons(s[0], Filter(s[1..], p)); }
    }
  }

  /** Distinct sequences make the order strict. */
  ghost predicate Distinct(s: seq<Item>) {
    forall x, y :: x in s && y in s && x.sequence == y.sequence ==> x == y
  }

  lemma SameHead(a: seq<Item>, b: seq<Item>)
    requires InOrder(a) && InOrder(b) && multiset(a) == multiset(b) && Distinct(a) && a != [] && b != []
    ensures a[0] == b[0]
  {
    assert a[0] in multiset(b) && b[0] in multiset(a);
    var i :| 0 <= i < |a| && a[i] == b[0];
    var j :| 0 <= j < |b| && b[j] == a[0];
    assert i > 0 ==> !Before(a[i], a[0]);
    assert j > 0 ==> !Before(b[j], b[0]);
  }

  /** A list in scheduling order is determined by its contents. */
  lemma {:induction false} SortedUnique(a: seq<Item>, b: seq<Item>)
    requires InOrder(a) && InOrder(b) && multiset(a) == multiset(b) && Distinct(a)
    ensures a == b
  {
    assert |a| == |multiset(a)| == |multiset(b)| == |b|;
    if a != [] {
      SameHead(a, b);
      assert a == [a[0]] + a[1..] && b == [b[0]] + b[1..];
      assert multiset(a[1..]) == multiset(a) - multiset{a[0]} && multiset(b[1..]) == multiset(b) - multiset{b[0]};
      SortedUnique(a[1..], b[1..]);
    }
  }

  lemma {:induction false} SamePick(s: seq<Item>, p: Item -> bool, q: Item -> bool)
    requires forall x :: p(x) <==> q(x)
    ensures Filter(s, p) == Filter(s, q)
  {
    if s != [] { SamePick(s[1..], p, q); }
  }

  lemma SortedMembers(s: seq<Item>)
    ensures forall x :: x in Sorted(s) <==> x in s
  {
    forall x ensures x in Sorted(s) <==> x in s { assert x in multiset(Sorted(s)) <==> x in multiset(s); }
  }

  /** Choosing from the snapshot is the same as choosing from the ledger and sorting. */
  lemma ChooseThenSort(c: Coord, scope: Scope, fit: Item -> bool, pick: Item -> bool)
    requires forall i :: pick(i) <==> InScope(c, i, scope) && fit(i)
    ensures Filter(Snapshot(c, scope), fit) == Sorted(Filter(c.items, pick))
    ensures forall x :: x in Filter(Snapshot(c, scope), fit) <==> x in c.items && pick(x)
  {
    FilterSorted(Filter(c.items, ScopePick(c, scope)), fit);
    FilterTwice(c.items, ScopePick(c, scope), fit, pick);
    SortedMembers(Filter(c.items, pick));
    FilterMembers(c.items, pick);
  }

  // ---------------------------------------------------------------- safe points

  function SafeFit(includeUser: bool, allowLater: bool): (r: Item -> bool) {
    (i: Item) => SafePointEligible(i, includeUser, allowLater)
  }

  /**
   * A safe-point claim returns exactly the eligible part of the snapshot, in the snapshot's order,
   * and touches nothing else: every other item keeps its place and its state.
   */
  lemma ClaimMatchesSnapshot(c: Coord, scope: Scope, includeUser: bool, allowLater: bool, ok: bool)
    ensures var (next, r) := ClaimSafePoint(c, scope, includeUser, allowLater, ok);
            var eligible := Filter(Snapshot(c, scope), SafeFit(includeUser, allowLater));
            && (r.Success? ==> r.value == Marked(eligible))
            && (r.Failure? ==> !ok && eligible != [] && next == c)
            && |next.items| == |c.items|
            && (forall k :: 0 <= k < |c.items| ==>
                  next.items[k] == if r.Success? && c.items[k] in eligible then Claimed(c.items[k]) else c.items[k])
  {
    var pick := SafePick(c, scope, includeUser, allowLater);
    ChooseThenSort(c, scope, SafeFit(includeUser, allowLater), pick);
    hide SafePointEligible, InScope, Snapshot, Sorted;
    var chosen := Filter(c.items, pick);
    assert |Sorted(chosen)| == |multiset(Sorted(chosen))| == |chosen|;
    forall k | 0 <= k < |c.items| ensures c.items[k] in Sorted(chosen) <==> pick(c.items[k]) { assert c.items[k] in c.items; }
  }

  // ---------------------------------------------------------------- idle claims

  function IdleFit(): (r: Item -> bool) {
    (i: Item) => IdleEligible(i)
  }

  /** What idle claims may still take, in order. */
  function IdleQueue(c: Coord, scope: Scope): (r: seq<Item>) {
    Filter(Snapshot(c, scope), IdleFit())
  }

  lemma LedgerDistinct(own: Scope, nextSequence: nat, items: seq<Item>)
    requires ItemsOk(own, nextSequence, items)
    ensures Distinct(items)
  {
    forall x, y | x in items && y in items && x.sequence == y.sequence ensures x == y {
      var i :| 0 <= i < |items| && items[i] == x;
      var j :| 0 <= j < |items| && items[j] == y;
      assert i < j ==> Precedes(items[i], items[j]);
      assert j < i ==> Precedes(items[j], items[i]);
    }
  }

  lemma RemoveOne(items: seq<Item>, k: nat, x: Item, p: Item -> bool)
    requires k < |items| && p(items[k]) && !p(x)
    ensures multiset(Filter(items[k := x], p)) == multiset(Filter(items, p)) - multiset{items[k]}
  {
    var a, b := items[..k], items[k + 1..];
    assert items == a + ([items[k]] + b) && items[k := x] == a + ([x] + b);
    FilterAppend(a, [items[k]] + b, p);
    FilterAppend(a, [x] + b, p);
    FilterCons(items[k], b, p);
    FilterCons(x, b, p);
  }

  lemma HeadIsBest(items: seq<Item>, pick: Item -> bool, best: nat, queue: seq<Item>)
    requires best == BestIndex(items, pick, |items|) < |items| && Distinct(items) && InOrder(queue)
    requires forall x :: x in queue <==> x in items && pick(x)
    ensures queue != [] && queue[0] == items[best]
  {
    assert items[best] in queue;
    assert queue[0] in queue;
    var i :| 0 <= i < |queue| && queue[i] == items[best];
    var j :| 0 <= j < |items| && items[j] == queue[0];
    assert !Before(items[j], items[best]) && !Before(queue[i], queue[0]);
  }

  lemma TailOf(queue: seq<Item>, items: seq<Item>)
    requires queue != [] && InOrder(queue) && Distinct(items) && forall y :: y in queue ==> y in items
    ensures InOrder(queue[1..]) && Distinct(queue[1..])
    ensures multiset(queue[1..]) == multiset(queue) - multiset{queue[0]}
  {
    hide Before;
    assert queue == [queue[0]] + queue[1..];
    assert forall y :: y in queue[1..] ==> y in queue;
  }

  /** Taking the head out of the ledger takes it out of the sorted view. */
  lemma SortedWithout(items: seq<Item>, best: nat, x: Item, pick: Item -> bool, queue: seq<Item>)
    requires Distinct(items) && best < |items| && pick(items[best]) && !pick(x)
    requires queue == Sorted(Filter(items, pick)) && queue != [] && queue[0] == items[best]
    ensures Sorted(Filter(items[best := x], pick)) == queue[1..]
  {
    RemoveOne(items, best, x, pick);
    SortedInOrder(Filter(items, pick));
    SortedInOrder(Filter(items[best := x], pick));
    SortedMembers(Filter(items, pick));
    FilterMembers(items, pick);
    hide Sorted, Filter, InOrder, Distinct;
    TailOf(queue, items);
    SortedUnique(queue[1..], Sorted(Filter(items[best := x], pick)));
  }

  /**
   * The linear scan takes the head of the sorted view: an idle claim answers with the first item of
   * the idle queue, and leaves the rest of the queue as it was.
   */
  lemma IdleTakesHead(c: Coord, scope: Scope, ok: bool)
    requires ItemsOk(c.scope, c.nextSequence, c.items)
    ensures var (next, r) := ClaimNextIdle(c, scope, ok);
            var queue := IdleQueue(c, scope);
            && (queue == [] ==> r == Success(None) && next == c)
            && (queue != [] && ok ==>
                  r == Success(Some(Claimed(queue[0]))) && IdleQueue(next, scope) == queue[1..] && next.scope == c.scope)
            && (queue != [] && !ok ==> r.Failure? && next == c)
  {
    var pick := IdlePick(c, scope);
    var best := BestIndex(c.items, pick, |c.items|);
    ChooseThenSort(c, scope, IdleFit(), pick);
    LedgerDistinct(c.scope, c.nextSequence, c.items);
    var queue := IdleQueue(c, scope);
    SortedInOrder(Filter(c.items, pick));
    hide Snapshot, Sorted, Filter, ItemsOk;
    if queue != [] { assert queue[0] in queue; }
    if best < |c.items| {
      HeadIsBest(c.items, pick, best, queue);
      if ok {
        var next := SetItems(c, c.items[best := Claimed(c.items[best])]);
        ChooseThenSort(next, scope, IdleFit(), IdlePick(next, scope));
        SamePick(next.items, IdlePick(next, scope), pick);
        SortedWithout(c.items, best, Claimed(c.items[best]), pick, queue);
      }
    }
  }

  /** `n` idle claims in a row, every write succeeding: the items they answer with, and what is left. */
  ghost function Drain(c: Coord, scope: Scope, n: nat): (r: (Coord, seq<Option<Item>>))
    decreases n
  {
    if n == 0 then (c, [])
    else
      var (next, answer) := ClaimNextIdle(c, scope, true);
      var (last, rest) := Drain(next, scope, n - 1);
      (last, [if answer.Success? then answer.value else None] + rest)
  }

  /** Repeated idle claims drain the queue in order, one each, and the next one finds nothing. */
  lemma {:induction false} DrainsInOrder(c: Coord, scope: Scope)
    requires ItemsOk(c.scope, c.nextSequence, c.items)
    ensures var queue := IdleQueue(c, scope);
            var (last, answers) := Drain(c, scope, |queue|);
            && |answers| == |queue|
            && (forall k :: 0 <= k < |queue| ==> answers[k] == Some(Claimed(queue[k])))
            && IdleQueue(last, scope) == []
            && ClaimNextIdle(last, scope, true) == (last, Success(None))
    decreases |IdleQueue(c, scope)|
  {
    hide ClaimNextIdle, IdleQueue, ItemsOk;
    var queue := IdleQueue(c, scope);
    IdleTakesHead(c, scope, true);
    if queue != [] {
      var next := ClaimNextIdle(c, scope, true).0;
      ClaimKeepsItems(c, scope);
      DrainsInOrder(next, scope);
      forall k | 0 <= k < |queue| ensures Drain(c, scope, |queue|).1[k] == Some(Claimed(queue[k])) {
        if k > 0 { assert queue[1..][k - 1] == queue[k]; }
      }
    }
  }

  lemma ClaimKeepsItems(c: Coord, scope: Scope)
    requires ItemsOk(c.scope, c.nextSequence, c.items)
    ensures var next := ClaimNextIdle(c, scope, true).0;
            ItemsOk(next.scope, next.nextSequence, next.items)
  {
    var best := BestIndex(c.items, IdlePick(c, scope), |c.items|);
    if best < |c.items| {
      var next := c.items[best := Claimed(c.items[best])];
      assert Fits(c.scope, c.nextSequence, c.items[best]);
      assert Fits(c.scope, c.nextSequence, next[best]);
      forall i, j | 0 <= i < j < |next| ensures Precedes(next[i], next[j]) { assert Precedes(c.items[i], c.items[j]); }
    }
  }
}
