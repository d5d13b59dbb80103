/** What one coordinator call undoes or removes, stated on the items alone. */
module InputLaws {
  import opened Basics
  import opened RuntimeTypes
  import opened InputLedger
  import opened InputInvariant

  /** Claiming an item by identity and releasing it again leaves the items as they were, two revisions later. */
  lemma ReleaseUndoesClaim(c: Coord, id: ItemId)
    requires ItemsOk(c.scope, c.nextSequence, c.items)
    requires exists i :: 0 <= i < |c.items| && c.items[i].id == id && c.items[i].state == Pending
    ensures var (c1, claimed) := ClaimById(c, id, true);
      var (c2, released) := Release(c1, id, true);
      && claimed.Success? && claimed.value.Some? && claimed.value.value.id == id && claimed.value.value.state == Processing
      && released == Success(true)
      && c2.items == c.items && c2.receipts == c.receipts && c2.nextSequence == c.nextSequence && c2.revision == c.revision + 2
  {
    hide Encode, Fits, FirstIndex;
    FirstIs(c.items, IdPick(id, Pending));
    var at := FirstIndex(c.items, IdPick(id, Pending), 0);
    var c1 := ClaimById(c, id, true).0;
    assert IdPick(id, Processing)(c1.items[at]);
    FirstIs(c1.items, IdPick(id, Processing));
    var again := FirstIndex(c1.items, IdPick(id, Processing), 0);
    SameId(c, at, again, c1.items);
  }

  lemma FirstIs(items: seq<Item>, pick: Item -> bool)
    ensures var at := FirstIndex(items, pick, 0);
      && (at < |items| ==> pick(items[at]))
      && (at >= |items| ==> forall i :: 0 <= i < |items| ==> !pick(items[i]))
      && at <= |items|
  {}

  lemma SameId(c: Coord, at: nat, again: nat, items: seq<Item>)
    requires ItemsOk(c.scope, c.nextSequence, c.items) && at < |c.items| && again < |items| == |c.items|
    requires forall i :: 0 <= i < |items| ==> items[i].id == c.items[i].id
    requires items[again].id == c.items[at].id
    ensures again == at
  {
    hide Fits;
    assert again < at ==> Precedes(c.items[again], c.items[at]);
    assert at < again ==> Precedes(c.items[at], c.items[again]);
  }

  /** Cancelling removes exactly the pending items of that identity, and says whether there was one. */
  lemma CancelRemovesPending(c: Coord, id: ItemId)
    ensures var (next, r) := Cancel(c, id, true);
      && r.Success?
      && (r.value <==> exists i :: i in c.items && i.id == id && i.state == Pending)
      && (forall i :: i in next.items <==> i in c.items && !(i.id == id && i.state == Pending))
  {
    hide Encode, Filter;
    FilterMembers(c.items, Uncancelled(id));
    Shorter(c.items, Uncancelled(id));
  }

  /** Settling removes exactly the items of those identities in any state, and remembers every identity as delivered. */
  lemma SettleRemovesAll(c: Coord, ids: set<ItemId>)
    ensures var (next, r) := Settle(c, ids, true);
      && r.Success? && next.delivered == c.delivered + ids
      && (r.value <==> exists i :: i in c.items && i.id in ids)
      && (forall i :: i in next.items <==> i in c.items && i.id !in ids)
  {
    hide Encode, Filter;
    FilterMembers(c.items, Unsettled(ids));
    Shorter(c.items, Unsettled(ids));
  }

  /** A filter keeps the length exactly when it keeps everything, and then it is the identity. */
  lemma {:induction false} Shorter(s: seq<Item>, keep: Item -> bool)
    ensures |Filter(s, keep)| == |s| <==> forall i :: i in s ==> keep(i)
    ensures |Filter(s, keep)| == |s| ==> Filter(s, keep) == s
  {
    if s != [] {
      Shorter(s[1..], keep);
      assert s == [s[0]] + s[1..];
    }
  }
}
