/** mergeAgentDetailMessages (engine/agent_detail.go): retained and live rows of an Agent, paired from the end. */
module AgentMerge {
  import opened Basics

  datatype Row = Row(id: string, explicitId: bool, role: string, content: string, reasoning: string, toolCallId: string, toolName: string,
                     toolCalls: seq<string>, completed: bool, timestamp: nat, source: string)

  /** What rows are paired by: an explicit identity, or the fingerprint of the content. */
  datatype Base = ById(id: string)
                | ByContent(role: string, content: string, reasoning: string, toolCallId: string, toolName: string, toolCalls: seq<string>)

  /** A base, and how many rows from here to the end share it. */
  datatype Key = Key(base: Base, nth: nat)

  function BaseOf(row: Row): (r: Base) {
    if row.explicitId then ById(row.id) else ByContent(row.role, row.content, row.reasoning, row.toolCallId, row.toolName, row.toolCalls)
  }

  function Occurrences(rows: seq<Row>, base: Base): (r: nat) {
    if rows == [] then 0 else (if BaseOf(rows[0]) == base then 1 else 0) + Occurrences(rows[1..], base)
  }

  function Keys(rows: seq<Row>): (r: seq<Key>)
    ensures |r| == |rows|
  {
    if rows == [] then [] else [Key(BaseOf(rows[0]), Occurrences(rows, BaseOf(rows[0])))] + Keys(rows[1..])
  }

  /** agentDetailMergeKeys: one pass from the end, counting each base. */
  method MergeKeys(rows: seq<Row>) returns (keys: seq<Key>)
    ensures keys == Keys(rows)
  {
    var counts: map<Base, nat> := map[];
    keys := [];
    var i := |rows|;
    while i > 0
      invariant 0 <= i <= |rows| && keys == Keys(rows[i..])
      invariant forall b :: (if b in counts then counts[b] else 0) == Occurrences(rows[i..], b)
    {
      i := i - 1;
      assert rows[i..][1..] == rows[i + 1..];
      var base := BaseOf(rows[i]);
      counts := counts[base := (if base in counts then counts[base] else 0) + 1];
      keys := [Key(base, counts[base])] + keys;
    }
    assert rows[0..] == rows;
  }

  // ---------------------------------------------------------------- which keys there are

  lemma {:induction false} KeysExact(rows: seq<Row>, base: Base, n: nat)
    ensures Key(base, n) in Keys(rows) <==> 1 <= n <= Occurrences(rows, base)
  {
    if rows != [] { KeysExact(rows[1..], base, n); }
  }

  predicate Distinct(keys: seq<Key>) {
    forall i, j :: 0 <= i < j < |keys| ==> keys[i] != keys[j]
  }

  lemma {:induction false} KeysDistinct(rows: seq<Row>)
    ensures Distinct(Keys(rows))
  {
    if rows != [] {
      KeysDistinct(rows[1..]);
      var base := BaseOf(rows[0]);
      KeysExact(rows[1..], base, Occurrences(rows, base));
    }
  }

  function CountBase(keys: seq<Key>, base: Base): (r: nat) {
    if keys == [] then 0 else (if keys[0].base == base then 1 else 0) + CountBase(keys[1..], base)
  }

  lemma {:induction false} CountAppend(a: seq<Key>, b: seq<Key>, base: Base)
    ensures CountBase(a + b, base) == CountBase(a, base) + CountBase(b, base)
  {
    if a == [] { assert a + b == b; } else {
      assert (a + b)[1..] == a[1..] + b;
      CountAppend(a[1..], b, base);
    }
  }

  lemma {:induction false} CountKeys(rows: seq<Row>, base: Base)
    ensures CountBase(Keys(rows), base) == Occurrences(rows, base)
  {
    if rows != [] {
      assert Keys(rows)[1..] == Keys(rows[1..]);
      CountKeys(rows[1..], base);
    }
  }

  /** The live keys without a retained partner, in order. */
  function Unpaired(retained: seq<Key>, live: seq<Key>): (r: seq<Key>) {
    if live == [] then []
    else if live[0] in retained then Unpaired(retained, live[1..])
    else [live[0]] + Unpaired(retained, live[1..])
  }

  lemma {:induction false} CountUnpaired(p: seq<Row>, r: seq<Row>, base: Base)
    ensures CountBase(Unpaired(Keys(p), Keys(r)), base) ==
      if Occurrences(r, base) > Occurrences(p, base) then Occurrences(r, base) - Occurrences(p, base) else 0
  {
    if r != [] {
      CountUnpaired(p, r[1..], base);
      assert Keys(r)[1..] == Keys(r[1..]);
      var first := Keys(r)[0];
      KeysExact(p, first.base, first.nth);
      var rest := Unpaired(Keys(p), Keys(r[1..]));
      assert ([first] + rest)[1..] == rest;
    }
  }

  // ---------------------------------------------------------------- the merge

  /** mergeAgentDetailMessage. */
  function MergeRow(p: Row, live: Row): (r: Row) {
    Row(if live.id != "" then live.id else p.id,
        p.explicitId || live.explicitId,
        if live.role != "" then live.role else p.role,
        if live.content != "" || p.content == "" then live.content else p.content,
        if live.reasoning != "" || p.reasoning == "" then live.reasoning else p.reasoning,
        if live.toolCallId != "" then live.toolCallId else p.toolCallId,
        if live.toolName != "" then live.toolName else p.toolName,
        if live.toolCalls != [] then live.toolCalls else p.toolCalls,
        live.completed,
        if live.timestamp != 0 then live.timestamp else p.timestamp,
        "retained+runtime")
  }

  function IndexOf(keys: seq<Key>, key: Key): (r: nat)
    ensures r <= |keys|
    ensures r < |keys| ==> keys[r] == key
    ensures r == |keys| <==> key !in keys
  {
    if keys == [] then 0 else if keys[0] == key then 0 else 1 + IndexOf(keys[1..], key)
  }

  /** The merged rows with the key each was entered under. */
  datatype Table = Table(rows: seq<Row>, keys: seq<Key>)

  predicate Parallel(t: Table) {
    |t.rows| == |t.keys|
  }

  function Enter(t: Table, row: Row, key: Key): (r: Table)
    requires Parallel(t)
    ensures Parallel(r)
  {
    var at := IndexOf(t.keys, key);
    if at < |t.keys| then t.(rows := t.rows[at := MergeRow(t.rows[at], row)]) else Table(t.rows + [row], t.keys + [key])
  }

  function EnterAll(t: Table, rows: seq<Row>, keys: seq<Key>): (r: Table)
    requires Parallel(t) && |rows| == |keys|
    ensures Parallel(r)
    decreases |rows|
  {
    if rows == [] then t else EnterAll(Enter(t, rows[0], keys[0]), rows[1..], keys[1..])
  }

  /** The rows before truncation and before identities are filled in. */
  function Merged(p: seq<Row>, r: seq<Row>): (t: Table)
    ensures Parallel(t)
  {
    EnterAll(Table(p, Keys(p)), r, Keys(r))
  }

  /** The two loops of mergeAgentDetailMessages that build the rows. */
  method MergeRows(p: seq<Row>, r: seq<Row>) returns (merged: seq<Row>)
    ensures merged == Merged(p, r).rows
  {
    hide MergeRow, Keys, Located, IndexOf;
    ghost var keys: seq<Key> := [];
    merged := [];
    var positions: map<Key, nat> := map[];
    var persistedKeys := MergeKeys(p);
    KeysDistinct(p);
    LocateNone();
    for i := 0 to |p|
      invariant merged == p[..i] && keys == persistedKeys[..i]
      invariant Located(positions, keys)
    {
      LocateMore(positions, keys, persistedKeys[i]);
      merged := merged + [p[i]];
      positions := positions[persistedKeys[i] := |merged| - 1];
      keys := keys + [persistedKeys[i]];
    }
    assert p[..|p|] == p && persistedKeys[..|p|] == persistedKeys;
    var runtimeKeys := MergeKeys(r);
    for i := 0 to |r|
      invariant |merged| == |keys| && Located(positions, keys)
      invariant EnterAll(Table(p, Keys(p)), r, Keys(r)) == EnterAll(Table(merged, keys), r[i..], runtimeKeys[i..])
    {
      var key := runtimeKeys[i];
      assert r[i..][1..] == r[i + 1..] && runtimeKeys[i..][1..] == runtimeKeys[i + 1..];
      FindLocated(positions, keys, key);
      if key in positions {
        var position := positions[key];
        merged := merged[position := MergeRow(merged[position], r[i])];
      } else {
        LocateMore(positions, keys, key);
        merged := merged + [r[i]];
        positions := positions[key := |merged| - 1];
        keys := keys + [key];
      }
    }
  }

  /** The position table finds exactly the first place of each key. */
  ghost predicate Located(positions: map<Key, nat>, keys: seq<Key>) {
    && (forall k :: k in positions <==> k in keys)
    && (forall k :: k in positions ==> positions[k] == IndexOf(keys, k))
  }

  lemma LocateNone()
    ensures Located(map[], [])
  {}

  lemma FindLocated(positions: map<Key, nat>, keys: seq<Key>, key: Key)
    requires Located(positions, keys)
    ensures (key in positions <==> key in keys) && (key in positions ==> positions[key] == IndexOf(keys, key) < |keys|)
  {}

  lemma {:induction false} IndexAppend(keys: seq<Key>, key: Key, k: Key)
    ensures IndexOf(keys + [key], k) == if k in keys then IndexOf(keys, k) else if k == key then |keys| else |keys| + 1
  {
    if keys != [] {
      assert (keys + [key])[1..] == keys[1..] + [key];
      IndexAppend(keys[1..], key, k);
    }
  }

  lemma LocateMore(positions: map<Key, nat>, keys: seq<Key>, key: Key)
    requires Located(positions, keys) && key !in keys
    ensures Located(positions[key := |keys|], keys + [key])
  {
    hide IndexOf;
    forall k ensures IndexOf(keys + [key], k) == if k in keys then IndexOf(keys, k) else if k == key then |keys| else |keys| + 1 {
      IndexAppend(keys, key, k);
    }
  }

  // ---------------------------------------------------------------- what comes out

  lemma {:induction false} EnteredKeys(t: Table, rows: seq<Row>, keys: seq<Key>)
    requires Parallel(t) && |rows| == |keys| && Distinct(keys)
    ensures EnterAll(t, rows, keys).keys == t.keys + Unpaired(t.keys, keys)
    decreases |rows|
  {
    hide MergeRow;
    if rows != [] {
      var next := Enter(t, rows[0], keys[0]);
      EnteredKeys(next, rows[1..], keys[1..]);
      if keys[0] !in t.keys {
        OneMore(t.keys, keys[0], keys[1..]);
        assert (t.keys + [keys[0]]) + Unpaired(t.keys, keys[1..]) == t.keys + ([keys[0]] + Unpaired(t.keys, keys[1..]));
      }
    }
  }

  lemma {:induction false} OneMore(retained: seq<Key>, key: Key, live: seq<Key>)
    requires key !in live
    ensures Unpaired(retained + [key], live) == Unpaired(retained, live)
  {
    if live != [] { OneMore(retained, key, live[1..]); }
  }

  /** Each row still has the base it was entered under. */
  predicate Aligned(t: Table) {
    Parallel(t) && forall i :: 0 <= i < |t.rows| ==> BaseOf(t.rows[i]) == t.keys[i].base
  }

  lemma {:induction false} KeysAligned(rows: seq<Row>)
    ensures Aligned(Table(rows, Keys(rows)))
  {
    if rows != [] { KeysAligned(rows[1..]); }
  }

  lemma MergeKeepsBase(p: Row, live: Row)
    requires BaseOf(p) == BaseOf(live)
    ensures BaseOf(MergeRow(p, live)) == BaseOf(p)
  {}

  lemma EnterAligned(t: Table, row: Row, key: Key)
    requires Aligned(t) && BaseOf(row) == key.base
    ensures Aligned(Enter(t, row, key))
  {
    hide BaseOf, MergeRow;
    var at := IndexOf(t.keys, key);
    if at < |t.keys| { MergeKeepsBase(t.rows[at], row); }
  }

  lemma {:induction false} EnteredAligned(t: Table, rows: seq<Row>, keys: seq<Key>)
    requires Aligned(t) && |rows| == |keys| && forall i :: 0 <= i < |rows| ==> BaseOf(rows[i]) == keys[i].base
    ensures Aligned(EnterAll(t, rows, keys))
    decreases |rows|
  {
    hide BaseOf, Enter;
    if rows != [] {
      EnterAligned(t, rows[0], keys[0]);
      EnteredAligned(Enter(t, rows[0], keys[0]), rows[1..], keys[1..]);
    }
  }

  lemma {:induction false} AlignedCount(rows: seq<Row>, keys: seq<Key>, base: Base)
    requires Aligned(Table(rows, keys))
    ensures Occurrences(rows, base) == CountBase(keys, base)
    decreases |rows|
  {
    hide BaseOf;
    if rows != [] { AlignedCount(rows[1..], keys[1..], base); }
  }

  /** Before truncation the merge has, for every base, as many rows as the larger of its retained and its live count. */
  lemma RowsPerBase(p: seq<Row>, r: seq<Row>, base: Base)
    ensures Occurrences(Merged(p, r).rows, base) ==
      if Occurrences(p, base) >= Occurrences(r, base) then Occurrences(p, base) else Occurrences(r, base)
  {
    hide Keys, BaseOf, Occurrences, EnterAll;
    KeysDistinct(r);
    EnteredKeys(Table(p, Keys(p)), r, Keys(r));
    CountAppend(Keys(p), Unpaired(Keys(p), Keys(r)), base);
    CountKeys(p, base);
    CountUnpaired(p, r, base);
    KeysAligned(p);
    KeysAligned(r);
    EnteredAligned(Table(p, Keys(p)), r, Keys(r));
    AlignedCount(Merged(p, r).rows, Merged(p, r).keys, base);
  }

  /** The row a key stands for: the retained one, the live one, or the two merged. */
  function RowFor(p: Table, live: Table, key: Key): (r: Option<Row>)
    requires Parallel(p) && Parallel(live)
  {
    var i, j := IndexOf(p.keys, key), IndexOf(live.keys, key);
    if i < |p.keys| then Some(if j < |live.keys| then MergeRow(p.rows[i], live.rows[j]) else p.rows[i])
    else if j < |live.keys| then Some(live.rows[j])
    else None
  }

  lemma {:induction false} EnteredRows(t: Table, rows: seq<Row>, keys: seq<Key>, key: Key)
    requires Parallel(t) && |rows| == |keys| && Distinct(keys)
    ensures var out := EnterAll(t, rows, keys);
      var at := IndexOf(out.keys, key);
      RowFor(t, Table(rows, keys), key) == if at < |out.keys| then Some(out.rows[at]) else None
    decreases |rows|
  {
    hide MergeRow, IndexOf;
    if rows != [] {
      var next := Enter(t, rows[0], keys[0]);
      EnteredRows(next, rows[1..], keys[1..], key);
      IndexHead(keys, key);
      if keys[0] !in t.keys { IndexAppend(t.keys, keys[0], key); }
      else { SameIndex(t.keys, key, keys[0]); }
    }
  }

  lemma IndexHead(keys: seq<Key>, key: Key)
    requires keys != [] && Distinct(keys)
    ensures IndexOf(keys, key) == if key == keys[0] then 0 else 1 + IndexOf(keys[1..], key)
    ensures key == keys[0] ==> IndexOf(keys[1..], key) == |keys| - 1
  {}

  lemma SameIndex(keys: seq<Key>, a: Key, b: Key)
    ensures a in keys && b in keys && IndexOf(keys, a) == IndexOf(keys, b) ==> a == b
  {}

  /** Every key of either side has one row in the merge, and that row is the retained one, the live one, or both merged. */
  lemma RowPerKey(p: seq<Row>, r: seq<Row>, key: Key)
    ensures var out := Merged(p, r);
      var at := IndexOf(out.keys, key);
      RowFor(Table(p, Keys(p)), Table(r, Keys(r)), key) == if at < |out.keys| then Some(out.rows[at]) else None
  {
    hide Keys, RowFor, EnterAll;
    KeysDistinct(r);
    EnteredRows(Table(p, Keys(p)), r, Keys(r), key);
  }

  // ---------------------------------------------------------------- field by field

  /** Rows share a base exactly when both name one explicit identity, or neither does and all they say is the same. */
  lemma BaseExact(a: Row, b: Row)
    ensures BaseOf(a) == BaseOf(b) <==>
      && a.explicitId == b.explicitId
      && (a.explicitId ==> a.id == b.id)
      && (!a.explicitId ==>
            a.role == b.role && a.content == b.content && a.reasoning == b.reasoning && a.toolCallId == b.toolCallId && a.toolName == b.toolName &&
            a.toolCalls == b.toolCalls)
  {}

  /** A row's number counts the rows of its base from it to the end, so the last rows of both sides are paired. */
  lemma {:induction false} NumberedFromEnd(rows: seq<Row>, i: nat)
    requires i < |rows|
    ensures Keys(rows)[i].base == BaseOf(rows[i]) && Keys(rows)[i].nth == |Later(rows, i, BaseOf(rows[i]))|
    decreases i
  {
    if i == 0 {
      CountLater(rows, 0, BaseOf(rows[0]));
      assert rows[0..] == rows;
    } else {
      assert Keys(rows)[i] == Keys(rows[1..])[i - 1];
      NumberedFromEnd(rows[1..], i - 1);
      CountLater(rows, i, BaseOf(rows[i]));
      CountLater(rows[1..], i - 1, BaseOf(rows[i]));
      assert rows[1..][i - 1..] == rows[i..];
    }
  }

  /** The places from `i` on with a row of this base. */
  function Later(rows: seq<Row>, i: nat, base: Base): (r: set<nat>) {
    set j | i <= j < |rows| && BaseOf(rows[j]) == base
  }

  lemma {:induction false} CountLater(rows: seq<Row>, i: nat, base: Base)
    requires i <= |rows|
    ensures |Later(rows, i, base)| == Occurrences(rows[i..], base)
    decreases |rows| - i
  {
    hide BaseOf;
    if i < |rows| {
      CountLater(rows, i + 1, base);
      assert rows[i..][1..] == rows[i + 1..];
      var rest := Later(rows, i + 1, base);
      assert i !in rest;
      assert Later(rows, i, base) == if BaseOf(rows[i]) == base then rest + {i} else rest;
    } else {
      assert Later(rows, i, base) == {};
    }
  }

  /** A merged row: whatever the live row says, and where it says nothing, what the retained one said; live alone knows completion. */
  predicate Blends(out: Row, retained: Row, live: Row) {
    && out.id == (if live.id == "" then retained.id else live.id)
    && (out.explicitId <==> retained.explicitId || live.explicitId)
    && out.role == (if live.role == "" then retained.role else live.role)
    && out.content == (if live.content == "" then retained.content else live.content)
    && out.reasoning == (if live.reasoning == "" then retained.reasoning else live.reasoning)
    && out.toolCallId == (if live.toolCallId == "" then retained.toolCallId else live.toolCallId)
    && out.toolName == (if live.toolName == "" then retained.toolName else live.toolName)
    && out.toolCalls == (if live.toolCalls == [] then retained.toolCalls else live.toolCalls)
    && out.completed == live.completed
    && out.timestamp == (if live.timestamp == 0 then retained.timestamp else live.timestamp)
    && out.source == "retained+runtime"
  }

  /** The keys of the merge: the retained ones in order, then the live ones without a partner in order. */
  lemma MergeOrder(p: seq<Row>, r: seq<Row>)
    ensures Merged(p, r).keys == Keys(p) + Unpaired(Keys(p), Keys(r))
  {
    hide Keys;
    KeysDistinct(r);
    EnteredKeys(Table(p, Keys(p)), r, Keys(r));
  }

  /** Each retained row keeps its place, alone or blended with its live partner; each other live row follows as it is. */
  lemma RowExact(p: seq<Row>, r: seq<Row>, key: Key)
    ensures var out := Merged(p, r);
      var at, i, j := IndexOf(out.keys, key), IndexOf(Keys(p), key), IndexOf(Keys(r), key);
      && (key in out.keys <==> key in Keys(p) || key in Keys(r))
      && (i < |p| ==> at == i)
      && (i < |p| && j < |r| ==> Blends(out.rows[at], p[i], r[j]))
      && (i < |p| && j == |r| ==> out.rows[at] == p[i])
      && (i == |p| && j < |r| ==> at < |out.rows| && out.rows[at] == r[j])
  {
    hide Keys, EnterAll, Blends, MergeRow, Unpaired;
    RowPerKey(p, r, key);
    MergeOrder(p, r);
    var out := Merged(p, r);
    var i, j := IndexOf(Keys(p), key), IndexOf(Keys(r), key);
    if i < |p| { IndexPrefix(Keys(p), Unpaired(Keys(p), Keys(r)), key); }
    if i < |p| && j < |r| { BlendIs(p[i], r[j]); }
  }

  lemma BlendIs(p: Row, live: Row)
    ensures Blends(MergeRow(p, live), p, live)
  {}

  lemma {:induction false} IndexPrefix(a: seq<Key>, b: seq<Key>, key: Key)
    requires key in a
    ensures IndexOf(a + b, key) == IndexOf(a, key)
  {
    if a[0] != key {
      assert (a + b)[1..] == a[1..] + b;
      IndexPrefix(a[1..], b, key);
    }
  }
}
