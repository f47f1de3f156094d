/** The list a browser is shown, crates/todo-app/src/state.rs:96-129. */
module TodoSnapshots {
  import opened Base
  import opened TodoDocs
  import Clocks = VectorClocks

  datatype TodoItem = TodoItem(id: string, text: string, completed: bool, createdBy: string)

  datatype PeerSnapshot = PeerSnapshot(
    id: string,
    name: string,
    online: bool,
    clock: map<string, U64>,
    todos: seq<TodoItem>)

  datatype ServerMessage = Snapshot(localPeerId: string, peers: seq<PeerSnapshot>)

  // ----- string order -----

  /** Lexicographic by code point, which is also the order of the UTF-8 bytes. */
  predicate Before(a: string, b: string) {
    if b == "" then false
    else if a == "" then true
    else if a[0] != b[0] then a[0] < b[0]
    else Before(a[1..], b[1..])
  }

  /** The lexicographic order outright: at the first place where the strings differ,
      `a` has ended or has the smaller code point. */
  ghost predicate Precedes(a: string, b: string) {
    exists k: nat :: k <= |a| && k < |b| && a[..k] == b[..k] && (k == |a| || a[k] < b[k])
  }

  lemma PrefixHeads(a: string, b: string)
    requires a != "" && b != ""
    ensures forall k :: 0 < k <= |a| && k <= |b| && a[..k] == b[..k] ==> a[0] == b[0]
  {
    forall k | 0 < k <= |a| && k <= |b| && a[..k] == b[..k] ensures a[0] == b[0] {
      assert a[..k][0] == b[..k][0];
    }
  }

  lemma {:induction false} BeforeIff(a: string, b: string)
    ensures Before(a, b) <==> Precedes(a, b)
  {
    if b != "" && a == "" {
      assert a[..0] == b[..0];
    } else if b != "" && a[0] != b[0] {
      assert a[..0] == b[..0];
      PrefixHeads(a, b);
    } else if b != "" {
      BeforeIff(a[1..], b[1..]);
      if Precedes(a[1..], b[1..]) {
        var x, y := a[1..], b[1..];
        var k: nat :| k <= |x| && k < |y| && x[..k] == y[..k] && (k == |x| || x[k] < y[k]);
        assert a[..k + 1] == [a[0]] + a[1..][..k] && b[..k + 1] == [b[0]] + b[1..][..k];
      }
      if k: nat :| k <= |a| && k < |b| && a[..k] == b[..k] && (k == |a| || a[k] < b[k]) {
        assert k > 0;
        assert a[1..][..k - 1] == a[..k][1..] && b[1..][..k - 1] == b[..k][1..];
      }
    }
  }

  lemma {:induction false} BeforeTotal(a: string, b: string)
    ensures Before(a, b) || Before(b, a) || a == b
    ensures !(Before(a, b) && Before(b, a)) && !Before(a, a)
  {
    if a != "" {
      BeforeTotal(a[1..], a[1..]);
      if b != "" && a[0] == b[0] {
        BeforeTotal(a[1..], b[1..]);
        assert a == [a[0]] + a[1..] && b == [b[0]] + b[1..];
      }
    }
  }

  lemma {:induction false} BeforeTransitive(a: string, b: string, c: string)
    ensures Before(a, b) && Before(b, c) ==> Before(a, c)
    ensures !Before(b, a) && !Before(c, b) ==> !Before(c, a)
  {
    if a != "" && b != "" && c != "" {
      BeforeTransitive(a[1..], b[1..], c[1..]);
    }
  }

  ghost predicate Increasing(ids: seq<string>) {
    forall i, j :: 0 <= i < j < |ids| ==> Before(ids[i], ids[j])
  }

  lemma EmptyTogether(xs: seq<string>, ys: seq<string>)
    requires forall x :: x in xs <==> x in ys
    ensures xs == [] <==> ys == []
    ensures xs != [] ==> xs[0] in ys && ys[0] in xs
  {
    if xs != [] {
      assert xs[0] in ys;
    }
    if ys != [] {
      assert ys[0] in xs;
    }
  }

  /** A strictly increasing sequence is determined by its elements. */
  lemma {:induction false} IncreasingUnique(xs: seq<string>, ys: seq<string>)
    requires Increasing(xs) && Increasing(ys)
    requires forall x :: x in xs <==> x in ys
    ensures xs == ys
  {
    EmptyTogether(xs, ys);
    if xs != [] {
      var i :| 0 <= i < |ys| && ys[i] == xs[0];
      var j :| 0 <= j < |xs| && xs[j] == ys[0];
      BeforeTotal(xs[0], ys[0]);
      var xt, yt := xs[1..], ys[1..];
      forall x ensures x in xt <==> x in yt {
        BeforeTotal(xs[0], xs[0]);
        assert x in xt ==> x in xs && x != xs[0];
        assert x in yt ==> x in ys && x != ys[0];
        assert xs == [xs[0]] + xt && ys == [ys[0]] + yt;
      }
      IncreasingUnique(xt, yt);
      assert xs == [xs[0]] + xt && ys == [ys[0]] + yt;
    }
  }

  // ----- what the snapshot must list -----

  function Listed(s: Replica): set<string> {
    set id | id in s.doc.added && id !in s.doc.removed && id in s.doc.texts
  }

  function ItemOf(s: Replica, id: string): TodoItem
    requires id in s.doc.texts
  {
    TodoItem(id, s.doc.texts[id], Flag(s.doc.completed, id),
             if id in s.doc.creators then s.doc.creators[id] else s.peerId)
  }

  function Ids(todos: seq<TodoItem>): seq<string> {
    seq(|todos|, i requires 0 <= i < |todos| => todos[i].id)
  }

  ghost predicate IsListing(s: Replica, todos: seq<TodoItem>) {
    && Increasing(Ids(todos))
    && (forall i :: 0 <= i < |todos| ==> todos[i].id in Listed(s) && todos[i] == ItemOf(s, todos[i].id))
    && (forall id :: id in Listed(s) ==> id in Ids(todos))
  }

  ghost predicate IsSnapshot(s: Replica, msg: ServerMessage) {
    && msg.localPeerId == s.peerId
    && |msg.peers| == 1
    && var p := msg.peers[0];
       && p.id == s.peerId && p.name == "Peer " + s.peerId && p.online
       && p.clock == map[s.peerId := Clocks.Get(s.doc.clock, s.replicaId)]
       && IsListing(s, p.todos)
  }

  /** What a listing says outright: the items are the ids added, not removed and with
      a text, each with its text, its flag (unset if it has none) and its creator (the
      local peer if it has none). */
  lemma ListingFields(s: Replica, todos: seq<TodoItem>)
    requires IsListing(s, todos)
    ensures forall i :: 0 <= i < |todos| ==>
                          var it := todos[i];
                          && it.id in s.doc.added && it.id !in s.doc.removed
                          && it.id in s.doc.texts && it.text == s.doc.texts[it.id]
                          && (it.completed <==> it.id in s.doc.completed && s.doc.completed[it.id])
                          && (if it.id in s.doc.creators then it.createdBy == s.doc.creators[it.id]
                              else it.createdBy == s.peerId)
    ensures forall id :: id in s.doc.added && id !in s.doc.removed && id in s.doc.texts ==>
                           exists i :: 0 <= i < |todos| && todos[i].id == id
  {
    forall id | id in s.doc.added && id !in s.doc.removed && id in s.doc.texts
      ensures exists i :: 0 <= i < |todos| && todos[i].id == id
    {
      assert id in Listed(s);
      IdsElements(todos, id);
    }
  }

  /** A listing ascends by id, in the order of code points. */
  lemma ListingAscends(s: Replica, todos: seq<TodoItem>)
    requires IsListing(s, todos)
    ensures forall i, j :: 0 <= i < j < |todos| ==> Precedes(todos[i].id, todos[j].id)
  {
    forall i, j | 0 <= i < j < |todos| ensures Precedes(todos[i].id, todos[j].id) {
      assert Before(Ids(todos)[i], Ids(todos)[j]);
      BeforeIff(todos[i].id, todos[j].id);
    }
  }

  lemma IdsElements(todos: seq<TodoItem>, id: string)
    ensures id in Ids(todos) <==> exists i :: 0 <= i < |todos| && todos[i].id == id
  {
    if id in Ids(todos) {
      var i :| 0 <= i < |Ids(todos)| && Ids(todos)[i] == id;
      assert todos[i].id == id;
    }
    if i :| 0 <= i < |todos| && todos[i].id == id {
      assert Ids(todos)[i] == id;
    }
  }

  /** Two listings that list the same ids with the same fields are the same
      sequence, whatever order the hash tables were walked in. */
  lemma ListingUnique(s: Replica, xs: seq<TodoItem>, t: Replica, ys: seq<TodoItem>)
    requires IsListing(s, xs) && IsListing(t, ys)
    requires Listed(s) == Listed(t)
    requires forall id :: id in Listed(s) ==> ItemOf(s, id) == ItemOf(t, id)
    ensures xs == ys
  {
    forall id ensures id in Ids(xs) <==> id in Ids(ys) {
      IdsElements(xs, id);
      IdsElements(ys, id);
    }
    IncreasingUnique(Ids(xs), Ids(ys));
    assert |Ids(xs)| == |xs| && |Ids(ys)| == |ys|;
    forall i | 0 <= i < |xs| ensures xs[i] == ys[i] {
      assert Ids(xs)[i] == Ids(ys)[i];
    }
  }

  lemma {:induction false} IncreasingCard(ids: seq<string>, all: set<string>)
    requires Increasing(ids)
    requires forall x :: x in ids <==> x in all
    ensures |ids| == |all|
  {
    if ids == [] {
      assert all == {};
    } else {
      var head, tail := ids[0], ids[1..];
      BeforeTotal(head, head);
      assert ids == [head] + tail;
      forall x ensures x in tail <==> x in all - {head} {
      }
      IncreasingCard(tail, all - {head});
    }
  }

  lemma ListingSize(s: Replica, todos: seq<TodoItem>)
    requires IsListing(s, todos)
    ensures |todos| == |Listed(s)|
  {
    forall id ensures id in Ids(todos) <==> id in Listed(s) {
      IdsElements(todos, id);
    }
    IncreasingCard(Ids(todos), Listed(s));
  }

  // ----- sorting -----

  ghost predicate SortedById(items: seq<TodoItem>) {
    forall i, j :: 0 <= i < j < |items| ==> !Before(items[j].id, items[i].id)
  }

  lemma InsertKeepsSorted(before: seq<TodoItem>, x: TodoItem, after: seq<TodoItem>)
    requires SortedById(before + after)
    requires before != [] ==> !Before(x.id, before[|before| - 1].id)
    requires forall k :: 0 <= k < |after| ==> Before(x.id, after[k].id)
    ensures SortedById(before + [x] + after)
  {
    var joined, inserted := before + after, before + [x] + after;
    var m := |before|;
    forall k | 0 <= k < m ensures !Before(x.id, before[k].id) {
      assert joined[k] == before[k] && joined[m - 1] == before[m - 1];
      assert k < m - 1 ==> !Before(joined[m - 1].id, joined[k].id);
      BeforeTransitive(before[k].id, before[m - 1].id, x.id);
    }
    forall k | 0 <= k < |after| ensures !Before(after[k].id, x.id) {
      BeforeTotal(x.id, after[k].id);
    }
    forall i, j | 0 <= i < j < |inserted| ensures !Before(inserted[j].id, inserted[i].id) {
      var i', j' := if i < m then i else i - 1, if j < m then j else j - 1;
      assert i != m ==> inserted[i] == joined[i'];
      assert j != m ==> inserted[j] == joined[j'];
    }
  }

  lemma InsertAddsOne(before: seq<TodoItem>, x: TodoItem, after: seq<TodoItem>)
    ensures multiset(before + [x] + after) == multiset(before + after) + multiset{x}
  {
  }

  /** Puts the item behind everything that is not after it. */
  method InsertById(items: seq<TodoItem>, x: TodoItem) returns (r: seq<TodoItem>)
    requires SortedById(items)
    ensures SortedById(r)
    ensures multiset(r) == multiset(items) + multiset{x}
  {
    var before, after := items, [];
    while before != [] && Before(x.id, before[|before| - 1].id)
      invariant items == before + after
      invariant forall k :: 0 <= k < |after| ==> Before(x.id, after[k].id)
      decreases |before|
    {
      after := [before[|before| - 1]] + after;
      before := before[..|before| - 1];
    }
    InsertKeepsSorted(before, x, after);
    InsertAddsOne(before, x, after);
    r := before + [x] + after;
  }

  /** Stable sort by id, standing in for the library's Vec::sort_by. */
  method SortById(items: seq<TodoItem>) returns (sorted: seq<TodoItem>)
    ensures SortedById(sorted)
    ensures forall i, j :: 0 <= i < j < |sorted| ==> !Precedes(sorted[j].id, sorted[i].id)
    ensures multiset(sorted) == multiset(items)
  {
    sorted := [];
    for n := 0 to |items|
      invariant SortedById(sorted)
      invariant multiset(sorted) == multiset(items[..n])
    {
      assert items[..n + 1] == items[..n] + [items[n]];
      sorted := InsertById(sorted, items[n]);
    }
    assert items[..|items|] == items;
    forall i, j | 0 <= i < j < |sorted| ensures !Precedes(sorted[j].id, sorted[i].id) {
      BeforeIff(sorted[j].id, sorted[i].id);
    }
  }

  lemma {:induction false} CountsOnce(items: seq<TodoItem>, x: TodoItem)
    requires forall i, j :: 0 <= i < j < |items| ==> items[i] != items[j]
    ensures multiset(items)[x] <= 1
  {
    if items != [] {
      var rest, last := items[..|items| - 1], items[|items| - 1];
      assert items == rest + [last];
      CountsOnce(rest, x);
      if x == last {
        assert last !in rest;
      }
    }
  }

  lemma CountsTwice(items: seq<TodoItem>, i: nat, j: nat)
    requires i < j < |items| && items[i] == items[j]
    ensures multiset(items)[items[i]] >= 2
  {
    assert items == items[..i] + [items[i]] + items[i + 1..j] + [items[j]] + items[j + 1..];
  }

  /** Each listed id outside `todo` has been collected once. */
  ghost predicate Collected(s: Replica, items: seq<TodoItem>, todo: set<string>) {
    && (forall i, j :: 0 <= i < j < |items| ==> items[i].id != items[j].id)
    && (forall i :: 0 <= i < |items| ==>
                      items[i].id in Listed(s) && items[i].id !in todo && items[i] == ItemOf(s, items[i].id))
    && (forall id :: id in Listed(s) && id !in todo ==> exists i :: 0 <= i < |items| && items[i].id == id)
  }

  lemma CollectOne(s: Replica, items: seq<TodoItem>, todo: set<string>, id: string)
    requires Collected(s, items, todo) && id in todo
    ensures Collected(s, if id in Listed(s) then items + [ItemOf(s, id)] else items, todo - {id})
  {
    var items' := if id in Listed(s) then items + [ItemOf(s, id)] else items;
    forall other | other in Listed(s) && other !in todo - {id}
      ensures exists i :: 0 <= i < |items'| && items'[i].id == other
    {
      if other == id {
        assert items'[|items|].id == id;
      } else {
        var i :| 0 <= i < |items| && items[i].id == other;
        assert items'[i].id == other;
      }
    }
  }

  /** Sorting the collected items gives the listing. */
  lemma SortedIsListing(s: Replica, items: seq<TodoItem>, sorted: seq<TodoItem>)
    requires Collected(s, items, {})
    requires SortedById(sorted) && multiset(sorted) == multiset(items)
    ensures IsListing(s, sorted)
  {
    forall i | 0 <= i < |sorted|
      ensures sorted[i].id in Listed(s) && sorted[i] == ItemOf(s, sorted[i].id)
    {
      assert sorted[i] in multiset(sorted);
      assert sorted[i] in items;
    }
    forall i, j | 0 <= i < j < |sorted| ensures Before(sorted[i].id, sorted[j].id) {
      BeforeTotal(sorted[i].id, sorted[j].id);
      if sorted[i].id == sorted[j].id {
        CountsTwice(sorted, i, j);
        CountsOnce(items, sorted[i]);
      }
    }
    forall id | id in Listed(s) ensures id in Ids(sorted) {
      var i :| 0 <= i < |items| && items[i].id == id;
      assert items[i] in multiset(items);
      assert items[i] in sorted;
      IdsElements(sorted, id);
    }
  }
}
