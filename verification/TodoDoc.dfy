/** The todo list as a value: what crates/todo-app/src/state.rs does to it, and
    the laws of its merge. */
module TodoDocs {
  import opened Base
  import opened TodoIds
  import Clocks = VectorClocks

  // ----- str::trim -----

  /** Unicode White_Space. */
  predicate IsWhitespace(c: char) {
    var x := c as int;
    || 0x09 <= x <= 0x0D || x == 0x20 || x == 0x85 || x == 0xA0 || x == 0x1680
    || 0x2000 <= x <= 0x200A || x == 0x2028 || x == 0x2029 || x == 0x202F || x == 0x205F || x == 0x3000
  }

  const WHITE_SPACE: set<char> :=
    {'\t', '\n', '\U{0B}', '\U{0C}', '\r', ' ', '\U{85}', '\U{A0}', '\U{1680}',
     '\U{2000}', '\U{2001}', '\U{2002}', '\U{2003}', '\U{2004}', '\U{2005}', '\U{2006}', '\U{2007}',
     '\U{2008}', '\U{2009}', '\U{200A}', '\U{2028}', '\U{2029}', '\U{202F}', '\U{205F}', '\U{3000}'}

  lemma WhitespaceIs(c: char)
    ensures IsWhitespace(c) <==> c in WHITE_SPACE
  {
  }

  predicate AllWhitespace(s: string) {
    forall i :: 0 <= i < |s| ==> IsWhitespace(s[i])
  }

  function TrimStart(s: string): string {
    if s != "" && IsWhitespace(s[0]) then TrimStart(s[1..]) else s
  }

  function TrimEnd(s: string): string {
    if s != "" && IsWhitespace(s[|s| - 1]) then TrimEnd(s[..|s| - 1]) else s
  }

  function Trim(s: string): string {
    TrimEnd(TrimStart(s))
  }

  predicate IsTrimmed(s: string) {
    s == "" || (!IsWhitespace(s[0]) && !IsWhitespace(s[|s| - 1]))
  }

  lemma {:induction false} TrimStartSplits(s: string) returns (before: string)
    ensures s == before + TrimStart(s) && AllWhitespace(before)
    ensures TrimStart(s) != "" ==> !IsWhitespace(TrimStart(s)[0])
  {
    if s != "" && IsWhitespace(s[0]) {
      before := TrimStartSplits(s[1..]);
      before := [s[0]] + before;
    } else {
      before := "";
    }
  }

  lemma {:induction false} TrimEndSplits(s: string) returns (after: string)
    ensures s == TrimEnd(s) + after && AllWhitespace(after)
    ensures TrimEnd(s) != "" ==> TrimEnd(s)[0] == s[0] && !IsWhitespace(TrimEnd(s)[|TrimEnd(s)| - 1])
  {
    if s != "" && IsWhitespace(s[|s| - 1]) {
      after := TrimEndSplits(s[..|s| - 1]);
      after := after + [s[|s| - 1]];
    } else {
      after := "";
    }
  }

  /** Trimming cuts whitespace off both ends and nothing else. */
  lemma TrimSplits(s: string) returns (before: string, after: string)
    ensures s == before + Trim(s) + after
    ensures AllWhitespace(before) && AllWhitespace(after) && IsTrimmed(Trim(s))
  {
    before := TrimStartSplits(s);
    after := TrimEndSplits(TrimStart(s));
  }

  predicate AllIn(s: string, chars: set<char>) {
    forall i :: 0 <= i < |s| ==> s[i] in chars
  }

  lemma AllWhitespaceIs(s: string)
    ensures AllWhitespace(s) <==> AllIn(s, WHITE_SPACE)
  {
    hide IsWhitespace;
    forall i | 0 <= i < |s| ensures IsWhitespace(s[i]) <==> s[i] in WHITE_SPACE {
      WhitespaceIs(s[i]);
    }
  }

  lemma {:induction false} TrimStartDrops(before: string, rest: string)
    requires AllWhitespace(before)
    ensures TrimStart(before + rest) == TrimStart(rest)
  {
    hide IsWhitespace;
    if before == "" {
      assert before + rest == rest;
    } else {
      assert (before + rest)[1..] == before[1..] + rest;
      TrimStartDrops(before[1..], rest);
    }
  }

  lemma {:induction false} TrimEndDrops(rest: string, after: string)
    requires AllWhitespace(after)
    ensures TrimEnd(rest + after) == TrimEnd(rest)
  {
    hide IsWhitespace;
    if after == "" {
      assert rest + after == rest;
    } else {
      var all := rest + after;
      assert all[..|all| - 1] == rest + after[..|after| - 1];
      TrimEndDrops(rest, after[..|after| - 1]);
    }
  }

  /** Trimming leaves what stands between the outer whitespace. */
  lemma TrimOf(before: string, core: string, after: string)
    requires AllIn(before, WHITE_SPACE) && AllIn(after, WHITE_SPACE)
    requires core != "" && core[0] !in WHITE_SPACE && core[|core| - 1] !in WHITE_SPACE
    ensures Trim(before + core + after) == core
  {
    hide IsWhitespace;
    AllWhitespaceIs(before);
    AllWhitespaceIs(after);
    WhitespaceIs(core[0]);
    WhitespaceIs(core[|core| - 1]);
    assert before + core + after == before + (core + after);
    TrimStartDrops(before, core + after);
    TrimEndDrops(core, after);
  }

  lemma TrimBlankIff(s: string)
    ensures Trim(s) == "" <==> AllIn(s, WHITE_SPACE)
  {
    hide IsWhitespace;
    AllWhitespaceIs(s);
    if AllWhitespace(s) {
      TrimStartDrops(s, "");
      assert s + "" == s;
    }
    var before, after := TrimSplits(s);
    assert Trim(s) == "" ==> s == before + after;
  }

  // ----- state and messages -----

  /** The fields that travel between replicas. */
  datatype Doc = Doc(
    added: set<string>,
    removed: set<string>,
    texts: map<string, string>,
    completed: map<string, bool>,
    creators: map<string, string>,
    clock: Clocks.Clock)

  /** With the three fields that serialization skips. */
  datatype Replica = Replica(peerId: string, replicaId: U64, nextLocalId: U64, doc: Doc)

  datatype ClientMessage = Add(text: string) | Toggle(id: string) | Delete(id: string) | Resync

  const EMPTY: Doc := Doc({}, {}, map[], map[], map[], map[])

  function Fresh(peerId: string, replicaId: U64): Replica {
    Replica(peerId, replicaId, 0, EMPTY)
  }

  function Flag(completed: map<string, bool>, id: string): bool {
    id in completed && completed[id]
  }

  function AfterAdd(s: Replica, text: string): Replica {
    if Trim(text) == "" then
      s
    else
      var n := WrappingAdd(s.nextLocalId, 1);
      var id := PrintId(s.peerId, n);
      s.(nextLocalId := n,
         doc := Doc(s.doc.added + {id},
                    s.doc.removed,
                    s.doc.texts[id := Trim(text)],
                    s.doc.completed[id := false],
                    s.doc.creators[id := s.peerId],
                    Clocks.Incremented(s.doc.clock, s.replicaId)))
  }

  /** A text is ignored exactly when it has nothing but whitespace. */
  lemma AddIgnoredIff(s: Replica, text: string)
    ensures AfterAdd(s, text) == s <==> AllIn(text, WHITE_SPACE)
  {
    TrimBlankIff(text);
    hide Trim, AllIn;
    assert WrappingAdd(s.nextLocalId, 1) != s.nextLocalId;
  }

  /** Any other text is filed without its outer whitespace, under the next id, with
      an unset flag and the local peer as creator. */
  lemma AddFiles(s: Replica, before: string, core: string, after: string)
    requires AllIn(before, WHITE_SPACE) && AllIn(after, WHITE_SPACE)
    requires core != "" && core[0] !in WHITE_SPACE && core[|core| - 1] !in WHITE_SPACE
    ensures var t := AfterAdd(s, before + core + after);
            var id := s.peerId + "-" + Decimal(t.nextLocalId);
            && t.peerId == s.peerId && t.replicaId == s.replicaId
            && t.nextLocalId == (if s.nextLocalId == U64_MAX then 0 else s.nextLocalId + 1)
            && t.doc.added == s.doc.added + {id} && t.doc.removed == s.doc.removed
            && t.doc.texts == s.doc.texts[id := core]
            && t.doc.completed == s.doc.completed[id := false]
            && t.doc.creators == s.doc.creators[id := s.peerId]
            && t.doc.clock == Clocks.Incremented(s.doc.clock, s.replicaId)
  {
    TrimOf(before, core, after);
    hide Trim, AllIn, Decimal, Clocks.Incremented;
  }

  function AfterToggle(s: Replica, id: string): Replica {
    if id !in s.doc.added || id in s.doc.removed then
      s
    else
      s.(doc := s.doc.(completed := s.doc.completed[id := !Flag(s.doc.completed, id)],
                       clock := Clocks.Incremented(s.doc.clock, s.replicaId)))
  }

  function AfterDelete(s: Replica, id: string): Replica {
    if id !in s.doc.added then
      s
    else
      s.(doc := s.doc.(removed := s.doc.removed + {id},
                       clock := Clocks.Incremented(s.doc.clock, s.replicaId)))
  }

  function After(s: Replica, msg: ClientMessage): Replica {
    match msg
    case Add(text) => AfterAdd(s, text)
    case Toggle(id) => AfterToggle(s, id)
    case Delete(id) => AfterDelete(s, id)
    case Resync => s
  }

  /** Keys already present keep their value. */
  function FillIn(mine: map<string, string>, theirs: map<string, string>): map<string, string> {
    theirs + mine
  }

  function OrFlags(mine: map<string, bool>, theirs: map<string, bool>): map<string, bool> {
    map id | id in mine.Keys + theirs.Keys :: Flag(mine, id) || Flag(theirs, id)
  }

  function Merged(a: Doc, b: Doc): Doc {
    Doc(a.added + b.added,
        a.removed + b.removed,
        FillIn(a.texts, b.texts),
        OrFlags(a.completed, b.completed),
        FillIn(a.creators, b.creators),
        Clocks.Merged(a.clock, b.clock))
  }

  // ----- the information order -----

  predicate Submap(a: map<string, string>, b: map<string, string>) {
    forall k :: k in a ==> k in b && a[k] == b[k]
  }

  /** Every field but `completed`. */
  ghost predicate LeqCore(a: Doc, b: Doc) {
    && a.added <= b.added
    && a.removed <= b.removed
    && Submap(a.texts, b.texts)
    && Submap(a.creators, b.creators)
    && Clocks.Leq(a.clock, b.clock)
  }

  predicate LeqFlags(a: map<string, bool>, b: map<string, bool>) {
    forall k :: k in a ==> k in b && (a[k] ==> b[k])
  }

  ghost predicate Leq(a: Doc, b: Doc) {
    LeqCore(a, b) && LeqFlags(a.completed, b.completed)
  }

  predicate Agree(a: map<string, string>, b: map<string, string>) {
    forall k :: k in a && k in b ==> a[k] == b[k]
  }

  /** No id has two texts or two creators. */
  predicate Consistent(a: Doc, b: Doc) {
    Agree(a.texts, b.texts) && Agree(a.creators, b.creators)
  }

  function Core(d: Doc): Doc {
    d.(completed := map[])
  }

  lemma LeqTransitive(a: Doc, b: Doc, c: Doc)
    requires LeqCore(a, b) && LeqCore(b, c)
    ensures LeqCore(a, c)
    ensures Leq(a, b) && Leq(b, c) ==> Leq(a, c)
  {
    Clocks.LeqTransitive(a.clock, b.clock, c.clock);
  }

  lemma LeqReflexive(d: Doc)
    ensures LeqCore(d, d) && Leq(d, d)
  {
  }

  lemma LeqHasCore(a: Doc, b: Doc)
    requires Leq(a, b)
    ensures LeqCore(a, b)
  {
  }

  lemma LeqChain(a: Doc, b: Doc, c: Doc)
    requires Leq(a, b) && Leq(b, c)
    ensures Leq(a, c)
  {
    LeqTransitive(a, b, c);
  }

  lemma SubmapAntisymmetric(a: map<string, string>, b: map<string, string>)
    requires Submap(a, b) && Submap(b, a)
    ensures a == b
  {
    forall k ensures k in a <==> k in b {
    }
  }

  lemma LeqAntisymmetric(a: Doc, b: Doc)
    requires Clocks.Positive(a.clock) && Clocks.Positive(b.clock)
    ensures LeqCore(a, b) && LeqCore(b, a) <==> Core(a) == Core(b)
    ensures Leq(a, b) && Leq(b, a) <==> a == b
  {
    Clocks.EqualIsStructural(a.clock, b.clock);
    if LeqCore(a, b) && LeqCore(b, a) {
      SubmapAntisymmetric(a.texts, b.texts);
      SubmapAntisymmetric(a.creators, b.creators);
    }
    if Leq(a, b) && Leq(b, a) {
      forall k ensures k in a.completed <==> k in b.completed {
      }
      assert a.completed == b.completed;
    }
  }

  // ----- merge -----

  lemma OrFlagsAssociative(a: map<string, bool>, b: map<string, bool>, c: map<string, bool>)
    ensures OrFlags(OrFlags(a, b), c) == OrFlags(a, OrFlags(b, c))
  {
    var x, y := OrFlags(OrFlags(a, b), c), OrFlags(a, OrFlags(b, c));
    assert x.Keys == y.Keys;
  }

  /** One more entry of `b` taken over, those of `todo` still to come. */
  lemma OrFlagsStep(a: map<string, bool>, b: map<string, bool>, todo: set<string>, id: string)
    requires id in todo && todo <= b.Keys
    ensures var m := OrFlags(a, b - todo);
            OrFlags(a, b - (todo - {id})) == m[id := Flag(m, id) || b[id]]
  {
    var x, m := OrFlags(a, b - (todo - {id})), OrFlags(a, b - todo);
    var y := m[id := Flag(m, id) || b[id]];
    forall k ensures k in x <==> k in y {
    }
    forall k | k in x ensures x[k] == y[k] {
    }
  }

  lemma FillInAssociative(a: map<string, string>, b: map<string, string>, c: map<string, string>)
    ensures FillIn(FillIn(a, b), c) == FillIn(a, FillIn(b, c))
    ensures FillIn(a, a) == a
  {
  }

  lemma MergeAssociative(a: Doc, b: Doc, c: Doc)
    ensures Merged(Merged(a, b), c) == Merged(a, Merged(b, c))
  {
    Clocks.MergeAssociative(a.clock, b.clock, c.clock);
    OrFlagsAssociative(a.completed, b.completed, c.completed);
    FillInAssociative(a.texts, b.texts, c.texts);
    FillInAssociative(a.creators, b.creators, c.creators);
    var x, y := Merged(Merged(a, b), c), Merged(a, Merged(b, c));
    assert x.added == y.added && x.removed == y.removed;
    assert x.texts == FillIn(FillIn(a.texts, b.texts), c.texts);
    assert y.texts == FillIn(a.texts, FillIn(b.texts, c.texts));
    assert x.creators == FillIn(FillIn(a.creators, b.creators), c.creators);
    assert y.creators == FillIn(a.creators, FillIn(b.creators, c.creators));
  }

  lemma MergeIdempotent(a: Doc)
    ensures Merged(a, a) == a
  {
    Clocks.MergeIdempotent(a.clock);
    FillInAssociative(a.texts, a.texts, a.texts);
    FillInAssociative(a.creators, a.creators, a.creators);
    assert OrFlags(a.completed, a.completed) == a.completed;
  }

  lemma FillInCommutes(a: map<string, string>, b: map<string, string>)
    ensures FillIn(a, b) == FillIn(b, a) <==> Agree(a, b)
    ensures Submap(b, FillIn(a, b)) <==> Agree(a, b)
    ensures Submap(a, FillIn(a, b))
  {
    var x, y := FillIn(a, b), FillIn(b, a);
    if x == y {
      forall k | k in a && k in b ensures a[k] == b[k] {
        assert x[k] == y[k];
      }
    }
    if Submap(b, x) {
      forall k | k in a && k in b ensures a[k] == b[k] {
        assert x[k] == b[k];
      }
    }
  }

  /** The left-biased merge commutes exactly when the two states never disagree
      on an id's text or creator. */
  lemma MergeCommutesIff(a: Doc, b: Doc)
    requires Clocks.Positive(a.clock) && Clocks.Positive(b.clock)
    ensures Merged(a, b) == Merged(b, a) <==> Consistent(a, b)
  {
    Clocks.MergeCommutative(a.clock, b.clock);
    FillInCommutes(a.texts, b.texts);
    FillInCommutes(a.creators, b.creators);
    assert OrFlags(a.completed, b.completed) == OrFlags(b.completed, a.completed);
  }

  /** Merge always stays above its left argument, and below every upper bound. */
  lemma MergeLeastAbove(a: Doc, b: Doc, u: Doc)
    ensures Leq(a, Merged(a, b))
    ensures LeqCore(a, u) && LeqCore(b, u) ==> LeqCore(Merged(a, b), u)
    ensures Leq(a, u) && Leq(b, u) ==> Leq(Merged(a, b), u)
  {
    Clocks.MergeIsLub(a.clock, b.clock, u.clock);
  }

  /** It takes in all of its right argument exactly when the two are consistent;
      with MergeLeastAbove: it is then the least upper bound. */
  lemma MergeAboveRightIff(a: Doc, b: Doc)
    ensures Leq(b, Merged(a, b)) <==> Consistent(a, b)
    ensures LeqCore(b, Merged(a, b)) <==> Consistent(a, b)
  {
    Clocks.MergeIsLub(a.clock, b.clock, b.clock);
    FillInCommutes(a.texts, b.texts);
    FillInCommutes(a.creators, b.creators);
  }

  /** a.merge(b) followed by b.merge(a), as a pair of replicas syncs. */
  lemma MutualMergeAgrees(a: Doc, b: Doc)
    requires Clocks.Positive(a.clock) && Clocks.Positive(b.clock) && Consistent(a, b)
    ensures Merged(b, Merged(a, b)) == Merged(a, b)
  {
    var m := Merged(a, b);
    MergeCommutesIff(a, b);
    MergeAssociative(b, b, a);
    MergeIdempotent(b);
    assert Merged(b, Merged(b, a)) == Merged(b, a);
  }

  // ----- what a local operation does to the order -----

  /** A toggle moves the state up exactly when it does not lower a flag (and the
      clock does not wrap). */
  lemma ToggleInflatesIff(s: Replica, id: string)
    ensures Leq(s.doc, AfterToggle(s, id).doc) <==>
            || id !in s.doc.added || id in s.doc.removed
            || (!Flag(s.doc.completed, id) && Clocks.Get(s.doc.clock, s.replicaId) != U64_MAX)
  {
    Clocks.IncrementIsStrict(s.doc.clock, s.replicaId);
    var t := AfterToggle(s, id).doc;
    if t.clock == Clocks.Incremented(s.doc.clock, s.replicaId) {
      assert Clocks.Get(t.clock, s.replicaId) == WrappingAdd(Clocks.Get(s.doc.clock, s.replicaId), 1);
    }
  }

  // ----- joins of several states -----

  /** All states of `ids` merged, in some order. */
  ghost function Join(docs: map<U64, Doc>, ids: set<U64>): Doc
    requires ids <= docs.Keys
  {
    if ids == {} then EMPTY else
      var r :| r in ids;
      Merged(docs[r], Join(docs, ids - {r}))
  }

  ghost predicate PairwiseConsistent(docs: map<U64, Doc>) {
    forall p, q :: p in docs && q in docs ==> Consistent(docs[p], docs[q])
  }

  lemma AgreeWithFillIn(d: map<string, string>, a: map<string, string>, b: map<string, string>)
    requires Agree(d, a) && Agree(d, b)
    ensures Agree(d, FillIn(a, b))
  {
    var m := FillIn(a, b);
    forall k | k in d && k in m ensures d[k] == m[k] {
      assert m[k] == if k in a then a[k] else b[k];
    }
  }

  lemma {:induction false} JoinConsistent(docs: map<U64, Doc>, ids: set<U64>, d: Doc)
    requires ids <= docs.Keys
    requires forall r :: r in ids ==> Consistent(d, docs[r])
    ensures Consistent(d, Join(docs, ids))
    decreases ids
  {
    if ids != {} {
      var r :| r in ids && Join(docs, ids) == Merged(docs[r], Join(docs, ids - {r}));
      var rest := Join(docs, ids - {r});
      JoinConsistent(docs, ids - {r}, d);
      AgreeWithFillIn(d.texts, docs[r].texts, rest.texts);
      AgreeWithFillIn(d.creators, docs[r].creators, rest.creators);
      assert Merged(docs[r], rest).texts == FillIn(docs[r].texts, rest.texts);
      assert Merged(docs[r], rest).creators == FillIn(docs[r].creators, rest.creators);
    }
  }

  lemma {:induction false} JoinAbove(docs: map<U64, Doc>, ids: set<U64>, p: U64)
    requires p in ids && ids <= docs.Keys && PairwiseConsistent(docs)
    ensures Leq(docs[p], Join(docs, ids))
    decreases ids
  {
    var r :| r in ids && Join(docs, ids) == Merged(docs[r], Join(docs, ids - {r}));
    var rest := Join(docs, ids - {r});
    MergeLeastAbove(docs[r], rest, rest);
    if p != r {
      JoinConsistent(docs, ids - {r}, docs[r]);
      MergeAboveRightIff(docs[r], rest);
      JoinAbove(docs, ids - {r}, p);
      LeqTransitive(docs[p], rest, Merged(docs[r], rest));
    }
  }

  lemma {:induction false} JoinLeast(docs: map<U64, Doc>, ids: set<U64>, u: Doc)
    requires ids <= docs.Keys
    requires forall r :: r in ids ==> LeqCore(docs[r], u)
    ensures LeqCore(Join(docs, ids), u)
    ensures (forall r :: r in ids ==> Leq(docs[r], u)) ==> Leq(Join(docs, ids), u)
    decreases ids
  {
    if ids != {} {
      var r :| r in ids && Join(docs, ids) == Merged(docs[r], Join(docs, ids - {r}));
      JoinLeast(docs, ids - {r}, u);
      MergeLeastAbove(docs[r], Join(docs, ids - {r}), u);
    }
  }
}
