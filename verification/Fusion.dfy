/** app/knowledge/retrieval.py: reciprocal rank fusion of several retrievers' result lists.

Scores are exact rationals; rounding them to four digits for display is not modelled. */
module Fusion {
  type ChunkId = string

  datatype Ranker = Vector | Bm25

  /** A retrieved chunk and the retrievers whose score it carries. */
  datatype Hit = Hit(id: ChunkId, marks: set<Ranker>)

  /** A hit at its rank, counted from 0, in its list. */
  datatype Place = Place(hit: Hit, rank: nat)

  datatype Fused = Fused(hit: Hit, score: real, rankers: set<Ranker>)

  function Places(list: seq<Hit>): seq<Place> {
    seq(|list|, i requires 0 <= i < |list| => Place(list[i], i))
  }

  /** All places of all lists, in reading order. */
  function Reading(lists: seq<seq<Hit>>): seq<Place> {
    if lists == [] then [] else Reading(lists[..|lists| - 1]) + Places(lists[|lists| - 1])
  }

  /** What one place is worth. */
  function Share(k: nat, rank: nat): real {
    1.0 / (k + rank + 1) as real
  }

  function Score(places: seq<Place>, k: nat, id: ChunkId): real {
    if places == [] then 0.0
    else
      var last := places[|places| - 1];
      Score(places[..|places| - 1], k, id) + if last.hit.id == id then Share(k, last.rank) else 0.0
  }

  predicate Mentions(places: seq<Place>, id: ChunkId) {
    exists i | 0 <= i < |places| :: places[i].hit.id == id
  }

  predicate IsFirst(places: seq<Place>, i: nat, id: ChunkId) {
    && i < |places| && places[i].hit.id == id
    && forall j | 0 <= j < i :: places[j].hit.id != id
  }

  /** Where the id is read for the first time. */
  function First(places: seq<Place>, id: ChunkId): (i: nat)
    requires Mentions(places, id)
    ensures IsFirst(places, i, id)
  {
    if Mentions(places[..|places| - 1], id) then First(places[..|places| - 1], id) else |places| - 1
  }

  function Marks(places: seq<Place>, id: ChunkId): (marks: set<Ranker>)
    ensures forall m :: m in marks <==>
      exists i | 0 <= i < |places| :: places[i].hit.id == id && m in places[i].hit.marks
  {
    if places == [] then {}
    else
      var last := places[|places| - 1];
      Marks(places[..|places| - 1], id) + if last.hit.id == id then last.hit.marks else {}
  }

  /** The fused order: higher scores first, equal scores as first read. */
  ghost predicate Above(places: seq<Place>, k: nat, a: ChunkId, b: ChunkId) {
    && Mentions(places, a) && Mentions(places, b)
    && var x, y := Score(places, k, a), Score(places, k, b);
       x > y || (x == y && First(places, a) < First(places, b))
  }

  // ---------- the tables ----------

  /** The three dictionaries; `order` is the insertion order of their common keys. */
  datatype Tables = Tables(order: seq<ChunkId>, items: map<ChunkId, Hit>,
    rankers: map<ChunkId, set<Ranker>>, scores: map<ChunkId, real>)

  /** The keys are the ids read so far, in the order of their first reading. */
  ghost predicate InOrder(order: seq<ChunkId>, places: seq<Place>) {
    && (forall id :: id in order <==> Mentions(places, id))
    && (forall i, j | 0 <= i < j < |order| :: First(places, order[i]) < First(places, order[j]))
  }

  ghost predicate Entry(t: Tables, places: seq<Place>, k: nat, id: ChunkId) {
    && id in t.items && id in t.rankers && id in t.scores
    && Mentions(places, id) && t.items[id] == places[First(places, id)].hit
    && t.scores[id] == Score(places, k, id) && t.rankers[id] == Marks(places, id)
  }

  lemma FirstStays(places: seq<Place>, p: Place, id: ChunkId)
    ensures Mentions(places + [p], id) <==> Mentions(places, id) || p.hit.id == id
    ensures Mentions(places, id) ==> First(places + [p], id) == First(places, id)
    ensures Mentions(places + [p], id) && !Mentions(places, id) ==> First(places + [p], id) == |places|
  {
    assert (places + [p])[..|places|] == places;
    if Mentions(places, id) {
      var i := First(places, id);
      assert (places + [p])[i].hit.id == id;
    }
    if p.hit.id == id {
      assert (places + [p])[|places|].hit.id == id;
    }
  }

  lemma OrderAfter(order: seq<ChunkId>, places: seq<Place>, p: Place)
    requires InOrder(order, places)
    ensures InOrder(if p.hit.id in order then order else order + [p.hit.id], places + [p])
  {
    var order' := if p.hit.id in order then order else order + [p.hit.id];
    forall id ensures id in order' <==> Mentions(places + [p], id) {
      FirstStays(places, p, id);
    }
    forall i, j | 0 <= i < j < |order'| ensures First(places + [p], order'[i]) < First(places + [p], order'[j]) {
      assert order[i] in order && order'[j] in order';
      FirstStays(places, p, order'[i]);
      FirstStays(places, p, order'[j]);
      if j < |order| {
        assert order'[j] in order;
      }
    }
  }

  /** An entry for the id just read takes the place in; any other entry stays right. */
  lemma EntryAfter(t: Tables, t': Tables, places: seq<Place>, p: Place, k: nat, id: ChunkId)
    requires Entry(t, places, k, id) && id in t'.items && id in t'.rankers && id in t'.scores
    requires t'.items[id] == t.items[id]
    requires t'.rankers[id] == t.rankers[id] + if p.hit.id == id then p.hit.marks else {}
    requires t'.scores[id] == t.scores[id] + if p.hit.id == id then Share(k, p.rank) else 0.0
    ensures Entry(t', places + [p], k, id)
  {
    FirstStays(places, p, id);
    assert (places + [p])[..|places|] == places;
  }

  lemma EntryBegins(t: Tables, places: seq<Place>, p: Place, k: nat, id: ChunkId)
    requires !Mentions(places, id) && p.hit.id == id
    requires id in t.items && id in t.rankers && id in t.scores
    requires t.items[id] == p.hit && t.rankers[id] == p.hit.marks && t.scores[id] == Share(k, p.rank)
    ensures Entry(t, places + [p], k, id)
  {
    FirstStays(places, p, id);
    NotMentioned(places, k, id);
    assert (places + [p])[..|places|] == places;
  }

  ghost predicate AllEntries(t: Tables, order: seq<ChunkId>, places: seq<Place>, k: nat) {
    forall x | x in order :: Entry(t, places, k, x)
  }

  /** The other entries are untouched by one more place. */
  lemma EntriesAfter(t: Tables, t': Tables, order: seq<ChunkId>, places: seq<Place>, p: Place, k: nat)
    requires AllEntries(t, order, places, k)
    requires forall x | x in order :: x in t'.items && x in t'.rankers && x in t'.scores
    requires forall x | x in order :: t'.items[x] == t.items[x]
    requires forall x | x in order :: t'.rankers[x] == t.rankers[x] + if p.hit.id == x then p.hit.marks else {}
    requires forall x | x in order :: t'.scores[x] == t.scores[x] + if p.hit.id == x then Share(k, p.rank) else 0.0
    ensures AllEntries(t', order, places + [p], k)
  {
    forall x | x in order ensures Entry(t', places + [p], k, x) {
      assert Entry(t, places, k, x);
      EntryAfter(t, t', places, p, k, x);
    }
  }

  method Read(t: Tables, ghost places: seq<Place>, k: nat, p: Place) returns (t': Tables)
    requires InOrder(t.order, places) && AllEntries(t, t.order, places, k)
    ensures InOrder(t'.order, places + [p]) && AllEntries(t', t'.order, places + [p], k)
  {
    OrderAfter(t.order, places, p);
    if p.hit.id in t.order {
      t' := ReadAgain(t, places, k, p);
    } else {
      t' := ReadNew(t, places, k, p);
    }
  }

  method ReadAgain(t: Tables, ghost places: seq<Place>, k: nat, p: Place) returns (t': Tables)
    requires p.hit.id in t.order && AllEntries(t, t.order, places, k)
    ensures t'.order == t.order && AllEntries(t', t.order, places + [p], k)
  {
    var id := p.hit.id;
    assert Entry(t, places, k, id);
    t' := t.(rankers := t.rankers[id := t.rankers[id] + p.hit.marks],
             scores := t.scores[id := t.scores[id] + Share(k, p.rank)]);
    assert forall x | x in t.order :: Entry(t, places, k, x);
    EntriesAfter(t, t', t.order, places, p, k);
  }

  method ReadNew(t: Tables, ghost places: seq<Place>, k: nat, p: Place) returns (t': Tables)
    requires p.hit.id !in t.order && !Mentions(places, p.hit.id) && AllEntries(t, t.order, places, k)
    ensures t'.order == t.order + [p.hit.id] && AllEntries(t', t'.order, places + [p], k)
  {
    var id := p.hit.id;
    t' := Tables(t.order + [id], t.items[id := p.hit], t.rankers[id := p.hit.marks], t.scores[id := Share(k, p.rank)]);
    assert forall x | x in t.order :: Entry(t, places, k, x);
    EntriesAfter(t, t', t.order, places, p, k);
    EntryBegins(t', places, p, k, id);
    forall x | x in t'.order ensures Entry(t', places + [p], k, x) {
      assert x in t.order || x == id;
    }
  }

  lemma {:induction false} NotMentioned(places: seq<Place>, k: nat, id: ChunkId)
    requires !Mentions(places, id)
    ensures Score(places, k, id) == 0.0 && Marks(places, id) == {}
  {
    if places != [] {
      var init := places[..|places| - 1];
      forall i | 0 <= i < |init| ensures init[i].hit.id != id {
        assert init[i] == places[i];
      }
      NotMentioned(init, k, id);
    }
  }

  // ---------- the method ----------

  /** `ranked` holds ids that stand in the fused order. */
  ghost predicate Ranked(ranked: seq<ChunkId>, places: seq<Place>, k: nat) {
    && (forall id | id in ranked :: Mentions(places, id))
    && (forall i, j | 0 <= i < j < |ranked| :: Above(places, k, ranked[i], ranked[j]))
  }

  /** Stable descending order: an id read later goes behind all that score at least as much. */
  lemma InsertKeepsRanked(ranked: seq<ChunkId>, at: nat, id: ChunkId, places: seq<Place>, k: nat)
    requires Ranked(ranked, places, k) && Mentions(places, id) && at <= |ranked|
    requires forall i | 0 <= i < at :: Above(places, k, ranked[i], id)
    requires forall i | at <= i < |ranked| :: Above(places, k, id, ranked[i])
    ensures Ranked(ranked[..at] + [id] + ranked[at..], places, k)
  {
    var ranked' := ranked[..at] + [id] + ranked[at..];
    assert forall i | 0 <= i < at :: ranked'[i] == ranked[i];
    assert forall i | at < i < |ranked'| :: ranked'[i] == ranked[i - 1];
  }

  method FindSlot(ranked: seq<ChunkId>, scores: map<ChunkId, real>, id: ChunkId, ghost places: seq<Place>, k: nat)
    returns (at: nat)
    requires Ranked(ranked, places, k) && Mentions(places, id)
    requires id in scores && scores[id] == Score(places, k, id)
    requires forall i | 0 <= i < |ranked| :: ranked[i] in scores && scores[ranked[i]] == Score(places, k, ranked[i])
    requires forall i | 0 <= i < |ranked| :: First(places, ranked[i]) < First(places, id)
    ensures at <= |ranked|
    ensures forall i | 0 <= i < at :: Above(places, k, ranked[i], id)
    ensures forall i | at <= i < |ranked| :: Above(places, k, id, ranked[i])
  {
    at := |ranked|;
    while at > 0 && scores[ranked[at - 1]] < scores[id]
      invariant 0 <= at <= |ranked|
      invariant forall i | at <= i < |ranked| :: Above(places, k, id, ranked[i])
    {
      at := at - 1;
    }
    forall i | 0 <= i < at ensures Above(places, k, ranked[i], id) {
      if i < at - 1 {
        assert Above(places, k, ranked[i], ranked[at - 1]);
      }
    }
  }

  lemma InsertAdds(ranked: seq<ChunkId>, at: nat, id: ChunkId)
    requires at <= |ranked|
    ensures multiset(ranked[..at] + [id] + ranked[at..]) == multiset(ranked) + multiset{id}
  {
    assert ranked == ranked[..at] + ranked[at..];
  }

  method Insert(ranked: seq<ChunkId>, scores: map<ChunkId, real>, id: ChunkId, ghost places: seq<Place>, k: nat)
    returns (ranked': seq<ChunkId>)
    requires Ranked(ranked, places, k) && Mentions(places, id)
    requires id in scores && scores[id] == Score(places, k, id)
    requires forall i | 0 <= i < |ranked| :: ranked[i] in scores && scores[ranked[i]] == Score(places, k, ranked[i])
    requires forall i | 0 <= i < |ranked| :: First(places, ranked[i]) < First(places, id)
    ensures Ranked(ranked', places, k)
    ensures multiset(ranked') == multiset(ranked) + multiset{id}
  {
    var at := FindSlot(ranked, scores, id, places, k);
    InsertKeepsRanked(ranked, at, id, places, k);
    InsertAdds(ranked, at, id);
    ranked' := ranked[..at] + [id] + ranked[at..];
  }

  method ReadAll(lists: seq<seq<Hit>>, k: nat) returns (t: Tables)
    ensures InOrder(t.order, Reading(lists)) && AllEntries(t, t.order, Reading(lists), k)
  {
    t := Tables([], map[], map[], map[]);
    for l := 0 to |lists|
      invariant InOrder(t.order, Reading(lists[..l])) && AllEntries(t, t.order, Reading(lists[..l]), k)
    {
      var list := lists[l];
      ghost var before := Reading(lists[..l]);
      assert before + Places(list[..0]) == before;
      for rank := 0 to |list|
        invariant InOrder(t.order, before + Places(list[..rank]))
        invariant AllEntries(t, t.order, before + Places(list[..rank]), k)
      {
        t := Read(t, before + Places(list[..rank]), k, Place(list[rank], rank));
        assert before + Places(list[..rank]) + [Place(list[rank], rank)] == before + Places(list[..rank + 1]);
      }
      assert list[..|list|] == list && lists[..l + 1][..l] == lists[..l];
    }
    assert lists[..|lists|] == lists;
  }

  method Sort(t: Tables, ghost places: seq<Place>, k: nat) returns (ranked: seq<ChunkId>)
    requires InOrder(t.order, places) && AllEntries(t, t.order, places, k)
    ensures Ranked(ranked, places, k) && multiset(ranked) == multiset(t.order)
  {
    ranked := [];
    for i := 0 to |t.order|
      invariant Ranked(ranked, places, k) && multiset(ranked) == multiset(t.order[..i])
    {
      var id := t.order[i];
      assert Entry(t, places, k, id);
      forall n | 0 <= n < |ranked|
        ensures First(places, ranked[n]) < First(places, id)
        ensures ranked[n] in t.scores && t.scores[ranked[n]] == Score(places, k, ranked[n])
      {
        assert ranked[n] in multiset(t.order[..i]);
        assert ranked[n] in t.order[..i];
        assert Entry(t, places, k, ranked[n]);
      }
      ranked := Insert(ranked, t.scores, id, places, k);
      assert t.order[..i + 1] == t.order[..i] + [id];
    }
    assert t.order[..|t.order|] == t.order;
  }

  function FusedIds(merged: seq<Fused>): seq<ChunkId> {
    seq(|merged|, i requires 0 <= i < |merged| => merged[i].hit.id)
  }

  ghost predicate IsFused(f: Fused, places: seq<Place>, k: nat) {
    && Mentions(places, f.hit.id) && f.hit == places[First(places, f.hit.id)].hit
    && f.score == Score(places, k, f.hit.id)
    && f.rankers == Marks(places, f.hit.id)
  }

  /** Every retrieved chunk exactly once, with its summed score, in the fused order. */
  method RrfFuse(lists: seq<seq<Hit>>, k: nat) returns (merged: seq<Fused>)
    ensures forall i | 0 <= i < |merged| :: IsFused(merged[i], Reading(lists), k)
    ensures Ranked(FusedIds(merged), Reading(lists), k)
    ensures forall id | Mentions(Reading(lists), id) :: exists i | 0 <= i < |merged| :: merged[i].hit.id == id
  {
    var t := ReadAll(lists, k);
    ghost var places := Reading(lists);
    var ranked := Sort(t, places, k);
    forall x ensures x in ranked <==> x in t.order {
      assert x in ranked <==> x in multiset(ranked);
    }
    forall i | 0 <= i < |ranked| ensures Entry(t, places, k, ranked[i]) {
      assert ranked[i] in ranked;
    }
    merged := [];
    for i := 0 to |ranked|
      invariant |merged| == i
      invariant forall j | 0 <= j < i :: merged[j].hit.id == ranked[j] && IsFused(merged[j], places, k)
    {
      var id := ranked[i];
      merged := merged + [Fused(t.items[id], t.scores[id], t.rankers[id])];
    }
    assert FusedIds(merged) == ranked;
    forall id | Mentions(places, id) ensures exists i | 0 <= i < |merged| :: merged[i].hit.id == id {
      var i :| 0 <= i < |ranked| && ranked[i] == id;
      assert merged[i].hit.id == id;
    }
  }

  // ---------- outranking ----------

  /** The list has b at most once, and where it stands, some a stands before it. */
  ghost predicate Outranks(list: seq<Hit>, a: ChunkId, b: ChunkId) {
    && (forall i, j | 0 <= i < j < |list| :: !(list[i].id == b && list[j].id == b))
    && forall j | 0 <= j < |list| && list[j].id == b :: exists i | 0 <= i < j :: list[i].id == a
  }

  lemma {:induction false} ScoreOfConcat(x: seq<Place>, y: seq<Place>, k: nat, id: ChunkId)
    ensures Score(x + y, k, id) == Score(x, k, id) + Score(y, k, id)
  {
    if y == [] {
      assert x + y == x;
    } else {
      assert (x + y)[..|x + y| - 1] == x + y[..|y| - 1];
      ScoreOfConcat(x, y[..|y| - 1], k, id);
    }
  }

  lemma {:induction false} ScoreNotNegative(places: seq<Place>, k: nat, id: ChunkId)
    ensures Score(places, k, id) >= 0.0
  {
    if places != [] {
      ScoreNotNegative(places[..|places| - 1], k, id);
    }
  }

  /** One place counts its share; what stands before and behind it counts on top. */
  lemma ScoreAround(list: seq<Hit>, k: nat, i: nat)
    requires i < |list|
    ensures Score(Places(list), k, list[i].id) ==
      Score(Places(list)[..i], k, list[i].id) + Share(k, i) + Score(Places(list)[i + 1..], k, list[i].id)
  {
    var id := list[i].id;
    var head, here, tail := Places(list)[..i], [Place(list[i], i)], Places(list)[i + 1..];
    assert Places(list) == head + here + tail;
    ScoreOfConcat(head + here, tail, k, id);
    ScoreOfConcat(head, here, k, id);
    assert here[..0] == [];
  }

  /** An id that stands nowhere else is worth the share of its rank. */
  lemma ScoreInList(list: seq<Hit>, k: nat, i: nat)
    requires i < |list| && forall j | 0 <= j < |list| && j != i :: list[j].id != list[i].id
    ensures Score(Places(list), k, list[i].id) == Share(k, i)
  {
    ScoreAround(list, k, i);
    NotMentioned(Places(list)[..i], k, list[i].id);
    NotMentioned(Places(list)[i + 1..], k, list[i].id);
  }

  /** Wherever an id stands, it is worth at least the share of that rank. */
  lemma ScoreAtLeast(list: seq<Hit>, k: nat, i: nat)
    requires i < |list|
    ensures Score(Places(list), k, list[i].id) >= Share(k, i)
  {
    ScoreAround(list, k, i);
    ScoreNotNegative(Places(list)[..i], k, list[i].id);
    ScoreNotNegative(Places(list)[i + 1..], k, list[i].id);
  }

  lemma BetterRankSharesMore(k: nat, i: nat, j: nat)
    requires i < j
    ensures Share(k, i) > Share(k, j)
  {
    var x, y := (k + i + 1) as real, (k + j + 1) as real;
    assert 1.0 / x - 1.0 / y == (y - x) / (x * y);
  }

  /** One list never gives b more than a, and gives it less if it mentions b. */
  lemma ListPrefers(list: seq<Hit>, k: nat, a: ChunkId, b: ChunkId)
    requires Outranks(list, a, b)
    ensures Score(Places(list), k, a) >= Score(Places(list), k, b)
    ensures Mentions(Places(list), b) ==> Score(Places(list), k, a) > Score(Places(list), k, b)
  {
    var places := Places(list);
    if Mentions(places, b) {
      var j :| 0 <= j < |places| && places[j].hit.id == b;
      assert list[j].id == b;
      var i :| 0 <= i < j && list[i].id == a;
      forall n | 0 <= n < |list| && n != j ensures list[n].id != b {
        var lo, hi := if n < j then n else j, if n < j then j else n;
        assert !(list[lo].id == b && list[hi].id == b);
      }
      ScoreAtLeast(list, k, i);
      ScoreInList(list, k, j);
      BetterRankSharesMore(k, i, j);
    } else {
      NotMentioned(places, k, b);
      ScoreNotNegative(places, k, a);
    }
  }

  /** An id that outranks another in every list scores more in total. */
  lemma {:induction false} OutrankingScoresMore(lists: seq<seq<Hit>>, k: nat, a: ChunkId, b: ChunkId)
    requires forall l | 0 <= l < |lists| :: Outranks(lists[l], a, b)
    ensures Score(Reading(lists), k, a) >= Score(Reading(lists), k, b)
    ensures Mentions(Reading(lists), b) ==> Score(Reading(lists), k, a) > Score(Reading(lists), k, b)
  {
    if lists != [] {
      var init, last := lists[..|lists| - 1], lists[|lists| - 1];
      OutrankingScoresMore(init, k, a, b);
      ListPrefers(last, k, a, b);
      ScoreOfConcat(Reading(init), Places(last), k, a);
      ScoreOfConcat(Reading(init), Places(last), k, b);
      if Mentions(Reading(lists), b) {
        MentionsEither(Reading(init), Places(last), b);
      }
    }
  }

  lemma MentionsEither(x: seq<Place>, y: seq<Place>, id: ChunkId)
    requires Mentions(x + y, id)
    ensures Mentions(x, id) || Mentions(y, id)
  {
    var i :| 0 <= i < |x + y| && (x + y)[i].hit.id == id;
    assert if i < |x| then x[i].hit.id == id else y[i - |x|].hit.id == id;
  }

  lemma MoreScoreComesFirst(ranked: seq<ChunkId>, places: seq<Place>, k: nat, i: nat, j: nat)
    requires Ranked(ranked, places, k) && i < |ranked| && j < |ranked|
    requires Score(places, k, ranked[i]) > Score(places, k, ranked[j])
    ensures i < j
  {
  }

  /** Hence in any list that is in the fused order it stands strictly before. */
  lemma OutrankingComesFirst(lists: seq<seq<Hit>>, k: nat, ranked: seq<ChunkId>, i: nat, j: nat)
    requires Ranked(ranked, Reading(lists), k) && i < |ranked| && j < |ranked|
    requires forall l | 0 <= l < |lists| :: Outranks(lists[l], ranked[i], ranked[j])
    ensures i < j
  {
    assert ranked[j] in ranked;
    OutrankingScoresMore(lists, k, ranked[i], ranked[j]);
    MoreScoreComesFirst(ranked, Reading(lists), k, i, j);
  }

  // ---------- an outranked id listed twice ----------

  /** In this list a stands at rank i only, and b at ranks m and n only, both behind it. */
  ghost predicate TwiceBehind(list: seq<Hit>, a: ChunkId, b: ChunkId, i: nat, m: nat, n: nat) {
    && i < m < n < |list|
    && (forall j | 0 <= j < |list| :: list[j].id == a <==> j == i)
    && (forall j | 0 <= j < |list| :: list[j].id == b <==> j == m || j == n)
  }

  lemma ScoreOfTwo(list: seq<Hit>, a: ChunkId, b: ChunkId, k: nat, i: nat, m: nat, n: nat)
    requires TwiceBehind(list, a, b, i, m, n)
    ensures Score(Places(list), k, a) == Share(k, i)
    ensures Score(Places(list), k, b) == Share(k, m) + Share(k, n)
  {
    ScoreInList(list, k, i);
    var upTo, rest := list[..n], Places(list)[n..];
    assert Places(list)[..n] == Places(upTo);
    ScoreAround(list, k, n);
    ScoreInList(upTo, k, m);
    NotMentioned(Places(list)[n + 1..], k, b);
  }

  /** Two shares outweigh one: 1/y + 1/z > 1/x, in integers. */
  predicate Outweigh(k: nat, m: nat, n: nat, i: nat) {
    var x, y, z := k + i + 1, k + m + 1, k + n + 1;
    x * (y + z) > y * z
  }

  /** Without the hypothesis that b stands once this fails, and exactly when its two shares outweigh
  the one of a; on a tie a stays first. */
  lemma RepeatOvertakesIff(list: seq<Hit>, a: ChunkId, b: ChunkId, k: nat, i: nat, m: nat, n: nat)
    requires TwiceBehind(list, a, b, i, m, n)
    ensures Above(Reading([list]), k, b, a) <==> Outweigh(k, m, n, i)
  {
    OvertakesByScore(list, a, b, k, i, m, n);
    ScoresOutweigh(list, a, b, k, i, m, n);
  }

  lemma OvertakesByScore(list: seq<Hit>, a: ChunkId, b: ChunkId, k: nat, i: nat, m: nat, n: nat)
    requires TwiceBehind(list, a, b, i, m, n)
    ensures Above(Reading([list]), k, b, a) <==> Score(Places(list), k, b) > Score(Places(list), k, a)
  {
    assert Reading([list]) == Places(list) by {
      assert [list][..0] == [];
    }
    FirstOfTwo(list, a, b, i, m, n);
    AboveIfMore(Places(list), k, b, a);
  }

  lemma ScoresOutweigh(list: seq<Hit>, a: ChunkId, b: ChunkId, k: nat, i: nat, m: nat, n: nat)
    requires TwiceBehind(list, a, b, i, m, n)
    ensures Score(Places(list), k, b) > Score(Places(list), k, a) <==> Outweigh(k, m, n, i)
  {
    ScoreOfTwo(list, a, b, k, i, m, n);
    SharesOutweigh(k, m, n, i);
  }

  lemma SharesOutweigh(k: nat, m: nat, n: nat, i: nat)
    ensures Share(k, m) + Share(k, n) > Share(k, i) <==> Outweigh(k, m, n, i)
  {
    TwoSharesAgainstOne(k + i + 1, k + m + 1, k + n + 1);
  }

  lemma AboveIfMore(places: seq<Place>, k: nat, b: ChunkId, a: ChunkId)
    requires Mentions(places, a) && Mentions(places, b) && First(places, a) < First(places, b)
    ensures Above(places, k, b, a) <==> Score(places, k, b) > Score(places, k, a)
  {
  }

  lemma FirstOfTwo(list: seq<Hit>, a: ChunkId, b: ChunkId, i: nat, m: nat, n: nat)
    requires TwiceBehind(list, a, b, i, m, n)
    ensures Mentions(Places(list), a) && Mentions(Places(list), b)
    ensures First(Places(list), a) < First(Places(list), b)
  {
    var places := Places(list);
    assert places[i].hit.id == a && places[m].hit.id == b;
    assert list[First(places, a)].id == a && list[First(places, b)].id == b;
  }

  lemma TwoSharesAgainstOne(x: nat, y: nat, z: nat)
    requires 0 < x && 0 < y && 0 < z
    ensures 1.0 / y as real + 1.0 / z as real > 1.0 / x as real <==> x * (y + z) > y * z
  {
    var p, q, r := x as real, y as real, z as real;
    var d := p * (q + r) - q * r;
    assert 1.0 / q + 1.0 / r - 1.0 / p == d / (p * q * r);
    assert p * q * r > 0.0;
    assert (x * (y + z)) as real == p * (q + r) && (y * z) as real == q * r;
    assert d / (p * q * r) > 0.0 <==> d > 0.0;
  }
}
