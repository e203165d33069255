/** Memory writes and recall ranking (src/cortex.js). The rephrasing request to the
    completion service and the similarity search of the vector store are oracles. */
module Cortex {
  import opened Common
  import opened ChromaProvider

  /** The `{ user, assistant }` pair that the top-level loop hands over as a memory. */
  datatype Exchange = Exchange(user: string, assistant: string)

  /** One recalled document with its distance to the query. */
  datatype Memory = Memory(doc: string, distance: real)

  /** The store after `addMemoryToCortex`: the rephrased recollection, when the rephrasing
      request succeeded, is one more document of the client's memory collection. */
  function MemoryWrite(db: map<string, seq<Document>>, clientUUID: string, rephrased: Option<string>,
                       random: seq<bv8>): map<string, seq<Document>>
  {
    match rephrased
    case None => db
    case Some(text) => AddDocument(db, CollectionName(clientUUID, "memory"), Document(DocumentId(clientUUID, random), text))
  }

  /** A memory write adds at most one document, and only to that client's memory
      collection; a failed rephrasing leaves the store as it was. */
  lemma MemoryWriteOnlyTouchesClient(db: map<string, seq<Document>>, clientUUID: string, rephrased: Option<string>,
                                     random: seq<bv8>, name: string)
    requires name != CollectionName(clientUUID, "memory")
    ensures var after := MemoryWrite(db, clientUUID, rephrased, random);
      && Documents(after, name) == Documents(db, name)
      && (name in after <==> name in db)
      && (rephrased.None? ==> after == db)
      && (rephrased.Some? ==>
            Documents(after, CollectionName(clientUUID, "memory"))
            == Documents(db, CollectionName(clientUUID, "memory")) + [Document(DocumentId(clientUUID, random), rephrased.value)])
  {
  }

  /** `distances` covers what `rememberMemories` reads: the vector store answers one list
      of distances per list of documents, of the same length. */
  predicate Aligned(q: QueryResult) {
    q.documents.Some? && |q.documents.value| > 0 ==>
      && q.distances.Some? && |q.distances.value| > 0
      && |q.distances.value[0]| >= |q.documents.value[0]|
  }

  /** `documents.map((doc, index) => ({ doc, distance: distances[index] }))` */
  function Pair(docs: seq<string>, dists: seq<real>): (r: seq<Memory>)
    requires |dists| >= |docs|
    ensures |r| == |docs|
  {
    seq(|docs|, i requires 0 <= i < |docs| => Memory(docs[i], dists[i]))
  }

  predicate NonIncreasing(ms: seq<Memory>) {
    forall i, j :: 0 <= i < j < |ms| ==> ms[i].distance >= ms[j].distance
  }

  /** Places `m` after every memory of larger distance and before the rest; on a tie `m`,
      which came first in the input, stays first. */
  function InsertByDistance(m: Memory, sorted: seq<Memory>): (r: seq<Memory>)
    ensures multiset(r) == multiset(sorted) + multiset{m}
    ensures |r| == |sorted| + 1 && (r[0] == m || (|sorted| > 0 && r[0] == sorted[0]))
    decreases |sorted|
  {
    if sorted == [] || m.distance >= sorted[0].distance then [m] + sorted
    else
      assert sorted == [sorted[0]] + sorted[1..];
      [sorted[0]] + InsertByDistance(m, sorted[1..])
  }

  /** `memoriesByDistance.sort((a, b) => b.distance - a.distance)`: a stable sort, largest
      distance first. */
  function SortByDistance(ms: seq<Memory>): (r: seq<Memory>)
    ensures multiset(r) == multiset(ms)
    ensures |r| == |ms|
    decreases |ms|
  {
    if ms == [] then []
    else
      assert ms == [ms[0]] + ms[1..];
      InsertByDistance(ms[0], SortByDistance(ms[1..]))
  }

  lemma PrependSorted(x: Memory, s: seq<Memory>)
    requires NonIncreasing(s) && (|s| > 0 ==> x.distance >= s[0].distance)
    ensures NonIncreasing([x] + s)
  {
    var r := [x] + s;
    forall i, j | 0 <= i < j < |r| ensures r[i].distance >= r[j].distance {
      if i == 0 && j > 1 {
        assert s[0].distance >= s[j - 1].distance;
      }
    }
  }

  /** Inserting into a sorted list keeps it sorted. */
  lemma {:induction false} InsertByDistanceSorted(m: Memory, sorted: seq<Memory>)
    requires NonIncreasing(sorted)
    ensures NonIncreasing(InsertByDistance(m, sorted))
    decreases |sorted|
  {
    if sorted == [] || m.distance >= sorted[0].distance {
      PrependSorted(m, sorted);
    } else {
      var rest := InsertByDistance(m, sorted[1..]);
      InsertByDistanceSorted(m, sorted[1..]);
      if rest[0] != m {
        assert rest[0] == sorted[1];
      }
      PrependSorted(sorted[0], rest);
    }
  }

  /** The sort orders by non-increasing distance. */
  lemma {:induction false} SortByDistanceSorted(ms: seq<Memory>)
    ensures NonIncreasing(SortByDistance(ms))
    decreases |ms|
  {
    if ms != [] {
      SortByDistanceSorted(ms[1..]);
      InsertByDistanceSorted(ms[0], SortByDistance(ms[1..]));
    }
  }

  /** The memories of distance `d`, in their order in `ms`. */
  function AtDistance(ms: seq<Memory>, d: real): (r: seq<Memory>)
    ensures |r| <= |ms|
    decreases |ms|
  {
    if ms == [] then []
    else (if ms[0].distance == d then [ms[0]] else []) + AtDistance(ms[1..], d)
  }

  lemma AtDistanceCons(x: Memory, s: seq<Memory>, d: real)
    ensures AtDistance([x] + s, d) == (if x.distance == d then [x] else []) + AtDistance(s, d)
  {
    assert ([x] + s)[1..] == s;
  }

  /** An inserted memory goes before every memory of its own distance and leaves the order
      of each distance's memories as it was. */
  lemma {:induction false} InsertByDistanceStable(m: Memory, sorted: seq<Memory>, d: real)
    ensures AtDistance(InsertByDistance(m, sorted), d)
         == (if m.distance == d then [m] else []) + AtDistance(sorted, d)
    decreases |sorted|
  {
    if sorted == [] || m.distance >= sorted[0].distance {
      AtDistanceCons(m, sorted, d);
    } else {
      var rest := InsertByDistance(m, sorted[1..]);
      InsertByDistanceStable(m, sorted[1..], d);
      AtDistanceCons(sorted[0], rest, d);
      AtDistanceCons(sorted[0], sorted[1..], d);
      assert sorted == [sorted[0]] + sorted[1..];
    }
  }

  /** The sort is stable: the memories of any one distance keep their relative order, as
      they do under `Array.prototype.sort`. */
  lemma {:induction false} SortByDistanceStable(ms: seq<Memory>, d: real)
    ensures AtDistance(SortByDistance(ms), d) == AtDistance(ms, d)
    decreases |ms|
  {
    if ms != [] {
      SortByDistanceStable(ms[1..], d);
      InsertByDistanceStable(ms[0], SortByDistance(ms[1..]), d);
    }
  }

  /** What `rememberMemories` makes of a query result: nothing (`undefined`) when the result
      or its outer document list is missing or empty; otherwise the first query's documents
      paired with their distances, sorted by distance. */
  function RankMemories(memories: Option<QueryResult>): (r: Option<seq<Memory>>)
    requires memories.Some? ==> Aligned(memories.value)
    ensures r.None? <==> memories.None? || memories.value.documents.None? || |memories.value.documents.value| == 0
  {
    if memories.None? || memories.value.documents.None? || |memories.value.documents.value| == 0 then None
    else
      var documents := memories.value.documents.value[0];
      var distances := memories.value.distances.value[0];
      Some(SortByDistance(Pair(documents, distances)))
  }

  /** The ranked memories are exactly the pairs (i-th document, i-th distance) of the first
      query, as many as there are documents, ordered by non-increasing distance. */
  lemma RankedMemoriesArePairsByDistance(q: QueryResult)
    requires Aligned(q) && q.documents.Some? && |q.documents.value| > 0
    ensures var docs := q.documents.value[0];
      var r := RankMemories(Some(q)).value;
      && |r| == |docs|
      && multiset(r) == multiset(Pair(docs, q.distances.value[0]))
      && (forall i :: 0 <= i < |docs| ==> Memory(docs[i], q.distances.value[0][i]) in r)
      && NonIncreasing(r)
  {
    var docs := q.documents.value[0];
    var p := Pair(docs, q.distances.value[0]);
    var r := RankMemories(Some(q)).value;
    SortByDistanceSorted(p);
    forall i | 0 <= i < |docs| ensures Memory(docs[i], q.distances.value[0][i]) in r {
      assert p[i] in multiset(p);
    }
  }

  /** Only the outer list is checked: a first query without documents gives an empty list,
      not nothing. */
  lemma EmptyInnerListRanksEmpty(q: QueryResult)
    requires Aligned(q) && q.documents == Some([[]])
    ensures RankMemories(Some(q)) == Some([])
  {
  }

  /** `addMemoryToCortex(clientUUID, memory)`: ask the completion service to rephrase the
      exchange as a recollection and store the answer under kind "memory"; a failure is
      swallowed. `rephrase` is the completion service's answer (`None` when it fails). */
  method AddMemoryToCortex(store: VectorStore, clientUUID: string, memory: Exchange,
                           rephrase: Exchange -> Option<string>, random: seq<bv8>)
    requires |random| == 4
    modifies store
    ensures store.collections == MemoryWrite(old(store.collections), clientUUID, rephrase(memory), random)
  {
    var messageContent := rephrase(memory);
    if messageContent.Some? {
      store.AddToChroma(clientUUID, "memory", messageContent.value, random);
    }
  }

  /** `rememberMemories(clientUUID, query, nResults)`: query the client's memory collection
      and rank what comes back. */
  method RememberMemories(store: VectorStore, clientUUID: string, query: string, nResults: nat,
                          search: (seq<Document>, string, nat) -> Option<QueryResult>)
    returns (r: Option<seq<Memory>>)
    requires forall d, s, n :: search(d, s, n).Some? ==> Aligned(search(d, s, n).value)
    modifies store
    ensures store.collections == WithCollection(old(store.collections), CollectionName(clientUUID, "memory"))
    ensures r == RankMemories(search(Documents(old(store.collections), CollectionName(clientUUID, "memory")), query, nResults))
  {
    var memories := store.QueryChroma(clientUUID, "memory", query, nResults, search);
    r := RankMemories(memories);
  }
}
