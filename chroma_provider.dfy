/** The vector store (src/chromaProvider.js): collection naming per client and kind,
    document ids, and a store that maps collection names to their documents. Embedding
    and similarity search belong to the store and are an oracle here. */
module ChromaProvider {
  import opened Common

  datatype Document = Document(id: string, text: string)

  /** What `collection.query` returns: one inner list per query text. */
  datatype QueryResult = QueryResult(documents: Option<seq<seq<string>>>, distances: Option<seq<seq<real>>>)

  const MemoryPrefix: string := "memory_collection_"

  /** The collection name chosen by `getOrCreateCollection(clientUUID, type)`: only the
      kind "memory" gets a per-client name; any other kind keeps the initial "". */
  function CollectionName(clientUUID: string, kind: string): string {
    if kind == "memory" then MemoryPrefix + clientUUID else ""
  }

  /** Different clients never share a memory collection. */
  lemma MemoryCollectionsDistinct(a: string, b: string)
    requires a != b
    ensures CollectionName(a, "memory") != CollectionName(b, "memory")
  {
    var na, nb := CollectionName(a, "memory"), CollectionName(b, "memory");
    assert na[|MemoryPrefix|..] == a && nb[|MemoryPrefix|..] == b;
  }

  /** Every kind other than "memory" maps every client to the one shared collection "". */
  lemma OtherKindsShared(a: string, b: string, kind: string)
    requires kind != "memory"
    ensures CollectionName(a, kind) == CollectionName(b, kind) == ""
  {
  }

  predicate IsHexChar(c: char) {
    ('0' <= c <= '9') || ('a' <= c <= 'f')
  }

  /** The lower-case hexadecimal digit of `n`. */
  function HexDigit(n: nat): (c: char)
    requires n < 16
    ensures IsHexChar(c)
  {
    if n < 10 then ('0' as int + n) as char else ('a' as int + n - 10) as char
  }

  /** The value of a hexadecimal digit. */
  function HexValue(c: char): nat
    requires IsHexChar(c)
  {
    if c <= '9' then c as int - '0' as int else c as int - 'a' as int + 10
  }

  /** `buffer.toString('hex')`: two lower-case digits per byte, high nibble first. */
  function Hex(bytes: seq<bv8>): (s: string)
    ensures |s| == 2 * |bytes|
    ensures forall k :: 0 <= k < |s| ==> IsHexChar(s[k])
    decreases |bytes|
  {
    if bytes == [] then ""
    else [HexDigit(bytes[0] as int / 16), HexDigit(bytes[0] as int % 16)] + Hex(bytes[1..])
  }

  /** Reads back the bytes of a hexadecimal string. */
  function Unhex(s: string): seq<bv8>
    requires |s| % 2 == 0 && forall k :: 0 <= k < |s| ==> IsHexChar(s[k])
    decreases |s|
  {
    if s == [] then []
    else [(HexValue(s[0]) * 16 + HexValue(s[1])) as bv8] + Unhex(s[2..])
  }

  lemma ByteDigits(b: bv8)
    ensures HexValue(HexDigit(b as int / 16)) * 16 + HexValue(HexDigit(b as int % 16)) == b as int
  {
    var n := b as int;
    assert HexValue(HexDigit(n / 16)) == n / 16;
    assert HexValue(HexDigit(n % 16)) == n % 16;
  }

  /** Hex encoding loses nothing: decoding it gives the bytes back. */
  lemma {:induction false} HexRoundTrip(bytes: seq<bv8>)
    ensures Unhex(Hex(bytes)) == bytes
    decreases |bytes|
  {
    if bytes != [] {
      var s := Hex(bytes);
      ByteDigits(bytes[0]);
      assert (HexValue(s[0]) * 16 + HexValue(s[1])) as bv8 == bytes[0];
      assert s[2..] == Hex(bytes[1..]);
      HexRoundTrip(bytes[1..]);
    }
  }

  /** `${clientUUID}-${crypto.randomBytes(4).toString('hex')}` */
  function DocumentId(clientUUID: string, random: seq<bv8>): string {
    clientUUID + "-" + Hex(random)
  }

  /** A document id is the client UUID, a dash and eight hexadecimal characters. */
  lemma DocumentIdShape(clientUUID: string, random: seq<bv8>)
    requires |random| == 4
    ensures var id := DocumentId(clientUUID, random);
      && |id| == |clientUUID| + 9
      && id[..|clientUUID|] == clientUUID
      && id[|clientUUID|] == '-'
      && forall k :: |clientUUID| < k < |id| ==> IsHexChar(id[k])
  {
    var id := DocumentId(clientUUID, random);
    forall k | |clientUUID| < k < |id| ensures IsHexChar(id[k]) {
      assert id[k] == Hex(random)[k - |clientUUID| - 1];
    }
  }

  /** Different random bytes give different ids for the same client. */
  lemma DocumentIdInjective(clientUUID: string, r1: seq<bv8>, r2: seq<bv8>)
    requires r1 != r2
    ensures DocumentId(clientUUID, r1) != DocumentId(clientUUID, r2)
  {
    if DocumentId(clientUUID, r1) == DocumentId(clientUUID, r2) {
      var n := |clientUUID| + 1;
      assert DocumentId(clientUUID, r1)[n..] == Hex(r1);
      assert DocumentId(clientUUID, r2)[n..] == Hex(r2);
      HexRoundTrip(r1);
      HexRoundTrip(r2);
    }
  }

  /** The documents of a collection; a collection that does not exist has none. */
  function Documents(db: map<string, seq<Document>>, name: string): seq<Document> {
    if name in db then db[name] else []
  }

  /** The store after `getOrCreateCollection`: the collection exists, nothing else changes. */
  function WithCollection(db: map<string, seq<Document>>, name: string): map<string, seq<Document>> {
    if name in db then db else db[name := []]
  }

  /** The store after adding one document to a collection, creating it if needed. */
  function AddDocument(db: map<string, seq<Document>>, name: string, d: Document): map<string, seq<Document>> {
    db[name := Documents(db, name) + [d]]
  }

  /** Adding a document to one client's memories changes no other client's memories. */
  lemma MemoryIsolation(db: map<string, seq<Document>>, a: string, b: string, d: Document)
    requires a != b
    ensures var after := AddDocument(db, CollectionName(a, "memory"), d);
      && Documents(after, CollectionName(b, "memory")) == Documents(db, CollectionName(b, "memory"))
      && (CollectionName(b, "memory") in after <==> CollectionName(b, "memory") in db)
  {
    MemoryCollectionsDistinct(a, b);
  }

  /** The Chroma server: every collection by name, with its documents in insertion order. */
  class VectorStore {
    var collections: map<string, seq<Document>>

    constructor ()
      ensures collections == map[]
    {
      collections := map[];
    }

    /** `getOrCreateCollection(clientUUID, type)` */
    method GetOrCreateCollection(clientUUID: string, kind: string) returns (name: string)
      modifies this
      ensures name == CollectionName(clientUUID, kind)
      ensures collections == WithCollection(old(collections), name)
    {
      name := "";
      if kind == "memory" {
        name := MemoryPrefix + clientUUID;
      }
      if name !in collections {
        collections := collections[name := []];
      }
    }

    /** `addToChroma(clientUUID, type, memory)`: add one document, with an id made from the
        client UUID and four random bytes, to the (client, kind) collection. */
    method AddToChroma(clientUUID: string, kind: string, memory: string, random: seq<bv8>)
      requires |random| == 4
      modifies this
      ensures collections == AddDocument(old(collections), CollectionName(clientUUID, kind),
                                         Document(DocumentId(clientUUID, random), memory))
    {
      var name := GetOrCreateCollection(clientUUID, kind);
      var documentId := clientUUID + "-" + Hex(random);
      collections := collections[name := collections[name] + [Document(documentId, memory)]];
    }

    /** `queryChroma(clientUUID, type, cortexPhrase, nResults)`: create the collection if
        needed and ask the store's similarity search about that collection alone. */
    method QueryChroma(clientUUID: string, kind: string, cortexPhrase: string, nResults: nat,
                       search: (seq<Document>, string, nat) -> Option<QueryResult>)
      returns (results: Option<QueryResult>)
      modifies this
      ensures collections == WithCollection(old(collections), CollectionName(clientUUID, kind))
      ensures results == search(Documents(old(collections), CollectionName(clientUUID, kind)), cortexPhrase, nResults)
    {
      var name := GetOrCreateCollection(clientUUID, kind);
      results := search(collections[name], cortexPhrase, nResults);
    }
  }
}
