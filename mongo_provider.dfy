/** The conversation table (src/mongoProvider.js): `cortexConversations` as an in-memory,
    append-only list of records. Whether the database accepts an insert or answers a find
    is a parameter; `new Date()` is the parameter `createdAt`. */
module MongoProvider {
  import opened Chat

  datatype ConversationRecord = ConversationRecord(clientUUID: string, messages: seq<Message>, createdAt: int)

  /** `collection.find({ clientUUID })`: the records of one client, in insertion order. */
  function ForClient(records: seq<ConversationRecord>, clientUUID: string): (r: seq<ConversationRecord>)
    ensures |r| <= |records|
    ensures forall x :: x in r ==> x in records && x.clientUUID == clientUUID
    ensures forall x :: x in records && x.clientUUID == clientUUID ==> x in r
    decreases |records|
  {
    if records == [] then []
    else
      var rest := ForClient(records[1..], clientUUID);
      assert forall x :: x in records ==> x == records[0] || x in records[1..];
      if records[0].clientUUID == clientUUID then [records[0]] + rest else rest
  }

  /** Records of one client never show up for another. */
  lemma ForClientIsolation(records: seq<ConversationRecord>, a: string, b: string)
    requires a != b
    ensures forall x :: x in ForClient(records, a) ==> x !in ForClient(records, b)
  {
  }

  /** Appending a record extends the result of exactly its own client. */
  lemma {:induction false} ForClientAppend(records: seq<ConversationRecord>, rec: ConversationRecord, clientUUID: string)
    ensures ForClient(records + [rec], clientUUID)
         == ForClient(records, clientUUID) + (if rec.clientUUID == clientUUID then [rec] else [])
    decreases |records|
  {
    if records != [] {
      assert (records + [rec])[1..] == records[1..] + [rec];
      ForClientAppend(records[1..], rec, clientUUID);
    }
  }

  /** The `cortexConversations` collection. */
  class ConversationStore {
    var records: seq<ConversationRecord>

    constructor ()
      ensures records == []
    {
      records := [];
    }

    /** `submitCortexConversation(clientUUID, messages)`: insert one record holding the
        messages as given; a failed insert is swallowed and leaves the table as it was. */
    method SubmitCortexConversation(clientUUID: string, messages: seq<Message>, createdAt: int, insertSucceeds: bool)
      modifies this
      ensures records == if insertSucceeds then old(records) + [ConversationRecord(clientUUID, messages, createdAt)]
                         else old(records)
    {
      var conversationDocument := ConversationRecord(clientUUID, messages, createdAt);
      if insertSucceeds {
        records := records + [conversationDocument];
      }
    }

    /** `retrieveCortexConversations(clientUUID)`: the client's records, or an empty list when
        the find fails; the table is not modified. */
    method RetrieveCortexConversations(clientUUID: string, findSucceeds: bool) returns (conversations: seq<ConversationRecord>)
      ensures findSucceeds ==> conversations == ForClient(records, clientUUID)
      ensures !findSucceeds ==> conversations == []
      ensures forall x :: x in conversations ==> x in records && x.clientUUID == clientUUID
    {
      if findSucceeds {
        conversations := ForClient(records, clientUUID);
      } else {
        conversations := [];
      }
    }
  }

  /** A stored conversation comes back for its client with its messages exactly as submitted,
      system messages included, after the records that client already had, which are
      unchanged. */
  lemma SubmitThenRetrieve(records: seq<ConversationRecord>, clientUUID: string, messages: seq<Message>, createdAt: int)
    ensures var after := ForClient(records + [ConversationRecord(clientUUID, messages, createdAt)], clientUUID);
      && |after| == |ForClient(records, clientUUID)| + 1
      && after[|after| - 1].messages == messages
      && after[..|after| - 1] == ForClient(records, clientUUID)
  {
    ForClientAppend(records, ConversationRecord(clientUUID, messages, createdAt), clientUUID);
  }
}
