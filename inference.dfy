/** The memory-augmented chat loop (src/inference.js): `askModel` sends the history to the
    completion service at most five times; `memoryAbstraction` classifies each answer and
    updates the history, the vector store and the remembered final answer.

    External services are oracles bundled in `Services`: the completion service sees the
    loop counter and the history it is sent; `recall` stands for `queryCortex`, which may
    throw; `rephrase` is the completion that `addMemoryToCortex` asks for; `entropy` gives
    the four random bytes of each stored memory's id. */
module Inference {
  import opened Common
  import opened Chat
  import opened ChromaProvider
  import opened Cortex

  /** The parsed arguments of a tool call; only `memoryRequest` is read. */
  datatype AskArgs = AskArgs(memoryRequest: Js<string>)

  /** What `queryCortex(clientUUID, userQuery, modelQuery)` does. */
  datatype RecallOutcome = Recalled(recollection: Js<string>) | RecallThrows

  datatype Services = Services(
    complete: (nat, seq<Message>) -> Option<Response<AskArgs>>,
    recall: (nat, Js<string>) -> RecallOutcome,
    rephrase: Exchange -> Option<string>,
    entropy: nat -> seq<bv8>)

  /** `crypto.randomBytes(4)` gives four bytes. */
  ghost predicate ValidServices(svc: Services) {
    forall k :: |svc.entropy(k)| == 4
  }

  /** The sentence that identifies the recall note. */
  const RecallMarker: string := Seeing + "successfully retrieved a memory."

  function ContextNote(recollection: string): string {
    "###CONTEXT: " + recollection
  }

  /** The recall note after the `loopCounter`-th iteration. */
  function RecallNote(loopCounter: nat): string {
    "###INSTRUCTION: " + RecallMarker
    + (" Do not call the 'try_to_remember' " + "function again unless instructed."
       + " You've called on 'try_to_remember' " + Decimal(loopCounter) + " times already."
       + " You are limited to calling it 3 times." + " Return an assistant response immediately.")
  }

  /** The history after a recall: a truthy recollection goes to the front as a context note. */
  function WithContext(recollection: Js<string>, msgs: seq<Message>): seq<Message> {
    if Truthy(recollection) then [Message(System, ContextNote(recollection.v))] + msgs else msgs
  }

  /** The effect of one call of `memoryAbstraction`: its reply (`None` when it throws), the
      history and the vector store afterwards. */
  datatype Step = Step(reply: Option<Reply>, messages: seq<Message>, vectors: map<string, seq<Document>>)

  function MemoryStep(svc: Services, response: Response<AskArgs>, msgs: seq<Message>, db: map<string, seq<Document>>,
                      clientUUID: string, userQuery: string, finalResponse: string, loopCounter: nat): Step
  {
    match response
    case Stop(content) =>
      var answered := msgs + [Message(Assistant, content)];
      var stored := MemoryWrite(db, clientUUID, svc.rephrase(Exchange(userQuery, content)), svc.entropy(loopCounter));
      Step(Some(Reply("", content)), AppendIfAbsent(answered, EndThreadText), stored)
    case ToolCalls(calls) =>
      if |calls| == 0 then Step(None, msgs, db)
      else if calls[0].name == "try_to_remember" then
        if calls[0].arguments.None? then Step(None, msgs, db)
        else
          match svc.recall(loopCounter, calls[0].arguments.value.memoryRequest)
          case RecallThrows => Step(None, msgs, db)
          case Recalled(recollection) =>
            Step(Some(Reply("", finalResponse)), Upsert(WithContext(recollection, msgs), RecallMarker, Message(System, RecallNote(loopCounter))), db)
      else if calls[0].name == "suspend_thread" then
        if calls[0].arguments.None? then Step(None, msgs, db)
        else Step(Some(Reply(if finalResponse != "" then finalResponse else SuspendedWithoutStop, finalResponse)), msgs, db)
      else Step(Some(Reply("", finalResponse)), msgs, db)
    case OtherFinish => Step(Some(Reply("", finalResponse)), msgs, db)
  }

  /** The outcome of a run: the string `askModel` returns, the history and store at the
      end, and the history sent with each completion request, in order. */
  datatype Run = Run(answer: string, messages: seq<Message>, vectors: map<string, seq<Document>>, requests: seq<seq<Message>>)

  /** The rest of the `while (loopCounter < 6)` loop from a given iteration on; `sent` holds
      the requests made so far. */
  function AskRun(svc: Services, clientUUID: string, userQuery: string, loopCounter: nat, msgs: seq<Message>,
                  db: map<string, seq<Document>>, finalResponse: string, sent: seq<seq<Message>>): Run
    decreases 6 - loopCounter
  {
    if loopCounter >= 6 then Run(if finalResponse != "" then finalResponse else MaxAttempts, msgs, db, sent)
    else
      var requests := sent + [msgs];
      match svc.complete(loopCounter, msgs)
      case None => Run(ErrorText, msgs, db, requests)
      case Some(response) =>
        var s := MemoryStep(svc, response, msgs, db, clientUUID, userQuery, finalResponse, loopCounter);
        if s.reply.None? then Run(ErrorText, s.messages, s.vectors, requests)
        else if s.reply.value.result != "" then Run(s.reply.value.result, s.messages, s.vectors, requests)
        else AskRun(svc, clientUUID, userQuery, loopCounter + 1, s.messages, s.vectors, s.reply.value.finalized, requests)
  }

  /** One iteration of the loop, for a request that got an answer. */
  lemma AskRunStep(svc: Services, clientUUID: string, userQuery: string, loopCounter: nat, msgs: seq<Message>,
                   db: map<string, seq<Document>>, finalResponse: string, sent: seq<seq<Message>>, response: Response<AskArgs>)
    requires loopCounter < 6 && svc.complete(loopCounter, msgs) == Some(response)
    ensures var s := MemoryStep(svc, response, msgs, db, clientUUID, userQuery, finalResponse, loopCounter);
      AskRun(svc, clientUUID, userQuery, loopCounter, msgs, db, finalResponse, sent)
      == if s.reply.None? then Run(ErrorText, s.messages, s.vectors, sent + [msgs])
         else if s.reply.value.result != "" then Run(s.reply.value.result, s.messages, s.vectors, sent + [msgs])
         else AskRun(svc, clientUUID, userQuery, loopCounter + 1, s.messages, s.vectors, s.reply.value.finalized, sent + [msgs])
  {
  }

  /** A whole `askModel(clientUUID, userQuery)` run against a store holding `db`. */
  function AskModelRun(svc: Services, clientUUID: string, userQuery: string, db: map<string, seq<Document>>): Run {
    AskRun(svc, clientUUID, userQuery, 1, [Message(User, userQuery)], db, "", [])
  }

  /** `memoryAbstraction(response, messages, clientUUID, userQuery, finalResponse, loopCounter)` */
  method MemoryAbstraction(svc: Services, response: Response<AskArgs>, history: MessageHistory, store: VectorStore,
                           clientUUID: string, userQuery: string, finalResponse: string, loopCounter: nat)
    returns (reply: Option<Reply>)
    requires ValidServices(svc)
    modifies history, store
    ensures var s := MemoryStep(svc, response, old(history.messages), old(store.collections),
                                clientUUID, userQuery, finalResponse, loopCounter);
      reply == s.reply && history.messages == s.messages && store.collections == s.vectors
  {
    var messageContent := "";
    match response
    case Stop(content) =>
      messageContent := content;
      var memory := Exchange(userQuery, messageContent);
      history.Push(Message(Assistant, messageContent));
      AddMemoryToCortex(store, clientUUID, memory, svc.rephrase, svc.entropy(loopCounter));
      history.PushIfAbsent(EndThreadText);
      reply := Some(Reply("", messageContent));
    case ToolCalls(calls) =>
      if |calls| == 0 {
        reply := None;
        return;
      }
      var toolCall := calls[0];
      if toolCall.name == "try_to_remember" {
        if toolCall.arguments.None? {
          reply := None;
          return;
        }
        var modelQuery := toolCall.arguments.value.memoryRequest;
        var outcome := svc.recall(loopCounter, modelQuery);
        if outcome.RecallThrows? {
          reply := None;
          return;
        }
        var recollection := outcome.recollection;
        if Truthy(recollection) {
          history.Unshift(Message(System, ContextNote(recollection.v)));
        }
        history.UpsertTagged(RecallMarker, Message(System, RecallNote(loopCounter)));
        reply := Some(Reply("", finalResponse));
      } else if toolCall.name == "suspend_thread" {
        if toolCall.arguments.None? {
          reply := None;
          return;
        }
        reply := Some(Reply(if finalResponse != "" then finalResponse else SuspendedWithoutStop, finalResponse));
      } else {
        reply := Some(Reply(messageContent, finalResponse));
      }
    case OtherFinish =>
      reply := Some(Reply(messageContent, finalResponse));
  }

  /** `askModel(clientUUID, userQuery)`: the history starts as the user's query; each of at
      most five iterations sends it to the completion service and lets `memoryAbstraction`
      act on the answer; a truthy result ends the run, an exception gives the error text. */
  method AskModel(svc: Services, store: VectorStore, clientUUID: string, userQuery: string) returns (answer: string)
    requires ValidServices(svc)
    modifies store
    ensures answer == AskModelRun(svc, clientUUID, userQuery, old(store.collections)).answer
    ensures store.collections == AskModelRun(svc, clientUUID, userQuery, old(store.collections)).vectors
  {
    var history := new MessageHistory();
    var loopCounter := 1;
    var finalResponse := "";
    ghost var sent: seq<seq<Message>> := [];
    history.Push(Message(User, userQuery));
    assert history.messages == [Message(User, userQuery)];
    assert AskModelRun(svc, clientUUID, userQuery, old(store.collections))
        == AskRun(svc, clientUUID, userQuery, loopCounter, history.messages, store.collections, finalResponse, sent);
    while loopCounter < 6
      invariant 1 <= loopCounter <= 6
      invariant fresh(history)
      invariant AskModelRun(svc, clientUUID, userQuery, old(store.collections))
             == AskRun(svc, clientUUID, userQuery, loopCounter, history.messages, store.collections, finalResponse, sent)
      decreases 6 - loopCounter
    {
      var response := svc.complete(loopCounter, history.messages);
      if response.None? {
        answer := ErrorText;
        return;
      }
      ghost var s := MemoryStep(svc, response.value, history.messages, store.collections, clientUUID, userQuery,
                                finalResponse, loopCounter);
      AskRunStep(svc, clientUUID, userQuery, loopCounter, history.messages, store.collections, finalResponse, sent, response.value);
      sent := sent + [history.messages];
      var reply := MemoryAbstraction(svc, response.value, history, store, clientUUID, userQuery, finalResponse, loopCounter);
      assert reply == s.reply && history.messages == s.messages && store.collections == s.vectors;
      if reply.None? {
        answer := ErrorText;
        return;
      }
      finalResponse := reply.value.finalized;
      loopCounter := loopCounter + 1;
      if reply.value.result != "" {
        answer := reply.value.result;
        return;
      }
      assert AskModelRun(svc, clientUUID, userQuery, old(store.collections))
        == AskRun(svc, clientUUID, userQuery, loopCounter, history.messages, store.collections, finalResponse, sent);
    }
    answer := if finalResponse != "" then finalResponse else MaxAttempts;
  }

  // ---------------------------------------------------------------------------------------
  // Properties of a run

  /** From iteration `loopCounter` on, a run makes at most `6 - loopCounter` more requests. */
  lemma {:induction false} AskRunRequestCount(svc: Services, clientUUID: string, userQuery: string, loopCounter: nat,
                                              msgs: seq<Message>, db: map<string, seq<Document>>, finalResponse: string,
                                              sent: seq<seq<Message>>)
    requires loopCounter <= 6
    ensures |AskRun(svc, clientUUID, userQuery, loopCounter, msgs, db, finalResponse, sent).requests| <= |sent| + 6 - loopCounter
    decreases 6 - loopCounter
  {
    if loopCounter < 6 {
      match svc.complete(loopCounter, msgs)
      case None =>
      case Some(response) =>
        AskRunStep(svc, clientUUID, userQuery, loopCounter, msgs, db, finalResponse, sent, response);
        var s := MemoryStep(svc, response, msgs, db, clientUUID, userQuery, finalResponse, loopCounter);
        if s.reply.Some? && s.reply.value.result == "" {
          AskRunRequestCount(svc, clientUUID, userQuery, loopCounter + 1, s.messages, s.vectors, s.reply.value.finalized, sent + [msgs]);
        }
    }
  }

  /** The requests already made stay first, and the next one sends the current history. */
  lemma {:induction false} AskRunRequestOrder(svc: Services, clientUUID: string, userQuery: string, loopCounter: nat,
                                              msgs: seq<Message>, db: map<string, seq<Document>>, finalResponse: string,
                                              sent: seq<seq<Message>>)
    requires loopCounter < 6
    ensures sent + [msgs] <= AskRun(svc, clientUUID, userQuery, loopCounter, msgs, db, finalResponse, sent).requests
    decreases 6 - loopCounter
  {
    match svc.complete(loopCounter, msgs)
    case None =>
    case Some(response) =>
      AskRunStep(svc, clientUUID, userQuery, loopCounter, msgs, db, finalResponse, sent, response);
      var s := MemoryStep(svc, response, msgs, db, clientUUID, userQuery, finalResponse, loopCounter);
      if s.reply.Some? && s.reply.value.result == "" && loopCounter + 1 < 6 {
        AskRunRequestOrder(svc, clientUUID, userQuery, loopCounter + 1, s.messages, s.vectors, s.reply.value.finalized, sent + [msgs]);
      }
  }

  /** Every run answers with a non-empty string. */
  lemma {:induction false} AskRunAnswers(svc: Services, clientUUID: string, userQuery: string, loopCounter: nat,
                                         msgs: seq<Message>, db: map<string, seq<Document>>, finalResponse: string,
                                         sent: seq<seq<Message>>)
    ensures AskRun(svc, clientUUID, userQuery, loopCounter, msgs, db, finalResponse, sent).answer != ""
    decreases 6 - loopCounter
  {
    if loopCounter < 6 {
      match svc.complete(loopCounter, msgs)
      case None =>
      case Some(response) =>
        AskRunStep(svc, clientUUID, userQuery, loopCounter, msgs, db, finalResponse, sent, response);
        var s := MemoryStep(svc, response, msgs, db, clientUUID, userQuery, finalResponse, loopCounter);
        if s.reply.Some? && s.reply.value.result == "" {
          AskRunAnswers(svc, clientUUID, userQuery, loopCounter + 1, s.messages, s.vectors, s.reply.value.finalized, sent + [msgs]);
        }
    }
  }

  /** `askModel` makes one to five completion requests, the first with a history holding only
      the user's query, and always answers with a non-empty string. */
  lemma AskModelBounds(svc: Services, clientUUID: string, userQuery: string, db: map<string, seq<Document>>)
    ensures var r := AskModelRun(svc, clientUUID, userQuery, db);
      && 1 <= |r.requests| <= 5
      && r.requests[0] == [Message(User, userQuery)]
      && r.answer != ""
  {
    AskRunRequestCount(svc, clientUUID, userQuery, 1, [Message(User, userQuery)], db, "", []);
    AskRunRequestOrder(svc, clientUUID, userQuery, 1, [Message(User, userQuery)], db, "", []);
    AskRunAnswers(svc, clientUUID, userQuery, 1, [Message(User, userQuery)], db, "", []);
  }

  /** Where an answer comes from: one of the fixed texts, or an assistant message that is
      still in the final history (the content of an earlier stop). */
  lemma {:induction false} AskRunAnswerProvenance(svc: Services, clientUUID: string, userQuery: string, loopCounter: nat,
                                                  msgs: seq<Message>, db: map<string, seq<Document>>, finalResponse: string,
                                                  sent: seq<seq<Message>>)
    requires finalResponse == "" || Message(Assistant, finalResponse) in msgs
    ensures var r := AskRun(svc, clientUUID, userQuery, loopCounter, msgs, db, finalResponse, sent);
      r.answer in {ErrorText, MaxAttempts, SuspendedWithoutStop} || Message(Assistant, r.answer) in r.messages
    decreases 6 - loopCounter
  {
    if loopCounter < 6 {
      match svc.complete(loopCounter, msgs)
      case None =>
      case Some(response) =>
        var s := MemoryStep(svc, response, msgs, db, clientUUID, userQuery, finalResponse, loopCounter);
        if s.reply.Some? {
          var f := s.reply.value.finalized;
          assert f == "" || Message(Assistant, f) in s.messages by {
            StepKeepsAnswer(svc, response, msgs, db, clientUUID, userQuery, finalResponse, loopCounter);
          }
          if s.reply.value.result == "" {
            AskRunAnswerProvenance(svc, clientUUID, userQuery, loopCounter + 1, s.messages, s.vectors, f, sent + [msgs]);
          }
        }
    }
  }

  /** A step keeps every assistant message, and its remembered answer is one of them. */
  lemma StepKeepsAnswer(svc: Services, response: Response<AskArgs>, msgs: seq<Message>, db: map<string, seq<Document>>,
                        clientUUID: string, userQuery: string, finalResponse: string, loopCounter: nat)
    requires finalResponse == "" || Message(Assistant, finalResponse) in msgs
    ensures var s := MemoryStep(svc, response, msgs, db, clientUUID, userQuery, finalResponse, loopCounter);
      && (forall m :: m in msgs && m.role != System ==> m in s.messages)
      && (s.reply.Some? ==> s.reply.value.finalized == "" || Message(Assistant, s.reply.value.finalized) in s.messages)
      && (s.reply.Some? && s.reply.value.result != "" ==>
            s.reply.value.result == SuspendedWithoutStop || Message(Assistant, s.reply.value.result) in s.messages)
  {
    var s := MemoryStep(svc, response, msgs, db, clientUUID, userQuery, finalResponse, loopCounter);
    if response.Stop? {
      assert Message(Assistant, response.content) in msgs + [Message(Assistant, response.content)];
    } else if response.ToolCalls? && |response.calls| > 0 && response.calls[0].name == "try_to_remember"
              && response.calls[0].arguments.Some?
              && svc.recall(loopCounter, response.calls[0].arguments.value.memoryRequest).Recalled? {
      var recollection := svc.recall(loopCounter, response.calls[0].arguments.value.memoryRequest).recollection;
      var withContext := WithContext(recollection, msgs);
      RecallStepIs(svc, response.calls, msgs, db, clientUUID, userQuery, finalResponse, loopCounter);
      UpsertKeepsNonSystem(withContext, RecallMarker, Message(System, RecallNote(loopCounter)));
      assert s.reply == Some(Reply("", finalResponse));
    } else {
      assert s.messages == msgs;
    }
  }

  lemma AskModelAnswerProvenance(svc: Services, clientUUID: string, userQuery: string, db: map<string, seq<Document>>)
    ensures var r := AskModelRun(svc, clientUUID, userQuery, db);
      r.answer in {ErrorText, MaxAttempts, SuspendedWithoutStop} || Message(Assistant, r.answer) in r.messages
  {
    AskRunAnswerProvenance(svc, clientUUID, userQuery, 1, [Message(User, userQuery)], db, "", []);
  }

  // ---------------------------------------------------------------------------------------
  // The notes and the history

  /** The end-of-thread note does not carry the recall marker. */
  lemma EndNoteLacksRecallMarker()
    ensures !Contains(EndThreadText, RecallMarker)
  {
    EndNoteTailLacksI();
    assert RecallMarker[|Seeing|] == 's' && EndThreadText[|Seeing|] == 'r';
    NotContainsByHead(EndThreadText, RecallMarker);
  }

  /** A context note carries the recall marker only if the recollection does. */
  lemma ContextNoteLacksRecallMarker(recollection: string)
    requires !Contains(recollection, RecallMarker)
    ensures !Tagged(Message(System, ContextNote(recollection)), RecallMarker)
    ensures Message(System, ContextNote(recollection)) != EndThreadNote
  {
    assert RecallMarker[0] == 'I';
    NotContainsAfterPrefix("###CONTEXT: ", recollection, RecallMarker);
    assert ContextNote(recollection)[0] == '#';
  }

  /** The recall note carries its marker and is not the end-of-thread note. */
  lemma RecallNoteTagged(loopCounter: nat)
    ensures Tagged(Message(System, RecallNote(loopCounter)), RecallMarker)
    ensures Message(System, RecallNote(loopCounter)) != EndThreadNote
  {
    ContainsInfix("###INSTRUCTION: ", RecallMarker, RecallNote(loopCounter)[|"###INSTRUCTION: " + RecallMarker|..]);
    assert RecallNote(loopCounter)[0] == '#';
  }

  /** What every history of a run satisfies: one user message, at most one recall note and
      at most one end-of-thread note. */
  ghost predicate HistoryOk(msgs: seq<Message>) {
    && CountRole(msgs, User) == 1
    && CountTagged(msgs, RecallMarker) <= 1
    && multiset(msgs)[EndThreadNote] <= 1
  }

  /** No recollection repeats the recall marker sentence. */
  ghost predicate HonestRecall(svc: Services) {
    forall k, q :: svc.recall(k, q).Recalled? && svc.recall(k, q).recollection.Val? ==>
      !Contains(svc.recall(k, q).recollection.v, RecallMarker)
  }

  lemma StopKeepsHistoryOk(msgs: seq<Message>, content: string)
    requires HistoryOk(msgs)
    ensures HistoryOk(AppendIfAbsent(msgs + [Message(Assistant, content)], EndThreadText))
  {
    var a := Message(Assistant, content);
    var answered := msgs + [a];
    CountRoleAppend(msgs, a, User);
    CountTaggedAppend(msgs, a, RecallMarker);
    assert multiset(answered) == multiset(msgs) + multiset{a};
    AppendIfAbsentOneCopy(answered, EndThreadText);
    if !HasSystemNote(answered, EndThreadText) {
      CountRoleAppend(answered, EndThreadNote, User);
      EndNoteLacksRecallMarker();
      CountTaggedAppend(answered, EndThreadNote, RecallMarker);
    }
  }

  lemma RecallKeepsHistoryOk(msgs: seq<Message>, recollection: Js<string>, loopCounter: nat)
    requires HistoryOk(msgs)
    requires recollection.Val? ==> !Contains(recollection.v, RecallMarker)
    ensures HistoryOk(Upsert(WithContext(recollection, msgs), RecallMarker, Message(System, RecallNote(loopCounter))))
  {
    var withContext := WithContext(recollection, msgs);
    if Truthy(recollection) {
      var ctx := Message(System, ContextNote(recollection.v));
      ContextNoteLacksRecallMarker(recollection.v);
      CountRolePrepend(ctx, msgs, User);
      CountTaggedPrepend(ctx, msgs, RecallMarker);
      assert multiset(withContext) == multiset{ctx} + multiset(msgs);
    }
    var note := Message(System, RecallNote(loopCounter));
    RecallNoteTagged(loopCounter);
    UpsertKeepsOneNote(withContext, RecallMarker, note);
    var i := FindTagged(withContext, RecallMarker);
    if i != -1 {
      CountRoleUpdate(withContext, i, note, User);
      EndNoteLacksRecallMarker();
      assert withContext[i] != EndThreadNote;
      assert multiset(withContext[i := note]) == multiset(withContext) - multiset{withContext[i]} + multiset{note};
    } else {
      CountRoleAppend(withContext, note, User);
      assert multiset(withContext + [note]) == multiset(withContext) + multiset{note};
    }
  }

  /** Every step keeps the history invariant. */
  lemma StepKeepsHistoryOk(svc: Services, response: Response<AskArgs>, msgs: seq<Message>, db: map<string, seq<Document>>,
                           clientUUID: string, userQuery: string, finalResponse: string, loopCounter: nat)
    requires HistoryOk(msgs) && HonestRecall(svc)
    ensures HistoryOk(MemoryStep(svc, response, msgs, db, clientUUID, userQuery, finalResponse, loopCounter).messages)
  {
    var s := MemoryStep(svc, response, msgs, db, clientUUID, userQuery, finalResponse, loopCounter);
    if response.Stop? {
      StopKeepsHistoryOk(msgs, response.content);
    } else if response.ToolCalls? && |response.calls| > 0 && response.calls[0].name == "try_to_remember"
              && response.calls[0].arguments.Some?
              && svc.recall(loopCounter, response.calls[0].arguments.value.memoryRequest).Recalled? {
      RecallStepIs(svc, response.calls, msgs, db, clientUUID, userQuery, finalResponse, loopCounter);
      RecallKeepsHistoryOk(msgs, svc.recall(loopCounter, response.calls[0].arguments.value.memoryRequest).recollection, loopCounter);
    } else {
      assert s.messages == msgs;
    }
  }

  lemma {:induction false} AskRunKeepsHistoryOk(svc: Services, clientUUID: string, userQuery: string, loopCounter: nat,
                                                msgs: seq<Message>, db: map<string, seq<Document>>, finalResponse: string,
                                                sent: seq<seq<Message>>)
    requires HistoryOk(msgs) && HonestRecall(svc)
    requires forall h :: h in sent ==> HistoryOk(h)
    ensures var r := AskRun(svc, clientUUID, userQuery, loopCounter, msgs, db, finalResponse, sent);
      HistoryOk(r.messages) && forall h :: h in r.requests ==> HistoryOk(h)
    decreases 6 - loopCounter
  {
    if loopCounter < 6 {
      match svc.complete(loopCounter, msgs)
      case None =>
      case Some(response) =>
        var s := MemoryStep(svc, response, msgs, db, clientUUID, userQuery, finalResponse, loopCounter);
        StepKeepsHistoryOk(svc, response, msgs, db, clientUUID, userQuery, finalResponse, loopCounter);
        if s.reply.Some? && s.reply.value.result == "" {
          AskRunKeepsHistoryOk(svc, clientUUID, userQuery, loopCounter + 1, s.messages, s.vectors,
                               s.reply.value.finalized, sent + [msgs]);
        }
    }
  }

  /** Every history that `askModel` sends, and the one it ends with, holds exactly one user
      message (the query), at most one recall note and at most one end-of-thread note. */
  lemma AskModelHistoryOk(svc: Services, clientUUID: string, userQuery: string, db: map<string, seq<Document>>)
    requires HonestRecall(svc)
    ensures var r := AskModelRun(svc, clientUUID, userQuery, db);
      HistoryOk(r.messages) && forall h :: h in r.requests ==> HistoryOk(h)
  {
    var start := [Message(User, userQuery)];
    assert CountRole(start, User) == 1 by {
      assert start[1..] == [];
    }
    assert CountTagged(start, RecallMarker) == 0 by {
      assert start[1..] == [];
    }
    AskRunKeepsHistoryOk(svc, clientUUID, userQuery, 1, start, db, "", []);
  }

  // ---------------------------------------------------------------------------------------
  // Single steps

  /** `memoryAbstraction` throws exactly when the tool-call list is empty, the arguments of
      `try_to_remember` or `suspend_thread` do not parse, or the recall throws. */
  lemma StepThrowsExactly(svc: Services, response: Response<AskArgs>, msgs: seq<Message>, db: map<string, seq<Document>>,
                          clientUUID: string, userQuery: string, finalResponse: string, loopCounter: nat)
    ensures var s := MemoryStep(svc, response, msgs, db, clientUUID, userQuery, finalResponse, loopCounter);
      s.reply.None? <==>
        && response.ToolCalls?
        && (|response.calls| == 0
            || (response.calls[0].name in {"try_to_remember", "suspend_thread"} && response.calls[0].arguments.None?)
            || (response.calls[0].name == "try_to_remember" && response.calls[0].arguments.Some?
                && svc.recall(loopCounter, response.calls[0].arguments.value.memoryRequest).RecallThrows?))
    ensures var s := MemoryStep(svc, response, msgs, db, clientUUID, userQuery, finalResponse, loopCounter);
      s.reply.None? ==> s.messages == msgs && s.vectors == db
  {
  }

  /** An unknown tool and any other finish reason change nothing and let the loop go on. */
  lemma IgnoredResponseIsNoOp(svc: Services, response: Response<AskArgs>, msgs: seq<Message>, db: map<string, seq<Document>>,
                              clientUUID: string, userQuery: string, finalResponse: string, loopCounter: nat)
    requires response.OtherFinish?
          || (response.ToolCalls? && |response.calls| > 0
              && response.calls[0].name != "try_to_remember" && response.calls[0].name != "suspend_thread")
    ensures MemoryStep(svc, response, msgs, db, clientUUID, userQuery, finalResponse, loopCounter)
         == Step(Some(Reply("", finalResponse)), msgs, db)
  {
  }

  /** A stop keeps the history as a prefix, appends the answer as an assistant message,
      leaves exactly one end-of-thread note, remembers the answer and lets the loop go on. */
  lemma StopStep(svc: Services, content: string, msgs: seq<Message>, db: map<string, seq<Document>>,
                 clientUUID: string, userQuery: string, finalResponse: string, loopCounter: nat)
    requires multiset(msgs)[EndThreadNote] <= 1
    ensures var s := MemoryStep(svc, Stop(content), msgs, db, clientUUID, userQuery, finalResponse, loopCounter);
      && s.reply == Some(Reply("", content))
      && |msgs| < |s.messages| <= |msgs| + 2
      && s.messages[..|msgs| + 1] == msgs + [Message(Assistant, content)]
      && multiset(s.messages)[EndThreadNote] == 1
      && (|s.messages| == |msgs| + 2 ==> s.messages[|msgs| + 1] == EndThreadNote)
      && s.vectors == MemoryWrite(db, clientUUID, svc.rephrase(Exchange(userQuery, content)), svc.entropy(loopCounter))
  {
    var answered := msgs + [Message(Assistant, content)];
    assert multiset(answered) == multiset(msgs) + multiset{Message(Assistant, content)};
    AppendIfAbsentOneCopy(answered, EndThreadText);
    var s := MemoryStep(svc, Stop(content), msgs, db, clientUUID, userQuery, finalResponse, loopCounter);
    assert s.messages[..|msgs| + 1] == answered;
  }

  /** A successful recall: the history gets the context note, then the recall note. */
  lemma RecallStepIs(svc: Services, calls: seq<Call<AskArgs>>, msgs: seq<Message>, db: map<string, seq<Document>>,
                     clientUUID: string, userQuery: string, finalResponse: string, loopCounter: nat)
    requires |calls| > 0 && calls[0].name == "try_to_remember" && calls[0].arguments.Some?
    requires svc.recall(loopCounter, calls[0].arguments.value.memoryRequest).Recalled?
    ensures var recollection := svc.recall(loopCounter, calls[0].arguments.value.memoryRequest).recollection;
      MemoryStep(svc, ToolCalls(calls), msgs, db, clientUUID, userQuery, finalResponse, loopCounter)
      == Step(Some(Reply("", finalResponse)),
              Upsert(WithContext(recollection, msgs), RecallMarker, Message(System, RecallNote(loopCounter))), db)
  {
  }

  /** After a successful recall exactly one recall note remains, and it carries the current
      loop count; the run goes on and the store is untouched. */
  lemma RecallStep(svc: Services, calls: seq<Call<AskArgs>>, msgs: seq<Message>, db: map<string, seq<Document>>,
                   clientUUID: string, userQuery: string, finalResponse: string, loopCounter: nat)
    requires HistoryOk(msgs) && HonestRecall(svc)
    requires |calls| > 0 && calls[0].name == "try_to_remember" && calls[0].arguments.Some?
    requires svc.recall(loopCounter, calls[0].arguments.value.memoryRequest).Recalled?
    ensures var s := MemoryStep(svc, ToolCalls(calls), msgs, db, clientUUID, userQuery, finalResponse, loopCounter);
      && s.reply == Some(Reply("", finalResponse))
      && s.vectors == db
      && CountTagged(s.messages, RecallMarker) == 1
      && FindTagged(s.messages, RecallMarker) != -1
      && s.messages[FindTagged(s.messages, RecallMarker)] == Message(System, RecallNote(loopCounter))
  {
    var recollection := svc.recall(loopCounter, calls[0].arguments.value.memoryRequest).recollection;
    var withContext := WithContext(recollection, msgs);
    var note := Message(System, RecallNote(loopCounter));
    var s := MemoryStep(svc, ToolCalls(calls), msgs, db, clientUUID, userQuery, finalResponse, loopCounter);
    RecallStepIs(svc, calls, msgs, db, clientUUID, userQuery, finalResponse, loopCounter);
    RecallKeepsHistoryOk(msgs, recollection, loopCounter);
    RecallNoteTagged(loopCounter);
    UpsertKeepsOneNote(withContext, RecallMarker, note);
  }

  /** A truthy recollection goes to the front as a context note and every untagged message
      moves up by one; otherwise untagged messages keep their places. */
  lemma RecallStepShifts(svc: Services, calls: seq<Call<AskArgs>>, msgs: seq<Message>, db: map<string, seq<Document>>,
                         clientUUID: string, userQuery: string, finalResponse: string, loopCounter: nat)
    requires HonestRecall(svc)
    requires |calls| > 0 && calls[0].name == "try_to_remember" && calls[0].arguments.Some?
    requires svc.recall(loopCounter, calls[0].arguments.value.memoryRequest).Recalled?
    ensures var s := MemoryStep(svc, ToolCalls(calls), msgs, db, clientUUID, userQuery, finalResponse, loopCounter);
      var recollection := svc.recall(loopCounter, calls[0].arguments.value.memoryRequest).recollection;
      && (Truthy(recollection) ==>
            && s.messages[0] == Message(System, ContextNote(recollection.v))
            && forall j :: 0 <= j < |msgs| && !Tagged(msgs[j], RecallMarker) ==> s.messages[j + 1] == msgs[j])
      && (!Truthy(recollection) ==>
            forall j :: 0 <= j < |msgs| && !Tagged(msgs[j], RecallMarker) ==> s.messages[j] == msgs[j])
  {
    var recollection := svc.recall(loopCounter, calls[0].arguments.value.memoryRequest).recollection;
    var withContext := WithContext(recollection, msgs);
    var note := Message(System, RecallNote(loopCounter));
    var s := MemoryStep(svc, ToolCalls(calls), msgs, db, clientUUID, userQuery, finalResponse, loopCounter);
    RecallStepIs(svc, calls, msgs, db, clientUUID, userQuery, finalResponse, loopCounter);
    UpsertKeepsUntagged(withContext, RecallMarker, note);
    if Truthy(recollection) {
      ContextNoteLacksRecallMarker(recollection.v);
      assert withContext[0] == Message(System, ContextNote(recollection.v));
      forall j | 0 <= j < |msgs| && !Tagged(msgs[j], RecallMarker) ensures s.messages[j + 1] == msgs[j] {
        assert withContext[j + 1] == msgs[j];
      }
    }
  }

  // ---------------------------------------------------------------------------------------
  // Whole runs

  /** `suspend_thread` ends the run with the remembered answer, or with the suspension text
      when there is none. */
  lemma SuspendEndsRun(svc: Services, clientUUID: string, userQuery: string, loopCounter: nat, msgs: seq<Message>,
                       db: map<string, seq<Document>>, finalResponse: string, sent: seq<seq<Message>>, calls: seq<Call<AskArgs>>)
    requires loopCounter < 6 && svc.complete(loopCounter, msgs) == Some(ToolCalls(calls))
    requires |calls| > 0 && calls[0].name == "suspend_thread" && calls[0].arguments.Some?
    ensures var r := AskRun(svc, clientUUID, userQuery, loopCounter, msgs, db, finalResponse, sent);
      && r.answer == (if finalResponse != "" then finalResponse else SuspendedWithoutStop)
      && r.messages == msgs && r.vectors == db
      && r.requests == sent + [msgs]
  {
    AskRunStep(svc, clientUUID, userQuery, loopCounter, msgs, db, finalResponse, sent, ToolCalls(calls));
  }

  /** The two-phase shutdown: an answer followed by `suspend_thread` returns that answer. */
  lemma AnswerThenSuspend(svc: Services, clientUUID: string, userQuery: string, loopCounter: nat, msgs: seq<Message>,
                          db: map<string, seq<Document>>, finalResponse: string, sent: seq<seq<Message>>,
                          content: string, calls: seq<Call<AskArgs>>)
    requires loopCounter < 5 && content != ""
    requires svc.complete(loopCounter, msgs) == Some(Stop(content))
    requires svc.complete(loopCounter + 1, AppendIfAbsent(msgs + [Message(Assistant, content)], EndThreadText))
             == Some(ToolCalls(calls))
    requires |calls| > 0 && calls[0].name == "suspend_thread" && calls[0].arguments.Some?
    ensures var r := AskRun(svc, clientUUID, userQuery, loopCounter, msgs, db, finalResponse, sent);
      && r.answer == content
      && |r.requests| == |sent| + 2
      && Message(Assistant, content) in r.messages
  {
    AskRunStep(svc, clientUUID, userQuery, loopCounter, msgs, db, finalResponse, sent, Stop(content));
    var s := MemoryStep(svc, Stop(content), msgs, db, clientUUID, userQuery, finalResponse, loopCounter);
    assert Message(Assistant, content) in msgs + [Message(Assistant, content)];
    SuspendEndsRun(svc, clientUUID, userQuery, loopCounter + 1, s.messages, s.vectors, content, sent + [msgs], calls);
  }

  /** When no remaining response ends the run, all remaining requests are made and the run
      returns the remembered answer, or the max-attempts text when there is none. */
  lemma {:induction false} ExhaustedRun(svc: Services, clientUUID: string, userQuery: string, loopCounter: nat,
                                        msgs: seq<Message>, db: map<string, seq<Document>>, finalResponse: string,
                                        sent: seq<seq<Message>>)
    requires 1 <= loopCounter <= 6
    requires forall k, m :: loopCounter <= k < 6 ==> svc.complete(k, m) == Some(OtherFinish)
    ensures var r := AskRun(svc, clientUUID, userQuery, loopCounter, msgs, db, finalResponse, sent);
      && r.answer == (if finalResponse != "" then finalResponse else MaxAttempts)
      && r.messages == msgs && r.vectors == db
      && |r.requests| == |sent| + 6 - loopCounter
    decreases 6 - loopCounter
  {
    if loopCounter < 6 {
      AskRunStep(svc, clientUUID, userQuery, loopCounter, msgs, db, finalResponse, sent, OtherFinish);
      ExhaustedRun(svc, clientUUID, userQuery, loopCounter + 1, msgs, db, finalResponse, sent + [msgs]);
    }
  }

  /** An answer given at the first request and nothing after it: the run makes all five
      requests and returns that answer. */
  lemma AnswerThenExhausted(svc: Services, clientUUID: string, userQuery: string, content: string)
    requires content != ""
    requires svc.complete(1, [Message(User, userQuery)]) == Some(Stop(content))
    requires forall k, m :: 2 <= k < 6 ==> svc.complete(k, m) == Some(OtherFinish)
    ensures var r := AskModelRun(svc, clientUUID, userQuery, map[]);
      && r.answer == content && |r.requests| == 5
  {
    var msgs := [Message(User, userQuery)];
    AskRunStep(svc, clientUUID, userQuery, 1, msgs, map[], "", [], Stop(content));
    var s := MemoryStep(svc, Stop(content), msgs, map[], clientUUID, userQuery, "", 1);
    StopStep(svc, content, msgs, map[], clientUUID, userQuery, "", 1);
    ExhaustedRun(svc, clientUUID, userQuery, 2, s.messages, s.vectors, content, [msgs]);
  }

  /** A completion request that throws ends the run with the error text. */
  lemma FailedRequestGivesErrorText(svc: Services, clientUUID: string, userQuery: string, loopCounter: nat,
                                    msgs: seq<Message>, db: map<string, seq<Document>>, finalResponse: string,
                                    sent: seq<seq<Message>>)
    requires loopCounter < 6 && svc.complete(loopCounter, msgs).None?
    ensures AskRun(svc, clientUUID, userQuery, loopCounter, msgs, db, finalResponse, sent)
         == Run(ErrorText, msgs, db, sent + [msgs])
  {
  }

  /** `queryCortex` as imported is not exported by src/cortex.js, so calling it throws: with
      such a recall, the first `try_to_remember` ends the run with the error text. */
  lemma UnboundRecallEndsInError(svc: Services, clientUUID: string, userQuery: string, loopCounter: nat,
                                 msgs: seq<Message>, db: map<string, seq<Document>>, finalResponse: string,
                                 sent: seq<seq<Message>>, calls: seq<Call<AskArgs>>)
    requires forall k, q :: svc.recall(k, q) == RecallThrows
    requires loopCounter < 6 && svc.complete(loopCounter, msgs) == Some(ToolCalls(calls))
    requires |calls| > 0 && calls[0].name == "try_to_remember"
    ensures AskRun(svc, clientUUID, userQuery, loopCounter, msgs, db, finalResponse, sent).answer == ErrorText
  {
    AskRunStep(svc, clientUUID, userQuery, loopCounter, msgs, db, finalResponse, sent, ToolCalls(calls));
    if calls[0].arguments.Some? {
      assert svc.recall(loopCounter, calls[0].arguments.value.memoryRequest) == RecallThrows;
    }
    assert MemoryStep(svc, ToolCalls(calls), msgs, db, clientUUID, userQuery, finalResponse, loopCounter).reply.None?;
  }
}
