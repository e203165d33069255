/** The calendar agent (src/agents/eventsAgent.js): `queryEventsAgent` sends the history to
    the completion service at most six times; `eventsAbstraction` classifies each answer,
    lists or creates events in the client's collection and updates the history.

    `eventsAbstraction` is declared with four parameters, `(response, messages,
    finalResponse, loopCounter)`, but called with six, `(response, messages, clientUUID,
    modelQuery, finalResponse, loopCounter)`. Inside it `finalResponse` is therefore the
    client UUID and `loopCounter` the query (which it never reads); the model binds the
    arguments the same way.

    The completion service is an oracle that sees the loop counter and the history it is
    sent; `generateUuid` stands for the `uuid` package's `v4`, one value per iteration. */
module EventsAgent {
  import opened Common
  import opened Chat
  import opened EventsService

  /** The parsed arguments of a tool call: the fields that `get_client_events` and
      `add_client_event` read (`suspensionReasoning` is only logged). */
  datatype EventArgs = EventArgs(
    clientUUID: Js<string>,
    title: Js<string>,
    date: Js<string>,
    startTime: Js<string>,
    endTime: Js<string>,
    location: Js<string>,
    description: Js<string>,
    collaborators: Js<seq<Collaborator>>,
    reminders: Js<seq<Reminder>>,
    allDay: Js<bool>)

  datatype AgentServices = AgentServices(
    complete: (nat, seq<Message>) -> Option<Response<EventArgs>>,
    generateUuid: nat -> string)

  const GetTag: string := "get_client_events"
  const AddTag: string := "add_client_event"

  /** The instruction set that opens every history; it names `get_client_events`. */
  const PromptHead: string :=
    "Hello you are events agent. You have the ability to create, read, update and delete events.\n"
    + "            You will be provided with the user's client UUID and you will be able to perform the following operations:\n"
    + "            - Create an event\n"
    + "            - Read an event\n"
    + "            - Update an event\n"
    + "            - Delete an event\n"
    + "\n"
    + "            You will end your thread with another agent by always returning an non-function response confirming the action taken.\n"
    + "            Then you will suspend the thread by calling the suspend_thread function.\n"
    + "\n"
    + "            Always start by calling the "
  const PromptTail: string := " function to get the user's events. Then proceed with the desired action.\n            "
  const EventsPrompt: string := PromptHead + GetTag + PromptTail

  function UserText(clientUUID: string, modelQuery: string): string {
    "The client uuid: " + clientUUID + ". The query from the user: " + modelQuery
  }

  /** The history before the first request: the instruction set, then the user message. */
  function InitialHistory(clientUUID: string, modelQuery: string): seq<Message> {
    [Message(System, EventsPrompt), Message(User, UserText(clientUUID, modelQuery))]
  }

  // ---------------------------------------------------------------------------------------
  // The texts of `get_client_events`

  function NoEventsNote(x: string): string {
    "No events were found for client " + x + "."
  }

  function EventsHeader(x: string): string {
    "Events for client " + x + ":"
  }

  function Names(cs: seq<Collaborator>): seq<string> {
    seq(|cs|, i requires 0 <= i < |cs| => cs[i].name)
  }

  /** Collaborators of a listed event: their names joined by ", ", or "None" when the list
      is missing, null or empty. */
  function CollaboratorList(c: Js<seq<Collaborator>>): string {
    if c.Val? && |c.v| > 0 then Join(Names(c.v), ", ") else "None"
  }

  /** One listed event; falsy times, location and description show as "N/A". */
  function EventLine(e: Event): string {
    "Event UUID: " + Render(e.uuid) + ", Title: " + Render(e.title) + ", Date: " + Render(e.date)
    + ", Start Time: " + Or(e.startTime, "N/A") + ", End Time: " + Or(e.endTime, "N/A")
    + ", Location: " + Or(e.location, "N/A") + ", Description: " + Or(e.description, "N/A")
    + ", Collaborators: " + CollaboratorList(e.collaborators) + "."
  }

  function EventLines(events: seq<Event>): seq<Message> {
    seq(|events|, i requires 0 <= i < |events| => Message(System, EventLine(events[i])))
  }

  /** One more event gives one more line. */
  lemma EventLinesSnoc(events: seq<Event>, i: nat)
    requires i < |events|
    ensures EventLines(events[..i + 1]) == EventLines(events[..i]) + [Message(System, EventLine(events[i]))]
  {
    var l, r := EventLines(events[..i + 1]), EventLines(events[..i]) + [Message(System, EventLine(events[i]))];
    assert |l| == |r|;
    forall k | 0 <= k < |l| ensures l[k] == r[k] {
      assert events[..i + 1][k] == events[k];
    }
  }

  /** The system messages pushed for the events of client `x`. */
  function Listing(x: string, events: seq<Event>): seq<Message> {
    if |events| == 0 then [Message(System, NoEventsNote(x))]
    else [Message(System, EventsHeader(x))] + EventLines(events)
  }

  /** The note left after a listing; it names `get_client_events` twice. */
  function GetConfirmation(x: string): string {
    "###INSTRUCTION: " + Seeing + "successfully performed a " + GetTag
    + (" function for client " + x + ". Do not call the '" + GetTag + "' function again unless instructed."
       + " Return an assistant response answering the user's query immediately.")
  }

  // ---------------------------------------------------------------------------------------
  // The texts of `add_client_event`

  function ReminderTexts(rs: seq<Reminder>): seq<string> {
    seq(|rs|, i requires 0 <= i < |rs| => rs[i].timeBefore + " before via " + rs[i].via)
  }

  /** The details part of the creation note. Collaborators and reminders must be lists:
      mapping over `null` throws. */
  function AddDetails(x: string, e: Event): string
    requires e.collaborators.Val? && e.reminders.Val?
  {
    "###INSTRUCTION: Successfully created a new event for client " + x + ".\n\n"
    + "**Event Details:**\n"
    + "- **Title**: " + Render(e.title) + "\n"
    + "- **Date**: " + Render(e.date) + "\n"
    + "- **Start Time**: " + Or(e.startTime, "N/A") + "\n"
    + "- **End Time**: " + Or(e.endTime, "N/A") + "\n"
    + "- **Location**: " + Or(e.location, "N/A") + "\n"
    + "- **Description**: " + Or(e.description, "N/A") + "\n"
    + "- **Collaborators**: " + Or(Val(Join(Names(e.collaborators.v), ", ")), "None") + "\n"
    + "- **Reminders**: " + Or(Val(Join(ReminderTexts(e.reminders.v), ", ")), "None") + "\n"
    + "- **All Day Event**: " + (if IsAllDay(e.allDay) then "Yes" else "No") + "\n\n"
    + "Do not call the '"
  }

  const AddTail: string :=
    "' function again unless instructed. " + "Return an assistant response confirming your action for the user."

  /** The note left after creating event `e` for client `x`; it names `get_client_events`,
      not `add_client_event`. */
  function AddConfirmation(x: string, e: Event): string
    requires e.collaborators.Val? && e.reminders.Val?
  {
    AddDetails(x, e) + GetTag + AddTail
  }

  /** The event that `add_client_event` asks `createEventObject` to build: no uuid is passed. */
  function NewEventInput(a: EventArgs): Event {
    Event(Undefined, a.title, a.date, a.startTime, a.endTime, a.location, a.description,
          a.collaborators, a.reminders, a.allDay)
  }

  // ---------------------------------------------------------------------------------------
  // One step

  /** The effect of one call of `eventsAbstraction`: its reply (`None` when it throws or
      returns `undefined`), the history and the event collections afterwards. */
  datatype AgentStep = AgentStep(reply: Option<Reply>, messages: seq<Message>, events: map<string, seq<Event>>)

  /** `get_client_events`: list the events of the client named in the arguments, then
      upsert the confirmation by the tag `get_client_events`. */
  function GetStep(a: EventArgs, msgs: seq<Message>, db: map<string, seq<Event>>, finalResponse: string): AgentStep {
    var x := Render(a.clientUUID);
    var listed := msgs + Listing(x, Documents(db, CollectionName(x)));
    AgentStep(Some(Reply("", finalResponse)), Upsert(listed, GetTag, Message(System, GetConfirmation(x))), db)
  }

  /** `add_client_event`: build the event (`generated` is the uuid `createEventObject`
      draws), store it for the client named in the arguments, then upsert the confirmation
      by the tag `add_client_event`. Rendering the note throws after the write when the
      collaborators or reminders are `null`. */
  function AddStep(a: EventArgs, msgs: seq<Message>, db: map<string, seq<Event>>, finalResponse: string,
                   generated: string): AgentStep
  {
    var x := Render(a.clientUUID);
    match CreateEventObject(NewEventInput(a), generated)
    case Err(_) => AgentStep(None, msgs, db)
    case Ok(e) =>
      if !Truthy(e.uuid) then AgentStep(None, msgs, db)
      else
        var stored := db[CollectionName(x) := Documents(db, CollectionName(x)) + [e]];
        if e.collaborators.Null? || e.reminders.Null? then AgentStep(None, msgs, stored)
        else AgentStep(Some(Reply("", finalResponse)), Upsert(msgs, AddTag, Message(System, AddConfirmation(x, e))), stored)
  }

  /** `eventsAbstraction(response, messages, finalResponse, loopCounter)`. */
  function EventsStep(response: Response<EventArgs>, msgs: seq<Message>, db: map<string, seq<Event>>,
                      finalResponse: string, generated: string): AgentStep
  {
    match response
    case Stop(content) =>
      AgentStep(Some(Reply(content, content)), AppendIfAbsent(msgs + [Message(Assistant, content)], EndThreadText), db)
    case ToolCalls(calls) =>
      if |calls| == 0 then AgentStep(None, msgs, db)
      else if calls[0].name == GetTag then
        if calls[0].arguments.None? then AgentStep(None, msgs, db)
        else GetStep(calls[0].arguments.value, msgs, db, finalResponse)
      else if calls[0].name == AddTag then
        if calls[0].arguments.None? then AgentStep(None, msgs, db)
        else AddStep(calls[0].arguments.value, msgs, db, finalResponse, generated)
      else if calls[0].name == "update_client_event" || calls[0].name == "delete_client_event" then
        AgentStep(None, msgs, db)
      else if calls[0].name == "suspend_thread" then
        if calls[0].arguments.None? then AgentStep(None, msgs, db)
        else AgentStep(Some(Reply(if finalResponse != "" then finalResponse else SuspendedWithoutStop, finalResponse)), msgs, db)
      else AgentStep(Some(Reply("", finalResponse)), msgs, db)
    case OtherFinish => AgentStep(None, msgs, db)
  }

  // ---------------------------------------------------------------------------------------
  // The loop

  /** The outcome of a run: the string `queryEventsAgent` returns, the history and the event
      collections at the end, and the history sent with each completion request, in order. */
  datatype AgentRun = AgentRun(answer: string, messages: seq<Message>, events: map<string, seq<Event>>,
                               requests: seq<seq<Message>>)

  /** The rest of the `while (loopCounter <= 6)` loop from a given iteration on. Each step
      receives the client UUID in the place of `finalResponse`. */
  function EventsRun(svc: AgentServices, clientUUID: string, loopCounter: nat, msgs: seq<Message>,
                     db: map<string, seq<Event>>, finalResponse: string, sent: seq<seq<Message>>): AgentRun
    decreases 7 - loopCounter
  {
    if loopCounter > 6 then AgentRun(if finalResponse != "" then finalResponse else MaxAttempts, msgs, db, sent)
    else
      var requests := sent + [msgs];
      match svc.complete(loopCounter, msgs)
      case None => AgentRun(ErrorText, msgs, db, requests)
      case Some(response) =>
        var s := EventsStep(response, msgs, db, clientUUID, svc.generateUuid(loopCounter));
        if s.reply.None? then AgentRun(ErrorText, s.messages, s.events, requests)
        else if s.reply.value.result != "" then AgentRun(s.reply.value.result, s.messages, s.events, requests)
        else EventsRun(svc, clientUUID, loopCounter + 1, s.messages, s.events, s.reply.value.finalized, requests)
  }

  /** One iteration of the loop, for a request that got an answer. */
  lemma EventsRunStep(svc: AgentServices, clientUUID: string, loopCounter: nat, msgs: seq<Message>,
                      db: map<string, seq<Event>>, finalResponse: string, sent: seq<seq<Message>>,
                      response: Response<EventArgs>)
    requires loopCounter <= 6 && svc.complete(loopCounter, msgs) == Some(response)
    ensures var s := EventsStep(response, msgs, db, clientUUID, svc.generateUuid(loopCounter));
      EventsRun(svc, clientUUID, loopCounter, msgs, db, finalResponse, sent)
      == if s.reply.None? then AgentRun(ErrorText, s.messages, s.events, sent + [msgs])
         else if s.reply.value.result != "" then AgentRun(s.reply.value.result, s.messages, s.events, sent + [msgs])
         else EventsRun(svc, clientUUID, loopCounter + 1, s.messages, s.events, s.reply.value.finalized, sent + [msgs])
  {
  }

  /** A whole `queryEventsAgent(clientUUID, modelQuery)` run against collections `db`. */
  function EventsAgentRun(svc: AgentServices, clientUUID: string, modelQuery: string, db: map<string, seq<Event>>): AgentRun {
    EventsRun(svc, clientUUID, 1, InitialHistory(clientUUID, modelQuery), db, "", [])
  }

  /** The pushes of the `get_client_events` case: the "no events" note, or the header and
      one line per event, in collection order (the `forEach`). */
  method PushListing(history: MessageHistory, x: string, eventsForClient: seq<Event>)
    modifies history
    ensures history.messages == old(history.messages) + Listing(x, eventsForClient)
  {
    if |eventsForClient| == 0 {
      history.Push(Message(System, NoEventsNote(x)));
    } else {
      history.Push(Message(System, EventsHeader(x)));
      ghost var start := history.messages;
      var i := 0;
      while i < |eventsForClient|
        invariant 0 <= i <= |eventsForClient|
        invariant history.messages == start + EventLines(eventsForClient[..i])
      {
        EventLinesSnoc(eventsForClient, i);
        history.Push(Message(System, EventLine(eventsForClient[i])));
        i := i + 1;
      }
      assert eventsForClient[..i] == eventsForClient;
    }
  }

  /** The `get_client_events` case of `eventsAbstraction`. */
  method GetClientEvents(a: EventArgs, history: MessageHistory, store: EventStore, finalResponse: string)
    returns (reply: Option<Reply>)
    modifies history
    ensures var s := GetStep(a, old(history.messages), store.collections, finalResponse);
      reply == s.reply && history.messages == s.messages
  {
    var x := Render(a.clientUUID);
    var eventsForClient := store.GetEvents(x);
    PushListing(history, x, eventsForClient);
    history.UpsertTagged(GetTag, Message(System, GetConfirmation(x)));
    reply := Some(Reply("", finalResponse));
  }

  /** The `add_client_event` case of `eventsAbstraction`. */
  method AddClientEvent(a: EventArgs, history: MessageHistory, store: EventStore, finalResponse: string, generated: string)
    returns (reply: Option<Reply>)
    modifies history, store
    ensures var s := AddStep(a, old(history.messages), old(store.collections), finalResponse, generated);
      reply == s.reply && history.messages == s.messages && store.collections == s.events
  {
    var x := Render(a.clientUUID);
    var built := CreateEventObject(NewEventInput(a), generated);
    if built.Err? {
      return None;
    }
    var newEvent := built.value;
    var created := store.CreateEvent(x, newEvent);
    if created.Err? {
      return None;
    }
    if newEvent.collaborators.Null? || newEvent.reminders.Null? {
      return None;
    }
    history.UpsertTagged(AddTag, Message(System, AddConfirmation(x, newEvent)));
    reply := Some(Reply("", finalResponse));
  }

  /** `eventsAbstraction(response, messages, finalResponse, loopCounter)` */
  method EventsAbstraction(response: Response<EventArgs>, history: MessageHistory, store: EventStore,
                           finalResponse: string, generated: string)
    returns (reply: Option<Reply>)
    modifies history, store
    ensures var s := EventsStep(response, old(history.messages), old(store.collections), finalResponse, generated);
      reply == s.reply && history.messages == s.messages && store.collections == s.events
  {
    var messageContent := "";
    match response
    case Stop(content) =>
      history.Push(Message(Assistant, content));
      history.PushIfAbsent(EndThreadText);
      reply := Some(Reply(content, content));
    case OtherFinish =>
      reply := None;
    case ToolCalls(calls) =>
      if |calls| == 0 {
        return None;
      }
      var toolCall := calls[0];
      if toolCall.name == GetTag {
        if toolCall.arguments.None? {
          return None;
        }
        reply := GetClientEvents(toolCall.arguments.value, history, store, finalResponse);
      } else if toolCall.name == AddTag {
        if toolCall.arguments.None? {
          return None;
        }
        reply := AddClientEvent(toolCall.arguments.value, history, store, finalResponse, generated);
      } else if toolCall.name == "update_client_event" || toolCall.name == "delete_client_event" {
        reply := None;
      } else if toolCall.name == "suspend_thread" {
        if toolCall.arguments.None? {
          return None;
        }
        reply := Some(Reply(if finalResponse != "" then finalResponse else SuspendedWithoutStop, finalResponse));
      } else {
        reply := Some(Reply(messageContent, finalResponse));
      }
  }

  /** `queryEventsAgent(clientUUID, modelQuery)`: the history starts as the instruction set
      and the user message; each of at most six iterations sends it to the completion
      service and lets `eventsAbstraction` act on the answer; a truthy result ends the run,
      an exception gives the error text. */
  method QueryEventsAgent(svc: AgentServices, store: EventStore, clientUUID: string, modelQuery: string)
    returns (answer: string)
    modifies store
    ensures answer == EventsAgentRun(svc, clientUUID, modelQuery, old(store.collections)).answer
    ensures store.collections == EventsAgentRun(svc, clientUUID, modelQuery, old(store.collections)).events
  {
    var history := new MessageHistory();
    var loopCounter := 1;
    var finalResponse := "";
    ghost var sent: seq<seq<Message>> := [];
    history.Push(Message(System, EventsPrompt));
    history.Push(Message(User, UserText(clientUUID, modelQuery)));
    assert history.messages == InitialHistory(clientUUID, modelQuery);
    assert EventsAgentRun(svc, clientUUID, modelQuery, old(store.collections))
        == EventsRun(svc, clientUUID, loopCounter, history.messages, store.collections, finalResponse, sent);
    while loopCounter <= 6
      invariant 1 <= loopCounter <= 7
      invariant fresh(history)
      invariant EventsAgentRun(svc, clientUUID, modelQuery, old(store.collections))
             == EventsRun(svc, clientUUID, loopCounter, history.messages, store.collections, finalResponse, sent)
      decreases 7 - loopCounter
    {
      var response := svc.complete(loopCounter, history.messages);
      if response.None? {
        answer := ErrorText;
        return;
      }
      ghost var s := EventsStep(response.value, history.messages, store.collections, clientUUID,
                                svc.generateUuid(loopCounter));
      EventsRunStep(svc, clientUUID, loopCounter, history.messages, store.collections, finalResponse, sent, response.value);
      sent := sent + [history.messages];
      var reply := EventsAbstraction(response.value, history, store, clientUUID, svc.generateUuid(loopCounter));
      assert reply == s.reply && history.messages == s.messages && store.collections == s.events;
      if reply.None? {
        answer := ErrorText;
        return;
      }
      finalResponse := reply.value.finalized;
      loopCounter := loopCounter + 1;
      if reply.value.result != "" {
        answer := reply.value.result;
        return;
      }
      assert EventsAgentRun(svc, clientUUID, modelQuery, old(store.collections))
        == EventsRun(svc, clientUUID, loopCounter, history.messages, store.collections, finalResponse, sent);
    }
    answer := if finalResponse != "" then finalResponse else MaxAttempts;
  }

  // ---------------------------------------------------------------------------------------
  // Properties of a run

  /** From iteration `loopCounter` on, a run makes at most `7 - loopCounter` more requests. */
  lemma {:induction false} EventsRunRequestCount(svc: AgentServices, clientUUID: string, loopCounter: nat,
                                                 msgs: seq<Message>, db: map<string, seq<Event>>,
                                                 finalResponse: string, sent: seq<seq<Message>>)
    requires loopCounter <= 7
    ensures |EventsRun(svc, clientUUID, loopCounter, msgs, db, finalResponse, sent).requests| <= |sent| + 7 - loopCounter
    decreases 7 - loopCounter
  {
    if loopCounter <= 6 {
      match svc.complete(loopCounter, msgs)
      case None =>
      case Some(response) =>
        EventsRunStep(svc, clientUUID, loopCounter, msgs, db, finalResponse, sent, response);
        var s := EventsStep(response, msgs, db, clientUUID, svc.generateUuid(loopCounter));
        if s.reply.Some? && s.reply.value.result == "" {
          EventsRunRequestCount(svc, clientUUID, loopCounter + 1, s.messages, s.events, s.reply.value.finalized, sent + [msgs]);
        }
    }
  }

  /** The requests already made stay first, and the next one sends the current history. */
  lemma {:induction false} EventsRunRequestOrder(svc: AgentServices, clientUUID: string, loopCounter: nat,
                                                 msgs: seq<Message>, db: map<string, seq<Event>>,
                                                 finalResponse: string, sent: seq<seq<Message>>)
    requires loopCounter <= 6
    ensures sent + [msgs] <= EventsRun(svc, clientUUID, loopCounter, msgs, db, finalResponse, sent).requests
    decreases 7 - loopCounter
  {
    match svc.complete(loopCounter, msgs)
    case None =>
    case Some(response) =>
      EventsRunStep(svc, clientUUID, loopCounter, msgs, db, finalResponse, sent, response);
      var s := EventsStep(response, msgs, db, clientUUID, svc.generateUuid(loopCounter));
      if s.reply.Some? && s.reply.value.result == "" && loopCounter + 1 <= 6 {
        EventsRunRequestOrder(svc, clientUUID, loopCounter + 1, s.messages, s.events, s.reply.value.finalized, sent + [msgs]);
      }
  }

  /** Every run answers with a non-empty string. */
  lemma {:induction false} EventsRunAnswers(svc: AgentServices, clientUUID: string, loopCounter: nat,
                                            msgs: seq<Message>, db: map<string, seq<Event>>,
                                            finalResponse: string, sent: seq<seq<Message>>)
    ensures EventsRun(svc, clientUUID, loopCounter, msgs, db, finalResponse, sent).answer != ""
    decreases 7 - loopCounter
  {
    if loopCounter <= 6 {
      match svc.complete(loopCounter, msgs)
      case None =>
      case Some(response) =>
        EventsRunStep(svc, clientUUID, loopCounter, msgs, db, finalResponse, sent, response);
        var s := EventsStep(response, msgs, db, clientUUID, svc.generateUuid(loopCounter));
        if s.reply.Some? && s.reply.value.result == "" {
          EventsRunAnswers(svc, clientUUID, loopCounter + 1, s.messages, s.events, s.reply.value.finalized, sent + [msgs]);
        }
    }
  }

  /** `queryEventsAgent` makes one to six completion requests, the first with the
      instruction set and the user message, and always answers with a non-empty string. */
  lemma EventsAgentBounds(svc: AgentServices, clientUUID: string, modelQuery: string, db: map<string, seq<Event>>)
    ensures var r := EventsAgentRun(svc, clientUUID, modelQuery, db);
      && 1 <= |r.requests| <= 6
      && r.requests[0] == [Message(System, EventsPrompt), Message(User, UserText(clientUUID, modelQuery))]
      && r.answer != ""
  {
    var start := InitialHistory(clientUUID, modelQuery);
    EventsRunRequestCount(svc, clientUUID, 1, start, db, "", []);
    EventsRunRequestOrder(svc, clientUUID, 1, start, db, "", []);
    EventsRunAnswers(svc, clientUUID, 1, start, db, "", []);
  }

  // ---------------------------------------------------------------------------------------
  // The notes and the history

  lemma PromptTagged()
    ensures Tagged(Message(System, EventsPrompt), GetTag)
  {
    ContainsInfix(PromptHead, GetTag, PromptTail);
  }

  lemma GetConfirmationTagged(x: string)
    ensures Tagged(Message(System, GetConfirmation(x)), GetTag)
  {
    ContainsInfix("###INSTRUCTION: " + Seeing + "successfully performed a ", GetTag,
                  " function for client " + x + ". Do not call the '" + GetTag + "' function again unless instructed."
                  + " Return an assistant response answering the user's query immediately.");
  }

  lemma AddConfirmationTagged(x: string, e: Event)
    requires e.collaborators.Val? && e.reminders.Val?
    ensures Tagged(Message(System, AddConfirmation(x, e)), GetTag)
  {
    ContainsInfix(AddDetails(x, e), GetTag, AddTail);
  }

  /** What every history of a run satisfies: its first message is a system message naming
      `get_client_events` (the instruction set, or a confirmation that replaced it), and the
      user message is still there. */
  ghost predicate AgentHistoryOk(msgs: seq<Message>, userText: string) {
    && |msgs| > 0 && Tagged(msgs[0], GetTag)
    && Message(User, userText) in msgs
  }

  /** Upserting a note that names `get_client_events` keeps the history invariant,
      whatever tag it is upserted by. */
  lemma UpsertKeepsHistoryOk(msgs: seq<Message>, tag: string, note: Message, userText: string)
    requires AgentHistoryOk(msgs, userText) && Tagged(note, GetTag)
    ensures AgentHistoryOk(Upsert(msgs, tag, note), userText)
  {
    UpsertKeepsNonSystem(msgs, tag, note);
    var i := FindTagged(msgs, tag);
    if i == 0 {
      assert Upsert(msgs, tag, note)[0] == note;
    } else {
      assert Upsert(msgs, tag, note)[0] == msgs[0];
    }
  }

  lemma GetStepKeepsHistoryOk(a: EventArgs, msgs: seq<Message>, db: map<string, seq<Event>>, finalResponse: string,
                              userText: string)
    requires AgentHistoryOk(msgs, userText)
    ensures AgentHistoryOk(GetStep(a, msgs, db, finalResponse).messages, userText)
  {
    var x := Render(a.clientUUID);
    var listed := msgs + Listing(x, Documents(db, CollectionName(x)));
    assert listed[0] == msgs[0];
    assert Message(User, userText) in listed;
    GetConfirmationTagged(x);
    UpsertKeepsHistoryOk(listed, GetTag, Message(System, GetConfirmation(x)), userText);
  }

  /** The history after `add_client_event`: unchanged, or the confirmation upserted. */
  lemma AddStepMessages(a: EventArgs, msgs: seq<Message>, db: map<string, seq<Event>>, finalResponse: string,
                        generated: string)
    ensures var built := CreateEventObject(NewEventInput(a), generated);
      var s := AddStep(a, msgs, db, finalResponse, generated);
      || s.messages == msgs
      || (&& built.Ok? && built.value.collaborators.Val? && built.value.reminders.Val?
          && s.messages == Upsert(msgs, AddTag, Message(System, AddConfirmation(Render(a.clientUUID), built.value))))
  {
  }

  lemma AddStepKeepsHistoryOk(a: EventArgs, msgs: seq<Message>, db: map<string, seq<Event>>, finalResponse: string,
                              generated: string, userText: string)
    requires AgentHistoryOk(msgs, userText)
    ensures AgentHistoryOk(AddStep(a, msgs, db, finalResponse, generated).messages, userText)
  {
    var built := CreateEventObject(NewEventInput(a), generated);
    var s := AddStep(a, msgs, db, finalResponse, generated);
    AddStepMessages(a, msgs, db, finalResponse, generated);
    if s.messages != msgs {
      var note := Message(System, AddConfirmation(Render(a.clientUUID), built.value));
      AddConfirmationTagged(Render(a.clientUUID), built.value);
      UpsertKeepsHistoryOk(msgs, AddTag, note, userText);
    }
  }

  lemma StopStepKeepsHistoryOk(content: string, msgs: seq<Message>, userText: string)
    requires AgentHistoryOk(msgs, userText)
    ensures AgentHistoryOk(AppendIfAbsent(msgs + [Message(Assistant, content)], EndThreadText), userText)
  {
    var answered := msgs + [Message(Assistant, content)];
    assert answered[0] == msgs[0];
    assert Message(User, userText) in answered;
  }

  /** Every step keeps the history invariant. */
  lemma StepKeepsHistoryOk(response: Response<EventArgs>, msgs: seq<Message>, db: map<string, seq<Event>>,
                           finalResponse: string, generated: string, userText: string)
    requires AgentHistoryOk(msgs, userText)
    ensures AgentHistoryOk(EventsStep(response, msgs, db, finalResponse, generated).messages, userText)
  {
    var s := EventsStep(response, msgs, db, finalResponse, generated);
    match response
    case Stop(content) =>
      StopStepKeepsHistoryOk(content, msgs, userText);
    case OtherFinish =>
    case ToolCalls(calls) =>
      if |calls| > 0 && calls[0].arguments.Some? && calls[0].name == GetTag {
        assert s == GetStep(calls[0].arguments.value, msgs, db, finalResponse);
        GetStepKeepsHistoryOk(calls[0].arguments.value, msgs, db, finalResponse, userText);
      } else if |calls| > 0 && calls[0].arguments.Some? && calls[0].name == AddTag {
        assert s == AddStep(calls[0].arguments.value, msgs, db, finalResponse, generated);
        AddStepKeepsHistoryOk(calls[0].arguments.value, msgs, db, finalResponse, generated, userText);
      } else {
        assert s.messages == msgs;
      }
  }

  lemma {:induction false} EventsRunKeepsHistoryOk(svc: AgentServices, clientUUID: string, loopCounter: nat,
                                                   msgs: seq<Message>, db: map<string, seq<Event>>,
                                                   finalResponse: string, sent: seq<seq<Message>>, userText: string)
    requires AgentHistoryOk(msgs, userText)
    requires forall h :: h in sent ==> AgentHistoryOk(h, userText)
    ensures var r := EventsRun(svc, clientUUID, loopCounter, msgs, db, finalResponse, sent);
      AgentHistoryOk(r.messages, userText) && forall h :: h in r.requests ==> AgentHistoryOk(h, userText)
    decreases 7 - loopCounter
  {
    if loopCounter <= 6 {
      match svc.complete(loopCounter, msgs)
      case None =>
      case Some(response) =>
        EventsRunStep(svc, clientUUID, loopCounter, msgs, db, finalResponse, sent, response);
        var s := EventsStep(response, msgs, db, clientUUID, svc.generateUuid(loopCounter));
        StepKeepsHistoryOk(response, msgs, db, clientUUID, svc.generateUuid(loopCounter), userText);
        if s.reply.Some? && s.reply.value.result == "" {
          EventsRunKeepsHistoryOk(svc, clientUUID, loopCounter + 1, s.messages, s.events,
                                  s.reply.value.finalized, sent + [msgs], userText);
        }
    }
  }

  /** Every history that `queryEventsAgent` sends, and the one it ends with, starts with a
      system message naming `get_client_events` and still holds the user message. */
  lemma EventsAgentHistoryOk(svc: AgentServices, clientUUID: string, modelQuery: string, db: map<string, seq<Event>>)
    ensures var r := EventsAgentRun(svc, clientUUID, modelQuery, db);
      && AgentHistoryOk(r.messages, UserText(clientUUID, modelQuery))
      && forall h :: h in r.requests ==> AgentHistoryOk(h, UserText(clientUUID, modelQuery))
  {
    PromptTagged();
    var start := InitialHistory(clientUUID, modelQuery);
    assert start[1] == Message(User, UserText(clientUUID, modelQuery));
    EventsRunKeepsHistoryOk(svc, clientUUID, 1, start, db, "", [], UserText(clientUUID, modelQuery));
  }

  // ---------------------------------------------------------------------------------------
  // Single steps

  /** A listing is one "no events" note, or a header and one line per event in collection
      order; every listed message is a system message. */
  lemma ListingShape(x: string, events: seq<Event>)
    ensures var l := Listing(x, events);
      && |l| == |events| + 1
      && (|events| == 0 ==> l[0] == Message(System, NoEventsNote(x)))
      && (|events| > 0 ==> l[0] == Message(System, EventsHeader(x)))
      && (forall i :: 0 <= i < |events| ==> l[i + 1] == Message(System, EventLine(events[i])))
      && (forall m :: m in l ==> m.role == System)
  {
    var l := Listing(x, events);
    if |events| > 0 {
      var lines := EventLines(events);
      assert l == [Message(System, EventsHeader(x))] + lines;
      forall i | 0 <= i < |events| ensures l[i + 1] == Message(System, EventLine(events[i])) {
        assert l[i + 1] == lines[i];
      }
      forall m | m in l ensures m.role == System {
        if m != l[0] {
          assert m in lines;
        }
      }
    }
  }

  /** `get_client_events` lists the events of the client named in its arguments, whatever
      client the run is for; the confirmation then replaces the first message (which names
      `get_client_events`, see `AgentHistoryOk`), the store is untouched and the loop goes
      on with the caller's `finalResponse`. */
  lemma GetStepReplacesFirst(a: EventArgs, msgs: seq<Message>, db: map<string, seq<Event>>, finalResponse: string)
    requires |msgs| > 0 && Tagged(msgs[0], GetTag)
    ensures var x := Render(a.clientUUID);
      GetStep(a, msgs, db, finalResponse)
      == AgentStep(Some(Reply("", finalResponse)),
                   [Message(System, GetConfirmation(x))] + msgs[1..] + Listing(x, Documents(db, CollectionName(x))),
                   db)
  {
    var x := Render(a.clientUUID);
    var listed := msgs + Listing(x, Documents(db, CollectionName(x)));
    assert listed[0] == msgs[0];
    assert FindTagged(listed, GetTag) == 0;
    assert listed[0 := Message(System, GetConfirmation(x))]
        == [Message(System, GetConfirmation(x))] + msgs[1..] + Listing(x, Documents(db, CollectionName(x)));
  }

  /** The first `get_client_events` of a run overwrites the instruction set: the history
      becomes the confirmation, the user message and the listing. */
  lemma FirstGetReplacesPrompt(a: EventArgs, clientUUID: string, modelQuery: string, db: map<string, seq<Event>>,
                               finalResponse: string)
    ensures var x := Render(a.clientUUID);
      GetStep(a, InitialHistory(clientUUID, modelQuery), db, finalResponse).messages
      == [Message(System, GetConfirmation(x)), Message(User, UserText(clientUUID, modelQuery))]
         + Listing(x, Documents(db, CollectionName(x)))
  {
    PromptTagged();
    GetStepReplacesFirst(a, InitialHistory(clientUUID, modelQuery), db, finalResponse);
  }

  /** A stop appends the answer and one end-of-thread note (unless an identical note is
      there), leaves the store alone, and ends the run exactly when the answer is
      non-empty. */
  lemma StopStep(content: string, msgs: seq<Message>, db: map<string, seq<Event>>, finalResponse: string,
                 generated: string)
    requires multiset(msgs)[EndThreadNote] <= 1
    ensures var s := EventsStep(Stop(content), msgs, db, finalResponse, generated);
      && s.reply == Some(Reply(content, content))
      && s.events == db
      && |msgs| < |s.messages| <= |msgs| + 2
      && s.messages[..|msgs| + 1] == msgs + [Message(Assistant, content)]
      && multiset(s.messages)[EndThreadNote] == 1
      && (|s.messages| == |msgs| + 2 ==> s.messages[|msgs| + 1] == EndThreadNote)
  {
    var answered := msgs + [Message(Assistant, content)];
    assert multiset(answered) == multiset(msgs) + multiset{Message(Assistant, content)};
    AppendIfAbsentOneCopy(answered, EndThreadText);
    var s := EventsStep(Stop(content), msgs, db, finalResponse, generated);
    assert s.messages[..|msgs| + 1] == answered;
  }

  /** A stop with a non-empty answer ends the run with that answer. */
  lemma StopEndsRun(svc: AgentServices, clientUUID: string, loopCounter: nat, msgs: seq<Message>,
                    db: map<string, seq<Event>>, finalResponse: string, sent: seq<seq<Message>>, content: string)
    requires loopCounter <= 6 && svc.complete(loopCounter, msgs) == Some(Stop(content)) && content != ""
    ensures var r := EventsRun(svc, clientUUID, loopCounter, msgs, db, finalResponse, sent);
      && r.answer == content
      && r.messages == AppendIfAbsent(msgs + [Message(Assistant, content)], EndThreadText)
      && r.events == db
      && r.requests == sent + [msgs]
  {
    EventsRunStep(svc, clientUUID, loopCounter, msgs, db, finalResponse, sent, Stop(content));
  }

  /** `add_client_event` with a title and a date stores one event, built by
      `createEventObject` with the drawn uuid, at the end of the collection of the client
      named in its arguments (and nowhere else). With lists for collaborators and reminders
      the loop goes on with the caller's `finalResponse`, and the confirmation is appended
      when no system message names `add_client_event`. */
  lemma AddStepStores(a: EventArgs, msgs: seq<Message>, db: map<string, seq<Event>>, finalResponse: string,
                      generated: string)
    requires Truthy(a.title) && Truthy(a.date) && generated != ""
    ensures var x := Render(a.clientUUID);
      var e := CreateEventObject(NewEventInput(a), generated).value;
      var s := AddStep(a, msgs, db, finalResponse, generated);
      && e.uuid == Val(generated)
      && s.events == db[CollectionName(x) := Documents(db, CollectionName(x)) + [e]]
      && (forall c :: c != x ==> Documents(s.events, CollectionName(c)) == Documents(db, CollectionName(c)))
      && (a.collaborators != Null && a.reminders != Null ==>
            && s.reply == Some(Reply("", finalResponse))
            && (FindTagged(msgs, AddTag) == -1 ==> s.messages == msgs + [Message(System, AddConfirmation(x, e))]))
  {
    var x := Render(a.clientUUID);
    var e := CreateEventObject(NewEventInput(a), generated).value;
    forall c | c != x ensures Documents(db[CollectionName(x) := Documents(db, CollectionName(x)) + [e]], CollectionName(c))
                              == Documents(db, CollectionName(c)) {
      InsertIsolated(db, x, c, e);
    }
  }

  /** An event without a title or a date makes `createEventObject` throw: nothing is stored
      and the history is unchanged. */
  lemma AddWithoutTitleOrDateThrows(a: EventArgs, msgs: seq<Message>, db: map<string, seq<Event>>,
                                    finalResponse: string, generated: string)
    requires !Truthy(a.title) || !Truthy(a.date)
    ensures AddStep(a, msgs, db, finalResponse, generated) == AgentStep(None, msgs, db)
  {
  }

  /** A `null` list of collaborators or reminders makes the confirmation throw after the
      event was stored: the run fails but the event stays. */
  lemma AddNullListThrowsAfterWrite(a: EventArgs, msgs: seq<Message>, db: map<string, seq<Event>>,
                                    finalResponse: string, generated: string)
    requires Truthy(a.title) && Truthy(a.date) && generated != ""
    requires a.collaborators == Null || a.reminders == Null
    ensures var s := AddStep(a, msgs, db, finalResponse, generated);
      && s.reply.None? && s.messages == msgs
      && |Documents(s.events, CollectionName(Render(a.clientUUID)))| == |Documents(db, CollectionName(Render(a.clientUUID)))| + 1
  {
  }

  /** `eventsAbstraction` throws, or returns `undefined`, exactly for: a finish reason other
      than `stop` and `tool_calls`, an empty tool-call list, `update_client_event` and
      `delete_client_event`, arguments that do not parse, and an `add_client_event` whose
      event cannot be built, stored or rendered. */
  lemma StepThrowsExactly(response: Response<EventArgs>, msgs: seq<Message>, db: map<string, seq<Event>>,
                          finalResponse: string, generated: string)
    ensures var s := EventsStep(response, msgs, db, finalResponse, generated);
      s.reply.None? <==>
        || response.OtherFinish?
        || (response.ToolCalls? && |response.calls| == 0)
        || (response.ToolCalls? && |response.calls| > 0
            && response.calls[0].name in {"update_client_event", "delete_client_event"})
        || (response.ToolCalls? && |response.calls| > 0
            && response.calls[0].name in {GetTag, AddTag, "suspend_thread"} && response.calls[0].arguments.None?)
        || (response.ToolCalls? && |response.calls| > 0
            && response.calls[0].name == AddTag && response.calls[0].arguments.Some?
            && AddStep(response.calls[0].arguments.value, msgs, db, finalResponse, generated).reply.None?)
  {
  }

  /** When `add_client_event` fails, only a `null` collaborator or reminder list leaves a
      trace: a failure to build or store the event changes nothing. */
  lemma AddFailureLeavesStore(a: EventArgs, msgs: seq<Message>, db: map<string, seq<Event>>, finalResponse: string,
                              generated: string)
    ensures var s := AddStep(a, msgs, db, finalResponse, generated);
      s.reply.None? ==> s.messages == msgs && (s.events == db || a.collaborators == Null || a.reminders == Null)
  {
  }

  /** A step that throws ends the run with the error text. */
  lemma ThrowingStepGivesErrorText(svc: AgentServices, clientUUID: string, loopCounter: nat, msgs: seq<Message>,
                                   db: map<string, seq<Event>>, finalResponse: string, sent: seq<seq<Message>>,
                                   response: Response<EventArgs>)
    requires loopCounter <= 6 && svc.complete(loopCounter, msgs) == Some(response)
    requires EventsStep(response, msgs, db, clientUUID, svc.generateUuid(loopCounter)).reply.None?
    ensures var s := EventsStep(response, msgs, db, clientUUID, svc.generateUuid(loopCounter));
      EventsRun(svc, clientUUID, loopCounter, msgs, db, finalResponse, sent)
      == AgentRun(ErrorText, s.messages, s.events, sent + [msgs])
  {
    EventsRunStep(svc, clientUUID, loopCounter, msgs, db, finalResponse, sent, response);
  }

  /** `update_client_event` and `delete_client_event` end the run with the error text and
      change nothing. */
  lemma UnimplementedToolsFail(svc: AgentServices, clientUUID: string, loopCounter: nat, msgs: seq<Message>,
                               db: map<string, seq<Event>>, finalResponse: string, sent: seq<seq<Message>>,
                               calls: seq<Call<EventArgs>>)
    requires loopCounter <= 6 && svc.complete(loopCounter, msgs) == Some(ToolCalls(calls))
    requires |calls| > 0 && (calls[0].name == "update_client_event" || calls[0].name == "delete_client_event")
    ensures EventsRun(svc, clientUUID, loopCounter, msgs, db, finalResponse, sent)
         == AgentRun(ErrorText, msgs, db, sent + [msgs])
  {
    EventsRunStep(svc, clientUUID, loopCounter, msgs, db, finalResponse, sent, ToolCalls(calls));
  }

  /** A completion whose finish reason is neither `stop` nor `tool_calls` ends the run with
      the error text. */
  lemma OtherFinishFails(svc: AgentServices, clientUUID: string, loopCounter: nat, msgs: seq<Message>,
                         db: map<string, seq<Event>>, finalResponse: string, sent: seq<seq<Message>>)
    requires loopCounter <= 6 && svc.complete(loopCounter, msgs) == Some(OtherFinish)
    ensures EventsRun(svc, clientUUID, loopCounter, msgs, db, finalResponse, sent)
         == AgentRun(ErrorText, msgs, db, sent + [msgs])
  {
    EventsRunStep(svc, clientUUID, loopCounter, msgs, db, finalResponse, sent, OtherFinish);
  }

  /** Every reply except a stop's hands back the `finalResponse` it was given, which in a
      run is the client UUID. */
  lemma NonStopKeepsFinalized(response: Response<EventArgs>, msgs: seq<Message>, db: map<string, seq<Event>>,
                              finalResponse: string, generated: string)
    requires !response.Stop?
    ensures var s := EventsStep(response, msgs, db, finalResponse, generated);
      s.reply.Some? ==> s.reply.value.finalized == finalResponse
  {
    if response.ToolCalls? && |response.calls| > 0 && response.calls[0].name == AddTag
       && response.calls[0].arguments.Some? {
      assert EventsStep(response, msgs, db, finalResponse, generated)
          == AddStep(response.calls[0].arguments.value, msgs, db, finalResponse, generated);
    }
  }

  /** `suspend_thread` ends the run with the client UUID (the text bound to `finalResponse`),
      or with the suspension text when the UUID is empty. */
  lemma SuspendReturnsClientUUID(svc: AgentServices, clientUUID: string, loopCounter: nat, msgs: seq<Message>,
                                 db: map<string, seq<Event>>, finalResponse: string, sent: seq<seq<Message>>,
                                 calls: seq<Call<EventArgs>>)
    requires loopCounter <= 6 && svc.complete(loopCounter, msgs) == Some(ToolCalls(calls))
    requires |calls| > 0 && calls[0].name == "suspend_thread" && calls[0].arguments.Some?
    ensures var r := EventsRun(svc, clientUUID, loopCounter, msgs, db, finalResponse, sent);
      && r.answer == (if clientUUID != "" then clientUUID else SuspendedWithoutStop)
      && r.messages == msgs && r.events == db
      && r.requests == sent + [msgs]
  {
    EventsRunStep(svc, clientUUID, loopCounter, msgs, db, finalResponse, sent, ToolCalls(calls));
  }

  predicate KnownTool(name: string) {
    name in {GetTag, AddTag, "update_client_event", "delete_client_event", "suspend_thread"}
  }

  /** When every response calls a tool the agent does not know, all remaining requests are
      made and the run answers with the client UUID (or the max-attempts text when the
      UUID is empty), not with the max-attempts text as a run without an answer would. */
  lemma {:induction false} UnknownToolsAnswerClientUUID(svc: AgentServices, clientUUID: string, loopCounter: nat,
                                                        msgs: seq<Message>, db: map<string, seq<Event>>,
                                                        finalResponse: string, sent: seq<seq<Message>>)
    requires 1 <= loopCounter <= 6
    requires forall k, m :: loopCounter <= k <= 6 ==>
               svc.complete(k, m).Some? && svc.complete(k, m).value.ToolCalls?
               && |svc.complete(k, m).value.calls| > 0 && !KnownTool(svc.complete(k, m).value.calls[0].name)
    ensures var r := EventsRun(svc, clientUUID, loopCounter, msgs, db, finalResponse, sent);
      && r.answer == (if clientUUID != "" then clientUUID else MaxAttempts)
      && r.messages == msgs && r.events == db
      && |r.requests| == |sent| + 7 - loopCounter
    decreases 7 - loopCounter
  {
    var response := svc.complete(loopCounter, msgs).value;
    EventsRunStep(svc, clientUUID, loopCounter, msgs, db, finalResponse, sent, response);
    assert EventsStep(response, msgs, db, clientUUID, svc.generateUuid(loopCounter))
        == AgentStep(Some(Reply("", clientUUID)), msgs, db);
    if loopCounter < 6 {
      UnknownToolsAnswerClientUUID(svc, clientUUID, loopCounter + 1, msgs, db, clientUUID, sent + [msgs]);
    }
  }
}
