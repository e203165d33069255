/** Chat messages, completion responses and the in-place message history shared by
    both tool-calling loops (`messages` in src/inference.js and src/agents/eventsAgent.js). */
module Chat {
  import opened Common

  datatype Role = User | Assistant | System

  datatype Message = Message(role: Role, content: string)

  /** One tool call of a completion; `arguments` is `None` when `JSON.parse` of the
      argument text throws. */
  datatype Call<A> = Call(name: string, arguments: Option<A>)

  /** `response.choices[0]` of a completion, classified by `finish_reason`. */
  datatype Response<A> =
    | Stop(content: string)              // finish_reason 'stop'
    | ToolCalls(calls: seq<Call<A>>)     // finish_reason 'tool_calls'; only calls[0] is honoured
    | OtherFinish                        // any other finish_reason

  /** What one abstraction step hands back to its loop: `{ result, finalizedResponse }`.
      A falsy `result` (null or '') is the empty string here. */
  datatype Reply = Reply(result: string, finalized: string)

  /** Shared opening of the loops' "state flag" notes. */
  const SeeingHead: string := "If you are " + "seeing this message "
  const Seeing: string := SeeingHead + "that means you've "

  const EndThreadRest: string :=
    "that means you've " + "returned a complete response. " + ("Call the 'suspend_thread' function " + "to end the conversation.")
  const EndThreadText: string := SeeingHead + EndThreadRest

  /** The only capital I of the end-of-thread note is its first character. */
  lemma EndNoteTailLacksI()
    ensures 'I' !in EndThreadText[1..]
  {
    assert EndThreadText[1..] == SeeingHead[1..] + EndThreadRest;
    SeeingHeadTailLacksI();
    EndNoteRestLacksI();
  }

  lemma SeeingHeadTailLacksI()
    ensures 'I' !in SeeingHead[1..]
  {
    assert SeeingHead[1..] == "If you are "[1..] + "seeing this message ";
    assert 'I' !in "If you are "[1..];
    assert 'I' !in "seeing this message ";
  }

  lemma EndNoteRestLacksI()
    ensures 'I' !in EndThreadRest
  {
    EndNoteRestStartLacksI();
    EndNoteRestEndLacksI();
  }

  lemma EndNoteRestStartLacksI()
    ensures 'I' !in "that means you've " + "returned a complete response. "
  {
    assert 'I' !in "that means you've ";
    assert 'I' !in "returned a complete response. ";
  }

  lemma EndNoteRestEndLacksI()
    ensures 'I' !in "Call the 'suspend_thread' function " + "to end the conversation."
  {
    assert 'I' !in "Call the 'suspend_thread' function ";
    assert 'I' !in "to end the conversation.";
  }

  /** The end-of-thread note both loops add after a final answer. */
  const EndThreadNote: Message := Message(System, EndThreadText)

  /** The fixed answers of both loops: after a thrown error, after the last attempt without a
      remembered answer, and for a suspension without one. */
  const ErrorText: string := "An error occurred while processing your request."
  const MaxAttempts: string :=
    "The maximum number of attempts has been reached. " + "Please refine your query or try again later."
  const SuspendedWithoutStop: string := "Thread was suspended without a prior stop."

  /** `message.role === "system" && message.content.includes(tag)` */
  predicate Tagged(m: Message, tag: string) {
    m.role == System && Contains(m.content, tag)
  }

  /** `messages.findIndex(...)` for the first system message containing `tag`, or -1. */
  function FindTagged(msgs: seq<Message>, tag: string): (i: int)
    ensures -1 <= i < |msgs|
    ensures i >= 0 ==> Tagged(msgs[i], tag) && forall j :: 0 <= j < i ==> !Tagged(msgs[j], tag)
    ensures i == -1 ==> forall j :: 0 <= j < |msgs| ==> !Tagged(msgs[j], tag)
    decreases |msgs|
  {
    if |msgs| == 0 then -1
    else if Tagged(msgs[0], tag) then 0
    else
      var k := FindTagged(msgs[1..], tag);
      if k == -1 then -1 else k + 1
  }

  /** The number of system messages containing `tag`. */
  function CountTagged(msgs: seq<Message>, tag: string): nat
    decreases |msgs|
  {
    if |msgs| == 0 then 0
    else (if Tagged(msgs[0], tag) then 1 else 0) + CountTagged(msgs[1..], tag)
  }

  /** Upsert-by-tag: replace the first system message containing `tag` with `note`,
      or append `note` when there is none. */
  function Upsert(msgs: seq<Message>, tag: string, note: Message): seq<Message> {
    var i := FindTagged(msgs, tag);
    if i != -1 then msgs[i := note] else msgs + [note]
  }

  /** `messages.some(m => m.role === "system" && m.content === note.content)` */
  predicate HasSystemNote(msgs: seq<Message>, text: string) {
    Message(System, text) in msgs
  }

  /** Push a system note only if an identical one is absent. */
  function AppendIfAbsent(msgs: seq<Message>, text: string): seq<Message> {
    if HasSystemNote(msgs, text) then msgs else msgs + [Message(System, text)]
  }

  /** The number of messages with a given role. */
  function CountRole(msgs: seq<Message>, role: Role): nat
    decreases |msgs|
  {
    if |msgs| == 0 then 0
    else (if msgs[0].role == role then 1 else 0) + CountRole(msgs[1..], role)
  }

  lemma {:induction false} CountTaggedAppend(msgs: seq<Message>, m: Message, tag: string)
    ensures CountTagged(msgs + [m], tag) == CountTagged(msgs, tag) + (if Tagged(m, tag) then 1 else 0)
    decreases |msgs|
  {
    if msgs != [] {
      assert (msgs + [m])[1..] == msgs[1..] + [m];
      CountTaggedAppend(msgs[1..], m, tag);
    }
  }

  lemma {:induction false} CountTaggedPrepend(m: Message, msgs: seq<Message>, tag: string)
    ensures CountTagged([m] + msgs, tag) == CountTagged(msgs, tag) + (if Tagged(m, tag) then 1 else 0)
  {
    assert ([m] + msgs)[1..] == msgs;
  }

  lemma {:induction false} CountTaggedUpdate(msgs: seq<Message>, i: nat, m: Message, tag: string)
    requires i < |msgs|
    ensures CountTagged(msgs[i := m], tag)
         == CountTagged(msgs, tag) - (if Tagged(msgs[i], tag) then 1 else 0) + (if Tagged(m, tag) then 1 else 0)
    decreases |msgs|
  {
    if i > 0 {
      assert msgs[i := m][1..] == msgs[1..][i - 1 := m];
      CountTaggedUpdate(msgs[1..], i - 1, m, tag);
    }
  }

  lemma {:induction false} CountTaggedPositive(msgs: seq<Message>, i: nat, tag: string)
    requires i < |msgs| && Tagged(msgs[i], tag)
    ensures CountTagged(msgs, tag) > 0
    decreases |msgs|
  {
    if i > 0 {
      CountTaggedPositive(msgs[1..], i - 1, tag);
    }
  }

  lemma {:induction false} CountTaggedZero(msgs: seq<Message>, tag: string)
    requires forall j :: 0 <= j < |msgs| ==> !Tagged(msgs[j], tag)
    ensures CountTagged(msgs, tag) == 0
    decreases |msgs|
  {
    if msgs != [] {
      CountTaggedZero(msgs[1..], tag);
    }
  }

  lemma {:induction false} CountRoleAppend(msgs: seq<Message>, m: Message, role: Role)
    ensures CountRole(msgs + [m], role) == CountRole(msgs, role) + (if m.role == role then 1 else 0)
    decreases |msgs|
  {
    if msgs != [] {
      assert (msgs + [m])[1..] == msgs[1..] + [m];
      CountRoleAppend(msgs[1..], m, role);
    }
  }

  lemma {:induction false} CountRoleUpdate(msgs: seq<Message>, i: nat, m: Message, role: Role)
    requires i < |msgs|
    ensures CountRole(msgs[i := m], role)
         == CountRole(msgs, role) - (if msgs[i].role == role then 1 else 0) + (if m.role == role then 1 else 0)
    decreases |msgs|
  {
    if i > 0 {
      assert msgs[i := m][1..] == msgs[1..][i - 1 := m];
      CountRoleUpdate(msgs[1..], i - 1, m, role);
    }
  }

  /** Upserting a note that carries its own tag leaves exactly one tagged note when there
      was at most one before, and that note is the first tagged message. */
  lemma UpsertKeepsOneNote(msgs: seq<Message>, tag: string, note: Message)
    requires Tagged(note, tag)
    ensures CountTagged(msgs, tag) == 0 ==> CountTagged(Upsert(msgs, tag, note), tag) == 1
    ensures CountTagged(msgs, tag) > 0 ==> CountTagged(Upsert(msgs, tag, note), tag) == CountTagged(msgs, tag)
    ensures var r := Upsert(msgs, tag, note); FindTagged(r, tag) != -1 && r[FindTagged(r, tag)] == note
  {
    var i := FindTagged(msgs, tag);
    if i != -1 {
      CountTaggedUpdate(msgs, i, note, tag);
      CountTaggedPositive(msgs, i, tag);
    } else {
      CountTaggedZero(msgs, tag);
      CountTaggedAppend(msgs, note, tag);
    }
    var r := Upsert(msgs, tag, note);
    var k := FindTagged(r, tag);
    if i != -1 {
      assert Tagged(r[i], tag);
      assert k == i;
    } else {
      assert Tagged(r[|msgs|], tag);
      assert k == |msgs|;
    }
  }

  /** Upserting the same tagged note twice is the same as upserting it once. */
  lemma UpsertIdempotent(msgs: seq<Message>, tag: string, note: Message)
    requires Tagged(note, tag)
    ensures Upsert(Upsert(msgs, tag, note), tag, note) == Upsert(msgs, tag, note)
  {
    UpsertKeepsOneNote(msgs, tag, note);
  }

  /** Upsert touches only a message carrying the tag: every other message keeps its place. */
  lemma UpsertKeepsUntagged(msgs: seq<Message>, tag: string, note: Message)
    ensures var r := Upsert(msgs, tag, note);
      && |msgs| <= |r| <= |msgs| + 1
      && forall j :: 0 <= j < |msgs| && !Tagged(msgs[j], tag) ==> r[j] == msgs[j]
  {
  }

  /** Upsert never removes a message that is not a system message. */
  lemma UpsertKeepsNonSystem(msgs: seq<Message>, tag: string, note: Message)
    ensures forall m :: m in msgs && m.role != System ==> m in Upsert(msgs, tag, note)
  {
    var r := Upsert(msgs, tag, note);
    UpsertKeepsUntagged(msgs, tag, note);
    forall m | m in msgs && m.role != System ensures m in r {
      var j :| 0 <= j < |msgs| && msgs[j] == m;
      assert r[j] == m;
    }
  }

  lemma {:induction false} CountRolePrepend(m: Message, msgs: seq<Message>, role: Role)
    ensures CountRole([m] + msgs, role) == CountRole(msgs, role) + (if m.role == role then 1 else 0)
  {
    assert ([m] + msgs)[1..] == msgs;
  }

  /** After appending a note only if absent, exactly one copy exists when there was at most one. */
  lemma {:induction false} AppendIfAbsentOneCopy(msgs: seq<Message>, text: string)
    requires multiset(msgs)[Message(System, text)] <= 1
    ensures multiset(AppendIfAbsent(msgs, text))[Message(System, text)] == 1
    ensures AppendIfAbsent(AppendIfAbsent(msgs, text), text) == AppendIfAbsent(msgs, text)
  {
    var n := Message(System, text);
    if n !in msgs {
      assert multiset(msgs + [n]) == multiset(msgs) + multiset{n};
      assert n in msgs + [n];
    }
  }

  /** The `messages` array, mutated in place by `push`, `unshift` and index assignment. */
  class MessageHistory {
    var messages: seq<Message>

    constructor ()
      ensures messages == []
    {
      messages := [];
    }

    /** `messages.push(m)` */
    method Push(m: Message)
      modifies this
      ensures messages == old(messages) + [m]
    {
      messages := messages + [m];
    }

    /** `messages.unshift(m)` */
    method Unshift(m: Message)
      modifies this
      ensures messages == [m] + old(messages)
    {
      messages := [m] + messages;
    }

    /** `messages[i] = m` */
    method Set(i: nat, m: Message)
      requires i < |messages|
      modifies this
      ensures messages == old(messages)[i := m]
    {
      messages := messages[i := m];
    }

    /** Find the first system message containing `tag` and replace it with `note`,
        otherwise push `note`. */
    method UpsertTagged(tag: string, note: Message)
      modifies this
      ensures messages == Upsert(old(messages), tag, note)
    {
      var i := FindTagged(messages, tag);
      if i != -1 {
        Set(i, note);
      } else {
        Push(note);
      }
    }

    /** Push a system note unless `messages.some` finds an identical one. */
    method PushIfAbsent(text: string)
      modifies this
      ensures messages == AppendIfAbsent(old(messages), text)
    {
      if !HasSystemNote(messages, text) {
        Push(Message(System, text));
      }
    }
  }
}
