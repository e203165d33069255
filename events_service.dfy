/** Calendar events and their per-client collections (src/agent-services/eventsService.js).
    A client's events live in the collection named `${clientUUID}_events`; MongoDB itself
    is modelled as a map from collection name to the documents in insertion order. */
module EventsService {
  import opened Common

  datatype Collaborator = Collaborator(name: string)

  datatype Reminder = Reminder(timeBefore: string, via: string)

  /** An event object. Every field is a JavaScript value, because callers may omit a field
      (undefined) or pass null, and the code treats those cases differently. */
  datatype Event = Event(
    uuid: Js<string>,
    title: Js<string>,
    date: Js<string>,
    startTime: Js<string>,
    endTime: Js<string>,
    location: Js<string>,
    description: Js<string>,
    collaborators: Js<seq<Collaborator>>,
    reminders: Js<seq<Reminder>>,
    allDay: Js<bool>)

  const MissingTitleOrDate: string := "Event must have a title and a date."
  const MissingUuid: string := "Event must have a UUID."

  function NotFound(eventUUID: string): string {
    "Event with UUID " + eventUUID + " not found."
  }

  /** A destructuring default: it applies to `undefined` only, never to `null`. */
  function Default<T>(x: Js<T>, fallback: T): Js<T> {
    if x.Undefined? then Val(fallback) else x
  }

  /** Truthiness of `all_day`. */
  predicate IsAllDay(x: Js<bool>) {
    x.Val? && x.v
  }

  /** What `createEventObject` guarantees of every event it builds. */
  predicate Normalised(e: Event) {
    && !e.uuid.Undefined? && Truthy(e.title) && Truthy(e.date)
    && !e.location.Undefined? && !e.description.Undefined?
    && !e.collaborators.Undefined? && !e.reminders.Undefined? && !e.allDay.Undefined?
    && (IsAllDay(e.allDay) ==> e.startTime == Null && e.endTime == Null)
  }

  /** `createEventObject(input)`: validate the title and date, apply the defaults, and
      clear both times of an all-day event. `generatedUuid` is what `generateUUID()`
      returns; it is used only when the input has no uuid. */
  function CreateEventObject(input: Event, generatedUuid: string): (r: Result<Event>)
    ensures r.Err? <==> !Truthy(input.title) || !Truthy(input.date)
    ensures r.Err? ==> r.error == MissingTitleOrDate
    ensures r.Ok? ==> Normalised(r.value)
  {
    if !Truthy(input.title) || !Truthy(input.date) then
      Err(MissingTitleOrDate)
    else
      var allDay := Default(input.allDay, false);
      Ok(Event(
        uuid := Default(input.uuid, generatedUuid),
        title := input.title,
        date := input.date,
        startTime := if IsAllDay(allDay) then Null else input.startTime,
        endTime := if IsAllDay(allDay) then Null else input.endTime,
        location := Default(input.location, ""),
        description := Default(input.description, ""),
        collaborators := Default(input.collaborators, []),
        reminders := Default(input.reminders, []),
        allDay := allDay))
  }

  /** An all-day event has both times cleared whatever was supplied; any other event keeps
      the supplied times unchanged. */
  lemma AllDayClearsTimes(input: Event, generatedUuid: string)
    requires CreateEventObject(input, generatedUuid).Ok?
    ensures var e := CreateEventObject(input, generatedUuid).value;
      && (IsAllDay(input.allDay) ==> e.startTime == Null && e.endTime == Null)
      && (!IsAllDay(input.allDay) ==> e.startTime == input.startTime && e.endTime == input.endTime)
  {
  }

  /** Omitted fields take their defaults: a fresh uuid, empty location and description, no
      collaborators or reminders, and not all-day; a supplied field, null included, is kept,
      and so are title and date. */
  lemma CreateEventObjectDefaults(input: Event, generatedUuid: string)
    requires Truthy(input.title) && Truthy(input.date)
    ensures var e := CreateEventObject(input, generatedUuid).value;
      && e.title == input.title && e.date == input.date
      && (input.uuid.Undefined? ==> e.uuid == Val(generatedUuid))
      && (!input.uuid.Undefined? ==> e.uuid == input.uuid)
      && (input.location.Undefined? ==> e.location == Val(""))
      && (!input.location.Undefined? ==> e.location == input.location)
      && (input.description.Undefined? ==> e.description == Val(""))
      && (!input.description.Undefined? ==> e.description == input.description)
      && (input.collaborators.Undefined? ==> e.collaborators == Val([]))
      && (!input.collaborators.Undefined? ==> e.collaborators == input.collaborators)
      && (input.reminders.Undefined? ==> e.reminders == Val([]))
      && (!input.reminders.Undefined? ==> e.reminders == input.reminders)
      && (input.allDay.Undefined? ==> e.allDay == Val(false))
      && (!input.allDay.Undefined? ==> e.allDay == input.allDay)
  {
  }

  /** Building an event from an event that was already built changes nothing. */
  lemma CreateEventObjectIdempotent(input: Event, u1: string, u2: string)
    requires CreateEventObject(input, u1).Ok?
    ensures CreateEventObject(CreateEventObject(input, u1).value, u2) == CreateEventObject(input, u1)
  {
  }

  /** The name of a client's event collection. */
  function CollectionName(clientUUID: string): string {
    clientUUID + "_events"
  }

  /** Different clients have different event collections. */
  lemma CollectionNameInjective(a: string, b: string)
    requires a != b
    ensures CollectionName(a) != CollectionName(b)
  {
    var na, nb := CollectionName(a), CollectionName(b);
    assert na[..|a|] == a && nb[..|b|] == b;
    assert |na| == |a| + 7 && |nb| == |b| + 7;
  }

  /** The documents of a collection; a collection never written to is empty. */
  function Documents(db: map<string, seq<Event>>, name: string): seq<Event> {
    if name in db then db[name] else []
  }

  /** `{ uuid: eventUUID }` matches this event. */
  predicate HasUuid(e: Event, eventUUID: string) {
    e.uuid == Val(eventUUID)
  }

  /** The position of the first event with this uuid, or -1. */
  function FirstWithUuid(events: seq<Event>, eventUUID: string): (i: int)
    ensures -1 <= i < |events|
    ensures i >= 0 ==> HasUuid(events[i], eventUUID) && forall j :: 0 <= j < i ==> !HasUuid(events[j], eventUUID)
    ensures i == -1 ==> forall j :: 0 <= j < |events| ==> !HasUuid(events[j], eventUUID)
    decreases |events|
  {
    if |events| == 0 then -1
    else if HasUuid(events[0], eventUUID) then 0
    else
      var k := FirstWithUuid(events[1..], eventUUID);
      if k == -1 then -1 else k + 1
  }

  /** The number of events with this uuid. */
  function CountWithUuid(events: seq<Event>, eventUUID: string): nat
    decreases |events|
  {
    if |events| == 0 then 0
    else (if HasUuid(events[0], eventUUID) then 1 else 0) + CountWithUuid(events[1..], eventUUID)
  }

  /** `updateFields` of `$set`: `Some(v)` sets a field to `v`, `None` leaves it alone. */
  datatype Patch = Patch(
    uuid: Option<Js<string>>,
    title: Option<Js<string>>,
    date: Option<Js<string>>,
    startTime: Option<Js<string>>,
    endTime: Option<Js<string>>,
    location: Option<Js<string>>,
    description: Option<Js<string>>,
    collaborators: Option<Js<seq<Collaborator>>>,
    reminders: Option<Js<seq<Reminder>>>,
    allDay: Option<Js<bool>>)

  function Pick<T>(p: Option<T>, current: T): T {
    if p.Some? then p.value else current
  }

  /** `{ $set: updateFields }` on one event. */
  function ApplyPatch(e: Event, p: Patch): Event {
    Event(
      Pick(p.uuid, e.uuid), Pick(p.title, e.title), Pick(p.date, e.date),
      Pick(p.startTime, e.startTime), Pick(p.endTime, e.endTime),
      Pick(p.location, e.location), Pick(p.description, e.description),
      Pick(p.collaborators, e.collaborators), Pick(p.reminders, e.reminders),
      Pick(p.allDay, e.allDay))
  }

  /** Setting the same fields twice is the same as setting them once, and an empty
      `$set` leaves the event as it was. */
  lemma ApplyPatchIdempotent(e: Event, p: Patch)
    ensures ApplyPatch(ApplyPatch(e, p), p) == ApplyPatch(e, p)
    ensures p == Patch(None, None, None, None, None, None, None, None, None, None) ==> ApplyPatch(e, p) == e
  {
  }

  /** `deleteOne({ uuid })`: the collection without its first event carrying that uuid. */
  function RemoveFirst(events: seq<Event>, eventUUID: string): seq<Event> {
    var i := FirstWithUuid(events, eventUUID);
    if i == -1 then events else events[..i] + events[i + 1..]
  }

  lemma {:induction false} CountWithUuidSplit(a: seq<Event>, b: seq<Event>, eventUUID: string)
    ensures CountWithUuid(a + b, eventUUID) == CountWithUuid(a, eventUUID) + CountWithUuid(b, eventUUID)
    decreases |a|
  {
    if a == [] {
      assert a + b == b;
    } else {
      assert (a + b)[1..] == a[1..] + b;
      CountWithUuidSplit(a[1..], b, eventUUID);
    }
  }

  /** Deleting removes exactly one event, the first match: the others keep their order,
      and one fewer event carries that uuid. */
  lemma RemoveFirstRemovesOne(events: seq<Event>, eventUUID: string)
    requires FirstWithUuid(events, eventUUID) != -1
    ensures var i := FirstWithUuid(events, eventUUID);
      var r := RemoveFirst(events, eventUUID);
      && |r| == |events| - 1
      && multiset(r) + multiset{events[i]} == multiset(events)
      && (forall j :: 0 <= j < i ==> r[j] == events[j])
      && (forall j :: i < j < |events| ==> r[j - 1] == events[j])
      && CountWithUuid(r, eventUUID) == CountWithUuid(events, eventUUID) - 1
  {
    var i := FirstWithUuid(events, eventUUID);
    assert events == events[..i] + [events[i]] + events[i + 1..];
    CountWithUuidSplit(events[..i] + [events[i]], events[i + 1..], eventUUID);
    CountWithUuidSplit(events[..i], [events[i]], eventUUID);
    CountWithUuidSplit(events[..i], events[i + 1..], eventUUID);
    assert [events[i]][1..] == [];
  }

  /** Appending an event to one collection leaves every other collection as it was. */
  lemma InsertIsolated(db: map<string, seq<Event>>, a: string, b: string, e: Event)
    requires a != b
    ensures Documents(db[CollectionName(a) := Documents(db, CollectionName(a)) + [e]], CollectionName(b))
         == Documents(db, CollectionName(b))
  {
    CollectionNameInjective(a, b);
  }

  /** The MongoDB database holding every client's `${clientUUID}_events` collection. */
  class EventStore {
    var collections: map<string, seq<Event>>

    constructor ()
      ensures collections == map[]
    {
      collections := map[];
    }

    /** The events stored for a client, in insertion order. */
    function Events(clientUUID: string): seq<Event>
      reads this
    {
      Documents(collections, CollectionName(clientUUID))
    }

    /** `getEvents(clientUUID)`: everything in the client's collection. */
    method GetEvents(clientUUID: string) returns (events: seq<Event>)
      ensures events == Events(clientUUID)
    {
      events := Documents(collections, CollectionName(clientUUID));
    }

    /** `createEvent(clientUUID, event)`: refuse an event without a uuid, otherwise append it
        to the client's collection (duplicates are not refused). */
    method CreateEvent(clientUUID: string, event: Event) returns (r: Result<()>)
      modifies this
      ensures r.Err? <==> !Truthy(event.uuid)
      ensures r.Err? ==> r.error == MissingUuid && collections == old(collections)
      ensures r.Ok? ==> collections == old(collections)[CollectionName(clientUUID) := old(Events(clientUUID)) + [event]]
    {
      if !Truthy(event.uuid) {
        return Err(MissingUuid);
      }
      var name := CollectionName(clientUUID);
      collections := collections[name := Documents(collections, name) + [event]];
      r := Ok(());
    }

    /** `readEvent(clientUUID, eventUUID)`: the first event with that uuid. */
    method ReadEvent(clientUUID: string, eventUUID: string) returns (r: Result<Event>)
      ensures r.Ok? ==> r.value in Events(clientUUID) && HasUuid(r.value, eventUUID)
      ensures r.Ok? ==> r.value == Events(clientUUID)[FirstWithUuid(Events(clientUUID), eventUUID)]
      ensures r.Err? <==> forall e :: e in Events(clientUUID) ==> !HasUuid(e, eventUUID)
      ensures r.Err? ==> r.error == NotFound(eventUUID)
    {
      var events := Documents(collections, CollectionName(clientUUID));
      var i := FirstWithUuid(events, eventUUID);
      if i == -1 {
        r := Err(NotFound(eventUUID));
      } else {
        r := Ok(events[i]);
      }
    }

    /** `updateEvent(clientUUID, eventUUID, updateFields)`: set the given fields of the first
        matching event; the result is MongoDB's `modifiedCount`. */
    method UpdateEvent(clientUUID: string, eventUUID: string, patch: Patch) returns (r: Result<nat>)
      modifies this
      ensures var events := old(Events(clientUUID));
        var i := FirstWithUuid(events, eventUUID);
        && (r.Err? <==> i == -1)
        && (r.Err? ==> r.error == NotFound(eventUUID) && collections == old(collections))
        && (r.Ok? ==> collections == old(collections)[CollectionName(clientUUID) := events[i := ApplyPatch(events[i], patch)]])
        && (r.Ok? ==> r.value == if ApplyPatch(events[i], patch) == events[i] then 0 else 1)
    {
      var name := CollectionName(clientUUID);
      var events := Documents(collections, name);
      var i := FirstWithUuid(events, eventUUID);
      if i == -1 {
        return Err(NotFound(eventUUID));
      }
      var updated := ApplyPatch(events[i], patch);
      collections := collections[name := events[i := updated]];
      r := Ok(if updated == events[i] then 0 else 1);
    }

    /** `deleteEvent(clientUUID, eventUUID)`: remove the first matching event; the result is
        MongoDB's `deletedCount`. */
    method DeleteEvent(clientUUID: string, eventUUID: string) returns (r: Result<nat>)
      modifies this
      ensures var events := old(Events(clientUUID));
        && (r.Err? <==> FirstWithUuid(events, eventUUID) == -1)
        && (r.Err? ==> r.error == NotFound(eventUUID) && collections == old(collections))
        && (r.Ok? ==> r.value == 1)
        && (r.Ok? ==> collections == old(collections)[CollectionName(clientUUID) := RemoveFirst(events, eventUUID)])
    {
      var name := CollectionName(clientUUID);
      var events := Documents(collections, name);
      if FirstWithUuid(events, eventUUID) == -1 {
        return Err(NotFound(eventUUID));
      }
      collections := collections[name := RemoveFirst(events, eventUUID)];
      r := Ok(1);
    }
  }
}
