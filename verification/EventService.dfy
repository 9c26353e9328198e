/** `EventService.create` and `update`: an event is committed first and its seat count is published
  * afterwards, and only if it changed. When does the log's last word agree with the event? */
module EventService {
  import opened Wrappers
  import Inventory
  import opened Replica

  type EventId = Inventory.EventId
  type UserId = nat

  datatype User = User(id: UserId, admin: bool)

  /** A row of `events`; `title` stands for the columns the inventory service never hears of. */
  datatype Event = Event(organizer: UserId, title: string, seats: int)

  /** The mapped object between assignment and commit, when a field may have been set to null. */
  datatype Draft = Draft(title: Option<string>, seats: Option<int>)

  /** One field of the request that was set, possibly to null. */
  datatype Assignment = SetTitle(title: Option<string>) | SetSeats(seats: Option<int>)

  datatype Problem = UnknownEvent | Forbidden | NullColumn | NotPublished

  function Assign(d: Draft, a: Assignment): Draft {
    match a
    case SetTitle(title) => d.(title := title)
    case SetSeats(seats) => d.(seats := seats)
  }

  function Assigned(d: Draft, data: seq<Assignment>): Draft {
    if data == [] then d else Assign(Assigned(d, data[..|data| - 1]), data[|data| - 1])
  }

  function Loaded(event: Event): Draft { Draft(Some(event.title), Some(event.seats)) }

  predicate Storable(d: Draft) { d.title.Some? && d.seats.Some? }

  /** `data.total_seats`: absent and null alike are `None`. */
  function Seats(data: seq<Assignment>): Option<int> {
    if data == [] then None
    else if data[|data| - 1].SetSeats? then data[|data| - 1].seats
    else Seats(data[..|data| - 1])
  }

  /** Whether the request changes the seat count it was shown, in which case that is published. */
  predicate Resized(event: Event, data: seq<Assignment>) { Seats(data).Some? && Seats(data).value != event.seats }

  /** The UPDATE statement names only the columns that differ from what was loaded. */
  function Written(stored: Event, loaded: Event, d: Draft): Event
    requires Storable(d)
  {
    Event(stored.organizer,
          if d.title.value != loaded.title then d.title.value else stored.title,
          if d.seats.value != loaded.seats then d.seats.value else stored.seats)
  }

  lemma {:induction false} SeatsAssigned(d: Draft, data: seq<Assignment>)
    requires Storable(Assigned(d, data))
    ensures Assigned(d, data).seats == if Seats(data).Some? then Seats(data) else d.seats
  {
    if data != [] {
      var before := data[..|data| - 1];
      if data[|data| - 1].SetTitle? {
        if Assigned(d, before).title.Some? { SeatsAssigned(d, before); } else { SeatsOnly(d, before); }
      }
    }
  }

  /** As `SeatsAssigned`, whatever became of the title. */
  lemma {:induction false} SeatsOnly(d: Draft, data: seq<Assignment>)
    requires Assigned(d, data).seats.Some?
    ensures Assigned(d, data).seats == if Seats(data).Some? then Seats(data) else d.seats
  {
    if data != [] && data[|data| - 1].SetTitle? { SeatsOnly(d, data[..|data| - 1]); }
  }

  /** Of several assignments to one column the last wins. */
  lemma {:induction false} LastTitleWins(d: Draft, data: seq<Assignment>, i: nat)
    requires i < |data| && data[i].SetTitle? && forall j :: i < j < |data| ==> data[j].SetSeats?
    ensures Assigned(d, data).title == data[i].title
  {
    if i < |data| - 1 { LastTitleWins(d, data[..|data| - 1], i); }
  }

  /** And for the seat count it is the one that the request is taken to ask for. */
  lemma {:induction false} LastSeatsWin(d: Draft, data: seq<Assignment>, i: nat)
    requires i < |data| && data[i].SetSeats? && forall j :: i < j < |data| ==> data[j].SetTitle?
    ensures Assigned(d, data).seats == data[i].seats == Seats(data)
  {
    if i < |data| - 1 { LastSeatsWin(d, data[..|data| - 1], i); }
  }

  /** A column that is never assigned stays as it was. */
  lemma {:induction false} UnassignedStays(d: Draft, data: seq<Assignment>)
    ensures (forall i :: 0 <= i < |data| ==> data[i].SetSeats?) ==> Assigned(d, data).title == d.title
    ensures (forall i :: 0 <= i < |data| ==> data[i].SetTitle?) ==>
              Assigned(d, data).seats == d.seats && Seats(data).None?
  {
    if data != [] { UnassignedStays(d, data[..|data| - 1]); }
  }

  /** A save that meets the row its request was shown stores the draft; one that meets a row changed since
    * overwrites the columns the request changed, and keeps what others stored in the rest. */
  lemma WrittenMeans(stored: Event, loaded: Event, d: Draft)
    requires Storable(d)
    ensures stored == loaded ==> Written(stored, loaded, d) == Event(stored.organizer, d.title.value, d.seats.value)
    ensures var row := Written(stored, loaded, d);
            && row.organizer == stored.organizer
            && (row.title == stored.title || row.title == d.title.value != loaded.title)
            && (row.seats == stored.seats || row.seats == d.seats.value != loaded.seats)
            && (d.title.value != loaded.title ==> row.title == d.title.value)
            && (d.seats.value != loaded.seats ==> row.seats == d.seats.value)
  {
  }

  // ----- agreement of the event and the log -----

  /** The inventory service, once it has read the whole log, will have the event's seat count. */
  predicate Synced(events: map<EventId, Event>, log: seq<Message>, e: EventId) {
    e in events && Orderly(log, e) && Latest(log, e) == Some(events[e].seats)
  }

  /** What one more message does to the order and the last word of every event. */
  lemma Sent(log: seq<Message>, m: Message, f: EventId)
    ensures m.About(f) ==>
              Latest(log + [m], f) == Some(m.seats)
              && (Orderly(log + [m], f) <==> Orderly(log, f) && (m.Created? <==> Latest(log, f).None?))
    ensures !m.About(f) ==> Latest(log + [m], f) == Latest(log, f) && (Orderly(log + [m], f) <==> Orderly(log, f))
  {
    var longer := log + [m];
    assert longer[..|log|] == log;
    assert forall i :: 0 <= i < |log| ==> longer[i] == log[i] && longer[..i] == log[..i];
    if Orderly(longer, f) { OrderlyPrefix(longer, |log|, f); }
    if Orderly(log, f) {
      forall i | 0 <= i < |log| && longer[i].About(f) ensures longer[i].Created? <==> Latest(longer[..i], f).None? {
        assert longer[..i] == log[..i];
      }
    }
  }

  /** Repeating a request changes nothing, so it publishes nothing: a publish that failed after its commit
    * is not made good by trying the same update again. */
  lemma RepeatPublishesNothing(stored: Event, loaded: Event, data: seq<Assignment>)
    requires Storable(Assigned(Loaded(loaded), data)) && Resized(loaded, data)
    ensures !Resized(Written(stored, loaded, Assigned(Loaded(loaded), data)), data)
  {
    SeatsAssigned(Loaded(loaded), data);
  }

  /** The inventory service's capacity is the event's seat count: for a drained run without handler faults,
    * exactly when the event's update was the last to be published. */
  lemma CapacityIsSeats(events: map<EventId, Event>, steps: seq<Step>, e: EventId)
    requires Calm(steps, e) && e in events && Orderly(Run(START, steps).log, e)
    requires Run(START, steps).position == |Run(START, steps).log|
    ensures var r := Run(START, steps);
            Capacity(r.db, e) == Some(events[e].seats) <==> Synced(events, r.log, e)
  {
    Converges(steps, e);
  }

  // ----- the service -----

  /** The halves of creates and updates, as they interleave: rows are written, messages sent. */
  datatype Effect = Adds(event: Event) | Saves(id: EventId, title: string, seats: int) | Sends(message: Message)

  /** The `events` table, the topic, and the next id: ids are fresh uuids. */
  datatype Shop = Shop(events: map<EventId, Event>, log: seq<Message>, next: EventId)

  function Act(s: Shop, effect: Effect): Shop {
    match effect
    case Adds(event) => s.(events := s.events[s.next := event], next := s.next + 1)
    case Saves(id, title, seats) =>
      if id in s.events then s.(events := s.events[id := s.events[id].(title := title, seats := seats)]) else s
    case Sends(m) => if m.Unrecognised? || m.event < s.next then s.(log := s.log + [m]) else s
  }

  function Play(effects: seq<Effect>): Shop {
    if effects == [] then Shop(map[], [], 0) else Act(Play(effects[..|effects| - 1]), effects[|effects| - 1])
  }

  class EventService {
    var events: map<EventId, Event>
    var log: seq<Message>
    var next: EventId
    var elsewhere: seq<seq<Effect>>   // what other requests do at this one's awaits, in turn
    ghost var trace: seq<Effect>      // all that has happened, by anyone
    ghost var own: seq<Effect>        // what this service's calls did, in order

    ghost predicate Valid()
      reads this
    {
      && Now() == Play(trace)
      && (forall e :: e in events ==> e < next)
      && (forall i :: 0 <= i < |log| && !log[i].Unrecognised? ==> log[i].event < next)
    }

    function Now(): Shop
      reads this
    {
      Shop(events, log, next)
    }

    constructor (elsewhere: seq<seq<Effect>>)
      ensures Valid() && events == map[] && log == [] && trace == own == [] && this.elsewhere == elsewhere
    {
      events, log, next, trace, own := map[], [], 0, [], [];
      this.elsewhere := elsewhere;
    }

    /** What anyone does. */
    method Happen(effect: Effect)
      requires Valid()
      modifies this`events, this`log, this`next, this`trace
      ensures Valid() && Now() == Act(old(Now()), effect) && trace == old(trace) + [effect]
    {
      match effect {
        case Adds(event) => events, next := events[next := event], next + 1;
        case Saves(id, title, seats) =>
          if id in events { events := events[id := events[id].(title := title, seats := seats)]; }
        case Sends(m) => if m.Unrecognised? || m.event < next { log := log + [m]; }
      }
      trace := trace + [effect];
      assert trace[..|trace| - 1] == old(trace);
    }

    /** What a call of this service does. */
    method Take(effect: Effect)
      requires Valid()
      modifies this`events, this`log, this`next, this`trace, this`own
      ensures Valid() && Now() == Act(old(Now()), effect)
      ensures trace == old(trace) + [effect] && own == old(own) + [effect]
    {
      own := own + [effect];
      Happen(effect);
    }

    method Await()
      requires Valid()
      modifies this`events, this`log, this`next, this`trace, this`elsewhere
      ensures Valid() && old(next) <= next && old(log) <= log && old(trace) <= trace
      ensures old(events).Keys <= events.Keys && forall e :: e in old(events) ==>
          events[e].organizer == old(events)[e].organizer
      ensures old(elsewhere) == [] ==> Now() == old(Now()) && elsewhere == []
    {
      if elsewhere == [] { return; }
      var effects := elsewhere[0];
      elsewhere := elsewhere[1..];
      for i := 0 to |effects|
        invariant Valid() && old(next) <= next && old(log) <= log && old(trace) <= trace
        invariant old(events).Keys <= events.Keys
        invariant forall e :: e in old(events) ==> events[e].organizer == old(events)[e].organizer
      {
        Happen(effects[i]);
      }
    }

    /** Inserts, commits, then publishes. With nobody else acting the event and the log agree exactly when
      * the publish went through. Otherwise it also takes that nobody spoke of the event first: it is visible
      * from its commit on, and an update published before its creation is one the replica cannot apply. */
    method Create(title: string, seats: int, organizer: User, delivered: bool)
      returns (r: Result<EventId, Problem>, ghost before: seq<Message>)
      requires Valid()
      modifies this
      ensures Valid() && old(next) < next && old(next) in events && events[old(next)].organizer == organizer.id
      ensures if delivered then r == Success(old(next)) else r == Failure(NotPublished)
      ensures var told := if delivered then [Created(old(next), seats)] else [];
              && old(log) <= before && log == before + told
              && own == old(own) + [Adds(Event(organizer.id, title, seats))] + Sending(told)
      ensures delivered ==> (
                Synced(events, log, old(next)) <==> events[old(next)].seats == seats && Latest(before, old(next)).None?)
      ensures old(elsewhere) == [] ==>
                before == old(log) && events == old(events)[old(next) := Event(organizer.id, title, seats)]
                && (Synced(events, log, old(next)) <==> delivered)
                && forall f :: f != old(next) ==> (Synced(events, log, f) <==> Synced(old(events), old(log), f))
    {
      var id := next;
      Unheard(log, id);
      Take(Adds(Event(organizer.id, title, seats)));
      Await();
      before := log;
      if !delivered { return Failure(NotPublished), before; }
      QuietIsOrderly(log, id);
      Publish(Created(id, seats));
      return Success(id), before;
    }

    /** The effects of publishing at most one message. */
    function Sending(messages: seq<Message>): seq<Effect> {
      if messages == [] then [] else [Sends(messages[0])]
    }

    /** What a publish does to the agreement of each event with the log. */
    method Publish(m: Message)
      requires Valid() && !m.Unrecognised? && m.event < next
      modifies this`events, this`log, this`next, this`trace, this`own
      ensures Valid() && Now() == old(Now()).(log := old(log) + [m])
      ensures own == old(own) + [Sends(m)] && trace == old(trace) + [Sends(m)]
      ensures forall f :: f != m.event ==> (Synced(events, log, f) <==> Synced(events, old(log), f))
      ensures Synced(events, log, m.event) <==> (
                && m.event in events && events[m.event].seats == m.seats
                && Orderly(old(log), m.event) && (m.Created? <==> Latest(old(log), m.event).None?))
    {
      ghost var before := log;
      Take(Sends(m));
      forall f { Sent(before, m, f); }
    }

    /** Reads, checks the caller, assigns field by field, commits what differs, and publishes a changed
      * seat count, and nothing otherwise. Alone, an event in agreement stays so exactly when nothing had to be
      * published or the publish went through; with others in between, exactly when theirs is not the last word
      * stored. The commit, at `saving`, meets whatever row is stored by then. */
    method Update(e: EventId, data: seq<Assignment>, user: User, delivered: bool)
      returns (r: Result<(), Problem>, ghost loaded: Option<Event>, ghost before: seq<Message>, ghost saving: nat)
      requires Valid()
      modifies this
      ensures Valid() && old(events).Keys <= events.Keys && old(log) <= before
      ensures r == Failure(UnknownEvent) <==> e !in old(events)
      ensures r == Failure(Forbidden) <==> e in old(events) && !user.admin && old(events)[e].organizer != user.id
      ensures r.Failure? && r.error in {UnknownEvent, Forbidden} ==> Now() == old(Now())
      ensures loaded.Some? <==> r.Success? || r.error in {NullColumn, NotPublished}
      ensures loaded.Some? ==> e in old(events) && loaded.value == old(events)[e] && e in events
      ensures loaded.Some? ==> (r == Failure(NullColumn) <==> !Storable(Assigned(Loaded(loaded.value), data)))
      ensures loaded.Some? && r != Failure(NullColumn) ==>
                (r == Failure(NotPublished) <==> Resized(loaded.value, data) && !delivered)
      // what it saves and sends:
      ensures loaded.None? || r == Failure(NullColumn) ==> own == old(own) && log == before
      ensures loaded.Some? && r != Failure(NullColumn) ==> (
                var told := if Resized(loaded.value, data) && delivered then [Updated(e, Seats(data).value)] else [];
                && log == before + told
                && |old(trace)| <= saving
                && SavedAt(trace, saving, e, loaded.value, Assigned(Loaded(loaded.value), data))
                && own == old(own) + [trace[saving]] + Sending(told))
      ensures r.Success? && Resized(loaded.value, data) ==> (
                Synced(events, log, e) <==>
                    Orderly(before, e) && Latest(before, e).Some? && events[e].seats == Seats(data).value)
      // alone:
      ensures old(elsewhere) == [] ==> before == old(log)
      ensures old(elsewhere) == [] && loaded.Some? && r != Failure(NullColumn) ==>
                var was := old(events)[e];
                && events == old(events)[e := Written(was, was, Assigned(Loaded(was), data))]
                && events[e].seats == (if Resized(was, data) then Seats(data).value else was.seats)
                && (Synced(old(events), old(log), e) ==> (Synced(events, log, e) <==> delivered || !Resized(was, data)))
      ensures old(elsewhere) == [] && r == Failure(NullColumn) ==> Now() == old(Now())
      ensures old(elsewhere) == [] ==>
          forall f :: f != e ==> (Synced(events, log, f) <==> Synced(old(events), old(log), f))
    {
      loaded, before, saving := None, log, |trace|;
      if e !in events { return Failure(UnknownEvent), loaded, before, saving; }
      var event := events[e];
      if !user.admin && event.organizer != user.id { return Failure(Forbidden), loaded, before, saving; }
      loaded := Some(event);
      var draft := AssignFields(event, data);
      Await();
      before := log;
      if !Storable(draft) { return Failure(NullColumn), loaded, before, saving; }
      r, before, saving := Commit(e, event, data, draft, delivered);
    }

    /** The commit of an update, and the publish after it. */
    method Commit(e: EventId, event: Event, data: seq<Assignment>, draft: Draft, delivered: bool)
      returns (r: Result<(), Problem>, ghost before: seq<Message>, ghost saving: nat)
      requires Valid() && e in events && draft == Assigned(Loaded(event), data) && Storable(draft)
      modifies this
      ensures Valid() && old(events).Keys <= events.Keys && old(log) <= before
      ensures r.Failure? <==> Resized(event, data) && !delivered
      ensures r.Failure? ==> r.error == NotPublished
      ensures var told := if Resized(event, data) && delivered then [Updated(e, Seats(data).value)] else [];
              && log == before + told && |old(trace)| <= saving && SavedAt(trace, saving, e, event, draft)
              && own == old(own) + [trace[saving]] + Sending(told)
      ensures r.Success? && Resized(event, data) ==> (
                Synced(events, log, e) <==>
                    Orderly(before, e) && Latest(before, e).Some? && events[e].seats == Seats(data).value)
      ensures old(elsewhere) == [] ==>
                before == old(log) && events == old(events)[e := Written(old(events)[e], event, draft)]
                && forall f :: f != e ==> (Synced(events, log, f) <==> Synced(old(events), old(log), f))
      ensures old(elsewhere) == [] && old(events)[e] == event ==>
                && events[e].seats == (if Resized(event, data) then Seats(data).value else event.seats)
                && (Synced(old(events), old(log), e) ==> (Synced(events, log, e) <==> r.Success?))
    {
      SeatsAssigned(Loaded(event), data);
      saving := Save(e, event, draft);
      ghost var saved := trace;
      Await();
      before := log;
      if Resized(event, data) {
        if !delivered {
          SavedStays(saved, trace, saving, e, event, draft);
          return Failure(NotPublished), before, saving;
        }
        Publish(Updated(e, draft.seats.value));
      }
      SavedStays(saved, trace, saving, e, event, draft);
      return Success(()), before, saving;
    }

    lemma SavedStays(history: seq<Effect>, longer: seq<Effect>, saving: nat, e: EventId, loaded: Event, draft: Draft)
      requires SavedAt(history, saving, e, loaded, draft) && history <= longer
      ensures SavedAt(longer, saving, e, loaded, draft) && longer[saving] == history[saving]
    {
      assert longer[..saving] == history[..saving];
    }

    /** Step `saving` of a history is the UPDATE of `e` by a request that was shown `loaded` and wants `draft`: it
      * names the columns that differ between those two, and leaves the others as they are stored by then. */
    ghost predicate SavedAt(history: seq<Effect>, saving: nat, e: EventId, loaded: Event, draft: Draft) {
      && saving < |history| && Storable(draft) && e in Play(history[..saving]).events
      && var row := Written(Play(history[..saving]).events[e], loaded, draft);
         history[saving] == Saves(e, row.title, row.seats)
    }

    /** The UPDATE, on the row as it is stored by now. */
    method Save(e: EventId, event: Event, draft: Draft) returns (ghost saving: nat)
      requires Valid() && e in events && Storable(draft)
      modifies this`events, this`log, this`next, this`trace, this`own
      ensures Valid() && Now() == old(Now()).(events := old(events)[e := Written(old(events)[e], event, draft)])
      ensures var row := Written(old(events)[e], event, draft);
              trace == old(trace) + [Saves(e, row.title, row.seats)]
      ensures SavedAt(trace, saving, e, event, draft) && saving == |old(trace)|
      ensures own == old(own) + [trace[saving]]
    {
      saving := |trace|;
      var row := Written(events[e], event, draft);
      Take(Saves(e, row.title, row.seats));
      assert trace[..saving] == old(trace);
    }

    /** `setattr`, field by field. */
    method AssignFields(event: Event, data: seq<Assignment>) returns (draft: Draft)
      ensures draft == Assigned(Loaded(event), data)
    {
      draft := Loaded(event);
      for i := 0 to |data|
        invariant draft == Assigned(Loaded(event), data[..i])
      {
        draft := Assign(draft, data[i]);
        assert data[..i + 1][..i] == data[..i];
      }
      assert data[..|data|] == data;
    }
  }

  /** Nothing was said of an id that nobody has. */
  lemma {:induction false} Unheard(log: seq<Message>, id: EventId)
    requires forall i :: 0 <= i < |log| && !log[i].Unrecognised? ==> log[i].event < id
    ensures Latest(log, id).None? && Orderly(log, id)
  {
    LatestIffMentioned(log, id);
  }

  /** A log that has not spoken of `id` is in order for it. */
  lemma QuietIsOrderly(log: seq<Message>, id: EventId)
    ensures Latest(log, id).None? ==> Orderly(log, id)
  {
    LatestIffMentioned(log, id);
  }
}
