/** The persistent store behind the backend: the `event` table, keyed by its
    primary key `event_id`, and the `user` table, kept as its sequence of rows
    because its primary key is `email` and `user_id` is not unique. Every query
    by `user_id` therefore acts on all rows that carry the id, and reports as
    rows affected how many it touched. A single-row read takes the first
    matching row in table order. */
module Store {
  import opened Models
  import opened UserLists

  /** The WHERE clause of a single-row read of the user table. */
  datatype Where =
    | ById(id: int)                 // user_id = ?
    | ActiveById(id: int)           // user_id = ? AND is_guest = false
    | ActiveByEmail(email: string)  // email = ? AND is_guest = false

  predicate Matches(u: User, w: Where)
  {
    match w
    case ById(id) => u.userId == id
    case ActiveById(id) => u.userId == id && !u.isGuest
    case ActiveByEmail(email) => u.email == email && !u.isGuest
  }

  /** The row a single-row read returns: the first one that matches. */
  function First(rows: seq<User>, w: Where): (r: Option<nat>)
    ensures r.None? <==> forall i :: 0 <= i < |rows| ==> !Matches(rows[i], w)
    ensures r.Some? ==> r.value < |rows| && Matches(rows[r.value], w)
    ensures r.Some? ==> forall i :: 0 <= i < r.value ==> !Matches(rows[i], w)
  {
    if rows == [] then None
    else if Matches(rows[0], w) then Some(0)
    else
      match First(rows[1..], w)
      case None => None
      case Some(k) => Some(k + 1)
  }

  /** The SET part of an update of the user table. */
  datatype Assignment =
    | AddToBalance(amount: int)         // SET balance = balance + ?
    | SubtractFromBalance(amount: int)  // SET balance = balance - ?
    | ClearGuest                        // SET is_guest = false
    | NonZeroFields(updates: User)      // Model(updates).OmitZero(): each non-zero non-key column
    | DataFields(row: User)             // Model(&row): every column except the key

  /** The value a row holds after an assignment; the key column never changes. */
  function Assign(u: User, a: Assignment): (r: User)
    ensures r.email == u.email
  {
    match a
    case AddToBalance(n) => u.(balance := u.balance + n)
    case SubtractFromBalance(n) => u.(balance := u.balance - n)
    case ClearGuest => u.(isGuest := false)
    case NonZeroFields(upd) => MergeUser(u, upd)
    case DataFields(row) => row.(email := u.email)
  }

  /** An OmitZero update: every non-key column whose new value is not the zero
      value of its type overwrites the stored one. */
  function MergeUser(u: User, upd: User): (r: User)
    ensures r.email == u.email
    ensures upd.password != "" ==> r.password == upd.password
    ensures upd.password == "" ==> r.password == u.password
    ensures r.isGuest == (u.isGuest || upd.isGuest)
    ensures upd.balance == 0 ==> r.balance == u.balance
  {
    User(
      if upd.userId != 0 then upd.userId else u.userId,
      u.email,
      if upd.password != "" then upd.password else u.password,
      if upd.name != "" then upd.name else u.name,
      if upd.isGuest then true else u.isGuest,
      if upd.eventIds != [] then upd.eventIds else u.eventIds,
      if upd.bookedEvents != [] then upd.bookedEvents else u.bookedEvents,
      if upd.balance != 0 then upd.balance else u.balance)
  }

  /** `UPDATE user SET ... WHERE user_id = id`: every row with the id takes the
      assignment, every other row stays. */
  function UpdateRows(rows: seq<User>, id: int, a: Assignment): (r: seq<User>)
    ensures |r| == |rows|
    ensures forall i :: 0 <= i < |rows| && rows[i].userId != id ==> r[i] == rows[i]
    ensures forall i :: 0 <= i < |rows| && rows[i].userId == id ==> r[i] == Assign(rows[i], a)
  {
    seq(|rows|, i requires 0 <= i < |rows| =>
      if rows[i].userId == id then Assign(rows[i], a) else rows[i])
  }

  /** How many rows carry the id: the rows-affected count of an update by id. */
  function Count(rows: seq<User>, id: int): (n: nat)
    ensures n <= |rows|
    ensures n == 0 <==> forall i :: 0 <= i < |rows| ==> rows[i].userId != id
  {
    if rows == [] then 0
    else
      var p := rows[..|rows| - 1];
      assert forall i :: 0 <= i < |p| ==> p[i] == rows[i];
      Count(p, id) + if rows[|rows| - 1].userId == id then 1 else 0
  }

  /** The primary key of the user table. */
  predicate EmailsUnique(rows: seq<User>)
  {
    forall i, j :: 0 <= i < j < |rows| ==> rows[i].email != rows[j].email
  }

  /** No two rows share a `user_id`; nothing in the schema enforces this. */
  predicate IdsUnique(rows: seq<User>)
  {
    forall i, j :: 0 <= i < j < |rows| ==> rows[i].userId != rows[j].userId
  }

  predicate EmailTaken(rows: seq<User>, email: string)
  {
    exists i :: 0 <= i < |rows| && rows[i].email == email
  }

  /** The row `AddUser` inserts: whatever the input says, a guest with id 13. */
  function NewGuest(u: User): (r: User)
    ensures r.isGuest && r.userId == 13
    ensures r.(isGuest := u.isGuest, userId := u.userId) == u
  {
    u.(isGuest := true, userId := 13)
  }

  /** The rows `is_guest = true` selects, in table order. */
  function Guests(rows: seq<User>): (r: seq<User>)
    ensures forall u :: u in r <==> u in rows && u.isGuest
  {
    if rows == [] then []
    else
      var g := Guests(rows[..|rows| - 1]);
      assert rows == rows[..|rows| - 1] + [rows[|rows| - 1]];
      if rows[|rows| - 1].isGuest then g + [rows[|rows| - 1]] else g
  }

  /** The rows `is_guest = false` selects, in table order. */
  function NonGuests(rows: seq<User>): (r: seq<User>)
    ensures forall u :: u in r <==> u in rows && !u.isGuest
  {
    if rows == [] then []
    else
      var g := NonGuests(rows[..|rows| - 1]);
      assert rows == rows[..|rows| - 1] + [rows[|rows| - 1]];
      if rows[|rows| - 1].isGuest then g else g + [rows[|rows| - 1]]
  }

  /** A user as the read queries return it: its event list deduplicated. */
  function WithDistinctEvents(u: User): User
  {
    u.(eventIds := Dedup(u.eventIds))
  }

  /** An OmitZero update of an event; `event_id` is the key and never changes. */
  function MergeEvent(e: Event, upd: Event): (r: Event)
    ensures r.eventId == e.eventId
    ensures upd.capacity != 0 ==> r.capacity == upd.capacity
    ensures upd.capacity == 0 ==> r.capacity == e.capacity
    ensures upd.userIds == [] ==> r.userIds == e.userIds
  {
    var title := if upd.title != "" then upd.title else e.title;
    var startDate := if upd.startDate != "" then upd.startDate else e.startDate;
    var endDate := if upd.endDate != "" then upd.endDate else e.endDate;
    var location := if upd.location != "" then upd.location else e.location;
    var image := if upd.image != "" then upd.image else e.image;
    var category := if upd.category != 0 then upd.category else e.category;
    var capacity := if upd.capacity != 0 then upd.capacity else e.capacity;
    var isArchived := upd.isArchived || e.isArchived;
    var price := if upd.price != 0 then upd.price else e.price;
    var userIds := if upd.userIds != [] then upd.userIds else e.userIds;
    Event(e.eventId, title, startDate, endDate, location, image, category, capacity, isArchived, price, userIds)
  }

  /** The event row keys agree with the rows' own ids. */
  predicate KeysMatch(events: map<int, Event>)
  {
    forall id :: id in events ==> events[id].eventId == id
  }

  /** The bound `BookEvent`'s capacity check is there to keep: no event holds
      more bookings than its capacity. */
  predicate WithinCapacity(events: map<int, Event>)
  {
    forall id :: id in events ==> |events[id].userIds| <= events[id].capacity
  }

  /** What `BookEvent`'s duplicate check keeps: a user is booked on an event
      at most once. */
  predicate BookingsDistinct(events: map<int, Event>)
  {
    forall id :: id in events ==> NoDuplicates(events[id].userIds)
  }

  /** What `BookEvent`'s checks let through: the event exists, does not list
      the user yet and has a free place. */
  predicate Admits(events: map<int, Event>, id: int, userId: int)
  {
    id in events && userId !in events[id].userIds && |events[id].userIds| < events[id].capacity
  }

  /** The event table once `BookEvent` has written the new participant list. */
  function WithBooking(events: map<int, Event>, id: int, userId: int): (r: map<int, Event>)
    requires id in events
    ensures r.Keys == events.Keys
    ensures r[id].userIds == events[id].userIds + [userId]
    ensures forall k :: k in events && k != id ==> r[k] == events[k]
  {
    events[id := events[id].(userIds := events[id].userIds + [userId])]
  }

  /** The user table once `BookEvent` has written the user back: the first
      row with the id, with the event appended, copied into every row that
      has the id (each keeps its own email). */
  function WithEventAppended(rows: seq<User>, userId: int, id: int): (r: seq<User>)
    requires First(rows, ById(userId)).Some?
    ensures |r| == |rows|
    ensures forall i :: 0 <= i < |rows| && rows[i].userId != userId ==> r[i] == rows[i]
    // the row that was read gains the event and nothing else
    ensures var k := First(rows, ById(userId)).value;
      r[k] == rows[k].(eventIds := rows[k].eventIds + [id])
    // every other row with the id becomes a copy of it under its own email
    ensures var k := First(rows, ById(userId)).value;
      forall i :: 0 <= i < |rows| && rows[i].userId == userId ==> r[i] == r[k].(email := rows[i].email)
  {
    var row := rows[First(rows, ById(userId)).value];
    UpdateRows(rows, userId, DataFields(row.(eventIds := row.eventIds + [id])))
  }

  /** The calls `BookEvent` makes to the store that can fail for reasons of
      the store itself (the connection, the server). */
  datatype BookFaults = BookFaults(fetchEvent: bool, writeEvent: bool, fetchUser: bool, writeUser: bool)

  /** Every step of `BookEvent` succeeds: both reads find their row, the
      checks admit the booking and both writes go through. */
  predicate GoesThrough(events: map<int, Event>, users: seq<User>, id: int, userId: int, faults: BookFaults)
  {
    && !faults.fetchEvent && Admits(events, id, userId) && !faults.writeEvent
    && !faults.fetchUser && First(users, ById(userId)).Some? && !faults.writeUser
  }

  /** Why `BookEvent` stopped; the last two leave the event already written. */
  datatype BookError =
    | EventNotFetched  // "error fetching event with ID %d"
    | AlreadyBooked    // "user %d already booked for this event"
    | EventFull        // "event is full"
    | EventNotWritten  // "error updating event with ID %d"
    | UserNotFetched   // "error fetching user with ID %d"
    | UserNotWritten   // "error updating user with ID %d"

  /** `BookEvent` gets past the write of the event: from then on the event
      holds the user, whatever fails afterwards. */
  predicate EventWritten(events: map<int, Event>, id: int, userId: int, faults: BookFaults)
  {
    !faults.fetchEvent && Admits(events, id, userId) && !faults.writeEvent
  }

  /** The error `BookEvent` stops with, checking in its order: the event
      read, the duplicate booking, the capacity, the event write, the user
      read, the user write. */
  function BookingError(events: map<int, Event>, users: seq<User>, id: int, userId: int, faults: BookFaults): BookError
  {
    if faults.fetchEvent || id !in events then EventNotFetched
    else if userId in events[id].userIds then AlreadyBooked
    else if |events[id].userIds| >= events[id].capacity then EventFull
    else if faults.writeEvent then EventNotWritten
    else if faults.fetchUser || First(users, ById(userId)).None? then UserNotFetched
    else UserNotWritten
  }

  /** A booking that does not go through leaves the event written exactly when
      it stops at the user's read or write. */
  lemma BookingErrorAfterEventWrite(events: map<int, Event>, users: seq<User>, id: int, userId: int, faults: BookFaults)
    requires !GoesThrough(events, users, id, userId, faults)
    ensures BookingError(events, users, id, userId, faults) in {UserNotFetched, UserNotWritten}
        <==> EventWritten(events, id, userId, faults)
  {
  }

  /** A storage error, or for an insert a primary key that is already taken. */
  datatype DbError = StorageError | DuplicateKey

  class Db {
    var events: map<int, Event>
    var users: seq<User>

    /** What the schema guarantees: the event keys are the rows' ids, and no
        two users share an email. */
    ghost predicate Valid()
      reads this
    {
      KeysMatch(events) && EmailsUnique(users)
    }

    constructor (initialEvents: map<int, Event>, initialUsers: seq<User>)
      requires KeysMatch(initialEvents) && EmailsUnique(initialUsers)
      ensures Valid() && events == initialEvents && users == initialUsers
    {
      events := initialEvents;
      users := initialUsers;
    }

    // ---------------------------------------------------------------- events

    /** `GetEventByID`. */
    method GetEventById(id: int, fails: bool) returns (r: Option<Event>)
      ensures r.Some? <==> !fails && id in events
      ensures r.Some? ==> r.value == events[id]
    {
      if fails || id !in events {
        return None;
      }
      return Some(events[id]);
    }

    /** `UpdateEvent`: an OmitZero update of one event; one row affected when it
        exists, none otherwise. */
    method UpdateEvent(id: int, updates: Event, fails: bool) returns (r: Result<nat, DbError>)
      requires Valid()
      modifies this
      ensures Valid() && users == old(users)
      ensures fails ==> r == Err(StorageError) && events == old(events)
      ensures !fails && id in old(events) ==>
        r == Ok(1) && events == old(events)[id := MergeEvent(old(events)[id], updates)]
      ensures !fails && id !in old(events) ==> r == Ok(0) && events == old(events)
    {
      if fails {
        return Err(StorageError);
      }
      if id in events {
        events := events[id := MergeEvent(events[id], updates)];
        return Ok(1);
      }
      return Ok(0);
    }

    /** `DeleteEvent`: one row affected when the event exists, none otherwise. */
    method DeleteEvent(id: int, fails: bool) returns (r: Result<nat, DbError>)
      requires Valid()
      modifies this
      ensures Valid() && users == old(users)
      ensures fails ==> r == Err(StorageError) && events == old(events)
      ensures !fails ==> r == Ok(if id in old(events) then 1 else 0)
      ensures !fails ==> events == old(events) - {id}
    {
      if fails {
        return Err(StorageError);
      }
      var rows := if id in events then 1 else 0;
      events := events - {id};
      return Ok(rows);
    }

    /** `BookEvent`: fetch the event, refuse a duplicate booking, refuse a full
        event, write the extended participant list, fetch the user, write the
        user back with the event appended. The writes are separate, so a
        failure after the first leaves the event written. The result is the
        rows-affected count of the event update. */
    method BookEvent(id: int, userId: int, faults: BookFaults) returns (r: Result<nat, BookError>)
      requires Valid()
      modifies this
      ensures Valid()
      // the event cannot be read: nothing changes
      ensures faults.fetchEvent || id !in old(events) ==>
        r == Err(EventNotFetched) && events == old(events) && users == old(users)
      // the duplicate check comes before the capacity check
      ensures !faults.fetchEvent && id in old(events) && userId in old(events)[id].userIds ==>
        r == Err(AlreadyBooked) && events == old(events) && users == old(users)
      ensures !faults.fetchEvent && id in old(events) && userId !in old(events)[id].userIds
              && |old(events)[id].userIds| >= old(events)[id].capacity ==>
        r == Err(EventFull) && events == old(events) && users == old(users)
      ensures !faults.fetchEvent && Admits(old(events), id, userId) && faults.writeEvent ==>
        r == Err(EventNotWritten) && events == old(events) && users == old(users)
      // from here on the event holds the user, whatever happens next
      ensures !faults.fetchEvent && Admits(old(events), id, userId) && !faults.writeEvent ==>
        events == WithBooking(old(events), id, userId)
      ensures !faults.fetchEvent && Admits(old(events), id, userId) && !faults.writeEvent
              && (faults.fetchUser || First(old(users), ById(userId)).None?) ==>
        r == Err(UserNotFetched) && users == old(users)
      ensures !faults.fetchEvent && Admits(old(events), id, userId) && !faults.writeEvent
              && !faults.fetchUser && First(old(users), ById(userId)).Some? && faults.writeUser ==>
        r == Err(UserNotWritten) && users == old(users)
      ensures r.Ok? <==> GoesThrough(old(events), old(users), id, userId, faults)
      ensures r.Err? ==> r.error == BookingError(old(events), old(users), id, userId, faults)
      ensures events == if EventWritten(old(events), id, userId, faults) then WithBooking(old(events), id, userId) else old(events)
      ensures r.Ok? ==> r.value == 1 && users == WithEventAppended(old(users), userId, id)
      // the capacity and duplicate checks keep their bounds across a booking
      ensures old(WithinCapacity(events)) ==> WithinCapacity(events)
      ensures old(BookingsDistinct(events)) ==> BookingsDistinct(events)
    {
      if faults.fetchEvent || id !in events {
        return Err(EventNotFetched);
      }
      var event := events[id];

      var i := 0;
      while i < |event.userIds|
        invariant 0 <= i <= |event.userIds|
        invariant forall k :: 0 <= k < i ==> event.userIds[k] != userId
      {
        if event.userIds[i] == userId {
          return Err(AlreadyBooked);
        }
        i := i + 1;
      }

      if |event.userIds| >= event.capacity {
        return Err(EventFull);
      }
      event := event.(userIds := event.userIds + [userId]);

      // SET user_id = ? WHERE event_id = ?
      if faults.writeEvent {
        return Err(EventNotWritten);
      }
      events := events[id := events[id].(userIds := event.userIds)];
      var rowsAffected := 1;

      var found := First(users, ById(userId));
      if faults.fetchUser || found.None? {
        return Err(UserNotFetched);
      }
      var user := users[found.value];
      user := user.(eventIds := user.eventIds + [id]);

      // Model(&user) WHERE user_id = ?
      if faults.writeUser {
        return Err(UserNotWritten);
      }
      users := UpdateRows(users, userId, DataFields(user));
      return Ok(rowsAffected);
    }

    // ----------------------------------------------------------------- users

    /** `GetAllUsers`: the non-guest rows, each with its event list
        deduplicated in place; `fails` is an error of the select. */
    method GetAllUsers(fails: bool) returns (r: Option<seq<User>>)
      ensures r.None? <==> fails
      ensures r.Some? ==> |r.value| == |NonGuests(users)|
      ensures r.Some? ==> forall i :: 0 <= i < |r.value| ==> r.value[i] == WithDistinctEvents(NonGuests(users)[i])
      ensures r.Some? ==> forall i :: 0 <= i < |r.value| ==> !r.value[i].isGuest && NoDuplicates(r.value[i].eventIds)
    {
      if fails {
        return None;
      }
      var result := NonGuests(users);
      var i := 0;
      while i < |result|
        invariant 0 <= i <= |result| == |NonGuests(users)|
        invariant forall k :: 0 <= k < i ==> result[k] == WithDistinctEvents(NonGuests(users)[k])
        invariant forall k :: i <= k < |result| ==> result[k] == NonGuests(users)[k]
      {
        var ids := RemoveDuplicates(result[i].eventIds);
        result := result[i := result[i].(eventIds := ids)];
        i := i + 1;
      }
      forall k | 0 <= k < |result|
        ensures !result[k].isGuest && NoDuplicates(result[k].eventIds)
      {
        assert NonGuests(users)[k] in NonGuests(users);
        DedupNoDuplicates(NonGuests(users)[k].eventIds);
      }
      return Some(result);
    }

    /** `GetAllGuests`: the guest rows as stored; `fails` is an error of the
        select. */
    method GetAllGuests(fails: bool) returns (r: Option<seq<User>>)
      ensures r.None? <==> fails
      ensures r.Some? ==> r.value == Guests(users)
      ensures r.Some? ==> forall u :: u in r.value <==> u in users && u.isGuest
    {
      if fails {
        return None;
      }
      return Some(Guests(users));
    }

    /** `GetUserByEmail`: the non-guest user with that email, its event list
        deduplicated; `fails` is an error of the select other than "no rows". */
    method GetUserByEmail(email: string, fails: bool) returns (r: Option<User>)
      ensures r.None? <==> fails || forall i :: 0 <= i < |users| ==> !(users[i].email == email && !users[i].isGuest)
      ensures r.Some? ==> exists i :: 0 <= i < |users| && users[i].email == email && !users[i].isGuest
                                      && r.value == WithDistinctEvents(users[i])
      ensures r.Some? ==> r.value.email == email && !r.value.isGuest && NoDuplicates(r.value.eventIds)
      ensures r.Some? ==> r.value == WithDistinctEvents(users[First(users, ActiveByEmail(email)).value])
    {
      if fails {
        return None;
      }
      var found := First(users, ActiveByEmail(email));
      if found.None? {
        return None;
      }
      var user := users[found.value];
      var ids := RemoveDuplicates(user.eventIds);
      return Some(user.(eventIds := ids));
    }

    /** The events among `ids` that are stored and have not ended, judged by
        `running` (which stands for parsing `EndDate` and comparing it with the
        clock; an unparsable date counts as ended). */
    ghost function RunningAmong(ids: seq<int>, running: Event -> bool): set<int>
      reads this
    {
      set e | e in events && e in ids && running(events[e])
    }

    /** `GetUserByID`: the non-guest user with that id, its event list
        deduplicated and then restricted to the events that have not ended,
        in order of first occurrence. `userFails` is an error of the user
        select, `eventsFails` one of the events select, which is issued only
        when the deduplicated list is not empty. */
    method GetUserById(id: int, running: Event -> bool, userFails: bool, eventsFails: bool) returns (r: Option<User>)
      requires Valid()
      ensures r.None? <==>
        || userFails
        || First(users, ActiveById(id)).None?
        || (eventsFails && |users[First(users, ActiveById(id)).value].eventIds| > 0)
      ensures r.Some? ==>
        var row := users[First(users, ActiveById(id)).value];
        && r.value == row.(eventIds := Keep(Dedup(row.eventIds), RunningAmong(Dedup(row.eventIds), running)))
        && r.value.userId == id && !r.value.isGuest
        && NoDuplicates(r.value.eventIds)
        && (forall x :: x in r.value.eventIds <==> x in row.eventIds && x in events && running(events[x]))
    {
      if userFails {
        return None;
      }
      var found := First(users, ActiveById(id));
      if found.None? {
        return None;
      }
      var row := users[found.value];
      var ids := RemoveDuplicates(row.eventIds);
      var user := row.(eventIds := ids);
      DedupNoDuplicates(row.eventIds);
      if |row.eventIds| > 0 {
        var x := row.eventIds[0];
        assert x in row.eventIds;
        assert x in ids;
      }
      if |ids| == 0 {
        return Some(user);
      }
      if eventsFails {
        return None;
      }

      // event_id IN (ids)
      var pending := set e | e in events.Keys && e in ids;
      var valid: set<int> := {};
      while pending != {}
        invariant pending <= events.Keys
        invariant forall e :: e in pending ==> e in ids
        invariant forall e :: e in valid <==> e in events && e in ids && e !in pending && running(events[e])
        decreases pending
      {
        assert exists e :: e in pending;
        var e :| e in pending;
        if running(events[e]) {
          valid := valid + {events[e].eventId};
        }
        pending := pending - {e};
      }
      assert forall e :: e in valid <==> e in RunningAmong(ids, running);
      assert valid == RunningAmong(ids, running);

      var kept := FilterValid(ids, valid);
      var embedding := KeepSubsequence(ids, valid);
      SubsequenceOfDistinct(embedding, kept, ids);
      return Some(user.(eventIds := kept));
    }

    /** `AddUser`: inserts the user as a guest with id 13; the insert fails
        when the email (the primary key) is taken. */
    method AddUser(u: User, fails: bool) returns (err: Option<DbError>)
      requires Valid()
      modifies this
      ensures Valid() && events == old(events)
      ensures fails ==> err == Some(StorageError) && users == old(users)
      ensures !fails && EmailTaken(old(users), u.email) ==> err == Some(DuplicateKey) && users == old(users)
      ensures !fails && !EmailTaken(old(users), u.email) ==> err == None && users == old(users) + [NewGuest(u)]
    {
      if fails {
        return Some(StorageError);
      }
      if exists i :: 0 <= i < |users| && users[i].email == u.email {
        return Some(DuplicateKey);
      }
      users := users + [NewGuest(u)];
      return None;
    }

    /** The common shape of the updates by `user_id`. */
    method UpdateById(id: int, a: Assignment, fails: bool) returns (r: Result<nat, DbError>)
      requires Valid()
      modifies this
      ensures Valid() && events == old(events)
      ensures fails ==> r == Err(StorageError) && users == old(users)
      ensures !fails ==> r == Ok(Count(old(users), id)) && users == UpdateRows(old(users), id, a)
    {
      if fails {
        return Err(StorageError);
      }
      var rows := Count(users, id);
      users := UpdateRows(users, id, a);
      return Ok(rows);
    }

    /** `UpdateUser`: an OmitZero update of the rows with the id. */
    method UpdateUser(id: int, updates: User, fails: bool) returns (r: Result<nat, DbError>)
      requires Valid()
      modifies this
      ensures Valid() && events == old(events)
      ensures fails ==> r == Err(StorageError) && users == old(users)
      ensures !fails ==> r == Ok(Count(old(users), id)) && users == UpdateRows(old(users), id, NonZeroFields(updates))
    {
      r := UpdateById(id, NonZeroFields(updates), fails);
    }

    /** `TopupBalance`: `balance = balance + amount` on the rows with the id. */
    method TopupBalance(id: int, amount: int, fails: bool) returns (r: Result<nat, DbError>)
      requires Valid()
      modifies this
      ensures Valid() && events == old(events)
      ensures fails ==> r == Err(StorageError) && users == old(users)
      ensures !fails ==> r == Ok(Count(old(users), id)) && users == UpdateRows(old(users), id, AddToBalance(amount))
    {
      r := UpdateById(id, AddToBalance(amount), fails);
    }

    /** `TopDownBalance`: `balance = balance - amount` on the rows with the id,
        with no floor. */
    method TopDownBalance(id: int, amount: int, fails: bool) returns (r: Result<nat, DbError>)
      requires Valid()
      modifies this
      ensures Valid() && events == old(events)
      ensures fails ==> r == Err(StorageError) && users == old(users)
      ensures !fails ==> r == Ok(Count(old(users), id)) && users == UpdateRows(old(users), id, SubtractFromBalance(amount))
    {
      r := UpdateById(id, SubtractFromBalance(amount), fails);
    }

    /** `AcceptGuest`: `is_guest = false` on the rows with the id. */
    method AcceptGuest(id: int, fails: bool) returns (r: Result<nat, DbError>)
      requires Valid()
      modifies this
      ensures Valid() && events == old(events)
      ensures fails ==> r == Err(StorageError) && users == old(users)
      ensures !fails ==> r == Ok(Count(old(users), id)) && users == UpdateRows(old(users), id, ClearGuest)
    {
      r := UpdateById(id, ClearGuest, fails);
    }
  }

  // ------------------------------------------------------------------ lemmas

  /** An update by an id that no row carries changes nothing and affects no row. */
  lemma UpdateAbsentId(rows: seq<User>, id: int, a: Assignment)
    requires forall i :: 0 <= i < |rows| ==> rows[i].userId != id
    ensures UpdateRows(rows, id, a) == rows && Count(rows, id) == 0
  {
  }

  /** Topping a balance up and down by the same amount restores the table. */
  lemma TopupThenTopDown(rows: seq<User>, id: int, amount: int)
    ensures UpdateRows(UpdateRows(rows, id, AddToBalance(amount)), id, SubtractFromBalance(amount)) == rows
  {
    var up := UpdateRows(rows, id, AddToBalance(amount));
    var down := UpdateRows(up, id, SubtractFromBalance(amount));
    forall i | 0 <= i < |rows|
      ensures down[i] == rows[i]
    {
      assert up[i].userId == rows[i].userId;
    }
  }

  /** With distinct ids, exactly one row carries an id that occurs. */
  lemma {:induction false} CountUnique(rows: seq<User>, i: nat)
    requires IdsUnique(rows) && i < |rows|
    ensures Count(rows, rows[i].userId) == 1
  {
    var p := rows[..|rows| - 1];
    assert forall k :: 0 <= k < |p| ==> p[k] == rows[k];
    if i < |rows| - 1 {
      CountUnique(p, i);
    } else {
      assert forall k :: 0 <= k < |p| ==> p[k].userId != rows[i].userId;
    }
  }

  /** After `AcceptGuest`, the accepted rows are not guests any more, so they
      leave `Guests` and join `NonGuests`. */
  lemma AcceptedAreUsers(rows: seq<User>, id: int)
    ensures forall i :: 0 <= i < |rows| && rows[i].userId == id ==>
      UpdateRows(rows, id, ClearGuest)[i] in NonGuests(UpdateRows(rows, id, ClearGuest))
    ensures forall u :: u in Guests(UpdateRows(rows, id, ClearGuest)) ==> u.userId != id
  {
    var after := UpdateRows(rows, id, ClearGuest);
    forall u | u in Guests(after)
      ensures u.userId != id
    {
      var i :| 0 <= i < |after| && after[i] == u;
      assert rows[i].userId == after[i].userId;
    }
  }

  /** Every row is either a guest or not: the two listings split the table. */
  lemma {:induction false} GuestsPartition(rows: seq<User>)
    ensures |Guests(rows)| + |NonGuests(rows)| == |rows|
  {
    if rows != [] {
      GuestsPartition(rows[..|rows| - 1]);
    }
  }

  /** A successful booking when ids are distinct: the user's row gains the
      event at the end of its list and nothing else in the table changes. */
  lemma BookingTouchesOneRow(rows: seq<User>, i: nat, id: int)
    requires IdsUnique(rows) && i < |rows|
    ensures First(rows, ById(rows[i].userId)) == Some(i)
    ensures WithEventAppended(rows, rows[i].userId, id)
         == rows[i := rows[i].(eventIds := rows[i].eventIds + [id])]
  {
    var userId := rows[i].userId;
    var f := First(rows, ById(userId));
    assert f.Some?;
    assert f.value == i;
    var after := WithEventAppended(rows, userId, id);
    var expected := rows[i := rows[i].(eventIds := rows[i].eventIds + [id])];
    var row := rows[i].(eventIds := rows[i].eventIds + [id]);
    assert Assign(rows[i], DataFields(row)) == expected[i];
    forall k | 0 <= k < |rows|
      ensures after[k] == expected[k]
    {
      if k != i {
        assert rows[k].userId != userId;
      }
    }
  }

  /** When two rows share an id, booking for that id copies the first row's
      name, password, balance and lists into the second: the second user's
      own data is lost. */
  lemma BookingOverwritesSharedId(rows: seq<User>, i: nat, j: nat, id: int)
    requires i < j < |rows| && rows[i].userId == rows[j].userId
    requires forall k :: 0 <= k < i ==> rows[k].userId != rows[i].userId
    ensures WithEventAppended(rows, rows[i].userId, id)[j]
         == rows[i].(eventIds := rows[i].eventIds + [id], email := rows[j].email)
  {
    assert First(rows, ById(rows[i].userId)) == Some(i);
  }

  /** Every registration inserts id 13, so two registrations always leave two
      rows with the same id, which the updates by id then treat as one user. */
  lemma RegistrationsShareId(rows: seq<User>, a: User, b: User)
    ensures var after := rows + [NewGuest(a)] + [NewGuest(b)];
      !IdsUnique(after) && Count(after, 13) >= 2
  {
    var after := rows + [NewGuest(a)] + [NewGuest(b)];
    var p := after[..|after| - 1];
    assert p == rows + [NewGuest(a)];
    assert p[..|p| - 1] == rows;
    assert Count(p, 13) == Count(rows, 13) + 1;
    assert Count(after, 13) == Count(p, 13) + 1;
    assert after[|rows|].userId == after[|rows| + 1].userId;
  }

  /** The same table with a booking and a debit applied, written for the
      handler: one row per user, `BookEvent` then `TopDownBalance`. */
  lemma BookThenDebitOneRow(rows: seq<User>, i: nat, id: int, price: int)
    requires IdsUnique(rows) && i < |rows|
    ensures UpdateRows(WithEventAppended(rows, rows[i].userId, id), rows[i].userId, SubtractFromBalance(price))
         == rows[i := rows[i].(eventIds := rows[i].eventIds + [id], balance := rows[i].balance - price)]
    ensures Count(WithEventAppended(rows, rows[i].userId, id), rows[i].userId) == 1
  {
    BookingTouchesOneRow(rows, i, id);
    var booked := WithEventAppended(rows, rows[i].userId, id);
    assert IdsUnique(booked) by {
      forall k, l | 0 <= k < l < |booked| ensures booked[k].userId != booked[l].userId {
        assert booked[k].userId == rows[k].userId && booked[l].userId == rows[l].userId;
      }
    }
    CountUnique(booked, i);
  }
}
