/** The handlers of the mobile/third-party API: booking an event and paying
    for it, logging in, registering and updating a profile. A request body is
    given as the record it decodes to, or `None` when it is not JSON of that
    shape; the `binding:"required"` tags additionally reject a zero value in a
    required field. */
module ThirdParty {
  import opened Models
  import opened Store
  import StrConv

  /** Why a booking request ended in a 500; the text is the error's own. */
  datatype Failure = BookingFailed(reason: BookError) | EventNotReread | DebitFailed

  /** The JSON body of a response. */
  datatype Body =
    | NoBody                                  // nothing written
    | ErrorText(error: string)                // {"error": ...}
    | ErrorOf(failure: Failure)               // {"error": err.Error()}
    | Booked(message: string, rowsAffected: nat)
    | LoggedIn(message: string, userId: int, email: string, name: string, token: string)
    | Outcome(success: bool, message: string, code: int)
    | Message(message: string)

  datatype Response = Response(status: int, body: Body)

  /** `ShouldBindJSON` on a booking request: both ids are required, so zero fails. */
  predicate BookingBinds(req: Option<BookEventRequest>)
  {
    req.Some? && req.value.eventId != 0 && req.value.userId != 0
  }

  /** `ShouldBindJSON` on a login: email and password are required. */
  predicate LoginBinds(req: Option<LoginRequest>)
  {
    req.Some? && req.value.email != "" && req.value.password != ""
  }

  /** `ShouldBindJSON` on a user record: email, password and name are required. */
  predicate UserBinds(body: Option<User>)
  {
    body.Some? && body.value.email != "" && body.value.password != "" && body.value.name != ""
  }

  // ---------------------------------------------------------------- booking

  /** `BookEventHandler`: book, read the event back, debit its price from the
      user, stopping at the first error with what has been written so far left
      in place. `rereadFails` and `debitFails` are storage errors of the last
      two calls. */
  method BookEventHandler(db: Db, req: Option<BookEventRequest>, faults: BookFaults, rereadFails: bool, debitFails: bool)
    returns (resp: Response)
    requires db.Valid()
    modifies db
    ensures db.Valid()
    ensures !BookingBinds(req) ==>
      resp == Response(400, ErrorText("Invalid input")) && db.events == old(db.events) && db.users == old(db.users)
    // a failed booking debits nothing
    ensures BookingBinds(req) && !GoesThrough(old(db.events), old(db.users), req.value.eventId, req.value.userId, faults) ==>
      var id, userId := req.value.eventId, req.value.userId;
      && resp == Response(500, ErrorOf(BookingFailed(BookingError(old(db.events), old(db.users), id, userId, faults))))
      && db.users == old(db.users)
      // the event keeps the booking when only the user's read or write failed
      && db.events == if EventWritten(old(db.events), id, userId, faults) then WithBooking(old(db.events), id, userId) else old(db.events)
    ensures BookingBinds(req) && GoesThrough(old(db.events), old(db.users), req.value.eventId, req.value.userId, faults) ==>
      var id, userId := req.value.eventId, req.value.userId;
      var booked := WithEventAppended(old(db.users), userId, id);
      && db.events == WithBooking(old(db.events), id, userId)
      && (rereadFails ==> resp == Response(500, ErrorOf(EventNotReread)) && db.users == booked)
      && (!rereadFails && debitFails ==> resp == Response(500, ErrorOf(DebitFailed)) && db.users == booked)
      // the price debited is the one read after booking, which is the stored price
      && (!rereadFails && !debitFails ==>
            && resp == Response(200, Booked("Event booked successfully", 1))
            && db.users == UpdateRows(booked, userId, SubtractFromBalance(db.events[id].price))
            && db.events[id].price == old(db.events)[id].price)
    ensures resp.status == 200 ==>
      BookingBinds(req) && GoesThrough(old(db.events), old(db.users), req.value.eventId, req.value.userId, faults)
  {
    if !BookingBinds(req) {
      return Response(400, ErrorText("Invalid input"));
    }
    var id, userId := req.value.eventId, req.value.userId;
    ghost var before, eventsBefore := db.users, db.events;

    var booked := db.BookEvent(id, userId, faults);
    if booked.Err? {
      return Response(500, ErrorOf(BookingFailed(booked.error)));
    }

    var event := db.GetEventById(id, rereadFails);
    if event.None? {
      return Response(500, ErrorOf(EventNotReread));
    }

    var debit := db.TopDownBalance(userId, event.value.price, debitFails);
    if debit.Err? {
      return Response(500, ErrorOf(DebitFailed));
    }

    return Response(200, Booked("Event booked successfully", booked.value));
  }

  // ------------------------------------------------------------------ login

  /** The decision `Login` takes on the outcome of the lookup by email. */
  function LoginDecision(req: LoginRequest, lookup: Option<User>): Response
  {
    if lookup.None? then Response(404, ErrorText("User not found"))
    else if lookup.value.password != req.password then Response(401, ErrorText("Invalid credentials"))
    else
      var u := lookup.value;
      Response(200, LoggedIn("Login successful", u.userId, u.email, u.name, "Bearer token"))
  }

  /** `Login`: only a non-guest user can log in, with its own password; the
      answer then carries that user's id, email and name. `lookupFails` is an
      error of the lookup by email, which the handler answers like a missing
      user. */
  method Login(db: Db, req: Option<LoginRequest>, lookupFails: bool) returns (resp: Response)
    ensures !LoginBinds(req) ==> resp == Response(400, ErrorText("Invalid request payload"))
    // no non-guest row has the email (in particular a pending guest's): not found
    ensures LoginBinds(req) && (lookupFails || First(db.users, ActiveByEmail(req.value.email)).None?) ==>
      resp == Response(404, ErrorText("User not found"))
    ensures LoginBinds(req) && !lookupFails && First(db.users, ActiveByEmail(req.value.email)).Some? ==>
      var u := db.users[First(db.users, ActiveByEmail(req.value.email)).value];
      && (u.password != req.value.password ==> resp == Response(401, ErrorText("Invalid credentials")))
      && (u.password == req.value.password ==>
            resp == Response(200, LoggedIn("Login successful", u.userId, u.email, u.name, "Bearer token")))
    ensures resp.status == 200 ==>
      && LoginBinds(req)
      && exists i :: 0 <= i < |db.users| && db.users[i].email == req.value.email && !db.users[i].isGuest
                  && db.users[i].password == req.value.password
    // a refusal carries no user data
    ensures resp.status != 200 ==> resp.body.ErrorText?
  {
    if !LoginBinds(req) {
      return Response(400, ErrorText("Invalid request payload"));
    }
    var lookup := db.GetUserByEmail(req.value.email, lookupFails);
    resp := LoginDecision(req.value, lookup);
  }

  // --------------------------------------------------------------- register

  /** `Register`: a new email is inserted through `AddUser`, that is as a guest
      with id 13, and the handler then writes no body; an email a non-guest
      holds is a conflict; an email a pending guest holds makes the insert
      fail on the key. The "Register successful" answer is never given: the
      lookup only finds rows with the same email. An error of the lookup
      (`lookupFails`) is taken for a missing user, so the insert is tried. */
  method Register(db: Db, body: Option<User>, lookupFails: bool, addFails: bool) returns (resp: Response)
    requires db.Valid()
    modifies db
    ensures db.Valid() && db.events == old(db.events)
    ensures !UserBinds(body) ==> resp == Response(400, ErrorText("Invalid request payload")) && db.users == old(db.users)
    ensures UserBinds(body) && !lookupFails && First(old(db.users), ActiveByEmail(body.value.email)).Some? ==>
      resp == Response(409, ErrorText("User already exists")) && db.users == old(db.users)
    ensures UserBinds(body) && (lookupFails || First(old(db.users), ActiveByEmail(body.value.email)).None?)
            && (addFails || EmailTaken(old(db.users), body.value.email)) ==>
      resp == Response(404, ErrorText("Errror creating user")) && db.users == old(db.users)
    ensures UserBinds(body) && !addFails && !EmailTaken(old(db.users), body.value.email) ==>
      resp == Response(200, NoBody) && db.users == old(db.users) + [NewGuest(body.value)]
    ensures resp.body != Message("Register successful")
  {
    if !UserBinds(body) {
      return Response(400, ErrorText("Invalid request payload"));
    }
    var detail := body.value;
    var lookup := db.GetUserByEmail(detail.email, lookupFails);
    if lookup.None? {
      var err := db.AddUser(detail, addFails);
      if err.Some? {
        return Response(404, ErrorText("Errror creating user"));
      }
      return Response(200, NoBody);
    }
    if lookup.value.email == detail.email {
      return Response(409, ErrorText("User already exists"));
    }
    assert false;
    resp := Response(200, Message("Register successful"));
  }

  // --------------------------------------------------------- update profile

  /** `UpdateProfile`: the `user_id` query parameter must parse as an integer
      and the body must bind; the OmitZero update then applies to every row
      with the id, and no such row is a not-found. */
  method UpdateProfile(db: Db, idParam: string, body: Option<User>, fails: bool) returns (resp: Response)
    requires db.Valid()
    modifies db
    ensures db.Valid() && db.events == old(db.events)
    ensures StrConv.Atoi(idParam).Failed() ==>
      resp == Response(400, Outcome(false, "Invalid User ID", -400)) && db.users == old(db.users)
    ensures !StrConv.Atoi(idParam).Failed() && !UserBinds(body) ==>
      resp == Response(400, Outcome(false, "Invalid request payload", -400)) && db.users == old(db.users)
    ensures !StrConv.Atoi(idParam).Failed() && UserBinds(body) && fails ==>
      resp == Response(500, Outcome(false, "Failed to update user", -500)) && db.users == old(db.users)
    ensures !StrConv.Atoi(idParam).Failed() && UserBinds(body) && !fails ==>
      var id := StrConv.Atoi(idParam).n;
      && db.users == UpdateRows(old(db.users), id, NonZeroFields(body.value))
      && ((forall i :: 0 <= i < |old(db.users)| ==> old(db.users)[i].userId != id) ==>
            resp == Response(404, Outcome(false, "No user found with the given ID", -404)))
      && ((exists i :: 0 <= i < |old(db.users)| && old(db.users)[i].userId == id) ==>
            resp == Response(200, Outcome(true, "User updated successfully", 200)))
    // a not-found leaves the table as it was
    ensures resp.status == 404 ==> db.users == old(db.users)
    ensures resp.body.Outcome? && (resp.body.success <==> resp.status == 200)
  {
    var parsed := StrConv.Atoi(idParam);
    if parsed.Failed() {
      return Response(400, Outcome(false, "Invalid User ID", -400));
    }
    var id := parsed.n;
    if !UserBinds(body) {
      return Response(400, Outcome(false, "Invalid request payload", -400));
    }
    ghost var before := db.users;
    var rows := db.UpdateUser(id, body.value, fails);
    if rows.Err? {
      return Response(500, Outcome(false, "Failed to update user", -500));
    }
    if rows.value == 0 {
      UpdateAbsentId(before, id, NonZeroFields(body.value));
      return Response(404, Outcome(false, "No user found with the given ID", -404));
    }
    return Response(200, Outcome(true, "User updated successfully", 200));
  }
}
