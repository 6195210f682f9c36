/** Records of the event-management backend: the rows of the `event` and `user`
    tables and the request payloads, plus the Option/Result wrappers used for
    lookups and error returns. */
module Models {

  datatype Option<T> = None | Some(value: T)

  datatype Result<T, E> = Ok(value: T) | Err(error: E)

  /** A row of the `event` table; `eventId` is its primary key and `userIds`
      the list of booked users (the ORM does not keep it duplicate-free). */
  datatype Event = Event(
    eventId: int,
    title: string,
    startDate: string,
    endDate: string,
    location: string,
    image: string,
    category: int,
    capacity: int,
    isArchived: bool,
    price: int,
    userIds: seq<int>)

  /** A row of the `user` table. Its primary key is `email`; `userId` is an
      ordinary column that nothing keeps unique. */
  datatype User = User(
    userId: int,
    email: string,
    password: string,
    name: string,
    isGuest: bool,
    eventIds: seq<int>,
    bookedEvents: seq<int>,
    balance: int)

  /** Body of a booking request. */
  datatype BookEventRequest = BookEventRequest(eventId: int, userId: int)

  /** Body of a login request. */
  datatype LoginRequest = LoginRequest(email: string, password: string)
}
