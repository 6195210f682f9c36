# Eventy backend core in Dafny

This project models the logic of the Eventy backend, a Go service for booking events. The model covers the storage of events and users, booking an event and paying for it, and the login, registration and profile-update decisions of the third-party (mobile) API. It also covers the shared string utilities (membership search, rune reversal, base64 preparation), the table from status codes to JSON replies, configuration loading from the environment, and the log helpers (line format, log-file clean-up, level selection).

The Dafny modules follow the program's packages:

| module | file | models |
|---|---|---|
| `Models` | models.dfy | the records of `pkg/models` |
| `UserLists` | user_lists.dfy | `removeDuplicates` and the event filter of `GetUserByID` |
| `Store` | store.dfy | the `event` and `user` tables and the queries of `pkg/db` |
| `StrConv` | strconv.dfy | Go's `strconv.Atoi` and `strconv.ParseBool`, which the configuration and the profile update use |
| `ThirdParty` | third_party.dfy | the handlers of `pkg/third_party` |
| `Functions` | functions.dfy | `functions/functions.go` |
| `ErrorCodes` | error_codes.dfy | `functions/error_codes.go` |
| `Config` | config.dfy | `config/config.go` |
| `Logger` | logger.dfy | `config/customerlogger.go` |

How the model represents the program:

- **Stored state is a class.** The stored state lives in the class `Store.Db`, and its methods change it in place.
  - The event table is a map keyed by `event_id`.
  - The user table is the sequence of its rows. Its primary key is `email`, and nothing makes `user_id` unique; `AddUser` even inserts every new user with id 13.
  - An update by `user_id` therefore touches every row with that id, and reports as rows affected how many rows it touched.
  - A single-row read returns one matching row; the model takes the first in its order of the rows.
  - `Store.RegistrationsShareId` and `Store.BookingOverwritesSharedId` show what this means for the program.
- **Failures are inputs.** A storage failure of a call is a `bool` parameter, so each outcome, including the partial states after a later failure, is named in the contracts. A request body is the record it decodes to, or `None` when it does not decode. The `binding:"required"` tags are predicates that reject zero values.
- **Go's `len` counts bytes.** The base-path rule therefore measures UTF-8 length (`Config.Utf8Len`).
- **The environment is a map.** The clock and the file system are parameters:
  - "the event has not ended" is a predicate `running`;
  - a directory listing is a sequence of `(name, isDir, mtime)`.
- **Where the code's own messages and its behaviour disagree, the model follows the behaviour:**
  - `Register` never answers "Register successful". That branch is unreachable, and the model proves it. A new email gets an empty 200 reply.
  - The message for an invalid `MaxLogFiles` value is "invalid CARPARK ID".
  - `Login` and `Register` find only non-guest users by email, so a pending guest's email makes the insert fail on the primary key.

## Model

| member | source | states |
|---|---|---|
| Store.First | pkg/db/user.go:114-119 | a single-row read returns one row matching the WHERE clause (the first in the model's order of the rows); none exactly when no row matches |
| Store.UpdateRows | pkg/db/user.go:141-146 | an update by `user_id` applies its SET to exactly the rows with the id and leaves every other row as it was |
| Store.Count | pkg/db/user.go:151-153 | rows affected never exceed the table size and are zero exactly when no row has the id |
| Store.NewGuest | pkg/db/user.go:129-131 | the inserted row is a guest with id 13 and otherwise the input record |
| Store.MergeUser | pkg/db/user.go:141-146 | OmitZero: a non-empty password replaces the stored one, an empty one keeps it; the guest flag is only ever set; a zero balance keeps the stored one; the email key never changes |
| Store.Guests | pkg/db/user.go:51-58 | `is_guest = true` selects exactly the guest rows |
| Store.NonGuests | pkg/db/user.go:14-18 | `is_guest = false` selects exactly the non-guest rows |
| Store.MergeEvent | pkg/db/event.go:44-49 | OmitZero on an event: the key never changes, a non-zero capacity replaces the stored one, and a zero one or an empty participant list keeps the stored value |
| Store.WithEventAppended | pkg/db/event.go:117-126 | the user table after the booking's user write: rows without the id are unchanged, the row that was read gains the event and nothing else, and every other row with the id becomes a copy of it that keeps its own email |
| Store.EventWritten | pkg/db/event.go:89-103 | the booking gets past the event write exactly when the event read succeeds, the user is not yet booked, the event is not full, and the write succeeds |
| Store.BookingError | pkg/db/event.go:60-126 | the error a booking stops with, checking in the source's order: the event read, the duplicate booking, the capacity, the event write, the user read, the user write |
| Store.BookingErrorAfterEventWrite | pkg/db/event.go:100-126 | a failed booking leaves the event written exactly when it stopped at the user's read or write |
| Store.WithBooking | pkg/db/event.go:89-98 | after the event write, the event's participant list is the old one with the user appended; no other event changes |
| Store.Db.GetEventById | pkg/db/event.go:23-30 | the stored event is returned exactly when the read does not fail and the id is stored |
| Store.Db.UpdateEvent | pkg/db/event.go:44-57 | one row affected and the event merged when it exists; zero rows and nothing changed otherwise; a storage error changes nothing |
| Store.Db.DeleteEvent | pkg/db/event.go:141-150 | the event is removed; rows affected is 1 when it existed and 0 otherwise |
| Store.Db.BookEvent | pkg/db/event.go:60-138 | a missing event, an existing booking (checked before capacity) and a full event each fail with their own error and change nothing; after the event write, a failed user fetch or user write leaves the event booked and the users unchanged; the error is always the first check that fails; success happens exactly when every step goes through, returns the event update's 1 row and appends the event to the user's list; capacity and no-double-booking invariants are preserved |
| Store.Db.GetAllUsers | pkg/db/user.go:14-29 | a failed select is an error; otherwise the non-guest rows, in the model's order of the rows, each with its event list deduplicated |
| Store.Db.GetAllGuests | pkg/db/user.go:51-59 | a failed select is an error; otherwise exactly the guest rows as stored, in the model's order of the rows |
| Store.Db.GetUserByEmail | pkg/db/user.go:114-126 | none exactly when the select fails or no non-guest row has the email; otherwise one such row (the first in the model's order) with its events deduplicated |
| Store.Db.GetUserById | pkg/db/user.go:62-113 | none exactly when the user select fails, no non-guest row has the id, or the row has events and the events select fails; otherwise that row with its deduplicated events restricted to stored events that have not ended, in first-occurrence order, without repeats |
| Store.Db.AddUser | pkg/db/user.go:129-138 | the row is appended as a guest with id 13; a taken email or a storage error inserts nothing |
| Store.Db.UpdateById | pkg/db/user.go:141-153 | an update by id returns the number of rows with the id and applies the assignment to them; a storage error changes nothing |
| Store.Db.UpdateUser | pkg/db/user.go:141-154 | the OmitZero merge is applied to every row with the id; rows affected is their number |
| Store.Db.TopupBalance | pkg/db/user.go:156-171 | `balance + amount` on every row with the id, unbounded |
| Store.Db.TopDownBalance | pkg/db/user.go:173-188 | `balance - amount` on every row with the id, with no floor |
| Store.Db.AcceptGuest | pkg/db/user.go:213-228 | `is_guest = false` on every row with the id |
| Store.UpdateAbsentId | pkg/db/user.go:158-170 | an update of an id no row carries changes nothing and reports 0 rows |
| Store.TopupThenTopDown | pkg/db/user.go:156-188 | topping up and then down by the same amount restores the table |
| Store.CountUnique | pkg/db/user.go:151-153 | with distinct ids, an update by a present id affects exactly one row |
| Store.AcceptedAreUsers | pkg/db/user.go:213-228 | accepted rows appear among the non-guests and no row with the id remains among the guests |
| Store.GuestsPartition | pkg/db/user.go:14-58 | the guest and non-guest listings split the table |
| Store.BookingTouchesOneRow | pkg/db/event.go:105-126 | with distinct ids, the user write changes only the user's row, by appending the event to its list |
| Store.BookingOverwritesSharedId | pkg/db/event.go:117-126 | when two rows share the id, the write copies the data of the row the read returned, with the event appended, into the other, keeping only its email |
| Store.RegistrationsShareId | pkg/db/user.go:129-132 | two registrations always leave two rows with id 13 |
| Store.BookThenDebitOneRow | pkg/third_party/users_3rdParty.go:25-42 | with distinct ids, booking then debiting changes only the user's row: event appended, balance reduced by the price, one row debited |
| UserLists.RemoveDuplicates | pkg/db/user.go:32-49 | the seen-set loop computes the reference dedup; the result has no repeats and the same elements |
| UserLists.DedupElements | pkg/db/user.go:41-46 | dedup keeps exactly the set of input elements |
| UserLists.DedupNoDuplicates | pkg/db/user.go:38-45 | dedup output has no repeated element |
| UserLists.DedupFirstOccurrences | pkg/db/user.go:41-46 | dedup output is a subsequence of the input, with each element taken at its first occurrence |
| UserLists.DedupOfDistinct | pkg/db/user.go:32-49 | a list without repeats, in particular the empty one, is returned unchanged |
| UserLists.DedupIdempotent | pkg/db/user.go:32-49 | dedup is idempotent |
| UserLists.FilterValid | pkg/db/user.go:102-108 | the filter loop keeps exactly the ids in the valid set, in order |
| UserLists.KeepElements | pkg/db/user.go:102-108 | the filter keeps exactly the input ids that are valid |
| UserLists.KeepSubsequence | pkg/db/user.go:102-108 | the filtered list is a subsequence of the input |
| UserLists.SubsequenceOfDistinct | pkg/db/user.go:102-110 | a subsequence of a list without repeats has none |
| StrConv.Atoi | config/config.go:57-60 | a parsed value lies in the 64-bit range; an overflow reports the bound it was clamped to; the empty text is a syntax error |
| StrConv.AtoiDecimal | config/config.go:57-60 | every 64-bit integer written in decimal, with "-" when negative, parses back to itself |
| StrConv.ScanUint | pkg/third_party/user_mngmt.go:87-96 | the digit loop of `ParseUint`: a text of digits scans to the number it spells when that fits in 64 bits and overflows otherwise; a text holding anything else never scans to a number |
| StrConv.ParseBool | config/config.go:80-83 | true exactly for 1, t, T, true, TRUE, True; false exactly for 0, f, F, false, FALSE, False; anything else is an error |
| ThirdParty.BookEventHandler | pkg/third_party/users_3rdParty.go:12-49 | an unbound request is a 400 with nothing changed; a failed booking is a 500 carrying the booking's error, with no debit, and with the event booked exactly when the booking got past the event write; after booking, a failed re-read or a failed debit is a 500 with the booking kept; success is a 200 with the event's rows affected, and the balance is debited once by the re-read price, which is the stored price; a 200 implies the booking went through |
| ThirdParty.Login | pkg/third_party/user_mngmt.go:15-46 | an unbound payload is a 400; a failed lookup, or no non-guest with the email (a pending guest included), is a 404; a wrong password is a 401 carrying no user data; success returns that user's id, email and name with the fixed token |
| ThirdParty.Register | pkg/third_party/user_mngmt.go:49-80 | an email a non-guest holds is a 409 with nothing added when the lookup succeeds; a failed lookup is taken for a new email; a new email appends a guest and writes no body; an insert failure is a 404; "Register successful" is never sent |
| ThirdParty.UpdateProfile | pkg/third_party/user_mngmt.go:83-135 | an id that does not parse and an unbound body are 400s; a storage error is a 500; otherwise the OmitZero update is applied, and no row with the id gives a 404 with the table unchanged, a matching row a 200; success is true exactly for status 200 |
| Functions.Contains | functions/functions.go:18-34 | the search returns true exactly when the value occurs in the list (both `Contains` and `ContainsStr`) |
| Functions.ReversedAt | functions/functions.go:129-135 | the reversal has the same length and puts the rune at n-1-i at position i |
| Functions.ReversedTwice | functions/functions.go:129-135 | reversing twice gives the original back |
| Functions.ReverseString | functions/functions.go:129-135 | the two-index swap loop computes the reversal |
| Functions.IndexOf | functions/functions.go:82 | `strings.Index`: -1 exactly when the pattern does not occur, otherwise its first occurrence |
| Functions.StripThrough | functions/functions.go:82-84 | the text after the first occurrence of the marker, or the whole text when it does not occur |
| Functions.KeepBase64Chars | functions/functions.go:86-87 | the filtered text holds only alphabet characters, exactly those of the input |
| Functions.KeepBase64CharsOfClean | functions/functions.go:86-87 | text already in the alphabet passes the filter unchanged |
| Functions.PadCount | functions/functions.go:89-91 | at most 3 padding characters bring the length to a multiple of 4 |
| Functions.PadCountLeast | functions/functions.go:89-91 | no shorter padding reaches a multiple of 4 |
| Functions.PadToQuad | functions/functions.go:89-91 | the loop appends exactly that many '=' and ends at a multiple of 4 |
| Functions.Base64Prepared | functions/functions.go:80-91 | the text handed to the decoder is in the alphabet and has a length that is a multiple of 4 |
| Functions.PrepareBase64 | functions/functions.go:80-91 | the string handling of `DecodeBase64ToByteArray` computes that text |
| Functions.PreparedClean | functions/functions.go:80-91 | padded base64 text is handed to the decoder unchanged |
| Functions.PreparedIsFixedPoint | functions/functions.go:80-91 | preparing a prepared text again changes nothing |
| Functions.DataUrlPayload | functions/functions.go:63-67 | `VDecodeBase64ToByteArray` drops everything through the first ";base64,", or nothing when it is absent |
| Functions.DataUrlPayloadRoundTrip | functions/functions.go:51-67 | a data URL as `ByteaToBase64` builds it gives exactly its payload back |
| Functions.Base64PreparedRoundTrip | functions/functions.go:51-91 | the same data URL gives `DecodeBase64ToByteArray` its payload, which reaches the decoder unchanged when it is padded base64 |
| ErrorCodes.MessagesIdentifyCodes | functions/error_codes.go:20-85 | no two listed codes share a message, so the message identifies the code |
| ErrorCodes.RespondWithStatus | functions/error_codes.go:15-92 | the reply echoes the code; success is "true" exactly for 200, which gives "OK" and HTTP 200; each HTTP status belongs to exactly the codes the switch maps to it; -500 and unlisted codes are 500, and only unlisted codes say "Unknown error" |
| Config.GetEnv | config/config.go:113-119 | the variable's value, even an empty one, when it is set; the default when it is not set |
| Config.Utf8Len | config/config.go:99 | `len` of a string counts its UTF-8 bytes, at least one per character |
| Config.ShortText | config/config.go:99 | a value of at most one byte is empty or a single ASCII character |
| Config.NormalizedBasePath | config/config.go:98-107 | nothing is stored exactly when the value is at most one byte long; otherwise the stored path starts with "/" and is the value, with "/" added in front when missing, with one trailing "/" removed |
| Config.ParsedStages | config/config.go:57-91 | the load gets past the server port, the database port, LogToFile, MaxFileSize and MaxLogFiles in that order, each stage exactly when its setting parses and every earlier one did |
| Config.FirstFailure | config/config.go:57-91 | the load reports no error exactly when all five parses pass, and otherwise the error of the first that fails |
| Config.DefaultParses | config/config.go:113-119 | with the variable not set, a default written in decimal parses to its number |
| Config.EmptyEnvironmentServerPort | config/config.go:57 | with nothing set, the server port is 8080 |
| Config.EmptyEnvironmentDatabasePort | config/config.go:65 | with nothing set, the database port is 5432 |
| Config.EmptyEnvironmentLogFiles | config/config.go:84-92 | with nothing set, MaxFileSize is 50 and MaxLogFiles 10 |
| Config.EmptyEnvironment | config/config.go:56-107 | with nothing set, every parse passes, LogToFile is false and the base path is not assigned |
| Config.ConfigFile.Load | config/config.go:48-110 | the error is the first failing parse; each section holds what was assigned before the load stopped, the failing field holds the parser's fallback value, and nothing after it is assigned |
| Config.ConfigFile.LoadServer | config/config.go:55-61 | the server host and port are set, and the release mode unless the port fails to parse |
| Config.ConfigFile.LoadDatabase | config/config.go:63-73 | the database host and port are set, and the remaining fields unless the port fails to parse |
| Config.ConfigFile.LoadApp | config/config.go:75-92 | the application settings in order, stopping at the first failing parse |
| Config.ConfigFile.LoadAdminUserAndBasePath | config/config.go:93-107 | the admin credentials are set, and the base path when the rule yields one |
| Logger.SplitOn | config/customerlogger.go:48 | `strings.Split` always yields at least one piece, no piece holds the separator, and a text without the separator is its only piece |
| Logger.LastPieceSnoc | config/customerlogger.go:48 | while splitting, a separator starts a new, empty last piece and any other character extends the last piece |
| Logger.LastPiece | config/customerlogger.go:48-49 | the last piece of a split is a suffix of the text, preceded by the separator when shorter |
| Logger.FuncName | config/customerlogger.go:47-50 | the function name holds no "/", is a suffix of the caller preceded by "/" when shorter, and is the whole caller when the caller holds no "/" |
| Logger.ReplaceT | config/customerlogger.go:63 | every 'T' becomes ' ' and every other character stays |
| Logger.FormatTimestamp | config/customerlogger.go:61-66 | a timestamp of at least 22 characters becomes its first 22 characters with 'T' replaced by ' '; a shorter one is unchanged |
| Logger.FormatTimestampIdempotent | config/customerlogger.go:61-66 | formatting a formatted timestamp changes nothing |
| Logger.AsciiLower | config/customerlogger.go:194 | ASCII letters are lower-cased; other characters are kept |
| Logger.GlobalLevel | config/customerlogger.go:194-209 | the level is always one of the six the switch names |
| Logger.GlobalLevelIgnoresCase | config/customerlogger.go:194-209 | the choice ignores case |
| Logger.GlobalLevelOfNames | config/customerlogger.go:194-209 | each of trace, debug, info, warn, error and fatal selects its level, and any other setting selects info |
| Logger.AdditionalFields | config/customerlogger.go:52-58 | one `key=value` field per key other than time, message, level and caller, each exactly once, in whatever order the map gives |
| Logger.FormatLine | config/customerlogger.go:69-75 | the line is its five columns, the additional fields joined by spaces in the last, joined by " \| " and ended by a newline |
| Logger.FormatLineEnds | config/customerlogger.go:69-75 | a line ends with its newline, and an empty timestamp leaves it starting with the separator |
| Logger.EntryLine | config/customerlogger.go:43-75 | the line of an entry ends with a newline, and an entry without a time starts with the separator |
| Logger.EntryLineOfEmpty | config/customerlogger.go:43-75 | an entry with no keys (JSON `null` or `{}`) gives the line whose columns are empty but for the level |
| Logger.FileWriter.WriteLevel | config/customerlogger.go:35-80 | input that `json.Unmarshal` rejects is refused with count 0 and nothing written (`null` decodes to the empty map and is written); otherwise the count is `len(p)`, a file error is passed on, and on success exactly one formatted line is appended |
| Logger.LogFiles | config/customerlogger.go:89-95 | the candidates are exactly the non-directory entries named "*.log" |
| Logger.CollectLogFiles | config/customerlogger.go:89-95 | the filter loop collects those candidates in directory order |
| Logger.SortByMtime | config/customerlogger.go:97-102 | the sort yields the same entries, oldest first |
| Logger.CutSorted | config/customerlogger.go:104-106 | cutting the sorted list splits it into an older and a newer part that make up the whole |
| Logger.DeleteOldLogFiles | config/customerlogger.go:83-115 | a read error is reported; a negative limit panics; otherwise exactly count − maxFiles files are removed when the count exceeds maxFiles (none otherwise), none of them newer than any kept file, and removed plus kept are the candidates |

## Left out

- Concurrency is not modelled: simultaneous bookings, the global database handle and the logger mutex. The model is sequential.
- The ORM and SQL (bun, pgdialect) are modelled only by their effect on the two tables; an insert with a taken email is modelled as the primary-key error.
- SQL without `ORDER BY` fixes no order of the rows. The model keeps the rows in one sequence, keeps every row at its position across updates, lists in that order and picks the first matching row for a single-row read; a database may return them in any order and pick any matching row.
- `time.Parse` and `time.Now` in `GetUserByID` are the predicate `running`; `ParseTimeData` and `ParseTimeCustomData` are not modelled.
- Base64 encoding and decoding, and MIME detection in `ByteaToBase64`, are standard-library calls; only the string handling around them is modelled.
- The JWT middleware, the Stripe payment call, the backoffice handlers, routing and `main`, and `pkg/db/category.go` are not part of this model; nor are `GetAllEvents`, `AddEvent`, `DeleteUser`, `DeclineGuest` or `GetUserProfile`.
- `godotenv`, lumberjack rotation and the zerolog set-up in `InitLogger` are not modelled, nor is the console writer; the environment is a map and the log file is the string of lines written to it.
- Store.Db.TopupBalance, Store.Db.TopDownBalance: the arithmetic is SQL run by the database (`balance = balance + ?`, `balance = balance - ?`), so nothing wraps; on a `bigint` column an out-of-range result makes the update fail, and that database error is not modelled: balances are unbounded integers.
- Nil and empty slices are not distinguished.
- Logger.FileWriter.WriteLevel: JSON decoding is an input (the decoded map, or none), `%v` of a non-string value is given as its rendered text, and a failed file write is modelled as writing nothing, although lumberjack may write part of the line.
- Logger.AsciiLower: `strings.ToLower` lowers every Unicode upper-case letter ("É" to "é", "Σ" to "σ", and so on); the model lowers only 'A' to 'Z'. The level switch cannot tell the two apart. Only two non-ASCII letters lower to ASCII: the Kelvin sign to 'k', which is in no level name, and the dotted capital I to 'i', which is only in "info". A setting that matches only through the dotted I selects Info under Go's lowering, and as an unmatched setting it also selects Info here. Every other non-ASCII letter stays non-ASCII either way, so no level name can match.
- Logger.FormatTimestamp: in Go, `len` and `[:22]` count bytes; the model counts characters, which agree for the ASCII timestamps zerolog writes.
- Logger.SortByMtime: `sort.Slice` is an in-place library sort that is not stable; the model uses one stable order it may produce, and the contract of `Logger.DeleteOldLogFiles` holds for any sorted order. An `Info()` error during the sort is not modelled.
- Logger.DeleteOldLogFiles: with a negative `maxFiles`, whether some files are removed before the panic depends on the slice's spare capacity; the model only reports the panic. Failures of individual removals are only logged and are not modelled.
- Functions.ReverseString: converting invalid UTF-8 to runes yields U+FFFD in Go; strings here are sequences of characters, so that case does not arise.
- ThirdParty.BookEventHandler: the corollary for tables with distinct ids (only the user's row changes, debited once) is stated separately as Store.BookThenDebitOneRow rather than in the handler's contract.
- Store.MergeUser: the model takes bun's rule that an update from a model leaves the primary-key column (`email`) out of its SET, so the stored email is kept.
