# Trip planner backend — a Dafny model

The trip planner is a small HTTP backend. A user creates a trip with:
- a destination and a date range;
- an owner name and address;
- a list of addresses to invite.

The owner receives a mail with a link to confirm the trip. Confirming it mails every invitee a link to confirm their own participation. On an existing trip the API can:
- invite one more person;
- change the destination and the dates;
- add activities, which must fall within the trip's dates;
- add links.

Trips and participants can be read back by id. One error handler turns every rejection into an HTTP status and a JSON body.

This project models the route handlers and the error handler over an abstract store. It proves:
- what each handler answers;
- what each handler writes and which mails it queues;
- the invariants every handler keeps.

## Modules

- `Common` (common.dfy) holds:
  - the entities (trip, participant, activity, link) and the queued mail;
  - the result a handler produces: `Ok`, `ClientError(message)`, or `InvalidInput(fields)`, the schema rejection;
  - the confirmation links and the literal redirect string.
- `Schema` (schema.dfy) holds the request schemas. The web framework checks the path parameters first, then the body. A rejection lists the failing field names. Email, URL and UUID syntax are function-valued fields of `Syntax` that the model leaves uninterpreted. String lengths are counted as JavaScript counts them, in UTF-16 code units (`Utf16Length`), not in characters, for every string the model can hold (see "## Left out" on unpaired surrogates).
- `Rules` (rules.dfy) holds the date rules: dayjs's `isBefore`/`isAfter`, which are strict comparisons on integer timestamps.
- `Mails` (mails.dfy) holds:
  - the query confirm-trip makes for a trip's participants that are not its owner;
  - the mails it sends for them.
- `Tables` (tables.dfy) holds:
  - the participant rows create-trip inserts;
  - the store invariants over the tables as values;
  - one lemma per kind of write, proving that the write keeps the invariants.
- `TripStore` (store.dfy) is the class `Store`. It holds:
  - the maps `trips`, `participants`, `activities` and `links`;
  - `participantOrder`, the order in which the database lists participant rows, taken to be insertion order;
  - the mail `outbox`, which only ever grows at its end.

  The handlers are its methods, plus two functions for the read-only routes.
- `Errors` (errors.dfy) is the error handler.

`Store.Valid()` is the invariant each write preserves:
- every row is stored under its own id and points to a stored trip;
- no trip ends before it starts;
- every participant appears in `participantOrder` exactly once;
- every trip has exactly one owner row, and that row is confirmed.

The no-duplicates and keyed-by-id parts of `Valid()` are exactly what `Mails.ConfirmationMails` requires. So every state the handlers reach meets both of that lemma's preconditions.

The clock (`now`) is a parameter of the handlers that read it. So are the ids the database would generate (`newTripId`, `newParticipantIds`, `newParticipantId`, `newActivityId`, `newLinkId`). Each id parameter comes with a precondition saying it is not yet used. The two base URLs (`API_BASE_URL`, `WEB_BASE_URL`) are the constant `env` of the store.

## Model

| member | source | states |
|---|---|---|
| Common.TripConfirmLinkInjective | src/routes/create-trip.ts:62 | Two trips get the same owner confirmation link `API_BASE_URL/trips/{id}/confirm` only if they have the same id. |
| Common.ParticipantConfirmLinkInjective | src/routes/confirm-trip.ts:59 | Two participants get the same invite link `API_BASE_URL/participants/{id}/confirm` only if they have the same id. |
| Schema.UuidParamErrors | src/routes/confirm-trip.ts:14-16 | A path parameter is rejected exactly when it is not a UUID. The rejection names that parameter alone. |
| Schema.RequestErrors | src/routes/create-invite.ts:15-20 | A request passes only when both its parameters and its body pass. A parameter rejection is reported alone: the body is not checked then. When the parameters pass, the body's failing fields are what is reported. |
| Schema.CreateTripErrors | src/routes/create-trip.ts:15-22 | A create-trip body passes exactly when: the destination is at least 3 UTF-16 code units long, the owner address is an email, and every address to invite is an email. The owner name is never checked. |
| Schema.CreateTripErrorsFields | src/routes/create-trip.ts:15-22 | A create-trip rejection names each failing field: `destination` when it is shorter than 3 UTF-16 code units, `owner_email` when it is malformed, `emails_to_invite` when one of its entries is malformed. No other name appears, and none appears twice. |
| Schema.Utf16Length | src/routes/update-trip.ts:13 | The length `min(3)` compares is counted in UTF-16 code units. It lies between the number of characters and twice that, and equals the number of characters exactly when every character is in the Basic Multilingual Plane. |
| Schema.Utf16LengthAstral | src/routes/create-trip.ts:16 | Two characters outside the Basic Multilingual Plane are 4 code units, so they satisfy `min(3)` even though they are only 2 characters. |
| Schema.MinLengthErrors | src/routes/update-trip.ts:13 | A `min(3)` string field is rejected exactly when it is shorter than 3 UTF-16 code units, and the rejection names that field alone. This is the update-trip destination and the create-activity title (src/routes/create-activity.ts:14); create-trip and create-link use it for their destination and title. |
| Schema.CreateLinkErrors | src/routes/create-link.ts:13-14 | A create-link body passes exactly when the title is at least 3 UTF-16 code units long and the url is a URL. |
| Schema.CreateLinkErrorsFields | src/routes/create-link.ts:13-14 | A create-link rejection names `title` exactly when the title is shorter than 3 UTF-16 code units and `url` exactly when the url is malformed. Nothing else is named, and no name appears twice. |
| Schema.CreateInviteErrors | src/routes/create-invite.ts:18 | A create-invite body is rejected exactly when the address is not an email, with `email` as the only field. |
| Rules.TripDatesError | src/routes/create-trip.ts:27-33 | The dates pass exactly when `now <= starts_at <= ends_at`, so equal dates pass. A start before now gives 'data inicial menor que a data atual'. Otherwise an end before the start gives 'data final menor que a data inicial'. Update-trip applies the same rule (src/routes/update-trip.ts:33-39). |
| Rules.ActivityDateError | src/routes/create-activity.ts:32-38 | An activity date passes exactly when it lies in the trip's range, both ends included. A date before the start gives 'Activity date can not be before trips start date'. A date after the end gives 'Activity date can not be after trips ends date'. |
| Mails.NonOwners | src/routes/confirm-trip.ts:25-31 | The lookup's `participants` list, for rows with `is_owner: false`. It never yields more rows than the store lists. |
| Mails.NonOwnersMembers | src/routes/confirm-trip.ts:25-31 | The lookup returns every listed participant of the trip that is not an owner, and nothing else: no owner and no row of another trip. |
| Mails.NonOwnersDistinct | src/routes/confirm-trip.ts:25-31 | When the store lists each row once under its own id, the lookup returns no row twice. |
| Mails.InviteMailsAt | src/routes/confirm-trip.ts:58-69 | The loop sends one mail per participant, in list order. Mail i goes to participant i's address with participant i's confirmation link. |
| Mails.ConfirmationMails | src/routes/confirm-trip.ts:58-69 | The mails confirm-trip sends satisfy four things. Each goes to an invitee of the trip and carries that invitee's link. Every invitee of the trip gets one. No two carry the same link. None carries an owner's link. |
| Errors.ErrorHandle | src/error-handle.ts:8-27 | The status is always 400 or 500, and it is 500 exactly for an error that is neither a ClientError nor a ZodError. A ClientError gives `{message}`. A ZodError gives `{message: 'invalide input', errors}` with the failing fields. Any other error gives 500 `{message: "Internal server Error"}` and no detail. |
| Errors.FailureOf | src/error-handle.ts:10-21 | Every rejection a handler gives reaches the client as status 400. A ClientError carries its message and a schema rejection carries its failing fields. |
| Tables.NewParticipants | src/routes/create-trip.ts:40-55 | Create-trip inserts `1 + \|emails_to_invite\|` rows, all on the new trip. The owner row (name, address, `is_owner` and `is_confirmed` set) comes first. Then comes one invitee row per address, in input order, with no de-duplication, each with only its address and both flags unset. |
| Tables.RowsByIdAt | src/routes/create-trip.ts:40-57 | The inserted rows, stored by id, hold nothing but the rows. When their ids are distinct, each row is found under its own id. |
| Tables.AddTripKeepsValid | src/routes/create-trip.ts:35-60 | Inserting a fresh, well-dated trip with its owner and invitee rows at fresh, distinct ids keeps every store invariant. |
| Tables.AddTripKeepsOwners | src/routes/create-trip.ts:43-48 | After that insert, each trip still has exactly one owner row. For the new trip it is its first row; each earlier trip keeps the owner it had. |
| Tables.ReplaceTripKeepsValid | src/routes/update-trip.ts:41-50 | Overwriting a stored trip with well-ordered dates keeps every store invariant. This covers both update-trip and the confirm update. |
| Tables.AddInviteeKeepsValid | src/routes/create-invite.ts:36-41 | Adding an invitee of a stored trip under a fresh id keeps every store invariant. |
| Tables.AddActivityKeepsValid | src/routes/create-activity.ts:40-46 | Adding an activity of a stored trip under a fresh id keeps every store invariant. |
| Tables.AddLinkKeepsValid | src/routes/create-link.ts:32-38 | Adding a link of a stored trip under a fresh id keeps every store invariant. |
| TripStore.Store.CreateTrip | src/routes/create-trip.ts:15-82 | 1. A schema rejection comes first. Then the two date rules, in order. 2. Every rejection leaves the store and the outbox unchanged. 3. On success: one unconfirmed trip with the given fields, the owner and invitee rows of `NewParticipants` and nothing else; one mail, to the owner, with `API_BASE_URL/trips/{tripId}/confirm`; the result is the new trip's id. |
| TripStore.Store.InsertTrip | src/routes/create-trip.ts:35-60 | The nested create. It adds the trip and its participant rows, listed after all earlier rows, and keeps the invariant. |
| TripStore.Store.ConfirmTrip | src/routes/confirm-trip.ts:14-78 | 1. A non-UUID id is rejected. 2. A missing trip gives "TripId not found" and changes nothing. 3. An already confirmed trip redirects to `WEB_BASE_URL/trips/{tripId}` and changes nothing. 4. Otherwise: only `is_confirmed` of that trip becomes true; the outbox grows by exactly the mails of its non-owner participants, in list order; the result is the literal, un-interpolated redirect string. |
| TripStore.Store.ConfirmTripTwice | src/routes/confirm-trip.ts:38-49 | Confirming twice leaves the state of confirming once. For an unconfirmed trip: the trip is confirmed, its invitees are mailed once, participants, activities and links are unchanged, and the second call redirects to the trip page. For a trip already confirmed, both calls redirect to the trip page and nothing changes. A first call that fails leaves the second to fail the same way, with nothing changed. |
| TripStore.Store.SendInviteMails | src/routes/confirm-trip.ts:58-73 | The loop appends to the outbox exactly the mails of its participants, in order, and changes nothing else. |
| TripStore.Store.CreateInvite | src/routes/create-invite.ts:16-64 | 1. Parameter and body rejections come first, then "TripId not found". A rejection changes nothing. 2. On success, exactly one participant is added, with the given address on that trip and both flags unset. Duplicates and the trip's confirmation state are not checked. 3. Trips, earlier participants, activities and links stay as they were. 4. One mail is sent, to the new address, with `API_BASE_URL/participants/{id}/confirm`. 5. The result is the `{redirect}` payload holding the literal, un-interpolated string, the same payload confirm-trip returns. |
| TripStore.Store.UpdateTrip | src/routes/update-trip.ts:11-53 | 1. In order: the schema, then "TripId not found", then the two date rules. A rejection changes nothing. 2. On success only the destination and the dates of that trip are overwritten. 3. The trip returned is the record read before the update. |
| TripStore.Store.CreateActivity | src/routes/create-activity.ts:12-49 | 1. In order: the schema, then "TripId not found", then the inclusive date range. A rejection changes nothing. 2. On success exactly one activity (title, date, trip) is added under the new id, and that id is returned. 3. Trips are never modified. |
| TripStore.Store.CreateLink | src/routes/create-link.ts:11-41 | 1. The schema, then "TripId not found". A rejection changes nothing. 2. On success exactly one link (title, url, trip) is added under the new id, and that id is returned. 3. Everything else is unchanged. |
| TripStore.Store.GetTripDetails | src/routes/get-trip-details.ts:11-26 | 1. A non-UUID id is rejected as `tripId`. 2. A missing trip gives "TripId not found". 3. Otherwise the result is exactly the stored record. In a valid store that record carries the id asked for and never ends before it starts. 4. The function only reads the store. |
| TripStore.Store.GetParticipantDetails | src/routes/get_participant-details.ts:11-26 | 1. A non-UUID id is rejected as `participantId`. 2. A missing row gives "Participant not found". 3. Otherwise the result is exactly the stored record. In a valid store that record carries the id asked for and belongs to a stored trip. 4. The function only reads the store. |

## Left out

- Mail transport: the mail client, `sendMail` and its failures, the constant sender and subject, the HTML body, `nodemailer.getTestMessageUrl` and its `console.log`. A send is modelled as an append of (address, link) that cannot fail.
- CreateTrip: the recipient's display name (`to.name`, the owner name) is not part of the modelled mail; only the address and the link are.
- ConfirmTrip: the contract states the final state. That the trip row is written before the first mail is sent is true only of the method body's order, because the outbox and the trips are separate fields.
- The empty `promises` array, its `Promise.all`, and the unused `startDate`/`endDate` values in confirm-trip and create-invite, because they have no effect.
- The error handler's `console.log(error)` (src/error-handle.ts:9), because logging has no effect on the reply.
- Concurrency between requests and the atomicity of each write with respect to its mails (a write committed before a mail fails).
- Loading the environment: the two base URLs are constants of the store.
- The real email, URL and UUID grammars of the validation library. They are uninterpreted functions.
- Strings with an unpaired UTF-16 surrogate, which a JSON request body can carry, cannot be represented: a Dafny `string` holds Unicode scalar values only.
- Date parsing (`z.coerce.date`) and dayjs: instants are integer timestamps.
- The messages inside `fieldErrors`: a schema rejection carries the failing field names only.
- Errors.ErrorHandle: the order of the ClientError and ZodError tests cannot be observed, because an error is of one kind only.
- "Every activity lies within its trip's dates" is not a store invariant, because update-trip does not re-check existing activities. The date range is checked only when an activity is inserted.
- Participant confirmation: no handler for it is part of this model.
- The order in which the database returns a trip's participants is unspecified. The model takes it to be insertion order (`participantOrder`).
- The database's id generation: fresh ids are parameters of the handlers.
- Unset columns (`is_owner`, `is_confirmed` of a participant, `is_confirmed` of a trip) are taken to default to false. The database schema is not part of this model.
