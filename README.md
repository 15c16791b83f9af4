# MediTalk call lifecycle, modelled in Dafny

MediTalk connects patients ("users") with doctors over paid video calls. A call record lives in
one store and is touched by two paths:

- the HTTP routes under `/api/calls` create it (`initiate`) and end it with a bill (`end`);
- the Socket.IO server keeps an in-memory registry of joined calls (`activeCalls`), relays WebRTC
  negotiation and chat, and has its own way of ending a call (`endCall`), which writes the
  duration but never the bill.

Around the lifecycle sit the pieces it depends on: the `Call` schema, the JWT middleware
(`protect`, `userProtect`, `doctorProtect`), account registration and login, doctor availability,
the payment guard, and the call page's `formatTime`.

Modules: eight follow one source file each; `Common`, `Http`, `Billing` and `Database` hold what
several of them share, and `Scenarios` runs event orders across them:

| module | file | models |
|---|---|---|
| `Common`, `Http` | `common.dfy`, `http.dfy` | ids, token claims, JavaScript truthiness of strings, HTTP responses |
| `CallModel` | `call_model.dfy` | `backend/models/Call.js` |
| `Billing` | `billing.dfy` | `Math.ceil(ms / 60000)` and `minutes * ratePerMinute` |
| `Database` | `database.dfy` | the Mongo collections as a `Db` object with one sequence per collection |
| `AuthMiddleware` | `auth_middleware.dfy` | `backend/middleware/authMiddleware.js` |
| `AuthRoutes` | `auth_routes.dfy` | `backend/routes/auth.js` |
| `DoctorRoutes` | `doctor_routes.dfy` | `backend/routes/doctorRoutes.js` |
| `PaymentRoutes` | `payment_routes.dfy` | `process-call-payment` in `backend/routes/paymentRoutes.js` |
| `CallRoutes` | `call_routes.dfy` | `backend/routes/callRoutes.js` |
| `Signaling` | `signaling.dfy` | the socket handlers of `backend/server.js` |
| `CallPage` | `call_page.dfy` | `formatTime` of `frontend/src/components/CallPage.js` |
| `Scenarios` | `scenarios.dfy` | event orders across both paths |

Modelling choices:

- A collection is a sequence in insertion order, and a document's id is its index. Ids are handed
  out by appending, and nothing in the modelled code deletes a document. `findById` is a bound
  check, and `findOne({ email })` is the first index with that email.
- The socket server is a class. `activeCalls` and the rooms are maps. `order` keeps the keys of
  `activeCalls` in insertion order, the order a `for ... in` loop visits them. Every emission is
  appended to `outbox` with the set of sockets it reaches.
- Instants are integer milliseconds passed in by the caller. Money is integer minor units.
- `jwt.verify` is a function parameter returning the claims, or `None` where it would throw.
  `jwt.sign` is represented by the claims it signs. `matchPassword` is a parameter.
- The default of the doctor's `isAvailable` is a parameter of `RegisterDoctor`. The `Doctor` model
  is not part of this model.
- `end` posts to the payment route with `fetch`. That call is a boolean input, `paymentReachable`:
  `fetch` rejects only when the request cannot be delivered, and the payment route changes nothing.
- A handler that reads `_id` of a `null` `req.user` or `req.doctor` throws. The throw is caught and
  answered with 500 and the JavaScript error text.

Behaviour the proofs bring out:

- `timer` is never assigned. So every `joinCall` that leaves both sockets registered stamps
  `startTime` again. It also writes the new start and status `active` to the stored call.
  A reconnect restarts the clock (`Scenarios.RejoinRestartsClock`).
- Because of that write, a call that `end` has already billed becomes `active` again after a
  rejoin. A second `end` then bills it again and adds a second history entry
  (`Scenarios.RejoinAfterHttpEndBillsAgain`). Without a rejoin, a second `end` is refused.
- In the call page's order (HTTP `end` first, socket `endCall` second), the stored `duration` and
  `endTime` come from the socket path, counted from the socket start. `billAmount` is the HTTP
  one. The stored minutes and the stored amount can disagree (`Scenarios.CallPageWalkthrough`:
  3 minutes stored, 2 minutes billed).
- `protect` can answer twice. A `Bearer` header whose second field is missing or empty makes
  `jwt.verify` throw, which answers 401 "token failed". The trailing `if (!token)` then tries to
  answer 401 "no token". That second `res.json` throws `ERR_HTTP_HEADERS_SENT` inside the async
  middleware, where nothing catches it: an unhandled promise rejection. `Protect` reports the
  first answer and sets `resent`; what the rejection does to the process is not modelled.
- Without a rejoin, the HTTP path bills a call at most once: a second `end` finds the call
  `completed` and is refused with 400 (`Scenarios.EndTwiceBillsOnce`).
- A socket `endCall` after only one party joined finds `startTime` still `null`, and
  `endTime - null` is `endTime` itself. The stored duration is then the minutes since the
  epoch (`Scenarios.EndBeforeBothJoined`).
- `initiate` keeps every user to one active call, and `end` keeps that invariant too. The socket
  path does not: two joins of a completed call set it `active` again, even when its user already
  has another active call (`Scenarios.RejoinReactivatesCompletedCall`).

## Model

| member | source | states |
|---|---|---|
| `CallModel.ParseStatus` | backend/models/Call.js:29-32 | a status string is accepted exactly when it is one of `pending`, `active`, `completed`, `cancelled`, and the accepted value names that string |
| `CallModel.StatusNameRoundTrip` | backend/models/Call.js:29-32 | every status is accepted under its own name |
| `CallModel.CreateCall` | backend/models/Call.js:3-36 | creation succeeds exactly when `user`, `doctor` and `startTime` are given and the status is valid or absent; `duration` and `billAmount` default to 0, `endTime` and `stripeChargeId` are absent, and `status` defaults to `pending` |
| `Billing.CeilMinutes` | backend/routes/callRoutes.js:70-71 | the minute count `m` satisfies `(m-1)*60000 < ms <= m*60000`, which is `Math.ceil(ms/60000)` |
| `Billing.CeilMinutesUnique` | backend/routes/callRoutes.js:71 | only one integer meets those bounds, so the count is exactly the ceiling |
| `Billing.CeilMinutesPartialMinute` | backend/routes/callRoutes.js:71 | any interval in `(k, k+1]` minutes is billed as `k+1` minutes |
| `Billing.CeilMinutesZero` | backend/routes/callRoutes.js:71 | a zero interval gives 0 minutes |
| `Billing.CeilMinutesNonNegative` | backend/server.js:104-105 | a non-negative interval never gives a negative count |
| `Billing.BillAmount` | backend/routes/callRoutes.js:79 | zero minutes cost nothing, and non-negative minutes at a non-negative rate give a non-negative amount |
| `Database.FirstIndex` | backend/routes/auth.js:19-20 | `findOne({ email })` returns the first match: that document's email matches and no earlier one does; a miss returns the length |
| `Database.FirstIndexMisses` | backend/routes/auth.js:39-40 | the lookup misses exactly when no document has that email |
| `Database.FirstIndexIsOnlyMatch` | backend/routes/auth.js:19-22 | with distinct emails, the lookup returns the only document holding the email |
| `Database.Db.constructor` | backend/routes/auth.js:19-23 | an empty store, whose emails are trivially distinct |
| `AuthMiddleware.Split` | backend/middleware/authMiddleware.js:10 | `split(' ')` gives at least one field and no field contains the separator |
| `AuthMiddleware.JoinSplit` | backend/middleware/authMiddleware.js:10 | joining the fields with the separator gives back the header |
| `AuthMiddleware.SplitSingle` | backend/middleware/authMiddleware.js:10 | there is a second field exactly when the header contains a space |
| `AuthMiddleware.JoinCons` | backend/middleware/authMiddleware.js:10 | a character added in front of the first field lands in front of the joined string |
| `AuthMiddleware.JoinHead` | backend/middleware/authMiddleware.js:10 | a joined string starts with its first field, followed by the separator when there are more fields |
| `AuthMiddleware.BearerToken` | backend/middleware/authMiddleware.js:10 | the token exists exactly when the header has a space; it is the field right after the first space, holds no space, and is followed by a space or the end |
| `AuthMiddleware.SplitWithout` | backend/middleware/authMiddleware.js:10 | a header without a space splits into itself alone |
| `AuthMiddleware.SplitAfterField` | backend/middleware/authMiddleware.js:10 | a space-free field, a space and a rest split into that field followed by the rest's fields |
| `AuthMiddleware.BearerTokenOf` | backend/middleware/authMiddleware.js:10 | the header `Bearer <token>` yields exactly that token, for a token without spaces |
| `AuthMiddleware.HasBearer` | backend/middleware/authMiddleware.js:8 | definition of the header test; its properties are stated by `ExtractedToken` and `Protect` |
| `AuthMiddleware.ExtractedToken` | backend/middleware/authMiddleware.js:6-10 | without a header starting with `Bearer`, `token` stays undefined |
| `AuthMiddleware.Decode` | backend/middleware/authMiddleware.js:11 | a missing or empty token never decodes |
| `AuthMiddleware.Request.constructor` | backend/middleware/authMiddleware.js:5-8 | a request starts with its header and no `userType`, `user` or `doctor` |
| `AuthMiddleware.Protect` | backend/middleware/authMiddleware.js:5-31 | no `Bearer` header gives 401 "no token" and leaves the request alone; a token that fails verification gives 401 "token failed", and the request is answered twice when the token is falsy; type `user` or `doctor` sets `userType` and the looked-up account and calls `next`; any other type gives 401 "invalid token type"; `next` implies `userType` is set |
| `AuthMiddleware.DoctorProtect` | backend/middleware/authMiddleware.js:33-39 | `next` exactly when `userType` is `doctor`, otherwise 403 "Not authorized as a doctor" |
| `AuthMiddleware.UserProtect` | backend/middleware/authMiddleware.js:41-47 | `next` exactly when `userType` is `user`, otherwise 403 "Not authorized as a user" |
| `AuthRoutes.AppendFreshEmail` | backend/routes/auth.js:19-23 | adding an account with an unused email keeps emails distinct |
| `AuthRoutes.RegisterUser` | backend/routes/auth.js:16-33 | an email already among users gives 400 "User already exists" and no change; otherwise exactly one user is appended and 201 returns its id, name, email and a `user` token; doctors and calls are untouched, and only user emails are consulted |
| `AuthRoutes.LoginUser` | backend/routes/auth.js:36-53 | the answer is 200 or 401 "Invalid email or password"; 200 implies a user with that email whose password matches, and returns that user with a `user` token |
| `AuthRoutes.LoginUserAt` | backend/routes/auth.js:39-40 | when the lookup returns index `i`, login succeeds exactly when the password of user `i` matches |
| `AuthRoutes.LoginUserSucceedsIff` | backend/routes/auth.js:39-49 | with distinct emails and a user holding the email, login succeeds exactly when that user's password matches |
| `AuthRoutes.LoginUserUnknownEmail` | backend/routes/auth.js:47-49 | an email no user holds always gives 401 |
| `AuthRoutes.RegisterDoctor` | backend/routes/auth.js:56-74 | an email already among doctors gives 400 "Doctor already exists" and no change; otherwise one doctor is appended with name, email, password, specialty, experience and rate, and 201 returns id, name, email, specialty and a `doctor` token |
| `AuthRoutes.LoginDoctor` | backend/routes/auth.js:77-95 | the same two outcomes as user login, over doctors, with a `doctor` token and the specialty |
| `AuthRoutes.LoginDoctorAt` | backend/routes/auth.js:80-81 | when the lookup returns index `i`, login succeeds exactly when the password of doctor `i` matches |
| `AuthRoutes.LoginDoctorSucceedsIff` | backend/routes/auth.js:80-91 | with distinct emails and a doctor holding the email, login succeeds exactly when that doctor's password matches |
| `AuthRoutes.LoginDoctorUnknownEmail` | backend/routes/auth.js:89-91 | an email no doctor holds always gives 401 |
| `DoctorRoutes.ListDoctors` | backend/routes/doctorRoutes.js:10-17 | 200 with every doctor, in order, each without its password |
| `DoctorRoutes.Profile` | backend/routes/doctorRoutes.js:22-33 | a missing `req.doctor` gives 500; an unknown id gives 404 "Doctor not found"; otherwise 200 with the doctor without its password |
| `DoctorRoutes.UpdateAvailability` | backend/routes/doctorRoutes.js:38-58 | for a known doctor only its `isAvailable` changes, and the answer echoes id, name, email, specialty and the new value; an unknown doctor gives 404 and no change; users and calls are untouched |
| `PaymentRoutes.ProcessCallPayment` | backend/routes/paymentRoutes.js:31-79 | 404 for an unknown call; then 400 "Call not completed or no bill amount" unless completed with a positive amount; then 400 "Payment already processed" when a charge id is set; 200 exactly when all three pass, with the stored amount. Nothing is written, so a repeat gets the same answer |
| `PaymentRoutes.UnbilledCallIsRefused` | backend/routes/paymentRoutes.js:40-42 | a call with no amount is never paid |
| `CallRoutes.InitiatedCall` | backend/routes/callRoutes.js:30-35 | the created record has the caller as user, the given doctor, `startTime` now, status `active`, no end, no charge, and zero duration and amount |
| `CallRoutes.AddActiveCallKeepsOnePerUser` | backend/routes/callRoutes.js:24-35 | adding an active call for a user with none keeps one active call per user |
| `CallRoutes.CompleteCallKeepsOnePerUser` | backend/routes/callRoutes.js:80-82 | taking a call out of `active` keeps one active call per user |
| `Database.HasActiveCall` | backend/routes/callRoutes.js:24-25 | definition of `Call.findOne({ user, status: 'active' })` finding a document; its properties are stated by `Initiate`, `AddActiveCallKeepsOnePerUser` and `OneActiveCallPerUser` |
| `CallRoutes.Initiate` | backend/routes/callRoutes.js:12-46 | checks in order: unknown doctor 404, unavailable doctor 400, missing user 500, user already in an active call 400; 201 exactly when all pass, appending exactly one `active` record and naming its id, the doctor and the user; preserves one active call per user (the socket path can still break it) |
| `CallRoutes.EndAuthorization` | backend/routes/callRoutes.js:60-66 | no error exactly when a user caller is the call's user and a doctor caller is the call's doctor; a caller of either role whose account is missing gets the 500 of the null `_id` read, and one whose account is another party gets 403 "Not authorized to end this call" |
| `CallRoutes.HistoryAppendKeepsEmails` | backend/routes/callRoutes.js:86-93 | a history push leaves every email, so the store's invariant, as it was |
| `CallRoutes.End` | backend/routes/callRoutes.js:51-124 | unknown call 404; then the authorisation error; then 400 "Call is not active" with no change; then 404 "Doctor not found for billing" with nothing saved; otherwise the call is completed with `endTime` now, `duration` the ceiling minutes and `billAmount` minutes times rate, exactly one history entry goes to its user if the user exists and no other user changes, and the answer is 200 with the bill or 500 when the payment request cannot be sent; preserves one active call per user (the socket path can still break it) |
| `Signaling.JoinedEntry` | backend/server.js:54-69 | a new entry records both ids, only the joining role's socket, and no timer or start; an existing entry gets only the joining role's socket replaced |
| `Signaling.FirstHolder` | backend/server.js:125-126 | the position of the first entry, in key order, holding the socket, or the end |
| `Signaling.FirstHolderIs` | backend/server.js:125-134 | that position is the only one with a holder at it and none before it |
| `Signaling.DistinctAppend` | backend/server.js:54-55 | adding a key that is not yet present keeps the key order free of repeats |
| `Signaling.Without` | backend/server.js:117 | `delete` leaves exactly the other keys, keeps them distinct, and changes nothing for an absent key |
| `Signaling.DistinctTail` | backend/server.js:117 | a key order without repeats stays so without its first key, which does not occur again |
| `Signaling.WithoutKeepsOrder` | backend/server.js:132 | deleting the key at position `k` gives the keys before `k` followed by the keys after it, in their order |
| `Signaling.LeaveAll` | backend/server.js:122-124 | every room loses the disconnecting socket and nothing else |
| `Signaling.SignalingServer.constructor` | backend/server.js:44 | an empty registry, no rooms, nothing sent |
| `Signaling.SignalingServer.JoinCall` | backend/server.js:50-79 | the socket joins the room; a new call id is added at the end of the key order; the entry becomes the joined entry; whenever both sockets are present it is stamped with now, the stored call gets status `active` and that start, and `callStarted` goes to the room |
| `Signaling.SignalingServer.Relay` | backend/server.js:82-92 | the data, unchanged, goes to exactly the room named in it, minus the sender; nothing else changes |
| `Signaling.SignalingServer.ChatMessage` | backend/server.js:95-97 | sender and message, unchanged, go to the whole room with the server's time; nothing else changes |
| `Signaling.SignalingServer.EndCall` | backend/server.js:100-120 | with an entry: ceiling minutes since its start; the stored call gets `endTime`, `duration` and `completed` whatever its status was, `billAmount` untouched; `callEnded` goes to the room; the entry is deleted. Without an entry nothing changes |
| `Signaling.SignalingServer.Disconnect` | backend/server.js:122-136 | after leaving every room, the first entry holding the socket is announced to its room and deleted; no entry holds it means nothing else changes; the stored calls are untouched |
| `CallPage.DigitChar` | frontend/src/components/CallPage.js:135 | a value below ten is written as a decimal digit |
| `CallPage.DigitValue` | frontend/src/components/CallPage.js:135 | a decimal digit stands for a value below ten |
| `CallPage.Decimal` | frontend/src/components/CallPage.js:135 | `toString()` gives at least one digit and no leading zero |
| `CallPage.PadStart` | frontend/src/components/CallPage.js:135 | `padStart` fills on the left up to the width, never cuts, and ends with the original |
| `CallPage.ValueOfDecimal` | frontend/src/components/CallPage.js:135 | the digits read back as the number |
| `CallPage.DecimalLength` | frontend/src/components/CallPage.js:135 | one digit below 10, two below 100, three or more from 100 |
| `CallPage.ValueOfZeros` | frontend/src/components/CallPage.js:135 | a run of zeros reads as 0 |
| `CallPage.ValueIgnoresLeadingZeros` | frontend/src/components/CallPage.js:135 | padding zeros do not change the value |
| `CallPage.PaddedDigits` | frontend/src/components/CallPage.js:135 | a padded number is all digits |
| `CallPage.PaddedValue` | frontend/src/components/CallPage.js:135 | a padded number reads back as the number |
| `CallPage.FormatTime` | frontend/src/components/CallPage.js:132-136 | definition of `formatTime`; its properties are stated by `FormatTimeZero`, `FormatTimeWidth`, `FormatTimeFields`, `FormatTimeRoundTrip` and `FormatTimeOneColon` |
| `CallPage.FormatTimeZero` | frontend/src/components/CallPage.js:132-136 | `formatTime(0)` is `"00:00"` |
| `CallPage.SplitAtColon` | frontend/src/components/CallPage.js:135 | a minutes field, a colon and a two-character seconds field split back into the two fields |
| `CallPage.FormatTimeWidth` | frontend/src/components/CallPage.js:133-135 | the minutes field is the padded minute count, at least two wide and three or more from 6000 seconds |
| `CallPage.FormatTimeFields` | frontend/src/components/CallPage.js:135 | the output is a digit field, a colon, and a two-digit seconds field |
| `CallPage.FormatTimeRoundTrip` | frontend/src/components/CallPage.js:133-134 | the seconds field reads below 60, and minutes times 60 plus seconds gives the input |
| `CallPage.FormatTimeOneColon` | frontend/src/components/CallPage.js:135 | the only colon of the output is the one third from the end |
| `Scenarios.BilledCallIsPayable` | backend/routes/paymentRoutes.js:40-45 | a call `end` billed for a positive interval at a positive rate, with no charge id, is paid for exactly the stored amount |
| `Scenarios.HttpEndThenSocketEnd` | frontend/src/components/CallPage.js:114-130 | in the call page's order the record keeps the HTTP bill but the socket path's `endTime` and duration, and the entry is gone |
| `Scenarios.SocketEndThenHttpEnd` | backend/routes/callRoutes.js:68-120 | after a socket end the HTTP end is refused and bills nothing; a record with no amount is then refused payment |
| `Scenarios.RejoinRestartsClock` | backend/server.js:72-77 | a rejoin with both sockets present restarts the clock, and the later socket end counts from the rejoin |
| `Scenarios.RejoinAfterHttpEndBillsAgain` | backend/server.js:76 | HTTP end, rejoin, HTTP end: both ends bill, and the user's history gets two entries |
| `Scenarios.JoinBoth` | backend/server.js:50-79 | the user and then the doctor join a new call: the second join starts it in the registry and in the store |
| `Scenarios.SignIn` | backend/middleware/authMiddleware.js:5-47 | a `Bearer` header whose token verifies as a user's passes `protect` and `userProtect`, with that user looked up |
| `Scenarios.OpenConsultation` | backend/routes/callRoutes.js:12-46 | registration, sign-in through `protect` and `userProtect`, `initiate` at 0 and joins at 1 s and 5 s leave an active call started at 5 s that the user may bill |
| `Scenarios.EndTwiceBillsOnce` | backend/routes/callRoutes.js:68-120 | two HTTP ends with nothing between: the record and history are those the first left, and the second is refused with 400 |
| `Scenarios.EndBeforeBothJoined` | backend/server.js:104-112 | a socket end after a single join stores the minutes since the epoch as the duration, with no bill |
| `Scenarios.RejoinReactivatesCompletedCall` | backend/server.js:72-77 | from a state with one active call per user, joining a completed call of a user who has another active call leaves that user with two |
| `Scenarios.CallPageWalkthrough` | frontend/src/components/CallPage.js:114-130 | HTTP end at 95 s and socket end at 130 s: 201 then 200 for 2 minutes costing 6; the record says 3 minutes but costs 6; payment accepts 6; the history holds one 2-minute entry |

## Left out

- Socket.IO transport, the connection handshake and delivery of emissions: an emission is recorded in `outbox` with its recipients.
- MongoDB and Mongoose I/O, `ObjectId` casting errors, `createdAt`/`updatedAt` timestamps and `populate`: collections are in-memory sequences indexed by id.
- Concurrency: the HTTP and socket ends race in the real system; only sequential orders are modelled.
- WebRTC, media, the browser timer, and the rest of the call page and other front-end components: browser I/O.
- JWT signing, expiry and verification, and bcrypt `matchPassword`: foreign libraries, taken as parameters.
- Stripe `create-payment-intent` (`backend/routes/paymentRoutes.js:14-26`): a wrapper around the Stripe client.
- The internal `fetch` to the payment route: its outcome is the input `paymentReachable`.
- Floating point: `ratePerMinute` and `billAmount` are integers in minor units, and `Math.ceil` is integer ceiling division.
- `new Date()`: instants are integer milliseconds given by the caller, and a JavaScript `-0` is not distinguished from `0`.
- `backend/routes/userRoutes.js`: a single lookup with no logic.
- Request bodies that lack a field: every body field is a present string. Mongoose drops a filter key whose value is `undefined`, so `findOne({ email })` without an email would match the first document (`backend/routes/auth.js:19`, `39`, `59`, `80`). Register would then answer 400 whenever the collection is non-empty, and login would check the first account's password. The model does not capture this.
- `CallPage.FormatTime`: modelled on exact non-negative integers. In JavaScript, `Math.floor` and `%` are exact only below 2^53, and `toString` switches to exponent notation from 1e21, so `FormatTimeRoundTrip` holds for the page only below those bounds. A call timer stays far below them.
- `backend/models/User.js` and `backend/models/Doctor.js` are not part of this model; their fields are those the routes read and write, and the doctor's `isAvailable` default is a parameter.
- Error paths that need a failing database call (the catch-all 500 answers) other than reading `_id` of a `null` account.
