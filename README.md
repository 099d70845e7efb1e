# HomeSome public server: session registry and request dispatcher

This project models the relay core of the HomeSome public server in Dafny. Phones, browsers and home hubs connect to the server. The server keeps a registry of their sessions and logs them in. It forwards the protocol lines they send each other ("303::…" becomes "304::…", and so on), addressed either to one session or to all users of a hub.

The model is sequential. A transport session is an opaque key type `S`. Writing to a session appends `(session, line)` to an outbox. A session the server has closed is in `closedSessions`, and later writes to it are dropped, which is what `session.isOpen()` does. The shared request queue is a sequence of `ClientRequest`s.

Modules:

- `JavaText`: the Java string behaviour the protocol relies on.
  - `String.split("::")`: trailing empty fields are dropped, interior ones kept, and a line without a delimiter comes back whole.
  - The `"%s::%s"` joins.
  - `Integer.parseInt` (32-bit, optional sign), and `Integer.toString` / `Boolean.toString`.
- `Identity`: the `Client` / `Client_User` / `Client_Hub` hierarchy.
  - It is one datatype with a `Kind` per class.
  - The static `sessionCounter` is a `SessionCounter` object that each constructor pre-increments.
- `Requests`: the `ClientRequest` record and the server's FIFO `clientRequests`.
- `Registry`: `ClientHandler`.
  - Admission up to the client limit, and removal.
  - Login of a session's first line.
  - `outputToClients` addressing: one target, or a broadcast to a hub's users, optionally admins only.
- `Dispatcher`: `Server`.
  - The `processRequests` loop and its switch on the first field.
  - The 303→304, 315→316 and 372→373 rewriters.
  - Close-once shutdown, and both `debugLog` formatters.
- `Configuration`: `Settings`, including `getDbSpecs`, which hands out the database credentials once and then erases them.
- `ConnectionThread`: the per-connection `ClientThread` of the older socket-based version.
  - Login result classification.
  - The three-character command-prefix check on input.
  - The `"exit"` sentinel of the output loop.
  - Close-once `closeThread`.

How the addressing is specified:

- `Dispatcher.Route` gives, for each queued request, the `outputToClients` call it leads to, if any.
- `Registry.Recipients` gives the sessions that call addresses.
- `Registry.IsDelivery` says a list of writes puts the message exactly once on every addressed session that is still open, and on nothing else.
- `ProcessRequests` is proved to give, in queue order, one such write list per request.

Three behaviours that look like defects are modelled as written:

- Code 105 falls through into the 302 handler: `LogoutFallsThrough`.
- Admission compares the size with `<=`, so the registry can hold `clientLimit + 1` entries: `AddClient`, and `Capacity` in `ClientHandler.Valid`.
- `requestAllHubGadgets` addresses the hub by the issuer's *hubID* used as a session id: `FetchAfterLogin`. Hub login is an empty stub, so no entry is ever a hub. `FetchAfterLogin` shows that this fetch then reaches nobody.

## Model

| member | source | states |
|---|---|---|
| JavaText.Split | PublicServer/src/main/java/service/Server.java:87 | `split("::")`: the pieces between the delimiters (`Pieces`), with trailing empty strings removed unless the line has no delimiter at all (as at PublicServer/src/main/java/service/ClientHandler.java:134) |
| JavaText.PiecesJoin | PublicServer/src/main/java/service/Server.java:87 | joining the pieces with "::" gives the line back: the split loses only what lies in the delimiters |
| JavaText.SplitOfPlainLine | PublicServer/src/main/java/service/ClientHandler.java:134 | a line without "::" splits into itself alone |
| JavaText.Pieces | PublicServer/src/main/java/service/Server.java:87 | the pieces between the non-overlapping occurrences of "::", found from the left, with every empty piece kept |
| JavaText.Join | PublicServer/src/main/java/service/Server.java:202 | the `String.format("%s::%s::…")` lines: the fields with "::" between consecutive ones |
| JavaText.SplitJoin | PublicServer/src/main/java/service/Server.java:87 | `split("::")` gives back exactly the fields a `"%s::%s"` join was built from, when no field holds "::" or ends in ':' and the last field is non-empty |
| JavaText.DropTrailingEmpty | PublicServer/src/main/java/service/ClientHandler.java:134 | the split's trimming keeps a prefix, the result does not end in "", and everything it dropped was "" |
| JavaText.SplitFieldsArePlain | PublicServer/src/main/java/service/Server.java:87 | no field of a split line contains the delimiter |
| JavaText.ParseInt | PublicServer/src/main/java/service/Server.java:174-175 | `Integer.parseInt`: an optional '-' or '+' and at least one decimal digit, with a value in the 32-bit range; anything else is the NumberFormatException (also at lines 152 and 218) |
| JavaText.ThreeDigitsInjective | PublicServer/src/main/java/service/ClientThread.java:123 | two three-digit strings parse to the same number only when they are the same string |
| JavaText.ShowInt | PublicServer/src/main/java/service/Server.java:182 | an int printed by `%s`: a '-' for a negative value, then its decimal digits without leading zeros |
| JavaText.ShowBool | PublicServer/src/main/java/service/ClientHandler.java:186 | a boolean printed by `%s`: "true" or "false" |
| JavaText.ParseShowInt | PublicServer/src/main/java/service/Server.java:152-153 | `Integer.parseInt` reads back every 32-bit int that `toString` prints |
| JavaText.ShowIntIsField | PublicServer/src/main/java/service/ClientHandler.java:190 | a printed int contains no ':' and so is a safe protocol field |
| JavaText.StartsWith | PublicServer/src/main/java/service/ClientThread.java:97-98 | `String.startsWith`: the prefix is no longer than the string and equals its first characters |
| JavaText.HasCommandPrefix | PublicServer/src/main/java/service/ClientThread.java:123 | `Integer.parseInt(line.substring(0, 3))` succeeds: the line has 3 characters and they parse |
| JavaText.CommandPrefixCharacterization | PublicServer/src/main/java/service/ClientThread.java:123 | `parseInt(line.substring(0, 3))` succeeds iff the line has at least 3 characters, the first a digit or sign, the next two digits. So short lines are rejected and "-12…" is accepted |
| Identity.SessionCounter.NextId | PublicServer/src/main/java/model/Client.java:14 | the id handed out is the previous counter value plus one, and the counter now holds it |
| Identity.SessionCounter.NewClient | PublicServer/src/main/java/model/Client.java:12-16 | `Client()` takes a fresh id from the counter, is not logged in and has hubID -1 |
| Identity.SessionCounter.NewClientOfHub | PublicServer/src/main/java/model/Client.java:18-22 | `Client(hubID)` takes a fresh id, is not logged in and stores the given hubID |
| Identity.SessionCounter.NewUser | PublicServer/src/main/java/model/Client_User.java:18-31 | a user takes a fresh id and is logged in; hubID, nameID and admin are stored, and `getNameID` / `isAdmin` return them |
| Identity.SessionCounter.NewHub | PublicServer/src/main/java/model/Client_Hub.java:16-20 | a hub takes a fresh id, is logged in and stores hubID and alias |
| Requests.Tagged | PublicServer/src/main/java/model/ClientRequest.java:15-18 | one request per line, in order, each with the given id and the line verbatim (no validation, no counter) |
| Requests.RequestQueue.Put | PublicServer/src/main/java/service/ClientHandler.java:117 | `put` appends the request at the back of the queue |
| Requests.RequestQueue.Take | PublicServer/src/main/java/service/Server.java:86 | `take` returns the oldest request and removes it |
| Registry.IdLine | PublicServer/src/main/java/service/ClientHandler.java:190 | a "%s::%s" line of a code and a session id splits back into exactly that code and the printed id (used for the 302 fetch here and the 371 request of Server.java:209) |
| Registry.Login | PublicServer/src/main/java/service/ClientHandler.java:130-157 | `clientLogin`: the split line's first field selects manual login (101), the empty automatic and hub stubs (103, 120), or the "Invalid login format" rejection; an empty split is the index exception |
| Registry.ManualLogin | PublicServer/src/main/java/service/ClientHandler.java:160-193 | `manualUserLogin`'s outcome: a missing name or password is the index exception, otherwise the credential store's denial or a promotion to a user with the store's hubID and admin flag |
| Registry.IndexOutOfBounds | PublicServer/src/main/java/service/ClientHandler.java:162-163 | the message of the exception `loginRequest[1]` or `loginRequest[2]` throws on a short array |
| Registry.ManualConfirmation | PublicServer/src/main/java/service/ClientHandler.java:186 | the reply "102::name::admin::alias::key" to a successful manual login |
| Registry.FetchRequest | PublicServer/src/main/java/service/ClientHandler.java:190 | the "302::id" line queued under the new user's id after a manual login |
| Registry.LoginOfManualLine | PublicServer/src/main/java/service/ClientHandler.java:160-171 | a well-formed `101::name::password` line is rejected with the credential store's message or promoted with the store's hubID and admin flag |
| Registry.LoginOfStubCode | PublicServer/src/main/java/service/ClientHandler.java:197-220 | 103 and 120 lines are ignored: no write, no promotion, no removal |
| Registry.LoginOfOtherCode | PublicServer/src/main/java/service/ClientHandler.java:136-148 | any other first field is rejected with "Invalid login format" |
| Registry.SessionOf | PublicServer/src/main/java/service/ClientHandler.java:249-258 | the session found has an entry with that id, and nothing is found iff no entry has it |
| Registry.IndividualTarget | PublicServer/src/main/java/service/ClientHandler.java:282-286 | the test of an individually addressed entry: logged in, and a hub when `toHub`, otherwise a user that is an admin if `onlyToAdmin` |
| Registry.BroadcastTarget | PublicServer/src/main/java/service/ClientHandler.java:296-297 | the test of each entry in a broadcast: a logged-in user on the hub, an admin if `onlyToAdmin` |
| Registry.HubUsers | PublicServer/src/main/java/service/ClientHandler.java:293-301 | the entries the keySet loop of a broadcast writes to: those passing the broadcast test |
| Registry.Recipients | PublicServer/src/main/java/service/ClientHandler.java:278-301 | the sessions an `outputToClients` call addresses: none when no entry has the id; in individual mode that entry if it passes the hub / user / admin test; otherwise the logged-in users of that entry's hub |
| Registry.Delivered | PublicServer/src/main/java/service/ClientHandler.java:275-307 | the writes of one `outputToClients` call: one write of the message to each addressed session that is still open, or none when the request sends nothing |
| Registry.WriteTo | PublicServer/src/main/java/service/ClientHandler.java:309-322 | `writeToClient`: one write to an open session, none to a closed one |
| Registry.Capacity | PublicServer/src/main/java/service/ClientHandler.java:84 | the largest registry size `size() <= clientLimit` admission allows: clientLimit + 1 |
| Registry.DeliveryMeans | PublicServer/src/main/java/service/ClientHandler.java:275-307 | a delivery writes only the message, only to targets, to every target, exactly once each |
| Registry.IndividualRecipient | PublicServer/src/main/java/service/ClientHandler.java:278-290 | individual output addresses at most the one logged-in session with that id: a hub when `toHub`, otherwise a user (an admin if `onlyToAdmin`) |
| Registry.BroadcastRecipients | PublicServer/src/main/java/service/ClientHandler.java:291-301 | a broadcast addresses exactly the logged-in users, never hubs, whose hubID is the origin's, filtered by admin when asked |
| Registry.HubOutputWithoutHubs | PublicServer/src/main/java/service/ClientHandler.java:284 | while no entry is a hub, output addressed to a hub reaches nobody |
| Registry.ClientHandler.constructor | PublicServer/src/main/java/service/ClientHandler.java:53-61 | an empty registry with the given limit, queue and counter |
| Registry.ClientHandler.AddClient | PublicServer/src/main/java/service/ClientHandler.java:81-95 | at size ≤ clientLimit, a fresh not-logged-in client with an id above every existing one is stored; otherwise the map is unchanged and the session is closed. The invariant (size ≤ clientLimit + 1, distinct ids) is kept |
| Registry.ClientHandler.RemoveClient | PublicServer/src/main/java/service/ClientHandler.java:97-105 | the session is closed and only its entry is deleted; a repeat or an unknown session leaves the map as it was |
| Registry.ClientHandler.AddClientRequest | PublicServer/src/main/java/service/ClientHandler.java:110-125 | a logged-in session's line is queued once, verbatim, with its id. A not-logged-in session's line is a login. An unknown session changes nothing |
| Registry.ClientHandler.ClientLogin | PublicServer/src/main/java/service/ClientHandler.java:130-157 | the registry ends in the state the login outcome prescribes: on failure one "901::"+reason write and removal; on success promotion; on a stub nothing |
| Registry.ClientHandler.ManualUserLogin | PublicServer/src/main/java/service/ClientHandler.java:160-193 | missing fields give the array-index message and the store's denial its reason, with nothing changed. On success the entry under the same session becomes a logged-in user with a fresh id, "102::name::admin::alias::key" is written, and one "302::id" request tagged with that id is queued |
| Registry.ClientHandler.GetSession | PublicServer/src/main/java/service/ClientHandler.java:249-258 | the keySet loop finds the session holding the id, or reports none |
| Registry.ClientHandler.GetSessionID | PublicServer/src/main/java/service/ClientHandler.java:261-270 | -1 for an empty registry, otherwise the id of some entry |
| Registry.ClientHandler.WriteToClient | PublicServer/src/main/java/service/ClientHandler.java:309-322 | the line is appended for an open session and dropped for a closed one |
| Registry.ClientHandler.OutputToClients | PublicServer/src/main/java/service/ClientHandler.java:275-307 | the writes are exactly one per addressed open session, with msg; individual mode writes at most once; an unmatched id writes nothing |
| Registry.ClientHandler.WriteToHubUsers | PublicServer/src/main/java/service/ClientHandler.java:291-301 | the keySet loop writes once to each open user of the hub (admins only when asked) and to no one else |
| Dispatcher.GadgetsReport | PublicServer/src/main/java/service/Server.java:180-183 | the 304 line: "304", then the count before each gadget field, all joined with "::" |
| Dispatcher.StateUpdate | PublicServer/src/main/java/service/Server.java:202 | the 316 line: "316::gadget::state" |
| Dispatcher.GroupsReport | PublicServer/src/main/java/service/Server.java:219-223 | the 373 line: "373" and the forwarded fields, joined with "::" |
| Dispatcher.GroupsRequest | PublicServer/src/main/java/service/Server.java:207-214 | the "371::id" line `requestGadgetGroups` builds and never sends |
| Dispatcher.Interleave | PublicServer/src/main/java/service/Server.java:180-183 | the gadget count precedes every gadget field, in order |
| Dispatcher.GadgetsReportSplits | PublicServer/src/main/java/service/Server.java:180-183 | the 304 line splits into "304" and the pairs (count, field) |
| Dispatcher.GroupsReportSplits | PublicServer/src/main/java/service/Server.java:219-223 | the 373 line splits into "373" and the forwarded fields |
| Dispatcher.StateUpdateSplits | PublicServer/src/main/java/service/Server.java:202 | the 316 line splits into "316", the gadget and the state |
| Dispatcher.Route | PublicServer/src/main/java/service/Server.java:86-90 | a request's route is that of its line split on "::", with the request's session id as the issuer |
| Dispatcher.KnownCode | PublicServer/src/main/java/service/Server.java:90-110 | the codes the switch has a case for: 105, 302, 303, 311, 315, 370 and 372 |
| Dispatcher.RouteCommands | PublicServer/src/main/java/service/Server.java:90-114 | the switch: 105 and 302 to the fetch route, 303, 315 and 372 to their rewriters, 311 and 370 to no output, an empty split to no output (the index exception), any other code to "901::Invalid format" for the issuer |
| Dispatcher.FetchRoute | PublicServer/src/main/java/service/Server.java:148-169 | "302::" and the parsed id, sent to the hub addressed by the issuer's hubID; no output for a missing or non-numeric field or an unknown issuer |
| Dispatcher.AllGadgetsRoute | PublicServer/src/main/java/service/Server.java:172-186 | the 304 report for the parsed target alone; no output when the target or the count is missing or not an int |
| Dispatcher.StateChangeRoute | PublicServer/src/main/java/service/Server.java:198-205 | the 316 update broadcast from the issuer; no output when the gadget or the state is missing |
| Dispatcher.GroupsRoute | PublicServer/src/main/java/service/Server.java:217-226 | the 373 report for the parsed target alone; no output when the target is missing or not an int |
| Dispatcher.ProcessedInOrder | PublicServer/src/main/java/service/Server.java:83-121 | request i of the queue made exactly the writes of its route, for every i processed |
| Dispatcher.LogoutFallsThrough | PublicServer/src/main/java/service/Server.java:91-95 | a 105 request is routed exactly as a 302 request with the same fields |
| Dispatcher.UnknownCodeRepliesToOrigin | PublicServer/src/main/java/service/Server.java:111-113 | an unknown code gets one individual "901::Invalid format" to the originating id |
| Dispatcher.AllGadgetsRoundTrip | PublicServer/src/main/java/service/Server.java:172-186 | `303::t::n::fields` is sent to user t alone as the 304 report with n before each field; with no fields only "304" |
| Dispatcher.StateChangeRoundTrip | PublicServer/src/main/java/service/Server.java:198-205 | `315::g::s` (extra fields dropped) is broadcast from the issuer as exactly `316::g::s` |
| Dispatcher.StateChangeReachesHubUsers | PublicServer/src/main/java/service/Server.java:204 | that 316 update addresses exactly the logged-in users of the issuer's hub |
| Dispatcher.GroupsForwardVerbatim | PublicServer/src/main/java/service/Server.java:217-226 | `372::t::tail` is sent to user t alone as `373::tail`, with the tail unchanged |
| Dispatcher.FetchAfterLogin | PublicServer/src/main/java/service/Server.java:148-169 | the fetch a login queues goes to the session whose id equals the user's hubID, and reaches nobody while no hub is registered |
| Dispatcher.PadRight | PublicServer/src/main/java/service/Server.java:242 | "%-30s": the text comes first, padded with spaces to width 30 |
| Dispatcher.FormatLog | PublicServer/src/main/java/service/Server.java:242-243 | the printed line starts with the label and ":", padded to 30; the data follows, cut so the line is at most 90 characters plus "[...]" (30 to 95 in all). A label of 30 or more characters is not padded: the line is label, ":" and data, cut at 90 with "[...]" appended when longer |
| Dispatcher.LogDataThreadTag | PublicServer/src/main/java/service/Server.java:248-264 | the thread variant of the data part is the plain one (lines 230-246) with " (Thread t)" inserted right after "[d0]", so it is 10 characters plus the printed id longer; with no data both are empty |
| Dispatcher.Bracketed | PublicServer/src/main/java/service/Server.java:235 | `String.format("[%s]", data[0])`: the first item in brackets |
| Dispatcher.ThreadTag | PublicServer/src/main/java/service/Server.java:253 | the " (Thread %s)" that the thread formatter adds after the bracketed first item |
| Dispatcher.Spaced | PublicServer/src/main/java/service/Server.java:236-240 | the loop's `"%s %s"` steps: each further item appended after one space, in order |
| Dispatcher.LogData | PublicServer/src/main/java/service/Server.java:233-241 | the plain formatter's data: "" without data, otherwise "[d0]" and each further item after one space |
| Dispatcher.ThreadLogData | PublicServer/src/main/java/service/Server.java:251-259 | the thread formatter's data: "" without data, otherwise "[d0] (Thread t)" and each further item after one space |
| Dispatcher.LogDataSecondItem | PublicServer/src/main/java/service/Server.java:235-239 | the second item follows "[d0]" after exactly one space |
| Dispatcher.Server.constructor | PublicServer/src/main/java/service/Server.java:41-48 | a running server over the given registry and settings |
| Dispatcher.Server.Close | PublicServer/src/main/java/service/Server.java:68-78 | the first call sets terminateServer and shuts down once; later calls change nothing |
| Dispatcher.Server.ProcessRequests | PublicServer/src/main/java/service/Server.java:83-121 | the queue is drained front to back (not at all once terminated); each request's writes are what its route prescribes, appended in order; the registry invariant is kept |
| Dispatcher.Server.ProcessOne | PublicServer/src/main/java/service/Server.java:85-88 | one iteration takes the oldest request and makes exactly its routed writes |
| Dispatcher.Server.Dispatch | PublicServer/src/main/java/service/Server.java:87-113 | the switch's writes are those of the request's route; a handler exception ends it with no output |
| Dispatcher.Server.RequestAllHubGadgets | PublicServer/src/main/java/service/Server.java:148-169 | "302::" and the parsed id go to the issuer's hubID; a missing or non-numeric field or an unknown issuer sends nothing |
| Dispatcher.Server.BuildGadgetsReport | PublicServer/src/main/java/service/Server.java:180-183 | the for-loop builds the 304 report |
| Dispatcher.Server.ReceiveAllHubGadgets | PublicServer/src/main/java/service/Server.java:172-186 | the writes are those of the 303 route; a non-numeric t or n sends nothing |
| Dispatcher.Server.ReceiveGadgetStateChange | PublicServer/src/main/java/service/Server.java:198-205 | the writes are those of the 315 route |
| Dispatcher.Server.BuildGroupsReport | PublicServer/src/main/java/service/Server.java:219-223 | the for-loop builds the 373 report |
| Dispatcher.Server.ReceiveGadgetGroups | PublicServer/src/main/java/service/Server.java:217-226 | the writes are those of the 372 route |
| Dispatcher.Server.BuildLogData | PublicServer/src/main/java/service/Server.java:234-241 | the for-loop joins the items after the head with single spaces |
| Dispatcher.Server.DebugLog | PublicServer/src/main/java/service/Server.java:230-246 | in debug mode the formatted line is printed, otherwise nothing |
| Dispatcher.Server.DebugLogThread | PublicServer/src/main/java/service/Server.java:248-264 | as DebugLog, with "(Thread t)" after the first item |
| Configuration.Settings.constructor | PublicServer/src/main/java/model/Settings.java:39-46 | the settings hold the values read in |
| Configuration.Settings.GetDbSpecs | PublicServer/src/main/java/model/Settings.java:59-66 | returns [dbIP, dbPort, dbDatabase, dbAccount, dbPassword] in that order and then erases account and password, touching no other field |
| Configuration.Settings.IsDebugMode | PublicServer/src/main/java/model/Settings.java:68-70 | the debugMode field as read in |
| Configuration.Settings.GetServerPort | PublicServer/src/main/java/model/Settings.java:72-74 | the serverPort field as read in |
| Configuration.Settings.GetClientLimit | PublicServer/src/main/java/model/Settings.java:76-78 | the clientLimit field as read in |
| Configuration.Settings.GetDbSpecsTwice | PublicServer/src/main/java/model/Settings.java:59-66 | a second call returns "" at indices 3 and 4 and the same first three entries |
| ConnectionThread.TakeWhile | PublicServer/src/main/java/service/ClientThread.java:115-131 | the longest prefix whose elements pass the test: all kept elements pass it, and the first one left out fails it |
| ConnectionThread.IsLoginSuccess | PublicServer/src/main/java/service/ClientThread.java:97-98 | `startsWith("102") || startsWith("104") || startsWith("121")` |
| ConnectionThread.AcceptedPrefix | PublicServer/src/main/java/service/ClientThread.java:115-131 | the input lines the loop queues: those before the first one that fails the three-character parse test |
| ConnectionThread.BeforeExit | PublicServer/src/main/java/service/ClientThread.java:136-148 | the messages the output loop writes: those taken before the first "exit" |
| ConnectionThread.LoginSuccessIsParsedCode | PublicServer/src/main/java/service/ClientThread.java:97-98 | a login counts as successful iff the reply's first three characters, read with the input loop's `parseInt(substring(0, 3))` (line 123), give 102, 104 or 121; a successful reply therefore also passes that prefix test |
| ConnectionThread.LoginRepliesClassified | PublicServer/src/main/java/service/ClientThread.java:93-105 | the registry's 102 confirmation counts as success and a "901::" rejection does not |
| ConnectionThread.AcceptedLinesForwarded | PublicServer/src/main/java/service/ClientThread.java:121-128 | each forwarded request is the accepted line verbatim, tagged with the thread id, in read order |
| ConnectionThread.ClientThread.constructor | PublicServer/src/main/java/service/ClientThread.java:47-62 | a running thread with an open connection and empty queues |
| ConnectionThread.ClientThread.CloseThread | PublicServer/src/main/java/service/ClientThread.java:160-178 | the first call sets terminateThread, closes the socket, enqueues "exit" and deregisters the thread id; later calls do nothing |
| ConnectionThread.ClientThread.InputFromClient | PublicServer/src/main/java/service/ClientThread.java:113-133 | exactly the lines before the first one failing the prefix test are queued, verbatim and tagged; then the thread closes. Nothing is read once terminated |
| ConnectionThread.ClientThread.OutputToClient | PublicServer/src/main/java/service/ClientThread.java:135-149 | the messages before the first "exit" are written verbatim; "exit" is never written and closes the thread. Nothing happens once terminated |
| ConnectionThread.ClientThread.Login | PublicServer/src/main/java/service/ClientThread.java:85-111 | the reply is written either way; only a successful one starts the output thread and runs the input loop; the thread is closed at the end |

## Left out

- Transport:
  - Jetty/Spark start and stop, `getRemote().sendString` and `getIP`.
  - The socket streams of the older thread.
  - Sessions are abstract keys, writes are outbox entries, and "open" means not in `closedSessions`.
- Concurrency:
  - The `synchronized` locks and the separate output thread.
  - `terminateServer` or `terminateThread` being set by another thread while a loop runs.
  - The model runs each operation to completion, one at a time.
- The blocking of `ArrayBlockingQueue` and its capacity of 10. A `take` on an empty queue waits forever, so the loops here stop at the empty queue. `put` never blocks.
- `InterruptedException` ending `processRequests`. Nothing in the model interrupts.
- Identity.SessionCounter.NextId: the counter is an unbounded integer, so the wrap-around of Java's 32-bit `int` after 2^31 - 1 sessions is not modelled.
- Registry.IndexOutOfBounds: the text of the ArrayIndexOutOfBoundsException, on which the "901::" reply of a short login line depends, is that of JDK 11 and later ("Index i out of bounds for length n"). Older JDKs give only the index; nothing in the project pins the JDK.
- JavaText.ParseInt: only ASCII digits. Java's `Character.digit` also accepts other Unicode decimal digits.
- String lengths count Dafny characters, not UTF-16 code units.
- `generateSessionKey` (MD5 of name and time of day) is the `key` parameter. The credential store (`DB_Clients`) is the `auth` parameter.
- `readInSettings` (Gson and file I/O) is the `Settings` constructor's arguments.
- The mock hub, `Main`, the `getInstance` singletons, `launchWebSocketServer` and `stopWebSocketServer`. The shutdown that `close` performs is the `shutdowns` counter.
- `debugLog` calls made from inside the registry and the threads do not appear there. The formatter itself is modelled.
- Exceptions that cannot arise once the types are fixed, such as the casts of the store's JSON result and null entries.
- `getConnectedClients`, called by `requestAllHubGadgets`, is not part of this model. The registry's own map stands in for it.
- The older handler's `login`, and `removeConnectedClient`, called by the older thread, are not part of this model:
  - `login`'s reply is the `loginResult` argument, already in the output queue.
  - `removeConnectedClient` is recorded in `deregistered`.
- Request handlers with empty bodies (311 `requestGadgetStateChange`, 105 `clientLogout`, 103 `automaticUserLogin`, 120 `hubLogin`) do nothing. The 370 handler builds `GroupsRequest` and sends nothing.
- `Settings` getters are plain field reads without contracts.
