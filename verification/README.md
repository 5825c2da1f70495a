# A verified model of the trading bot's connection hub, rate limiter and feed

The Go program keeps a WebSocket hub for its users, a rate-limited client of the exchange's HTTP API, and a reader of the
exchange's feed. This project models the three and two text encodings they rest on, and proves what they keep over all
runs. `dafny verify dfyconfig.toml` checks everything.

## How it is built

**The hub** (`Hub.dfy`) is a transition system at the granularity of its locks. A state holds the connections with their
identities and outbound queues, the two maps, the four event channels, where each reader stands inside a login, where each
dispatch loop stands between two critical sections, and a log with one entry for each critical section. Steps of all
goroutines interleave freely. The number of dispatch loops is unbounded, since the program starts one for each connection
(`data_server/ws/websocket/init_acc.go:89`). A send that blocks is a step not yet enabled; a panic in a dispatch loop is not
recovered in the program, so it ends the run (`crashed`). `C` is the identity of a connection; nothing depends on what it is.

- `HubInvariants.dfy`, `HubEvictions.dfy` and `HubHistory.dfy`: what every step keeps.
- `HubTheorems.dfy`: the results over whole runs, for any number of loops.
- `HubLedger.dfy`, `HubFlow.dfy`, `HubChecks.dfy`: the state against the list of events alone. What each channel holds and
  what each connection is, where every event is on its way, and that the lookups answer what the history says.
- `HubShared.dfy`: the users map as a function of the history when connections share addresses.
- `HubQueues.dfy`: each connection's queue inside the hub's runs.
- `SingleHub.dfy`, `HubRace.dfy`: what needs a single loop, and the two-loop run that breaks it.
- `HubEvents.dfy`, `HubTurns.dfy`: each event as a whole, and its agreement with the interleaved steps.
- `HubPanics.dfy`: exactly which environments let a dispatch loop panic.
- `Client.dfy`, `ClientManager.dfy`, `Auth.dfy`: the same state in memory. The methods' contracts equate the new
  maps and queues with the functions the transition system uses; the dispatch loop yields a sequence of turns, which
  `HubTurns.TurnsAreRun` shows to be a run of the transition system.

**The outbound queue** of a connection (`Outbound.dfy`) is a small transition system of its own, used inside the hub's.
`Requests.dfy` is what a reader answers.

**The limiter** (`Limiter.dfy`) takes any number N of tickets. A loan records when its ticket was taken and when its ticker
fires; the ticker may start later than the ticket was taken. `LimiterRate.dfy` proves the rate bound for tickets, `LimiterHistory.dfy` that
no limited request goes without one and so the bound for requests, `LimiterTight.dfy` that
it is attained, `LimiterProgress.dfy` that every waiting caller is admitted, `LimiterClient.dfy` is the client in memory.

**The feed** is in `Feed.dfy`, the **encodings** in `UserKey.dfy` and `Book.dfy`.

## Assumptions

- A login is accepted for a non-empty user id only (`AllNamed`). `HubTheorems.SecondLoginIffUnnamed` shows that exactly an
  empty id lets a connection log in again. The check itself is in packages that are not part of this model.
- A new connection comes from an address no modelled connection has (`AllFresh`), where a result says so.
  `HubHistory.DelUsersEvictsOther` says exactly when a shared address makes Unregister evict another connection.
- Any goroutine may post any Unregister or Broadcast event at any time: the program's own senders are commented out.
- Library functions (JSON, sockets, the user database) are parameters that may fail. A socket is a sequence of frames.
- `strings.ToLower` works letter by letter. Its table of letters is a parameter: any for which lowering twice changes
  nothing more and only the separator becomes a separator. The ASCII letters are one such table.

## Findings

- With two dispatch loops a user can stay in `Users` after its connection left `Clients`: one loop finds the connection
  registered, the other unregisters it, then the first adds it. `HubRace.ContainmentNeedsOneLoop` proves that one loop is
  exactly what the containment needs.
- A dispatch loop can panic, and the panic is not recovered. `HubPanics.NoPanicExactly` says when: a single loop is safe
  exactly if no reader stops and nothing is broadcast. A stopped reader has closed the queue the greeting goes to; a
  broadcast closes a full queue and leaves the connection in the map for the next one; with two loops one can unregister
  a connection before the other has greeted it. Each of the three is a run from the initial state. The handlers' contracts
  say for each event exactly when handling it panics.
- The key consistency, the history results, the once-only registration, login and close hold for any number of loops.

## Model

| member | source | states |
|---|---|---|
| UserKey.ParseInvertsKey | data_server/ws/websocket/client_manager.go:45-49 | decoding a user key gives back the application id and the user id, for every 32-bit id and every string |
| UserKey.KeyInvertsParse | data_server/ws/websocket/client_manager.go:45-49 | every text the decoder accepts is the key of what it decodes to |
| UserKey.GetUserKeyInjective | data_server/ws/websocket/client_manager.go:45-49 | two users share a key exactly when they are the same |
| UserKey.KeyLayout | data_server/ws/websocket/client_manager.go:45-49 | a key is the decimal digits of the application id, none superfluous, an underscore, the user id |
| Outbound.FifoConservation | data_server/ws/websocket/client.go:96-140 | under every interleaving the accepted frames are those on the socket then those buffered, at most 100; a stopped writer has handed all over |
| HubQueues.HubFifo | data_server/ws/websocket/client.go:96-140 | the same in every run of the whole hub, for each connection: loops, readers and senders together make a trace of its queue, and none is accepted after the first close |
| HubQueues.QueueEffect | data_server/ws/websocket/client.go:69-140 | for every event: exactly which frame it adds to a queue, whether it closes it, what the writer takes; nothing else changes a queue |
| HubQueues.QueuePossible | data_server/ws/websocket/client.go:96-140 | a send waits exactly on a full open queue, the writer exactly on an empty open one |
| Outbound.NothingAfterClose | data_server/ws/websocket/client.go:126-140 | the frames accepted in a run are those accepted before the first close |
| Outbound.WriterFinishes | data_server/ws/websocket/client.go:96-123 | from any closed queue the writer alone ends with every accepted frame on the socket, in order |
| HubLedger.ChannelsConserve | data_server/ws/websocket/client_manager.go:33-38 | each of the four channels holds exactly what was posted to it, in order, less what has been picked from the front; at most 1000 |
| HubLedger.PickTakesNext | data_server/ws/websocket/client_manager.go:291-318 | the n-th pick from a channel hands the loop the n-th event posted to it |
| HubLedger.AccountsTrue | data_server/ws/websocket/client.go:46-154 | a connection exists exactly if it connected, and its address, identity and reader are what its own events made them |
| HubLedger.PostsPossible | data_server/ws/websocket/init_acc.go:95-113 | a channel takes an event exactly below 1000; a connection can log in exactly with a free reader and an empty user id |
| HubLedger.PicksPossible | data_server/ws/websocket/client_manager.go:291-318 | an idle loop picks from a channel exactly if it holds an event |
| HubFlow.AdvanceMoves | data_server/ws/websocket/client_manager.go:235-316 | for every position of a loop: where its next critical section leaves it, on which condition, and what it logs |
| HubFlow.RegisterFlows | data_server/ws/websocket/init_acc.go:95-113 | every connection is at exactly one place: announced, queued, held by one loop, or registered |
| HubFlow.LoginFlows | data_server/ws/websocket/client_manager.go:245-252 | every login event posted is queued, held, let in or turned away; of those let in each is about to join or has joined; none twice |
| HubFlow.UnregisterFlows | data_server/ws/websocket/client_manager.go:261-280 | the same for Unregister, through the removal from the clients, from the users, and the close |
| HubChecks.LoginsChecked | data_server/ws/websocket/client_manager.go:245-252 | a login is let in exactly if its connection has a registration not undone at that moment |
| HubChecks.LeavesChecked | data_server/ws/websocket/client_manager.go:149-165 | an Unregister finds an entry exactly if its connection has a login that still stands at that moment |
| HubTheorems.UsersConsistent | data_server/ws/websocket/client_manager.go:141-146 | any number of loops: each user is under the key of its connection's current identity, no connection twice, each registered and posted before it joined |
| HubTheorems.UserFiledOnce | data_server/ws/websocket/client_manager.go:181-197 | in every reachable state a user of an application is in the entry under their key and in no other |
| HubTheorems.LoginOnce | data_server/ws/websocket/acc_controller.go:74-111 | a connection posts one login event in a run; it carries the stored identity, which is never written again |
| HubTheorems.SecondLoginIffUnnamed | data_server/ws/websocket/client.go:173-183 | after posting, a connection can log in again exactly when it was accepted under the empty user id |
| HubTheorems.FlightsExact | data_server/ws/websocket/acc_controller.go:106-111 | every login event queued or held by a loop carries its connection's stored identity; no connection has two |
| HubTheorems.UsersFromHistory | data_server/ws/websocket/client_manager.go:141-165 | Users and Clients as functions of the log: the last login of a key if its connection has not unregistered since; the registrations not undone |
| HubTheorems.UsersFromHistoryShared | data_server/ws/websocket/client_manager.go:141-165 | the same whatever addresses are shared: the last login of a key, unless a connection with that very key has removed the entry since |
| HubTheorems.UnregisterClosesOnce | data_server/ws/websocket/client_manager.go:261-280 | each entry is removed at most once and each queue closed at most once by Unregister, whatever the events and loops; closed exactly after a removal, unless a loop is just about to |
| HubTheorems.EvictionIsOwn | data_server/ws/websocket/client_manager.go:149-165 | in reachable states DelUsers succeeds exactly for a connection among the users, and removes its entry only |
| HubHistory.DelUsersExact | data_server/ws/websocket/client_manager.go:149-165 | unregistering an older connection never evicts the newer one of the same user |
| HubHistory.DelUsersEvictsOther | data_server/ws/websocket/client_manager.go:154-161 | without unique addresses, another's entry is removed exactly when it is under the same key and address |
| HubInvariants.LoopProgress | data_server/ws/websocket/client_manager.go:291-318 | a loop between two critical sections can always go on, except while the greeting waits for room |
| HubInvariants.SettledKept | data_server/ws/websocket/client.go:148-154 | no step of any goroutine changes an identity whose login was posted |
| SingleHub.UsersAreClients | data_server/ws/websocket/client_manager.go:245-270 | with one loop, in every state of every run, each user is a client or is just being unregistered; a login joined only if its connection was registered and not removed |
| HubRace.TwoLoopsRace | data_server/ws/websocket/init_acc.go:82-93 | a run with two loops that ends idle with a user that is no client |
| HubRace.ContainmentNeedsOneLoop | data_server/ws/websocket/init_acc.go:82-93 | the containment holds in all runs of up to n loops exactly when n is at most one |
| HubPanics.CrashExactly | data_server/ws/websocket/client_manager.go:235-316 | a step panics exactly if it greets on, broadcasts to, or closes after a removal, a queue that is closed |
| HubPanics.NoPanicExactly | data_server/ws/websocket/client_manager.go:235-316 | no run of up to n loops panics exactly when n is zero, or one with neither stopping readers nor broadcasts |
| HubPanics.RegisteredOnce | data_server/ws/websocket/init_acc.go:95-113 | each connection is registered at most once in a run, whatever the number of loops |
| HubEvents.LoginEffect | data_server/ws/websocket/client_manager.go:245-252 | a login files the connection under its key if it is a client, and changes nothing else |
| HubEvents.UnregisterEffect | data_server/ws/websocket/client_manager.go:261-280 | Unregister: the client goes; the entry under its key goes exactly with the same address, and the queue closes exactly then, its frames kept |
| HubEvents.LoginAlone | data_server/ws/websocket/client_manager.go:245-252 | the critical sections of a login, run undisturbed, give the handler's specification |
| HubEvents.UnregisterAlone | data_server/ws/websocket/client_manager.go:261-280 | the same for Unregister, which panics exactly when it evicts and the queue is closed |
| HubEvents.BroadcastAnyOrder | data_server/ws/websocket/client_manager.go:306-315 | with open queues the broadcast loop gives one result for every order of iteration |
| HubEvents.DeliveredPartition | data_server/ws/websocket/client_manager.go:309-315 | that result: queues with room get the frame once at the end, full ones are closed with contents unchanged, the rest is untouched |
| HubTurns.TurnsAreRun | data_server/ws/websocket/client_manager.go:291-318 | any sequence of turns of a loop, each handling one event as a whole, is a run of the interleaved system by that loop and the writers |
| HubTurns.PanicIsRun | data_server/ws/websocket/client_manager.go:235-316 | a turn that panics by its handler's condition is a run that ends the program |
| Connections.Client.Login | data_server/ws/websocket/client.go:148-154 | writes the identity and both times, and nothing else |
| Connections.Client.Write | data_server/ws/websocket/client.go:96-123 | hands every accepted frame to the socket in order; returns exactly if the queue is closed |
| Connections.Client.SendMsg | data_server/ws/websocket/client.go:126-140 | adds the frame once after the accepted ones, or nothing if the queue is closed |
| Managers.ClientManager.GetClients | data_server/ws/websocket/client_manager.go:64-91 | copies the whole map |
| Managers.ClientManager.DelUsers | data_server/ws/websocket/client_manager.go:149-165 | the new maps and the result are those of the transition system's step |
| Managers.ClientManager.GetUserList | data_server/ws/websocket/client_manager.go:181-197 | with consistent keys: each user id of the application exactly once, and nothing else |
| Managers.ClientManager.GetUserClients | data_server/ws/websocket/client_manager.go:200-210 | with consistent keys: each logged-in connection exactly once |
| Managers.ClientManager.SendAll | data_server/ws/websocket/client_manager.go:213-221 | every logged-in connection but the ignored one takes the message exactly once if open; no other queue changes |
| Managers.ClientManager.SendAppIdAll | data_server/ws/websocket/client_manager.go:224-232 | the same within one application |
| Managers.ClientManager.EventRegister | data_server/ws/websocket/client_manager.go:235-242 | adds the connection and greets it once; panics exactly on a closed queue |
| Managers.ClientManager.EventLogin | data_server/ws/websocket/client_manager.go:245-252 | files the connection under the event's key exactly if it is registered |
| Managers.ClientManager.EventUnregister | data_server/ws/websocket/client_manager.go:261-280 | removes the connection, closes its queue exactly if its entry was removed |
| Managers.ClientManager.EventBroadcast | data_server/ws/websocket/client_manager.go:306-315 | panics exactly if a registered queue is closed, and otherwise delivers to every registered connection |
| Managers.ClientManager.Turn | data_server/ws/websocket/client_manager.go:291-318 | takes the event at the head of one channel that has one and gives it its whole effect on maps and queues, or panics by that event's exact condition; waits exactly with all channels empty |
| Managers.ClientManager.Start | data_server/ws/websocket/client_manager.go:291-318 | the loop is a sequence of such turns, ended early only by silence or by a panic; between turns the maps are consistent and users are among clients |
| Auth.AuthController | data_server/ws/websocket/acc_controller.go:34-115 | each code exactly on its own check, in the source's order; when accepted, writes the identity and posts exactly that identity; otherwise changes nothing; queued events stay true to their connections exactly if this one has no other identity queued |
| Auth.WsPage | data_server/ws/websocket/init_acc.go:95-113 | opens a fresh connection and announces it, or nothing on a failed upgrade |
| Requests.ErrorMessageFixed | data_server/ws/common/error_code.go:30-58 | a message once filled in is never replaced, so a voiced reply repeats itself |
| Requests.Router.Register | data_server/ws/websocket/acc_process.go:28-34 | the last registration of a command wins, the others stay |
| Requests.Router.ProcessData | data_server/ws/websocket/acc_process.go:119-197 | one frame is answered by its reply list, in order, on an open queue, and by nothing on a closed one |
| Requests.Router.Read | data_server/ws/websocket/client.go:69-93 | the reader enqueues the in-order concatenation of the reply lists, then closes the queue |
| Requests.FixedReplies | data_server/ws/websocket/acc_process.go:129-144 | one fixed frame for an undecodable frame, another for data that cannot be encoded again |
| Requests.UnknownCommandReply | data_server/ws/websocket/acc_process.go:160-181 | a command without a handler is answered once, with its own name, code 1010 and that code's text |
| Requests.HandledReply | data_server/ws/websocket/acc_process.go:160-192 | the handler gets sequence number, command and data; its outcome is answered by nothing exactly on a panic or an unencodable response, twice exactly if voiced, else once |
| Requests.ErrorTexts | data_server/ws/common/error_code.go:30-58 | the text of every code, and the one text of all others |
| Requests.RegisterLocal | data_server/ws/websocket/acc_process.go:28-34 | registering a command changes the answers to no other command |
| Requests.ReplyBlock | data_server/ws/websocket/client.go:81-92 | each frame owns one block of the reply stream, holding exactly its own replies, in the order of the frames |
| Requests.AllRepliesPrefix | data_server/ws/websocket/client.go:81-92 | the replies to a prefix of the frames are a prefix of the replies; n frames get at most 2n |
| Limiter.TicketConservation | data_server/bitso/client.go:168-181 | tickets in and out of the channel make N in every reachable state; a fired ticker's send never blocks; a caller waits only while a ticket is on loan |
| LimiterHistory.RequestsConserved | data_server/bitso/client.go:168-181 | from the events alone: callers at a positive rate wait or have taken a ticket; requests under way or finished have taken one or were called at no rate |
| LimiterHistory.StartedBound | data_server/bitso/client.go:168-176 | in any stretch of any run lasting w, at most N(floor(w/b)+1) requests at a positive rate start |
| LimiterHistory.AlwaysPossible | data_server/bitso/client.go:168-176 | a call never waits before the ticket channel, and a waiting caller is admitted exactly when a ticket is there |
| LimiterHistory.TickerFires | data_server/bitso/client.go:168-176 | a ticket can come back exactly when the rate its taker read has passed since its ticker was started |
| LimiterRate.RateBound | data_server/bitso/client.go:168-176 | every closed window of length w admits at most N(floor(w/b)+1) tickets, b at most the positive rates used |
| LimiterTight.RateBoundReached | data_server/bitso/client.go:168-176 | some run admits exactly that many, for every N, b and w |
| LimiterProgress.NoDeadlock | data_server/bitso/client.go:169-176 | while a caller waits the limiter can move, at once or after some time |
| LimiterProgress.EveryScheduleDrains | data_server/bitso/client.go:169-176 | from any reachable state every schedule without new calls admits all waiting callers within a fixed number of steps |
| LimiterProgress.Drain | data_server/bitso/client.go:169-176 | such a schedule exists |
| LimiterClients.Client.NewClient | data_server/bitso/client.go:39-54 | the channel starts full and the limiter off |
| LimiterClients.Client.SetBurstRate | data_server/bitso/client.go:454-456 | only the rate changes; tickets on loan keep theirs |
| LimiterClients.Client.DoRequest | data_server/bitso/client.go:156-181 | early failure takes no ticket; otherwise the limiter's own steps, whether or not the exchange fails |
| LimiterClients.Client.PutBack | data_server/bitso/client.go:172-175 | the goroutine's send finds room and is the limiter's return step |
| Feed.DispatcherRefinesFilterMap | data_server/bitso/websocket.go:116-169 | received, inbox (at most 8) and blocked message are the filter-map of the frames read; the reader stopped exactly at the first error |
| Feed.FrameAdds | data_server/bitso/websocket.go:119-167 | what each frame adds, kind by kind: its own message by its own decoder, nothing for a keep-alive, the reply itself otherwise; and exactly which frames stop the reader |
| Feed.NothingAdded | data_server/bitso/websocket.go:116-169 | no frames give nothing, and frames after an error add nothing |
| Feed.NothingLost | data_server/bitso/websocket.go:116-169 | when nothing more can happen the consumer has the filter-map of the whole stream |
| Feed.Websocket.Handle | data_server/bitso/websocket.go:119-167 | one turn of the switch sends the message the frame stands for, none for a keep-alive, and fails exactly on an error |
| Feed.Websocket.ReadLoop | data_server/bitso/websocket.go:116-169 | the loop delivers the filter-map and closes the connection exactly on an error |
| Books.SplitCounts | data_server/bitso/book.go:42-45 | splitting gives one piece more than there are separators |
| Books.JoinInvertsSplit | data_server/bitso/book.go:42 | joining the pieces gives the text back |
| Books.Book.FromString | data_server/bitso/book.go:41-51 | accepts exactly texts with one separator, prints back their lower case, and leaves the book alone otherwise |
| Books.ParsePrints | data_server/bitso/book.go:32-51 | a text parses exactly with one separator, and then prints as its lower case |
| Books.BookRoundTrip | data_server/bitso/book.go:32-51 | a book survives printing and parsing exactly when both currencies are lower case and free of separators |
| Books.ParsePrintParse | data_server/bitso/book.go:32-51 | parsing what a parsed text prints gives the same book |
| Books.LowerFixed | data_server/bitso/currency.go:41-47 | lower-casing leaves exactly the texts of lower-case letters alone, and gives such a text, for every lawful table of letters |

## Left out

- HubTheorems.UsersConsistent: does not model torn reads; a dispatch loop reads AppId and UserId in one step of DelUsers, the reader writes them in two.
- Managers.ClientManager.Start: does not interleave posting goroutines between turns; TurnsAreRun carries its turns into the transition system, which does.
- Managers.ClientManager.SendAll: does not model a queue closed by another goroutine while a send waits; the writer interleaves, closers do not.
- Managers.ClientManager.GetClients: does not model ClientsRange's callback; the one used always continues.
- Auth.AuthController: does not model the reply data built from the user record.
- Requests.Router.ProcessData: does not model handlers changing the connection; their outcomes may differ from call to call.
- Books.ParsePrints: does not model the replacement of malformed UTF-8 by strings.ToLower; texts are sequences of characters.
- That every accepted login reaches Users is not claimed: the reader starts before the connection is announced, so such a login can be dropped.
- SendUserMessageAll is a stub and heartbeat timeouts only close sockets; neither is modelled.
- The FIFO order of waiting callers at the ticket channel: any waiting caller may be admitted.
- HTTP, JSON, HMAC and the sockets; nonce ordering; the other controllers; enum name tables; Monetary and the strategies; databases, configuration and user interface.
