# Reliable delivery in the chat cluster

A Dafny model of the cluster chat server and its client: several ChatServer nodes that share a user
table, a `chat_message` table and Redis Pub/Sub. `dafny verify dfyconfig.toml` checks everything.

## What is modelled

**The protocol** (`Protocol.dfy`) is a transition system. A state holds the two shared tables, every
node's `_userConnMap` and `_connMutex`, the Redis subscriptions and per-node queues, and for every
connection the program counter and local variables of the handler it runs. Each database call, each
critical section and each Redis call is one step, and handlers on all connections and nodes interleave
freely. A critical section that also runs `markDelivered` is two steps with the mutex held in between, so
other handlers run between the send and the mark. Every call may be applied, fail, or be applied and
reported as failed; a node may crash, lose Redis, or run `reset`. Labels carry everything the code does
not decide (JSON bodies, clocks, outcomes, query results of the group table), so
"for all runs" is "for all label sequences". A chat request is read from its JSON body with the service's own
field readers. Four history fields say what `conn->send` was given, when a session was bound, what a session's
backlog query left out, and which inserts were reported as done.

**The imperative parts keep their form.** `MessageModel`, the node's critical sections and loops
(`ChatService.dfy`), both frame decoders, `sendJsonFrame`, the id generator and the client's receive
thread are classes whose methods change fields; each is proved equal to a function or to steps of the
transition system, and the theorems are about those.

| file | content |
|---|---|
| `Json`, `IntegerField`, `Wrappers` | JSON objects as seen by the service, `getInt`/`getLongLong`, three-way call outcomes |
| `MessageId` | shift-and-or packing on 64 bits, uniqueness, order |
| `MessageTable` | `chat_message` and its four statements, the status lattice, backlog rounds |
| `Framing` | one specification of line framing, two decoders, three encoders, dispatch by `msgid` |
| `Groups` | membership, creator rows and the receivers of a group message |
| `FanOut`, `CopyRuns`, `Requests` | the group chat loop; as an uninterrupted run; over all interleavings |
| `Protocol`, `Runs`, `Effects` | the transition system; reachability; what each step leaves alone |
| `Durability`, `Origin`, `Persistence` | rows over all runs: kept, asked for, stored before sent |
| `Relay`, `Order` | what a receiver gets is what the sender asked for; Redis keeps the order |
| `Access`, `Logout` | who gets in and what is served; a connection after a logout, and what ends it |
| `StatusOrder`, `Sessions`, `Twice`, `Bindings`, `Delivery`, `Delivered`, `Once` | the families of run invariants |
| `Client`, `EndToEnd` | which ACKs the client sends and which rows they reach; from the server's frames through bytes to the client |
| `Drain`, `Rounds` | what the client's ACKs leave of a backlog; the same as runs of logins |
| `Witnesses` | concrete runs that show which assumptions are needed |
| `ChatService` | a node's code against the transition system |

## Assumptions

A `Regime` says which of these a run respects; each theorem names the ones it uses, all others may be
violated. None is enforced by the code.

- `oneUser`: a connection does not log in a second user while another one is bound to it. The shipped
  client respects it.
- `alone`: no login of a user passes its read of the user row while another login of that user is under way.
- `orderly`: login ids have a row in `user`, and calls on the user table succeed.
- `steady`: no node crashes and none is `reset`.
- `redis`: Redis calls succeed and no node loses Redis. SUBSCRIBE takes effect when `subscribe` returns,
  although the code only writes the command out.
- `backlog`: `queryUnacked` succeeds and finds at most 1000 rows. Only `NothingMissedFrom` uses it.
- `marks`: `markDelivered` succeeds.
- `echo`: clients acknowledge on a connection only what arrived there. Proved of the shipped client.

Always: one handler at a time per connection (thread-per-loop), `long` and `long long` have 64 bits,
0 < clock < 2^43 milliseconds, the set of users is fixed during a run, and, where the theorem says
`Faithful`, the JSON library's `parse` undoes `dump`, and a compact dump is not empty, has no raw newline
and does not end in a carriage return.

## What turned out false

- `docs/architecture.md` promises `created -> delivered -> acked`. A failed `markDelivered` breaks it for a
  perfectly honest client (`FailedMarkSkipsDelivered`). A row skips only if, before, a mark of that message
  failed or an ACK of it was accepted on a connection where it had not arrived (`SkipsOnlyIfBlamed`), and a
  step skips if and only if it is the ACK update of a row that is still created (`SkipsExactly`).
- The same document says that a delivered message was sent and that login marks after sending. The code marks
  before the response is sent. A delivered row was written to its receiver or is about to be written by a login
  that marked it, if and only if no crash took it away for good (`DeliveredMeansWritten`): a crash of the node
  of every login that was about to write it, while nobody had got it, with no later login, delivery or ACK.
  One crash suffices (`CrashLosesDelivered`).
- It also has the receiver acknowledge every message it gets. A chat frame is acknowledged in its receiver's
  name if and only if the client can print it, could print every message before it, and saw the receiver's
  login response last (`AcksReachExactly`). A frame between the binding and the login response fails the last
  condition (`EarlyFrameAckedForNobody`). A request without `time` or `name`, which the server accepts, fails the
  first and ends the client (`UnprintableEndsClient`); its row heads the backlog at every later login, and a backlog
  drains if and only if every waiting message can be printed (`ReachableDrainsByRun`).
- Each login sends the first 1000 waiting messages. A message is left out if and only if the query fails or
  1000 older ones wait (`MissedExactly`).
- Closing a connection leaves a dead entry in the map if and only if two users were bound to it
  (`CloseForgetsExactly`, `CloseCanForgetOnlyOne`).
- A user can be bound on two nodes. The second binding is made if and only if a login binds the user while
  another node's map holds it (`SecondBindingExactly`). Over every run with any faults that needs one of three
  things before it: overlapping logins of that user, a login whose update to online is lost, or a `reset`
  (`TwiceOnlyAfter`). Each is enough (`OverlappingLoginsBindTwice`, `LostUpdateBindsTwice`, `ResetBindsTwice`).
- A login with id -1 and an empty password passes the password check, because a user row that is not found
  reads as exactly that (`LoginPassesExactly`). For every other id a session needs the stored password
  (`OnlyWithPassword`).
- A group can be without a creator (`CreatorCanBeMissing`). A user is stored as the creator of a new group if
  and only if its creator insert is applied before any applied join of the same user and before a failure or
  crash between the two inserts (`CreatorStoredExactly`); two creators are impossible (`AtMostOneCreatorEver`).

## Model

| member | source | states |
|---|---|---|
| `Delivery.NoDeliveryGap` | src/server/chatservice.cpp:211-270 | in every interleaving over any nodes, once the sender's handler, the receiver's login and its Redis queue are done with it, each accepted un-ACKed message for a bound user that the session's backlog query did not leave out was written on that user's current session (locally, through Redis or in `offlinemsg`) |
| `Delivery.NoDeliveryGapWithinNode` | src/server/chatservice.cpp:452-467 | within one node the same holds without Redis and with crashes, failing calls, overlapping logins and several users per connection |
| `Delivery.NoGapFrom` | src/server/chatservice.cpp:571-587 | the inductive invariant of both, for one-to-one and group messages: an accepted message for a bound user is written, awaited by the login, held by a sender past its insert, or queued |
| `Delivery.MissedExactly` | src/server/model/messagemodel.cpp:60-90 | a session's query leaves an un-ACKed message out if and only if the query fails or at least 1000 messages with smaller ids wait |
| `Delivery.NothingMissedFrom` | src/server/chatservice.cpp:262-262 | so nothing is left out in any run in which queries succeed and find at most 1000 rows |
| `Delivery.SessionStartsAtBind` | src/server/chatservice.cpp:234-237 | what a session means above: it starts where its bind finds the connection's log, with nothing left out; no other step moves its start, and only its own query leaves anything out |
| `Delivered.DeliveredMeansWritten` | src/server/chatservice.cpp:263-270 | over every run with any faults: a delivered row was written to its receiver, or is in the marked part of a login that is going to write it, if and only if no crash took it away for good |
| `Delivered.LostExactlyByStep` | src/server/chatservice.cpp:459-466 | for every step from a state with the invariants: a message that is not lost becomes lost if and only if the step is a crash of the node of every login about to write it while nobody got it; a lost one stays lost unless the step acknowledges, marks or writes it |
| `Witnesses.CrashLosesDelivered` | src/server/chatservice.cpp:268-268 | with every assumption but `steady`, a reachable state in which a crash takes a delivered message away |
| `Once.ChatFramesOnce` | src/server/chatservice.cpp:458-479 | in every run with any faults: a message is written as a chat frame at most once per node, so at most once per connection |
| `Once.ChatFramesOnceEver` | src/server/chatservice.cpp:470-475 | under the session assumptions with working Redis: at most once over all nodes |
| `Once.ResponseListsOnce` | src/server/model/messagemodel.cpp:65-68 | in every run with any faults: message ids strictly increase along a login response, so none is listed twice |
| `StatusOrder.StatusNeverSkips` | src/server/chatservice.cpp:604-625 | with working marks and echoing clients no step of any run takes a row from created to acked: a send holds its mark's mutex, the ACK handler takes that mutex first, and login marks before it responds |
| `StatusOrder.SkipsOnlyIfBlamed` | src/server/chatservice.cpp:604-625 | in every run with any faults, per message: a row goes from created to acked only if a mark of this very message failed before, or an ACK of it was accepted on a connection where it had not arrived |
| `StatusOrder.SkipsExactly` | src/server/model/messagemodel.cpp:44-50 | in any state at all, a created row becomes acked by a step if and only if the step is an ACK update, applied, of a handler holding exactly that id and receiver |
| `Witnesses.FailedMarkSkipsDelivered` | src/server/chatservice.cpp:462-463 | a reachable state, respecting every assumption but `marks`, from which an allowed ACK takes a row from created to acked |
| `Sessions.AtMostOneBinding` | src/server/chatservice.cpp:224-237 | in every reachable state a user is in the map of at most one node, and no connection is bound twice |
| `Sessions.AgreementAtRest` | src/server/chatservice.cpp:371-401 | while no login, logout or close of the user is in flight: stored online if and only if some node's map holds the user, and a node's map holds it if and only if the node is subscribed to it |
| `Sessions.AgreedFrom` | src/server/model/usermodel.cpp:62-76 | the invariant behind them, kept by every step: each user has at most one owner, whose handler position decides map entry, online flag and subscription |
| `Sessions.SecondBindingExactly` | src/server/chatservice.cpp:234-237 | in any state in which a user is bound at most once: a step binds it twice if and only if it is the bind of a login of that user while another node's map holds it |
| `Twice.TwiceOnlyAfter` | src/server/chatservice.cpp:221-252 | over every run with any faults, for any user but -1: bound twice only if, before, a login of it passed its read while another was under way, a login of it lost its update to online, or all users were reset |
| `Twice.StepSingle` | src/server/model/usermodel.cpp:62-89 | every other step, whatever fails and whoever else logs in, keeps the user with one owner and, past its login's update, stored as online |
| `Witnesses.OverlappingLoginsBindTwice` | src/server/chatservice.cpp:221-237 | with every assumption but `alone`, a run that binds one user on two nodes |
| `Witnesses.LostUpdateBindsTwice` | src/server/chatservice.cpp:251-252 | with every assumption but working user-table calls, and no overlap, a run that binds one user on two nodes |
| `Witnesses.ResetBindsTwice` | src/server/chatservice.cpp:185-188 | with every assumption but that no node crashes or is reset, and no overlap or lost update, a run that binds one user on two nodes |
| `Access.LoginPassesExactly` | src/server/chatservice.cpp:221-232 | in any state: a login passes its read if and only if the user is registered with exactly this password and stored offline, or is -1 with an empty password and no row; otherwise nothing happens but one refusal, 2 if and only if the password was right and the user online, else 1 |
| `Access.OnlyWithPassword` | src/server/chatservice.cpp:211-222 | over every run with any faults, for every user but -1: a connection that is bound to the user, serves a login of it or got a login response for it has sent a login with the password stored for it, and stored passwords never change |
| `Access.ServedExactlyIfBound` | src/server/chatservice.cpp:203-208 | in any state: a logout, one-to-one chat, group chat or ACK is served if and only if the connection is bound to the user it names, and otherwise changes nothing |
| `Logout.LogoutIsRun` | src/server/chatservice.cpp:371-401 | from any state in which the user is bound to an idle connection, the steps of a logout lead to where the connection is idle again, the user is gone from the map and the subscriptions and stored offline, and all else is as before |
| `Logout.LogoutThenLogin` | src/client/main.cpp:630-643 | the same connection then takes a login of the same or another offline user, which is bound, gets its backlog and acknowledges it |
| `Logout.EndsExactly` | src/server/chatservice.cpp:404-429 | in any state: a step ends a connection if and only if it is the end of its close or a crash of its node |
| `Logout.EndedOnlyByClose` | src/server/chatserver.cpp:35-42 | over every run with any faults: a connection that serves nothing any more was closed or its node crashed |
| `Bindings.CloseForgetsExactly` | src/server/chatservice.cpp:404-418 | in any state: after the close handler's critical section no entry refers to the connection if and only if at most one user was bound to it; entries of other connections never change |
| `Bindings.CloseClears` | src/server/chatserver.cpp:35-42 | in every run with one user per connection and any faults, closing removes every entry of the connection and keeps all others |
| `Bindings.StepKeeps` | src/server/chatservice.cpp:385-392 | every step keeps the map injective, given one user per connection |
| `Witnesses.CloseCanForgetOnlyOne` | src/server/chatservice.cpp:409-416 | a reachable state with two users on a connection in which the close handler leaves the connection in the map |
| `Durability.RowsAreDurable` | src/server/model/messagemodel.cpp:7-58 | over every run with any faults: rows are only added, id, sender, receiver, group, type and payload never change, status never decreases, `delivered_at` is frozen once set |
| `Durability.AckedOnlyByReceiver` | src/server/chatservice.cpp:604-625 | over every run with any faults: a row is acked only if an ACK naming it and its receiver came earlier from a connection bound to that receiver at that moment |
| `Durability.AckNeedsHandler` | src/server/model/messagemodel.cpp:44-58 | no step but the second half of an ACK handler for this id and user makes a row acked |
| `Origin.RowsHaveSenders` | src/server/chatservice.cpp:432-452 | over every run with any faults: each row answers a chat request made earlier on a connection bound to the sender that its JSON names, with its group, type and receiver, and its text prints an object that differs from the request's only in the message id, the wish for an ACK and, for a group message, the receiver |
| `Origin.StoredTextSays` | src/server/chatservice.cpp:448-452 | every stored text parses to an object with the row's id under `messageid`, `true` under `need_ack`, for a group message the row's receiver under `toid`, and under every other key exactly what the request had, so the sender's `msg` |
| `Origin.StepKeepsSound` | src/server/chatservice.cpp:546-571 | a one-to-one message never gets a second receiver and a membership query always belongs to a group message |
| `Relay.EveryTextConveysARequest` | src/server/chatservice.cpp:448-479 | over every run with any faults: every chat frame, every message of a login response and every text waiting in Redis is an earlier request's object for the user it is written for, with only the fields that the server sets changed, and with the sender's `msg` |
| `Relay.TakenUpExactly` | src/server/chatservice.cpp:434-438 | an idle connection takes up a chat request if and only if its object has the chat's msgid, a text `msg` and 32-bit integers as ids; nothing else is asked of it |
| `Relay.ChatRequestsArrive` | src/server/chatserver.cpp:74-83 | however the bytes of chat requests are cut into reads, each reaches a handler, in the order sent, as the object that was sent |
| `Order.FirstInFirstOut` | src/server/chatservice.cpp:644-671 | from any state and as long as a node does not lose its queue: what its observer took, followed by what waits, is what waited, followed by what was published to it, in order |
| `Order.TakenIsSent` | src/server/chatservice.cpp:644-671 | what is taken for a user in the map is appended as one frame to that user's connection and to no other; for any other user nothing is written |
| `Persistence.PersistBeforeSend` | src/server/chatservice.cpp:26-43 | in every run with any faults, every text any user got on any connection, and every text waiting in Redis, names a stored row with that receiver and exactly that payload |
| `Persistence.AllPathsSameText` | src/server/chatservice.cpp:263-269 | local send, Redis and login sync give the same JSON text: two received texts with one message id are equal and for the same user |
| `Persistence.StepKeepsPersisted` | src/server/chatservice.cpp:566-596 | the invariant behind them, kept by every step including crashes and failed calls |
| `Persistence.ReceivedIsMarked` | src/server/chatservice.cpp:644-671 | the guard `messageid > 0` never suppresses a mark: whatever a node takes from Redis for a user in its map locks the node for marking the stored row it names |
| `Client.AcksEcho` | src/client/main.cpp:67-79 | for any frames, every message id the client acknowledges was in one of them |
| `Client.ClientEchoesOnly` | src/client/main.cpp:328-404 | so an ACK for anything read so far on a connection satisfies the `echo` assumption there |
| `Client.AcksReachExactly` | src/client/main.cpp:236-317 | in every run, for every frame: a chat frame is acknowledged with its stored row's id and receiver if and only if it and every message before it can be printed and the last login response before it was the receiver's; a login response is so acknowledged exactly up to its first unprintable message |
| `Client.StoppedExactly` | src/client/main.cpp:296-317 | in every run the client has stopped if and only if a frame before carried an unprintable message |
| `Client.ChatsAreChats` | src/server/chatservice.cpp:434-446 | over every run each stored text is a chat with a `msg`, so it is unprintable if and only if `time` or `name` is not a string |
| `Client.OfflineAckedExactly` | src/client/main.cpp:296-317 | a list of stored texts is acknowledged exactly up to its first unprintable one |
| `Client.ResponseReads` | src/client/main.cpp:236-317 | whatever friends and groups the user has, reading the text of the server's login response is taking over the user and its messages: nothing in front of them can stop the client |
| `Client.EveryMemberNeeded` | src/client/main.cpp:236-248 | without its error number, id or name the response ends the client |
| `Client.EveryListItemNeeded` | src/client/main.cpp:251-294 | and so does a friend or group that does not parse |
| `Client.EveryGroupMemberNeeded` | src/client/main.cpp:280-291 | and so does a member inside a group |
| `Client.RefusalReads` | src/client/main.cpp:238-242 | reading a refusal changes nothing |
| `Drain.ClientDrainsExactly` | src/client/main.cpp:296-317 | on the table: with the ACKs the client really sends, enough rounds leave exactly the first unprintable message and everything after it; nothing if and only if every waiting message can be printed |
| `Drain.ClientRoundShortens` | src/server/chatservice.cpp:262-270 | one such round removes exactly the leading printable messages, at most 1000 |
| `Rounds.RoundIsRun` | src/server/chatservice.cpp:211-270 | from any state in which the user can log in on a connection whose client still runs, a run of login, marks, response and the client's own ACKs leads to exactly the table of one round, the user bound and the connection idle |
| `Rounds.RoundsAreRun` | src/server/chatservice.cpp:404-429 | with a close after each, any number of rounds is a run, and each response carries its batch of the backlog |
| `Rounds.BatchesInOrder` | src/server/model/messagemodel.cpp:60-90 | if all can be printed, the batches concatenate to the ascending backlog, each message once |
| `Rounds.ReachableDrainsByRun` | src/server/chatservice.cpp:262-270 | from every reachable state, with every assumption but that the backlog fits, there is a run of logins after which exactly the first unprintable message and everything behind it is left; nothing if and only if every waiting message can be printed |
| `Witnesses.UnprintableEndsClient` | src/server/chatservice.cpp:437-437 | with every assumption in place, a run in which a message without `time` and `name` reaches its logged-in receiver, is not acknowledged and ends the client |
| `Client.CurrentUserIsLastLogin` | src/client/main.cpp:236-248 | the client's current user is the one of the last successful login response, -1 before |
| `Client.Receiver.AckMessageIfNeeded` | src/client/main.cpp:67-79 | appends exactly one ACK copying the message id, and only if there is one |
| `Client.Receiver.DoLoginResponse` | src/client/main.cpp:236-325 | is the specified reading of the response object: `errno`, user, friends and groups, any of which can stop the client, then the offline messages |
| `Client.Receiver.ShowOffline` | src/client/main.cpp:296-317 | acknowledges every offline message in order up to the first that cannot be printed |
| `Client.Receiver.ReadText` | src/client/main.cpp:356-404 | one frame's text changes the client exactly as the specification of all message types says |
| `Client.ChatReads` | src/client/main.cpp:374-388 | for the text of a chat, this is what reading a chat frame means |
| `Client.ChatEndsExactly` | src/client/main.cpp:356-404 | any object with the msgid of a chat ends the client if and only if its `time`, `name` or `msg` is not a text; otherwise its message id is acknowledged once, if it has one |
| `EndToEnd.ReadsAsWritten` | src/client/main.cpp:328-404 | over every run, for every connection and every cutting of any first part of its bytes into reads: decoding and reading the texts leaves the client exactly as the completely received frames do |
| `EndToEnd.FramesWellFormed` | src/server/chatservice.cpp:26-43 | in every run every frame is one line that the client reads as what it is |
| `Witnesses.EarlyFrameAckedForNobody` | src/client/main.cpp:67-79 | with every assumption in place, a run after which the client acknowledges a message for user -1 |
| `MessageTable.StatusIsMaximumAsked` | src/server/model/messagemodel.cpp:27-58 | after any sequence of marks and acks, with repeats and wrong receivers, a row's status is the maximum asked for by matching operations; `delivered_at` is the time of the first matching mark before any ack, frozen once set |
| `MessageTable.AckedAtIsLastAck` | src/server/model/messagemodel.cpp:44-50 | after any sequence of marks and acks `acked_at` is the time of the last matching ack, and is untouched if there is none |
| `Durability.TimesFollowStatus` | src/server/model/messagemodel.cpp:27-58 | over every run with any faults: a row has an ACK time if and only if it is acked, no delivery time while it is created, and one when it is delivered |
| `MessageTable.UnmatchedRowsUnchanged` | src/server/model/messagemodel.cpp:27-58 | rows no operation matches are unchanged and no row appears or disappears |
| `MessageTable.StatusIgnoresOrder` | src/server/model/messagemodel.cpp:27-58 | permuting the operations leaves every status the same |
| `MessageTable.QueryAnswers` | src/server/model/messagemodel.cpp:60-90 | the backlog is ascending by id and, if it fits the clamped limit, lists exactly the receiver's un-ACKed rows |
| `MessageTable.Clamp` | src/server/model/messagemodel.cpp:62-62 | the limit used is the one nearest to the given one among 1 to 5000 |
| `MessageTable.AscendingIsUnique` | src/server/model/messagemodel.cpp:65-68 | there is one ascending enumeration of an id set, so the result of `order by message_id` is determined |
| `MessageTable.RoundShortensBacklog` | src/server/chatservice.cpp:262-270 | one round of login and ACK-all sends and removes exactly the first min(k, 1000) of the ascending backlog |
| `MessageTable.RoundsSendInOrder` | src/server/chatservice.cpp:262-270 | n rounds send exactly the first 1000 n ids in order and leave exactly the rest |
| `MessageTable.BacklogDrains` | src/server/model/messagemodel.cpp:60-90 | n rounds with 1000 n at least k send everything once, in order, and leave none |
| `MessageTable.EmptyPayloadNeverDrains` | src/server/chatservice.cpp:265-269 | a row with an empty payload would survive any number of rounds |
| `MessageTable.RoundsLeaveOthersAlone` | src/server/model/messagemodel.cpp:44-50 | rounds of one user leave every other user's rows as they were |
| `MessageTable.MessageModel.Insert` | src/server/model/messagemodel.cpp:7-25 | adds one created row, or fails on a duplicate id or without a connection and changes nothing |
| `MessageTable.MessageModel.MarkDelivered` | src/server/model/messagemodel.cpp:27-42 | is the mark statement, which never touches an acked row or another receiver's |
| `MessageTable.MessageModel.Ack` | src/server/model/messagemodel.cpp:44-58 | is the ack statement for the row of that receiver |
| `MessageTable.MessageModel.QueryUnacked` | src/server/model/messagemodel.cpp:60-90 | the row loop returns the clamped ascending backlog, exactly the un-ACKed rows if they fit |
| `Framing.ChunkInvariance` | src/server/chatserver.cpp:51-71 | however a byte stream is cut into reads, frames and kept bytes are those of the whole stream |
| `Framing.KeepsSuffix` | src/server/chatserver.cpp:56-60 | the bytes kept are exactly those after the last newline |
| `Framing.ServerConnection.OnMessage` | src/server/chatserver.cpp:45-89 | the server's loop emits the specification's frames of its buffer, keeps the unfinished line, hands over, in the order of arrival, exactly the frames that parse to an object with an integer `msgid`, and terminates |
| `Framing.ServerConnection.Read` | src/server/chatserver.cpp:45-89 | the same for bytes arriving behind an unfinished line |
| `Framing.ServerConnection.ReadAll` | src/server/chatserver.cpp:45-89 | for every way of cutting a stream into reads: frames and rest are those of the specification on the whole stream, handed over are exactly the frames with an integer `msgid`, and a stream of printed requests with a `msgid` is handed over completely and in order |
| `Framing.AcceptedIsHandedOver` | src/server/chatserver.cpp:74-88 | the frames handed over are those at a rising sequence of places that holds exactly the frames with an integer `msgid` |
| `Framing.HandedOverIsAccepted` | src/server/chatserver.cpp:74-88 | there is only one such sequence of frames |
| `Framing.RequestsArrive` | src/server/chatserver.cpp:51-83 | a client's printed requests with an integer `msgid` come out of the decoder, however they are cut, exactly and in order, and parse to the requests |
| `Framing.LineIsFrame` | src/server/chatserver.cpp:61-70 | a line is the frame before its one optional carriage return; a blank line is no frame |
| `Framing.SendFrameEndsOnce` | src/server/chatservice.cpp:33-43 | a text that already ends its line is sent as it is, any other gets one newline |
| `Json.AsIntExactly` | src/server/chatserver.cpp:82-82 | the msgid is read modulo 2^32 as a signed 32-bit number, a boolean as 0 or 1, anything else fails |
| `Framing.ClientReader.Receive` | src/client/main.cpp:342-354 | the client's nested loops do the same on its string buffer |
| `Framing.ClientReader.ReceiveAll` | src/client/main.cpp:328-354 | for every cutting, the client decoder gives the specification's frames |
| `Framing.Socket.SendJsonFrame` | src/client/main.cpp:47-65 | under any return values of `send`: success writes exactly the frame, failure exactly a proper prefix of it |
| `Framing.Socket.SendAll` | src/client/main.cpp:47-65 | successive frames put exactly their stream on the wire; after a failure the wire holds the frames before it and a proper prefix of the failed one |
| `Framing.RoundTripExactly` | src/server/chatservice.cpp:26-31 | a payload sent by `sendJson` is decoded to itself if and only if it has no newline, is not empty and does not end in a carriage return |
| `Framing.StreamRoundTrip` | src/client/main.cpp:47-65 | such payloads, sent in a row and cut into reads in any way, come back; a partly written last frame yields none |
| `MessageId.PackIsPositional` | src/server/chatservice.cpp:17-24 | for 0 < now < 2^43 shift-and-or equals now * 2^20 + (pid mod 2^10) * 2^10 + seq mod 2^10, is positive and fits 63 bits |
| `MessageId.PackUnpacks` | src/server/chatservice.cpp:17-24 | millisecond, pid and sequence bits can be read back from the id |
| `MessageId.EqualIdsExactlyOnCollision` | src/server/chatservice.cpp:17-24 | two calls get one id if and only if they share the millisecond, pid mod 1024 and sequence mod 1024 |
| `MessageId.IdsDistinctExactly` | src/server/chatservice.cpp:17-24 | ids are pairwise distinct over a set of calls if and only if no two collide in that way |
| `MessageId.LaterMillisecondLargerId` | src/server/model/messagemodel.cpp:65-68 | an id from a later millisecond is larger, so ordering by id respects creation time |
| `MessageId.OrOfDisjointBits` | src/server/chatservice.cpp:20-23 | or-ing a number below 2^k into a multiple of 2^k adds it |
| `MessageId.MaskIsRemainder` | src/server/chatservice.cpp:21-22 | masking with 2^k - 1 is the remainder modulo 2^k |
| `MessageId.Generator.Generate` | src/server/chatservice.cpp:17-24 | the n-th call returns the id of sequence number n, with the counter wrapping |
| `IntegerField.TextAcceptedExactly` | src/server/chatservice.cpp:64-88 | a string is accepted as n if and only if, up to its first NUL, it is white space, an optional sign and digits spelling n, and n fits 64 bits |
| `IntegerField.DecimalFieldRoundTrip` | src/server/chatservice.cpp:45-130 | n in decimal is read back by `getInt` if and only if it fits 32 bits and by `getLongLong` if and only if it fits 64 |
| `IntegerField.NumberAndTextAgree` | src/server/chatservice.cpp:52-62 | a JSON integer within signed 64 bits and its decimal string give the same field |
| `IntegerField.GetIntIsSmallLongLong` | src/server/chatservice.cpp:45-130 | for every member: `getInt` reads n if and only if `getLongLong` reads n and n fits 32 bits; nothing but numbers and strings is read |
| `Groups.GroupsStayConsistent` | src/server/chatservice.cpp:504-543 | over every run of creates and joins with any failures, from any consistent tables: at most one creator per group, no membership lost, no role changed |
| `Groups.AtMostOneCreatorEver` | src/server/model/groupmodel.cpp:6-39 | the same from any tables at rest |
| `Groups.CreatorStoredExactly` | src/server/chatservice.cpp:520-542 | over every run, for any user and any group that does not exist yet: the user ends up stored as its creator if and only if its creator insert is applied and nothing settled it before (an applied join of that user, early or late, a failed creator insert, a crash between the inserts) |
| `Groups.GroupHasCreatorExactly` | src/server/chatservice.cpp:520-526 | so a new group has a creator at the end if and only if somebody is crowned first |
| `Groups.CreatorNeedsReport` | src/server/chatservice.cpp:520-526 | a creator row is only inserted after a creation that was reported as done |
| `Groups.CreatorCanBeMissing` | src/server/model/groupmodel.cpp:28-39 | a run in which the founder joined the id early and the creator row is ignored |
| `Groups.OthersExactly` | src/server/model/groupmodel.cpp:102-126 | a user is listed if and only if it and the sender are both members of the group, in any role, and it is not the sender |
| `FanOut.FanOutRows` | src/server/chatservice.cpp:562-589 | the loop adds exactly one row per iteration whose insert is accepted, ids distinct, with the receiver's own text and the status of its route, and changes no other row |
| `FanOut.FanOutRoutes` | src/server/chatservice.cpp:573-600 | every accepted copy is one frame on the receiver's local connection, or one publication if it is elsewhere online and Redis takes it, or stays in the table; nothing else is written or published |
| `FanOut.FanOutIsPerMember` | src/server/model/groupmodel.cpp:102-126 | copies go to members other than the sender, at most one each, whatever inserts fail; a sender that is no member changes nothing |
| `FanOut.EveryOtherMemberGetsOne` | src/server/chatservice.cpp:560-575 | with distinct unused ids and a working database exactly the other members get an accepted copy, each exactly one, and nobody if the sender is no member |
| `FanOut.AcksArePerMember` | src/server/model/messagemodel.cpp:44-50 | an ACK of one receiver's copy leaves every other receiver's copy as it was |
| `FanOut.FreshIdsAllAccepted` | src/server/chatservice.cpp:566-575 | with distinct unused ids and a working database every other member's copy is accepted |
| `CopyRuns.IterateIsRun` | src/server/chatservice.cpp:563-600 | the uninterrupted steps of one handler for one receiver change tables, connections and queues of the transition system exactly as one iteration of the loop |
| `CopyRuns.FanIsRun` | src/server/chatservice.cpp:562-601 | the whole loop is a run of the transition system that ends with the handler done |
| `Requests.GroupRequestServes` | src/server/chatservice.cpp:560-601 | over every interleaving from the start of the system: a group request's handler adds at most one row per listed member, with that member's text and its own id, and none for anyone else; when it is done and its node did not crash, every member was tried |
| `Requests.OtherMembersAreTried` | src/server/chatservice.cpp:560-576 | over every interleaving: with the members that the query found, only other members are tried, each once, and when the handler is done without a crash of its node every other member was |
| `Requests.TriedExactly` | src/server/chatservice.cpp:562-576 | from any point on, what a handler tried and what is still pending is exactly what was pending, in order, whatever else runs in between |
| `Requests.SentOnExactly` | src/server/chatservice.cpp:452-456 | in any state: the insert adds a row if and only if its id is new and the statement takes effect, and the message is sent on if and only if that is also reported; otherwise the handler goes on with its next receiver or is done |
| `ChatService.Node.IsConnectionBoundToUser` | src/server/chatservice.cpp:203-208 | true if and only if the map binds the user to this very connection |
| `ChatService.Node.BindUser` | src/server/chatservice.cpp:234-237 | login's critical section is the bind step |
| `ChatService.Node.EraseUser` | src/server/chatservice.cpp:385-392 | logout's critical section is the erase step |
| `ChatService.Node.EraseFirst` | src/server/chatservice.cpp:407-418 | the search erases exactly one entry of the connection, or finds there is none |
| `ChatService.Node.CloseConnection` | src/server/chatservice.cpp:404-418 | close's critical section is an enabled close step |
| `ChatService.Node.DeliverLocally` | src/server/chatservice.cpp:458-467 | look up, send and mark is the lookup step followed, if the receiver was found, by the release step |
| `ChatService.Node.ReceivePublication` | src/server/chatservice.cpp:644-671 | the Redis callback is the receive step followed, if it has something to mark, by the release step |
| `ChatService.Node.SyncBacklog` | src/server/chatservice.cpp:261-270 | login's loop, with any failing query or marks, is a run of the transition system that ends ready to respond, with exactly the texts of the backlog |
| `ChatService.Node.OneChat` | src/server/chatservice.cpp:432-482 | an unbound sender changes nothing; otherwise exactly one copy is stored and routed; either way it is a run of the transition system that ends with the handler done |
| `ChatService.Node.MessageAck` | src/server/chatservice.cpp:604-625 | the binding check and the update are the two ACK steps |
| `ChatService.Node.GroupChat` | src/server/chatservice.cpp:546-602 | the loop over the members is the fan-out function, with one generator call per receiver in order, and a run of the transition system that ends with the handler done |

## Left out

- `Delivery.NoDeliveryGap`: says nothing about messages that the session's own query left out; `Delivery.MissedExactly` says which those are, and the drain theorems when they come.
- `FanOut.FanOutRows`: is about a loop that no other handler interrupts; `Requests.GroupRequestServes` is about all interleavings.
- `FanOut.FanOutRoutes`: is about a loop that no other handler interrupts; `Once.ChatFramesOnce` and `Delivery.NoDeliveryGap` are about all interleavings.
- `Framing.StreamRoundTrip`: is about payloads with no newline and no trailing carriage return; that compact JSON objects are such payloads follows from section 7 of RFC 8259 and enters `EndToEnd` as part of `Faithful`.
- `Client.AcksReachExactly`: leaves open what a client does after an exception nothing catches; the model stops it there.
- `Drain.ClientDrainsExactly`: is about rounds without new arrivals and without lost ACKs, each on a freshly started client.
- JSON parsing and printing, including integers above signed 64 bits and `get<int>` of floating-point numbers, belong to a library and enter as parameters.
- muduo, hiredis and the MySQL client: sockets, timeouts, reconnects and thread safety of shared contexts. The database is maps with atomic statements, Redis is subscriptions plus a queue per node.
- SQL text: escaping, fixed-size buffers and column sizes; an insert the database refuses is a failed insert.
- The group table during a run of the protocol: a membership query returns any list of users. `Requests.OtherMembersAreTried` ties it to the members at the moment of the query; joins that commit later are not seen by it.
- Registration, friend and group listing, heartbeat and error replies: lookups that keep no protocol state.
- The legacy `offlinemessage` table: nothing in the service inserts into it.
- The client's menu, printing and heartbeat thread; its reader and its menu share the current user without a lock, which is not modelled.
- The benchmark, the programs under `test/`, build and proxy configuration.
