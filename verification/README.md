# The chit server and client, modelled and proved in Dafny

Chit is a chat service over a small dialect of IRC (RFC 2812). A server accepts clients one after the other, checks
their password, reads the channel they want to join, and hands each of them to the servlet of that channel: one thread per
channel, started on demand. A servlet greets new members, relays PRIVMSG, PART and TOPIC, and keeps the channel's topic and
chat log in a database. A client logs in, joins, shows what it is told, and sends what its user types.

The project models three layers and links them.

- **The handoff.** `Handoff` is a transition system: clients that send, the accept loop (read, register, read JOIN, publish
  under the lock, notify, start a servlet) and any number of servlets (check the flag, grab under the lock, greet, poll one
  socket, handle one queue), in any interleaving. `HandoffInvariant`, `HandoffGrab` and `HandoffTheorems` prove what every run
  keeps: who owns which socket, that nothing is lost or reordered, that nobody is stranded, and who is logged in. `Delivery`
  adds that what is handled is carried out, so that members hear exactly what the others sent. `HistoryRuns` proves that in
  every run every channel is explained by one sequence of what its members did, and `Relays` draws from it that a member has
  been told of another exactly what the other asked for, under the other's names, and nothing that nobody sent. `FailingRuns`
  shows, as runs from the server's start, the two ways in which it fails.
- **The servlet.** `Room` is what the operations of a servlet do to its users, sockets, queues, topic, log and to what each
  member has been told. `RoomInvariant` proves that every member knows the channel: its log, its roster and its topic.
  `BatchJoin` proves that a batch of joins is a sequence of single joins; `RoomEffects` says when the lookups are safe and when
  the thread dies. `History` spells out what every operation writes to whom, and makes of a sequence of arrivals and messages
  the members, the topic, the log and every member's stream, reply by reply.
- **The wire.** `Strings`, `Sockio` and `ReadBoundaries` are splitting and CRLF framing; `Registration`, `Irc`, `WireWords`,
  `ClientParsers` and `BroadcastCodec` are the two sides' formatters and parsers; `EndToEnd` puts them together, from the bytes
  the servlet wrote to what is on the member's screen. `Conformance` says what a client sends and what the server may then
  rely on; `Nicknames` says exactly which nicks can be read back. `TidyRooms` and `HonestScreens` join all three layers: in
  every run whose clients keep to the grammar, and to names and texts that the parsers can read back, every settled member's
  screen shows the stored topic, the logged messages and the members. `OwnChannel` says of every single event on it who did
  it, where, and with which text. `Typing` says what the lines that a user types ask the client to send.

The classes follow the C++ classes field by field and are proved against these functions: `Servlets.Servlet`,
`Servers.Server`, `Notifiers.Notifier`, `Clients.Client`, `Sockio.Socket` and `Chitter.UserTable`. `Iteration` and `AcceptTurn`
close the circle. One call of `Servlet.Iterate` does what the steps of one iteration do, whether the thread lives on or dies;
one call of `Server.InnerScopeRun` does what the steps of one turn do, whether the client is seated or refused or the turn
throws; what a new servlet starts with and what is stored then is one predicate for both, `Handoff.TopicGiven`.

## How to read the model

- **Messages and bytes.** The transition system works on messages; `Sockio` relates them to bytes. `Socket.arrivals` holds
  what the coming reads return, one string a read, and `Socket.written` what was written, one string a write. In the transition
  system the verdict is written by the step that registers: from then on a client may send JOIN.
- **Endpoints.** A newly accepted endpoint differs from every live one. An endpoint may be used again after its connection is
  gone; what the accept loop still holds under it then is the field `stale` of the new connection.
- **Reads.** Outside `ReadBoundaries`, reads end at message ends, and a blocking read brings at least one message.
- **Erasing while iterating.** `handle_part` erases the entry that `handle_endmsgs` is iterating over
  (src/server/Servlet.cpp:280-289). The model iterates over a snapshot of the keys, and a PART ends its endpoint's entry, which
  is what the test at line 287 intends. The order of the keys is left open.
- **Exceptions.** An exception in the accept loop stops it (`Stopped`, `Threw`); servlets may still take any step afterwards,
  which allows for more than the real shutdown does. An exception in a servlet ends its thread, and its sockets are closed.
- **The database.** `Accounts` is Users (nick and hash); `topics` and `channels` are Channels as the accept loop reads it;
  `stored` and `log` of a room are its rows of Channels and ChatLogs since its servlet started. A servlet is the only writer of
  its channel's rows once it runs.
- **Names.** The prompt forbids `: ! @` in nicks and nothing checks it. At a nick without `!` the other clients throw exactly
  when it is no word, as at "Jane Doe". A nick with `!` is never shown as it is: "x!y@1.2.3.4 JOIN q" joins as "x".
  The results about screens therefore ask for nicks and whoamis that are words, and for dotted addresses.
- **Regular expressions.** `^` is the start of the message.
- **The client's loop.** `Client.Run` takes what the user types as a list of lines, and the sockets of consecutive connects. The
  loop of the source is cut at its reconnects: `Visit` is one connection, `Talk` its session, `TakeTurn` one line.
- **Parameters.** The hash function, the server's own address, and the default topic are parameters.
- **Where code and documentation differ**, the code is followed. PASS comes after USER, where section 3.1 of RFC 2812
  recommends PASS first. RPL_NAMREPLY is 252, where section 5.1 of RFC 2812 has 353. PRIVMSG and PART are relayed with a
  leading colon, JOIN and TOPIC without one.

Several promises hold only under a condition that the code does not check. They are stated with the exact condition:

- Two reads leave the queue that one read would leave exactly when the cut between them is at a message end.
- The handshake is recovered exactly when the delimiter occurs neither in `"USER " + whoami` nor in the real name.
- A shown PRIVMSG is the logged one exactly when the client's line has a colon; a shown PART or JOIN names its channel exactly
  when the keyword does not occur in the sender's names; a bare `PART` makes the readers throw. What a sender does is shown under
  the sender's nick exactly when the nick is a word and the message no bare `PART`.
- A client's messages are kept exactly when the accept loop held nothing under its endpoint. What a refused client sent after its
  PASS is such a leftover, and is taken for the next client's handshake: when `JOIN #c` was read along with the wrong password,
  it is what the next client from there is taken to have said for its NICK.
- A servlet lives on exactly when no unrecognised message comes before the first PART of the queue it handles. If it dies, whoever
  is pending for its channel waits for ever: `HELLO` from the first member is enough to strand the second.
- Every lookup of a sender succeeds exactly when no message follows a PART in its queue, or an unrecognised message before that
  PART has already ended the thread.

## Model

| member | source | states |
|---|---|---|
| Sockio.SplitLoop | src/shared/sockio/sockio.cpp:11-35 | the loop terminates for every non-empty delimiter and returns the pieces between the delimiters found from left to right |
| Sockio.JoinOfSplit | src/shared/sockio/sockio.cpp:11-35 | joining the pieces with the delimiter gives the input back |
| Sockio.PiecesAreDelimiterFree | src/shared/sockio/sockio.cpp:11-35 | no piece contains the delimiter |
| Sockio.SplitIsCanonical | src/shared/sockio/sockio.cpp:11-35 | splitting undoes joining of delimiter-free pieces if and only if the delimiter has no border |
| Sockio.SplitAtDelimiter | src/shared/sockio/sockio.cpp:11-35 | a border-free delimiter between two texts separates their pieces |
| Sockio.TryWritingToSock | src/shared/sockio/sockio.cpp:37-47 | a message is written exactly when it ends with CRLF |
| Sockio.TryReadingFromSock | src/shared/sockio/sockio.cpp:49-76 | the message returned, the queue and what the coming reads will bring are together what they were before; a read happens only when the queue is empty |
| Sockio.UpdateSockMsgs | src/shared/sockio/sockio.cpp:78-100 | the messages of one read, without the empty ones, go to the end of the queue; nothing is lost |
| Sockio.FramingRoundTrip | src/shared/sockio/sockio.cpp:78-100 | reads that end at message ends rebuild exactly the list of messages that was framed |
| ReadBoundaries.ReadBoundaryExact | src/shared/sockio/sockio.cpp:78-100 | two reads leave the queue of one read if and only if the cut is at a message end |
| Registration.HandshakeMessages | src/client/Client.cpp:74-89 | the bytes the client writes, doubled CRLF included, are read as exactly NICK, USER and PASS |
| Registration.RegistrationRoundTrip | src/server/Server.cpp:61-83 | the server recovers the user if and only if the delimiter occurs neither before nor after its place; nick and password always |
| Registration.HandshakeFields | src/server/Server.cpp:63-80 | what is read out of any three messages, and exactly when it throws |
| Registration.VerdictAgrees | src/client/Client.cpp:91-98 | the client's verdict is the server's if and only if the nick has no empty second word; otherwise reading it throws |
| WireWords.VerdictWordsAre | src/server/Server.cpp:86-110 | the words of the verdict: the server, 001 or 464, the nick, the text that belongs to it, and who is meant |
| WireWords.TopicReplyWords | src/server/Servlet.cpp:148-150 | the server, 332, the nick, the channel, then the topic |
| WireWords.NamesReplyWords | src/server/Servlet.cpp:153-155 | the server, 252, the nick, the channel, then the names |
| WireWords.NamesAreSigned | src/server/Servlet.cpp:143 | the list of names is every nick with its sign, in order |
| WireWords.EndOfNamesWords | src/server/Servlet.cpp:158-160 | the server, 366, the nick, the channel and the text |
| WireWords.MaskParts | src/server/Servlet.cpp:134 | nick, whoami and address can be told apart, in this order |
| ClientParsers.ParseTopicMsg | src/client/Client.cpp:101-115 | the loop returns the text after the first colon, or nothing, for every input |
| ClientParsers.MatcherDecidesRegex | src/client/Client.cpp:190-193 | the matcher accepts exactly the texts that begin with word, bang, word, at sign, dotted address, blank, keyword |
| Nicknames.UnparseableExactlyWhenNoWord | src/client/Client.cpp:190-193 | for a nick without an exclamation mark the client throws on whatever it does if and only if the nick is no word |
| Nicknames.NamedExactlyWhenWord | src/client/Client.cpp:195-235 | for every nick the client shows what a sender does under the sender's nick if and only if the nick is a word and the message no bare PART |
| Nicknames.SomebodyElseJoins | src/client/Client.cpp:214-221 | a nick that spells out somebody else's JOIN is shown as that somebody joining |
| Nicknames.TwoNicks | src/client/Client.cpp:40-49 | two nicks that nothing rejects: one joins as "x", one makes the client throw |
| BroadcastCodec.SaidIsTalk | src/client/Client.cpp:195-202 | a relayed PRIVMSG is classified as one and its sender's nick is recovered |
| BroadcastCodec.ShownTextIsLoggedText | src/server/Servlet.cpp:189-202 | the text a client shows is the text the servlet logs if and only if the line has a colon |
| BroadcastCodec.PartedIsLeave | src/client/Client.cpp:204-212 | a relayed PART is classified as one; its channel is recovered if and only if the keyword is not in the sender's names |
| BroadcastCodec.RelayedPartIsLeave | src/client/Client.cpp:204-212 | every line that begins with PART is shown as its sender leaving, except that a bare one makes the client throw |
| BroadcastCodec.JoinedIsJoin | src/client/Client.cpp:214-221 | a JOIN is classified as one; its channel is recovered if and only if the keyword is not in the newcomer's names |
| BroadcastCodec.RetitledIsTopic | src/client/Client.cpp:223-235 | a TOPIC is classified as one and the topic recovered, whatever its text |
| BroadcastCodec.TopicReplyRecovered | src/server/Servlet.cpp:147-151 | the client reads the topic from RPL_TOPIC if and only if address, nick and channel have no colon |
| BroadcastCodec.TopicRequestRecovered | src/server/Servlet.cpp:235-237 | the servlet sets the topic the user typed if and only if the text does not repeat the request's beginning |
| BroadcastCodec.SaidTextLogged | src/server/Servlet.cpp:198-202 | the servlet logs the text the user typed if and only if the channel has no colon |
| EndToEnd.NamesReplyRecovered | src/server/Servlet.cpp:153-156 | the client reads the whole list of names if and only if address, nick and channel have no colon |
| EndToEnd.NamesAreRecovered | src/server/Servlet.cpp:137-144 | the nicks can be read off the displayed list if and only if none has a blank |
| EndToEnd.LineIsSendable | src/server/Servlet.cpp:134-161 | a reply whose texts are free of CRLF is one message on the wire |
| EndToEnd.WireIsFrame | src/server/Servlet.cpp:55-63 | the servlet's writes, one after the other, are the framed lines of its replies |
| EndToEnd.SocketCarriesStream | src/server/Servlet.cpp:55-63 | what a servlet last wrote to a member's socket is the frame of that member's stream |
| EndToEnd.StreamArrives | src/shared/sockio/sockio.cpp:78-100 | the client's reader rebuilds exactly the replies from the servlet's bytes |
| EndToEnd.ClientShowsItsStream | src/client/Client.cpp:123-244 | a client shows its whole stream without failing; when its topic, talk and roster are those it was told |
| EndToEnd.EveryScreenIsRight | src/server/Servlet.cpp:124-254 | in every run, from the bytes to the screen: stored topic, log rows without one's own, members' nicks |
| TidyRooms.QueueTidy | src/server/Servlet.cpp:256-291 | a servlet fed with tidy messages tells its members nothing but tidy replies |
| TidyRooms.TidyStreamShows | src/client/Client.cpp:184-244 | tidy replies are all that a client needs to show its session |
| HonestScreens.TidyRunsOk | src/server/Server.cpp:132-197 | the invariant of runs with conforming clients and tidy names and texts |
| OwnChannel.MembersAskedForIt | src/server/Server.cpp:116-121 | in every run whoever is pending for or a member of a channel has named it in the last message of its handshake |
| OwnChannel.CarriedPartsItsOwn | src/client/Client.cpp:285-289 | the client parts the channel of its JOIN and no other |
| OwnChannel.PartedHere | src/server/Servlet.cpp:205-221 | with conforming clients that part their own channel every PART told in a channel names it |
| OwnChannel.EventsAre | src/client/Client.cpp:363-366 | a session shows one event for every message after the greeting, and it is that message, parsed |
| OwnChannel.EveryEventIsRight | src/client/Client.cpp:184-244 | in every such run, from the bytes to the screen, event by event: sender and text of a message, sender and topic of a change, sender of a PART or JOIN, and its channel if and only if the keyword is not in the sender's names |
| HonestScreens.EveryHonestScreenIsRight | src/client/Client.cpp:123-244 | in every such run, from the bytes to the screen, with no condition left: stored topic, logged rows without one's own, members' nicks |
| Chitter.UserTable.HandleUser | src/shared/chitter/userFuncs.cpp:55-64 | a new nick is stored and accepted, a known one is accepted with its stored hash only |
| Chitter.FirstLoginDecides | src/shared/chitter/userFuncs.cpp:55-64 | in every history of logins one succeeds if and only if it presents the hash of that nick's first login |
| Chitter.FriendsAreMutual | src/shared/chitter/userFuncs.cpp:127-151 | of two users each is in the other's list or neither is |
| Chitter.FetchFriends | src/shared/chitter/userFuncs.cpp:127-151 | for every relation: a duplicate-free list of exactly the neighbours in either column, without the user |
| Notifiers.Notifier.Update | src/server/Notifier.cpp:9-17 | the channel's flag ends up true, an existing one stays the same object, the other entries stay |
| Notifiers.Notifier.PassPtr | src/server/Notifier.cpp:19-22 | the very object of the channel's entry; an unknown channel gets a null entry |
| Servlets.Servlet.GetSockForUser | src/server/Servlet.cpp:11-16 | the first socket of the user's endpoint |
| Servlets.Servlet.FindUser | src/server/Servlet.cpp:22-23 | the index of the first user of an endpoint, which must exist |
| Servlets.Servlet.RemoveTraceOf | src/server/Servlet.cpp:18-45 | the user, its queue and its socket are gone, everything else stays in its order |
| Servlets.Servlet.TryWriting | src/server/Servlet.cpp:55-63 | exactly the user's stream grows by the reply, and its socket's bytes are that stream |
| Servlets.Servlet.UpdateEndmsgs | src/server/Servlet.cpp:65-72 | the next read of every socket goes to the end of its queue |
| Servlets.Servlet.GrabNew | src/server/Servlet.cpp:74-116 | pending users, their messages and their sockets are moved; the other channels' stay in order |
| Servlets.Servlet.CheckUserIn | src/server/Servlet.cpp:118-122 | whether a user of that endpoint is in the list |
| Servlets.Servlet.AnnounceJoin | src/server/Servlet.cpp:134-144 | old members and new ones handled so far get the JOIN and are named, nobody else |
| Servlets.Servlet.WriteGreeting | src/server/Servlet.cpp:145-161 | topic, names and end of names, in this order, for the new user alone |
| Servlets.Servlet.HandleNewusers | src/server/Servlet.cpp:124-163 | grabbing and greeting one new user after the other |
| Servlets.Servlet.CheckEndmsgs | src/server/Servlet.cpp:173-177 | whether some queue is not empty |
| Servlets.Servlet.HandlePriv | src/server/Servlet.cpp:179-203 | everyone but the sender gets the client's own line under the sender's names, and its text is logged |
| Servlets.Servlet.HandlePart | src/server/Servlet.cpp:205-224 | everyone else gets the client's own line under the sender's names, then the sender is removed |
| Servlets.Servlet.HandleTopic | src/server/Servlet.cpp:226-254 | the new topic is set, stored and told to everyone under the sender's names |
| Servlets.Servlet.HandleMsg | src/server/Servlet.cpp:256-275 | which of the three is done, or the exception |
| Servlets.Servlet.HandleEntry | src/server/Servlet.cpp:280-289 | one queue is handled in order up to its PART and cleared |
| Servlets.Servlet.HandleEndmsgs | src/server/Servlet.cpp:277-291 | all queues are handled, over a snapshot of the keys |
| Servlets.Servlet.Iterate | src/server/Servlet.cpp:300-311 | one iteration of the thread is joining, polling the next read of each of its sockets, and handling |
| Servlets.NothingToHandle | src/server/Servlet.cpp:308-310 | skipping handle_endmsgs when nothing is queued makes no difference |
| History.PrivTold | src/server/Servlet.cpp:179-203 | the whole new room after a PRIVMSG, and what each member's stream gains |
| History.PartTold | src/server/Servlet.cpp:205-224 | the whole new room after a PART: exactly the sender, its queue and its first socket are gone, and every other member gains the client's own line |
| History.TopicTold | src/server/Servlet.cpp:226-254 | the whole new room after a TOPIC, and that every member gains the new topic under the sender's names |
| History.GreetTold | src/server/Servlet.cpp:128-162 | one turn of the join loop: four replies to the newcomer, its JOIN to those greeted before, nothing to those after |
| History.MsgExplained | src/server/Servlet.cpp:256-275 | a room explained by a history is explained by one more act after a message |
| History.EntryExplained | src/server/Servlet.cpp:280-289 | the same for a queue: its messages in order, up to the PART |
| History.GrabExplained | src/server/Servlet.cpp:74-116 | a grab leaves the history as it is |
| History.HandleNewUsersExplained | src/server/Servlet.cpp:124-163 | the join loop adds the arrivals, in order |
| RoomInvariant.PrivKeepsRoom | src/server/Servlet.cpp:179-203 | every member's chat stays the log since it joined without its own |
| RoomInvariant.PartKeepsRoom | src/server/Servlet.cpp:205-224 | every remaining member's roster stays the multiset of nicks |
| RoomInvariant.TopicKeepsRoom | src/server/Servlet.cpp:226-254 | stored topic, servlet topic and every member's topic stay equal |
| RoomInvariant.MsgKeepsRoom | src/server/Servlet.cpp:256-275 | every message keeps what members know |
| RoomInvariant.EntryKeepsRoom | src/server/Servlet.cpp:280-289 | every handled queue keeps what members know |
| RoomInvariant.AdmitKeepsRoom | src/server/Servlet.cpp:86-98 | admitting new users keeps what members know; the new ones know nothing yet |
| RoomInvariant.AudienceIs | src/server/Servlet.cpp:138-144 | the join loop writes to the old members and the new ones handled so far |
| RoomInvariant.GreetKeepsRoom | src/server/Servlet.cpp:128-162 | each turn of the join loop adds one member, greeted in the order of the client's reads, and all agree on the roster |
| RoomInvariant.HandleNewUsersKeepsRoom | src/server/Servlet.cpp:124-163 | after the loop everyone is a settled member |
| BatchJoin.LoopInStep | src/server/Servlet.cpp:128-162 | after each turn of a batch, the seated members' streams are those of single joins |
| BatchJoin.BatchIsSequential | src/server/Servlet.cpp:124-163 | a batch of any size leaves exactly the room of single joins in order |
| RoomEffects.EntryEffect | src/server/Servlet.cpp:280-289 | handling an entry consumes its queue up to PART and touches no other endpoint's bookkeeping |
| RoomEffects.SafeExactlyWhenPartLast | src/server/Servlet.cpp:258-259 | all lookups of a queue succeed if and only if no message follows a PART or the queue throws before it comes to one |
| RoomEffects.ThrowsExactlyWhenUnrecognised | src/server/Servlet.cpp:270-274 | handling throws if and only if an unrecognised message comes before the first PART |
| Servers.Server.TryReading | src/server/Server.cpp:26-31 | the next message, the queue and what will arrive are together what they were |
| Servers.Server.ReadHandshake | src/server/Server.cpp:63-73 | the first three messages are taken, in order |
| Servers.Server.RegisterSession | src/server/Server.cpp:61-114 | the user built from them, the login's outcome, and the verdict written |
| Servers.Server.GetChannelName | src/server/Server.cpp:116-121 | the channel in the next message, or the exception |
| Servers.Server.UpdateCommStructs | src/server/Server.cpp:123-130 | user, messages and socket are appended to the shared structures |
| Servers.Server.StartServlet | src/server/Server.cpp:163-194 | at most one servlet per channel, with the channel's own flag; a known channel's topic stays stored and is the servlet's, for an unknown one the default topic is stored and is the servlet's |
| Servers.Server.HandOver | src/server/Server.cpp:149-194 | the early messages move, user and socket are published, the flag is true, a servlet exists |
| Servers.Server.MeetClient | src/server/Server.cpp:138-156 | the client registers and names its channel; the other endpoints' queues stay |
| Servers.Server.InnerScopeRun | src/server/Server.cpp:132-197 | exactly when a turn throws, refuses or seats its client, and for each: accounts, verdict, queues, pending users, sockets, flags, servlets and stored topics; no turn changes a stored topic |
| AcceptTurn.TurnIsSteps | src/server/Server.cpp:132-197 | the accept loop's steps of a turn that seats its client do what InnerScopeRun promises |
| AcceptTurn.RefusalIsSteps | src/server/Server.cpp:138-142 | a turn is over after registering if and only if InnerScopeRun refuses, and stops there if and only if the handshake throws |
| AcceptTurn.StopAtFirstRead | src/server/Server.cpp:63-65 | a turn stopped by its first read is one in which InnerScopeRun throws |
| AcceptTurn.StopAtThirdRead | src/server/Server.cpp:71-73 | a turn stopped by its third read is one in which InnerScopeRun throws |
| AcceptTurn.StopAtJoin | src/server/Server.cpp:116-121 | a turn stopped by its JOIN is one in which InnerScopeRun throws |
| Iteration.CanTakeInEveryRun | src/server/Servlet.cpp:74-116 | what grab_new relies on holds in every run |
| Iteration.IterationIsSteps | src/server/Servlet.cpp:300-311 | a servlet's steps of an iteration that it survives do what Iterate promises |
| Iteration.DeathIsSteps | src/server/Servlet.cpp:315-318 | when Iterate reports the exception, the steps end the thread at the first key whose queue throws |
| HandoffGrab.ClaimedAre | src/server/Servlet.cpp:100-114 | the sockets taken are those of the servlet's users, the others are left |
| HandoffGrab.GrabOk | src/server/Servlet.cpp:74-116 | a grab keeps the whole invariant of the system |
| HandoffTheorems.StepKeepsSystem | src/server/Server.cpp:132-197 | every step of clients, accept loop and servlets keeps the invariant |
| HandoffTheorems.EveryRunOk | src/server/Servlet.cpp:293-319 | the invariant holds in every run, in any interleaving |
| HandoffTheorems.SocketsMatchUsers | src/server/Server.cpp:123-130 | shared sockets are exactly those of pending users; users, sockets and queues of a servlet have one set of endpoints; all disjoint, without duplicates |
| HandoffTheorems.GrabTakesItsOwn | src/server/Servlet.cpp:100-114 | a grab takes exactly its channel's sockets; neither these nor the others change their order |
| HandoffTheorems.NothingLostOrReordered | src/server/Server.cpp:149-158 | consumed, handled, queued and unread messages are what the client sent, if and only if nothing was left under its endpoint |
| HandoffTheorems.MembersKnow | src/server/Servlet.cpp:179-203 | in every run a member was greeted in order, heard exactly the log since without its own, knows the roster and the stored topic |
| HandoffTheorems.MembersAgreeOnOrder | src/server/Servlet.cpp:277-291 | any two members agree on the order of everyone else's messages |
| HandoffTheorems.PendingHasServlet | src/server/Server.cpp:158-194 | whoever is pending has one servlet, which holds the notifier's own flag, and it is true |
| HandoffTheorems.CheckAlwaysGrabs | src/server/Servlet.cpp:300-303 | a running servlet never skips grab_new |
| HandoffTheorems.PendingWaits | src/server/Servlet.cpp:86-98 | until then pending users keep their place and the servlet stays about to grab |
| HandoffTheorems.GrabAndGreetSeatEverybody | src/server/Servlet.cpp:124-163 | one grab and one greeting make settled members of all pending users |
| HandoffTheorems.DeadForEver | src/server/Server.cpp:160-163 | in every later run a dead servlet stays dead and its pending users wait in their order |
| HandoffTheorems.LookupsSafeExactly | src/server/Servlet.cpp:258-259 | in every run the lookups of the queue a servlet comes to succeed if and only if no message follows a PART or it throws before |
| Delivery.MsgCarried | src/server/Servlet.cpp:256-275 | every PRIVMSG handled is logged as its sender's and every TOPIC handled is broadcast as its sender's, in order, and nothing else is |
| Delivery.EveryRunCarried | src/server/Servlet.cpp:179-254 | the same in every run, since each member was admitted |
| Delivery.HeardIsHandled | src/server/Servlet.cpp:179-203 | in every run what a member heard from another is exactly the PRIVMSGs handled for the other, in order |
| Delivery.HeardIsWhatWasSent | src/client/Client.cpp:308-312 | with conforming clients what a member heard from another is what the other's client sent, unaltered and in order |
| HistoryRuns.StoredTopicsStay | src/server/Server.cpp:165-175 | in no run a stored topic is overwritten by starting a servlet, and only default topics are added |
| HistoryRuns.EveryChannelExplained | src/server/Servlet.cpp:124-291 | in every run every channel with a running servlet has a history that gives its members, topic, log and every settled member's stream, reply by reply, and whose lines were all sent by the members they are ascribed to |
| Relays.RelayedInHistory | src/server/Servlet.cpp:179-254 | what a member has been told of another is what the other did since both were there |
| Relays.RelaysAt | src/server/Servlet.cpp:188-250 | what one message makes the others read, with the whole user as its sender |
| Relays.RelayedExactly | src/server/Servlet.cpp:179-254 | in every run what a settled member has been told of another is exactly what the messages handled for the other ask for, in order: all of them if the member came first, otherwise the last of them |
| Relays.RelayedAsSent | src/client/Client.cpp:281-315 | with conforming clients the same for what the other's client sent |
| Relays.NothingMadeUp | src/server/Servlet.cpp:179-254 | in every run every relay comes from a message of the very user it names, sent while that user was a member |
| FailingRuns.SeatRun | src/server/Server.cpp:132-197 | from any idle state a conforming client with a new nick is seated |
| FailingRuns.LeftoverRun | src/server/Server.cpp:138-142 | a run from the start: whatever a refused client wrote after its PASS is left for the next client from its endpoint |
| FailingRuns.JoinTakenForNick | src/server/Server.cpp:63-65 | the same with a wrong password for "bob" and a JOIN, which is then taken for a NICK |
| FailingRuns.SecondUserStranded | src/server/Servlet.cpp:270-274 | runs from the start: an unrecognised first message ends the thread, and the next, conforming user is published to it and waits for ever |
| FailingRuns.HelloStrandsBob | src/server/Servlet.cpp:270-274 | the same with "HELLO" from "ann" before "bob" comes |
| HandoffTheorems.DiesExactlyWhenUnrecognised | src/server/Servlet.cpp:270-274 | in every run a servlet dies in a step if and only if it meets an unrecognised message before a PART |
| Conformance.HashStays | src/shared/chitter/userFuncs.cpp:55-64 | in no run a stored hash changes |
| HandoffTheorems.LoginSucceedsExactly | src/server/Server.cpp:86-146 | registering succeeds if and only if the nick is new or the hash is the stored one |
| HandoffTheorems.EveryUserIsLoggedIn | src/server/Server.cpp:138-153 | in every run all pending users and members carry the stored hash of their nick |
| Conformance.HandshakeParses | src/server/Server.cpp:61-83 | a conforming handshake never makes register_session throw |
| Conformance.HonestRunsOk | src/server/Server.cpp:132-197 | the invariant of runs in which every client conforms |
| Conformance.ServersStayUp | src/server/Servlet.cpp:293-319 | with conforming clients the accept loop never stops and no servlet dies |
| Conformance.HonestNothingLost | src/server/Server.cpp:149-158 | with conforming clients the four parts are exactly what the client sent |
| Conformance.HonestLookupsSafe | src/server/Servlet.cpp:256-259 | with conforming clients every lookup succeeds and every queue is handled whole |
| Conformance.LeftoversGoToTheNext | src/server/Server.cpp:138-142 | what a refused client sent beyond its handshake is found by the next one from its endpoint |
| Conformance.ReconnectSucceeds | src/client/Client.cpp:372-378 | whoever got in once gets in again, so the verdict ignored on a switch is a welcome |
| Typing.ChannelOf | src/client/Client.cpp:134-135 | the channel starts with a '#'; an input that does is the channel, any other input is the channel without it |
| Typing.OneChannel | src/client/Client.cpp:134-135 | naming a channel twice changes nothing; "c" and "#c" are one channel |
| Typing.CalmThen | src/client/Client.cpp:361-379 | lines that do not end the session ask for the same whatever is typed after them |
| Typing.TextIsSaid | src/client/Client.cpp:246-315 | text is said, a topic is set as it was typed, SHOW, HELP and an empty line send nothing |
| Typing.ExitEnds | src/client/Client.cpp:285-289 | EXIT sends PART and nothing goes out for what is typed after it |
| Typing.LeaveSwitches | src/client/Client.cpp:304-308 | LEAVE sends PART and hands what is typed after it to the next connection |
| Typing.LeftExactly | src/client/Client.cpp:371-378 | lines are handed on if and only if they follow a LEAVE after lines that do not end the session |
| Typing.ConnectsAfterPart | src/client/Client.cpp:371-378 | a further connection carries something only if the one before it ends with the PART of its channel |
| Typing.TwoChannels | src/client/Client.cpp:343-379 | a sitting with two channels, message by message |
| Clients.Client.TryReading | src/client/Client.cpp:22-25 | the next message, and nothing is lost; it blocks exactly when nothing is queued and nothing arrives |
| Clients.Client.TryWriting | src/client/Client.cpp:27-30 | exactly one message goes out, with its CRLF |
| Clients.Client.PassUserInfoToServer | src/client/Client.cpp:74-99 | the bytes and the three messages of the handshake, and the verdict of the first reply, which is read whenever one comes |
| Clients.Client.ConnectToChannel | src/client/Client.cpp:123-182 | JOIN goes out with the channel that the input names, topic and names are those of the second and third reply; it succeeds if and only if four replies come |
| Clients.Client.ParseSessionMsg | src/client/Client.cpp:184-244 | the screen moves on as the session's replies say, or the exception |
| Clients.Client.ShowPending | src/client/Client.cpp:362-366 | all that was read is shown and the queue is empty afterwards; the client fails exactly when some reply cannot be parsed |
| Clients.Client.HandleTopicRequest | src/client/Client.cpp:246-279 | TOPIC goes out exactly on SET |
| Clients.Client.ParseUserInput | src/client/Client.cpp:281-315 | what goes out for each input, and what does not; PART exactly when the session ends |
| Clients.Client.StartSession | src/client/Client.cpp:343-348 | handshake, then JOIN of the channel typed first, the first time only after a welcome; it succeeds if and only if the verdict and four replies come |
| Clients.Client.TakeTurn | src/client/Client.cpp:361-371 | everything pending is shown, then what the line asks for goes out; it fails exactly when some reply cannot be parsed, and then nothing goes out |
| Clients.Client.Talk | src/client/Client.cpp:361-379 | a whole session sends what its lines ask for, in order, and ends with EXIT or LEAVE |
| Clients.Client.Visit | src/client/Client.cpp:343-378 | one connection carries the handshake, the JOIN and its session; all of it if no read fails, otherwise a beginning of it |
| Clients.Client.Run | src/client/Client.cpp:322-386 | every connection carries exactly what is typed to it, reconnecting after LEAVE and never after EXIT, as long as no read fails; a beginning of it otherwise; no read fails if every server welcomes, answers and sends only what can be parsed |
| Clients.ProperIsTidy | src/client/Client.cpp:74-89 | with names that are words, and a channel without a colon, these messages are tidy in the sense of the screen theorem |

## Left out

- Asio sockets, accepting, blocking, keep-alive, timeouts and signals: byte strings, fresh endpoints and the order of steps stand for them.
- Reads that block for ever: the methods of the accept loop require that enough messages arrive.
- Full 1024-byte buffers and NUL bytes: a read is any string. Which cuts between reads do harm is proved in `ReadBoundaries`.
- Write failures and broken pipes: writes succeed, so `remove_trace_of` is only reached from `handle_part`.
- PostgreSQL, SQL text and quoting: the tables are maps and sequences.
- SHA-256 and its platform-dependent conversion to `char`: the hash is an arbitrary function.
- The rest of the `chitter` functions, the login history, bios, roles and servers: single statements on one table.
- Shutting down: `selfdestruct`, joining the threads, signals.
- Memory order and data races: the steps of the transition system are atomic. The server's flag is an atomic in the source and
  the shared structures are guarded by its lock.
- Terminal prompts, colours, the HELP text and the SHOW display.
- Configuration loading and the command line.
- The end of standard input: a model run of the client ends there, where the source would keep reading empty lines.
