/** The state of one channel's servlet (src/server/Servlet.cpp) and what each of its operations makes of it. */
module Room {
  import opened Strings
  import opened Sockio
  import opened Irc

  /** A user waiting in `_chan_newusers_map`, with the messages already read from its socket. */
  datatype Early = Early(user: User, msgs: seq<string>)

  /** A handled PRIVMSG; its row in ChatLogs is (nick of `from`, `LoggedText(line)`). */
  datatype Entry = Entry(from: User, line: string)

  /** A row of ChatLogs, and what a client shows of a message. */
  datatype Spoken = Spoken(nick: string, text: string)

  /** The rows that the servlet inserted into ChatLogs. */
  function Rows(log: seq<Entry>): seq<Spoken> {
    if log == [] then []
    else
      var last := log[|log| - 1];
      Rows(log[..|log| - 1]) + [Spoken(last.from.nick, LoggedText(last.line))]
  }

  lemma RowAppended(log: seq<Entry>, e: Entry)
    ensures Rows(log + [e]) == Rows(log) + [Spoken(e.from.nick, LoggedText(e.line))]
  {
    assert (log + [e])[..|log|] == log;
  }

  /** Everything the servlet has written to one member, and how long the log was when it was admitted. */
  datatype Stream = Stream(replies: seq<Reply>, mark: nat)

  /** `stored` and `log` are this channel's rows of Channels and ChatLogs; `newusers` is the local variable
      `newusers` of handle_newusers; `streams` and `handled` record what was written to and done for each member. */
  datatype Room = Room(
    chan: string,
    host: string,
    topic: string,
    stored: string,
    users: seq<User>,
    socks: seq<Endpoint>,
    queues: map<Endpoint, seq<string>>,
    log: seq<Entry>,
    streams: map<Endpoint, Stream>,
    handled: map<Endpoint, seq<string>>,
    newusers: seq<User>)

  function NewRoom(chan: string, host: string, topic: string): Room {
    Room(chan, host, topic, topic, [], [], map[], [], map[], map[], [])
  }

  // ---- Users and endpoints ----

  predicate Has(us: seq<User>, e: Endpoint) {
    exists i | 0 <= i < |us| :: us[i].endpt == e
  }

  predicate Distinct(us: seq<User>) {
    forall i, j | 0 <= i < j < |us| :: us[i].endpt != us[j].endpt
  }

  predicate NoDup<T(==)>(s: seq<T>) {
    forall i, j | 0 <= i < j < |s| :: s[i] != s[j]
  }

  /** The index that std::find_if reaches. */
  function IndexOf(us: seq<User>, e: Endpoint): (k: nat)
    requires Has(us, e)
    ensures k < |us| && us[k].endpt == e && !Has(us[..k], e)
  {
    if us[0].endpt == e then 0
    else
      var i :| 0 <= i < |us| && us[i].endpt == e;
      assert us[1..][i - 1].endpt == e;
      var k := IndexOf(us[1..], e);
      assert us[..k + 1] == [us[0]] + us[1..][..k];
      k + 1
  }

  // ---- Claiming new users: grab_new ----

  function Newcomers(list: seq<Early>): (us: seq<User>)
    ensures |us| == |list|
  {
    if list == [] then [] else Newcomers(list[..|list| - 1]) + [list[|list| - 1].user]
  }

  /** The messages the pending tuples hold for one endpoint. */
  function QueueOf(list: seq<Early>, e: Endpoint): seq<string> {
    if list == [] then []
    else
      var last := list[|list| - 1];
      QueueOf(list[..|list| - 1], e) + if last.user.endpt == e then last.msgs else []
  }

  function NewEnds(list: seq<Early>): set<Endpoint> {
    set p | p in list :: p.user.endpt
  }

  function QueueAt(queues: map<Endpoint, seq<string>>, e: Endpoint): seq<string> {
    if e in queues then queues[e] else []
  }

  function AdmitQueues(queues: map<Endpoint, seq<string>>, list: seq<Early>): map<Endpoint, seq<string>> {
    map e | e in queues.Keys + NewEnds(list) :: QueueAt(queues, e) + QueueOf(list, e)
  }

  function AdmitStreams(streams: map<Endpoint, Stream>, list: seq<Early>, mark: nat): map<Endpoint, Stream> {
    map e | e in streams.Keys + NewEnds(list) :: if e in NewEnds(list) then Stream([], mark) else streams[e]
  }

  function AdmitHandled(handled: map<Endpoint, seq<string>>, list: seq<Early>): map<Endpoint, seq<string>> {
    map e | e in handled.Keys + NewEnds(list) :: if e in NewEnds(list) then [] else handled[e]
  }

  function Admit(r: Room, list: seq<Early>): Room {
    r.(users := r.users + Newcomers(list),
       queues := AdmitQueues(r.queues, list),
       streams := AdmitStreams(r.streams, list, |r.log|),
       handled := AdmitHandled(r.handled, list),
       newusers := Newcomers(list))
  }

  /** The sockets whose endpoint belongs to one of `us`, in their order. */
  function Claimed(socks: seq<Endpoint>, us: seq<User>): seq<Endpoint> {
    if socks == [] then []
    else
      var last := socks[|socks| - 1];
      Claimed(socks[..|socks| - 1], us) + if Has(us, last) then [last] else []
  }

  function Unclaimed(socks: seq<Endpoint>, us: seq<User>): seq<Endpoint> {
    if socks == [] then []
    else
      var last := socks[|socks| - 1];
      Unclaimed(socks[..|socks| - 1], us) + if Has(us, last) then [] else [last]
  }

  /** grab_new: the users pending for this channel, then the sockets of any of `_users`. */
  function Grab(r: Room, list: seq<Early>, socks: seq<Endpoint>): Room {
    var admitted := Admit(r, list);
    admitted.(socks := r.socks + Claimed(socks, admitted.users))
  }

  // ---- Greeting new users: handle_newusers ----

  /** One reply written to every user of `us`. */
  function Deliver(streams: map<Endpoint, Stream>, us: seq<User>, reply: Reply): map<Endpoint, Stream> {
    map e | e in streams ::
      if Has(us, e) then streams[e].(replies := streams[e].replies + [reply]) else streams[e]
  }

  /** The users the join loop writes to: it skips new users it has not come to yet. */
  function Audience(us: seq<User>, newusers: seq<User>, handled: seq<User>): seq<User> {
    if us == [] then []
    else
      var u := us[|us| - 1];
      Audience(us[..|us| - 1], newusers, handled) +
      if Has(newusers, u.endpt) && !Has(handled, u.endpt) then [] else [u]
  }

  function Greetings(r: Room, u: User, audience: seq<User>): map<Endpoint, Stream> {
    var s1 := Deliver(r.streams, audience, Joined(u));
    var s2 := Deliver(s1, [u], TopicIs(r.host, u, r.topic));
    var s3 := Deliver(s2, [u], Names(r.host, u, Nicks(audience)));
    Deliver(s3, [u], EndOfNames(r.host, u))
  }

  function GreetOne(r: Room, i: nat): Room
    requires i < |r.newusers|
  {
    r.(streams := Greetings(r, r.newusers[i], Audience(r.users, r.newusers, r.newusers[..i + 1])))
  }

  function GreetUpto(r: Room, n: nat): (g: Room)
    requires n <= |r.newusers|
    ensures g == r.(streams := g.streams)
  {
    if n == 0 then r else GreetOne(GreetUpto(r, n - 1), n - 1)
  }

  function HandleNewUsers(r: Room): Room {
    GreetUpto(r, |r.newusers|).(newusers := [])
  }

  // ---- Handling messages: handle_msg and its three cases ----

  /** Everyone but the endpoint `e`. */
  function Others(us: seq<User>, e: Endpoint): seq<User> {
    if us == [] then []
    else
      var u := us[|us| - 1];
      Others(us[..|us| - 1], e) + if u.endpt == e then [] else [u]
  }

  function HandlePriv(r: Room, client: User, msg: string): Room {
    r.(streams := Deliver(r.streams, Others(r.users, client.endpt), Said(client, msg)),
       log := r.log + [Entry(client, msg)])
  }

  function WithoutSock(socks: seq<Endpoint>, e: Endpoint): seq<Endpoint> {
    if socks == [] then []
    else if socks[0] == e then socks[1..]
    else [socks[0]] + WithoutSock(socks[1..], e)
  }

  function RemoveAt(us: seq<User>, k: nat): seq<User>
    requires k < |us|
  {
    us[..k] + us[k + 1..]
  }

  /** remove_trace_of. */
  function RemoveTrace(r: Room, e: Endpoint): Room
    requires Has(r.users, e)
  {
    var k := IndexOf(r.users, e);
    r.(users := RemoveAt(r.users, k),
       queues := r.queues - {e},
       streams := r.streams - {e},
       socks := WithoutSock(r.socks, e))
  }

  function HandlePart(r: Room, client: User, msg: string): Room
    requires Has(r.users, client.endpt)
  {
    var told := r.(streams := Deliver(r.streams, Others(r.users, client.endpt), Parted(client, msg)));
    RemoveTrace(told, client.endpt)
  }

  /** The topic that a TOPIC line sets: the last piece after splitting at "TOPIC <channel> :". */
  function NewTopic(chan: string, msg: string): string {
    var parts := Split(msg, "TOPIC " + chan + " :");
    parts[|parts| - 1]
  }

  function HandleTopic(r: Room, client: User, msg: string): Room {
    var topic := NewTopic(r.chan, msg);
    r.(topic := topic,
       stored := topic,
       streams := Deliver(r.streams, r.users, Retitled(client, r.chan, topic)))
  }

  predicate IsPriv(msg: string) { StartsWith(msg, "PRIVMSG") }
  predicate IsPart(msg: string) { StartsWith(msg, "PART") }
  predicate IsTopic(msg: string) { StartsWith(msg, "TOPIC") }

  function Record(r: Room, e: Endpoint, msg: string): Room {
    r.(handled := r.handled[e := QueueAt(r.handled, e) + [msg]])
  }

  /** handle_msg; `None` is the exception for an unrecognised message. */
  function HandleMsg(r: Room, e: Endpoint, msg: string): Option<Room>
    requires Has(r.users, e)
  {
    var client := r.users[IndexOf(r.users, e)];
    var q := Record(r, e, msg);
    if IsPriv(msg) then Some(HandlePriv(q, client, msg))
    else if IsPart(msg) then Some(HandlePart(q, client, msg))
    else if IsTopic(msg) then Some(HandleTopic(q, client, msg))
    else None
  }

  /** The inner loop of handle_endmsgs: in order, ending with the endpoint's entry. */
  function HandleQueue(r: Room, e: Endpoint, msgs: seq<string>): Option<Room>
    decreases |msgs|
  {
    if msgs == [] || !Has(r.users, e) then Some(r)
    else
      var next :- HandleMsg(r, e, msgs[0]);
      HandleQueue(next, e, msgs[1..])
  }

  /** One entry of handle_endmsgs: its queue is handled, and cleared if the entry is still there. */
  function HandleEntry(r: Room, e: Endpoint): Option<Room> {
    var done :- HandleQueue(r, e, QueueAt(r.queues, e));
    Some(if e in done.queues then done.(queues := done.queues[e := []]) else done)
  }

  /** update_endmsgs for one socket: newly read messages go to the end of its queue. */
  function Poll(r: Room, e: Endpoint, msgs: seq<string>): Room {
    r.(queues := r.queues[e := QueueAt(r.queues, e) + msgs])
  }

  /** handle_endmsgs: the entries one after the other. */
  function HandleAll(r: Room, order: seq<Endpoint>): Option<Room>
    decreases |order|
  {
    if order == [] then Some(r)
    else
      var next :- HandleEntry(r, order[0]);
      HandleAll(next, order[1..])
  }

  /** update_endmsgs: what the next read of each socket brought. */
  function PollAll(r: Room, ends: seq<Endpoint>, brought: seq<seq<string>>): Room
    requires |ends| == |brought|
  {
    if ends == [] then r
    else
      var n := |ends| - 1;
      Poll(PollAll(r, ends[..n], brought[..n]), ends[n], brought[n])
  }
}
