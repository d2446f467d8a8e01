/** The accept loop and the channel servlets as one transition system: every step is one atomic region of
    src/server/Server.cpp or of one iteration of a servlet in src/server/Servlet.cpp, in any interleaving. */
module Handoff {
  import opened Strings
  import opened Sockio
  import opened Irc
  import opened Registration
  import opened Room
  import opened Chitter

  /** What the server is started with; `hash` stands for SHA-256. */
  datatype Config = Config(host: string, defaultTopic: string, hash: string -> string)

  /** Who holds a connection's socket. */
  datatype Place = AtServer | Pending(chan: string) | Member(chan: string) | Left(chan: string) | Closed

  /** One connection: what its client has sent, what was left in `_end_msgs` under its endpoint before it was
      accepted, what the handshake has consumed, and what has not been read yet. */
  datatype Conn = Conn(place: Place, sent: seq<string>, stale: seq<string>, consumed: seq<string>, unread: seq<string>)

  /** Where the accept loop is in inner_scope_run. */
  datatype Accept =
    | Idle
    | Stopped
    | Reading(sock: Endpoint, got: seq<string>)
    | Joining(user: User)
    | Publishing(user: User, early: seq<string>)
    | Notifying(chan: string)
    | Spawning(chan: string)

  /** Where a servlet is in one iteration of thread_run. */
  datatype Phase =
    | Checking
    | Grabbing
    | Greeting
    | Polling(todo: seq<Endpoint>)
    | Handling(todo: seq<Endpoint>)

  datatype Thread = Thread(flag: nat, alive: bool, phase: Phase, room: Room)

  datatype System = System(
    accept: Accept,
    endMsgs: map<Endpoint, seq<string>>,
    pending: map<string, seq<Early>>,
    socks: seq<Endpoint>,
    notifier: map<string, nat>,
    flags: map<nat, bool>,
    threads: map<string, Thread>,
    accounts: Accounts,
    topics: map<string, string>,
    conns: map<Endpoint, Conn>)

  /** A started server; `accounts` and `topics` are what the database already holds. */
  function Init(accounts: Accounts, topics: map<string, string>): System {
    System(Idle, map[], map[], [], map[], map[], map[], accounts, topics, map[])
  }

  datatype Step =
    | ClientSend(e: Endpoint, msg: string)
    | AcceptClient(e: Endpoint)
    | ServerRead(k: nat)
    | Register
    | ReadJoin(k: nat)
    | Publish
    | Notify
    | Spawn
    | CheckFlag(c: string)
    | GrabNew(c: string)
    | Greet(c: string)
    | PollOne(c: string, k: nat)
    | StartHandling(c: string, order: seq<Endpoint>)
    | HandleOne(c: string)
    | EndIteration(c: string)

  predicate Live(s: System, e: Endpoint) {
    e in s.conns && (s.conns[e].place.AtServer? || s.conns[e].place.Pending? || s.conns[e].place.Member?)
  }

  // ---- Clients ----

  function DoSend(s: System, e: Endpoint, msg: string): Option<System> {
    if !Live(s, e) then None
    else
      var c := s.conns[e];
      Some(s.(conns := s.conns[e := c.(sent := c.sent + [msg], unread := c.unread + [msg])]))
  }

  // ---- The accept loop ----

  /** A new connection's endpoint differs from every live one. */
  function DoAccept(s: System, e: Endpoint): Option<System> {
    if !s.accept.Idle? || Live(s, e) then None
    else Some(s.(accept := Reading(e, []), conns := s.conns[e := Conn(AtServer, [], QueueAt(s.endMsgs, e), [], [])]))
  }

  datatype Taken = Taken(msg: string, queue: seq<string>, unread: seq<string>)

  /** try_reading on messages: from the queue, or else from a read that brings the next `k` messages. */
  function Take(queue: seq<string>, unread: seq<string>, k: nat): Option<Taken> {
    if queue != [] then Some(Taken(queue[0], queue[1..], unread))
    else if 1 <= k <= |unread| then Some(Taken(unread[0], unread[1..k], unread[k..]))
    else None
  }

  function AfterTake(c: Conn, t: Taken): Conn {
    c.(consumed := c.consumed + [t.msg], unread := t.unread)
  }

  function Dropped(c: Conn): Conn {
    c.(place := Closed)
  }

  function HandshakeTaken(s: System, e: Endpoint, got: seq<string>, t: Taken): System
    requires e in s.conns
  {
    var conn := AfterTake(s.conns[e], t);
    if |got| != 1 && After5(t.msg).None?
    then s.(accept := Stopped, endMsgs := s.endMsgs[e := t.queue], conns := s.conns[e := Dropped(conn)])
    else s.(accept := Reading(e, got + [t.msg]), endMsgs := s.endMsgs[e := t.queue], conns := s.conns[e := conn])
  }

  /** One of the three reads of register_session; NICK and PASS throw when they are too short. */
  function DoServerRead(s: System, k: nat): Option<System> {
    if !s.accept.Reading? || |s.accept.got| >= 3 || s.accept.sock !in s.conns then None
    else
      var e, got := s.accept.sock, s.accept.got;
      match Take(QueueAt(s.endMsgs, e), s.conns[e].unread, k)
      case None => None
      case Some(t) => Some(HandshakeTaken(s, e, got, t))
  }

  /** The user is built and logged in; a refused socket is dropped. */
  function Registered(cfg: Config, s: System, e: Endpoint, h: Handshake): System
    requires e in s.conns
  {
    var user := User(h.nick, h.whoami, h.realName, cfg.hash(h.password), "", e);
    var outcome := LoginResult(s.accounts, Login(user.nick, user.pass));
    if outcome.ok then s.(accept := Joining(user), accounts := outcome.accounts)
    else s.(accept := Idle, accounts := outcome.accounts, conns := s.conns[e := Dropped(s.conns[e])])
  }

  /** The rest of register_session; a USER message that is too short throws. */
  function DoRegister(cfg: Config, s: System): Option<System> {
    if !s.accept.Reading? || |s.accept.got| != 3 || s.accept.sock !in s.conns then None
    else
      var e, got := s.accept.sock, s.accept.got;
      match ParseHandshake(got[0], got[1], got[2])
      case None => Some(s.(accept := Stopped, conns := s.conns[e := Dropped(s.conns[e])]))
      case Some(h) => Some(Registered(cfg, s, e, h))
  }

  function JoinTaken(s: System, user: User, t: Taken): System
    requires user.endpt in s.conns
  {
    var e := user.endpt;
    var conn := AfterTake(s.conns[e], t);
    match After5(t.msg)
    case None =>
      s.(accept := Stopped, endMsgs := s.endMsgs[e := t.queue], conns := s.conns[e := Dropped(conn)])
    case Some(chan) =>
      s.(accept := Publishing(user.(chan := chan), t.queue), endMsgs := s.endMsgs - {e}, conns := s.conns[e := conn])
  }

  /** get_channel_name, and moving the early messages out of `_end_msgs`. */
  function DoReadJoin(s: System, k: nat): Option<System> {
    if !s.accept.Joining? || s.accept.user.endpt !in s.conns then None
    else
      var user := s.accept.user;
      var e := user.endpt;
      match Take(QueueAt(s.endMsgs, e), s.conns[e].unread, k)
      case None => None
      case Some(t) => Some(JoinTaken(s, user, t))
  }

  function PendingAt(pending: map<string, seq<Early>>, c: string): seq<Early> {
    if c in pending then pending[c] else []
  }

  /** update_comm_structs, under the lock. */
  function DoPublish(s: System): Option<System> {
    if !s.accept.Publishing? || s.accept.user.endpt !in s.conns then None
    else
      var user := s.accept.user;
      var e, c := user.endpt, user.chan;
      Some(s.(accept := Notifying(c),
              pending := s.pending[c := PendingAt(s.pending, c) + [Early(user, s.accept.early)]],
              socks := s.socks + [e],
              conns := s.conns[e := s.conns[e].(place := Pending(c))]))
  }

  function NewFlag(notifier: map<string, nat>): nat {
    |notifier|
  }

  /** Notifier::update: the channel's flag is set, or created as true. */
  function DoNotify(s: System): Option<System> {
    if !s.accept.Notifying? then None
    else
      var c := s.accept.chan;
      if c in s.notifier
      then Some(s.(accept := Spawning(c), flags := s.flags[s.notifier[c] := true]))
      else
        var id := NewFlag(s.notifier);
        Some(s.(accept := Spawning(c), notifier := s.notifier[c := id], flags := s.flags[id := true]))
  }

  /** What a new servlet of channel `c` starts with, and what is stored then: a stored topic stays and is the servlet's; otherwise
      the default topic is stored and is the servlet's. */
  predicate TopicGiven(before: map<string, string>, after: map<string, string>, c: string, byDefault: string, topic: string) {
    if c in before then after == before && topic == before[c]
    else after == before[c := byDefault] && topic == byDefault
  }

  /** The end of inner_scope_run: at most one servlet per channel, started with the stored or default topic. */
  function DoSpawn(cfg: Config, s: System): Option<System> {
    if !s.accept.Spawning? then None
    else
      var c := s.accept.chan;
      if c in s.threads then Some(s.(accept := Idle))
      else if c !in s.notifier then None
      else
        var topic := if c in s.topics then s.topics[c] else cfg.defaultTopic;
        var thread := Thread(s.notifier[c], true, Checking, NewRoom(c, cfg.host, topic));
        Some(s.(accept := Idle, topics := s.topics[c := topic], threads := s.threads[c := thread]))
  }

  // ---- A servlet ----

  predicate Running(s: System, c: string) {
    c in s.threads && s.threads[c].alive
  }

  function DoCheck(s: System, c: string): Option<System> {
    if !Running(s, c) || !s.threads[c].phase.Checking? || s.threads[c].flag !in s.flags then None
    else
      var t := s.threads[c];
      var next := if s.flags[t.flag] then Grabbing else Polling(t.room.socks);
      Some(s.(threads := s.threads[c := t.(phase := next)]))
  }

  /** Every connection of `ends` becomes a member of `c`. */
  function Claim(conns: map<Endpoint, Conn>, ends: set<Endpoint>, c: string): map<Endpoint, Conn> {
    map e | e in conns :: if e in ends then conns[e].(place := Member(c)) else conns[e]
  }

  /** grab_new, under the lock. */
  function DoGrab(s: System, c: string): Option<System> {
    if !Running(s, c) || !s.threads[c].phase.Grabbing? then None
    else
      var t, list := s.threads[c], PendingAt(s.pending, c);
      var room := Grab(t.room, list, s.socks);
      Some(s.(pending := s.pending[c := []],
              socks := Unclaimed(s.socks, room.users),
              threads := s.threads[c := t.(phase := Greeting, room := room)],
              conns := Claim(s.conns, NewEnds(list), c)))
  }

  function DoGreet(s: System, c: string): Option<System> {
    if !Running(s, c) || !s.threads[c].phase.Greeting? then None
    else
      var t := s.threads[c];
      var room := HandleNewUsers(t.room);
      Some(s.(threads := s.threads[c := t.(phase := Polling(room.socks), room := room)]))
  }

  /** update_endmsgs for the next socket: the read brings `k` messages, or nothing is available. */
  function DoPoll(s: System, c: string, k: nat): Option<System> {
    if !Running(s, c) || !s.threads[c].phase.Polling? || s.threads[c].phase.todo == [] then None
    else
      var t := s.threads[c];
      var e := t.phase.todo[0];
      if e !in s.conns || k > |s.conns[e].unread| then None
      else
        var conn := s.conns[e];
        var room := Poll(t.room, e, conn.unread[..k]);
        Some(s.(threads := s.threads[c := t.(phase := Polling(t.phase.todo[1..]), room := room)],
                conns := s.conns[e := conn.(unread := conn.unread[k..])]))
  }

  /** handle_endmsgs begins: it visits the keys of `_end_msgs`, in the map's order. */
  function DoStartHandling(s: System, c: string, order: seq<Endpoint>): Option<System> {
    if !Running(s, c) || s.threads[c].phase != Polling([]) then None
    else
      var t := s.threads[c];
      if !NoDup(order) || (set e | e in order) != t.room.queues.Keys then None
      else Some(s.(threads := s.threads[c := t.(phase := Handling(order))]))
  }

  /** The exception for an unrecognised message ends the thread; its sockets and queues are destroyed. */
  function Emptied(r: Room): Room {
    r.(users := [], socks := [], queues := map[], streams := map[], newusers := [])
  }

  function Drop(conns: map<Endpoint, Conn>, us: seq<User>): map<Endpoint, Conn> {
    map e | e in conns :: if Has(us, e) then conns[e].(place := Closed) else conns[e]
  }

  /** handle_endmsgs for the next key; its connection has left when its PART was handled. */
  function DoHandle(s: System, c: string): Option<System> {
    if !Running(s, c) || !s.threads[c].phase.Handling? || s.threads[c].phase.todo == [] then None
    else
      var t := s.threads[c];
      var e := t.phase.todo[0];
      if e !in s.conns then None
      else
        match HandleEntry(t.room, e)
        case None =>
          Some(s.(threads := s.threads[c := t.(alive := false, phase := Checking, room := Emptied(t.room))],
                  conns := Drop(s.conns, t.room.users)))
        case Some(room) =>
          var place := if Has(room.users, e) then s.conns[e].place else Left(c);
          Some(s.(threads := s.threads[c := t.(phase := Handling(t.phase.todo[1..]), room := room)],
                  conns := s.conns[e := s.conns[e].(place := place)]))
  }

  function DoEnd(s: System, c: string): Option<System> {
    if !Running(s, c) || s.threads[c].phase != Handling([]) then None
    else Some(s.(threads := s.threads[c := s.threads[c].(phase := Checking)]))
  }

  /** The state after a step; `None` when the step cannot happen. */
  function Next(cfg: Config, s: System, step: Step): Option<System> {
    match step
    case ClientSend(e, msg) => DoSend(s, e, msg)
    case AcceptClient(e) => DoAccept(s, e)
    case ServerRead(k) => DoServerRead(s, k)
    case Register => DoRegister(cfg, s)
    case ReadJoin(k) => DoReadJoin(s, k)
    case Publish => DoPublish(s)
    case Notify => DoNotify(s)
    case Spawn => DoSpawn(cfg, s)
    case CheckFlag(c) => DoCheck(s, c)
    case GrabNew(c) => DoGrab(s, c)
    case Greet(c) => DoGreet(s, c)
    case PollOne(c, k) => DoPoll(s, c, k)
    case StartHandling(c, order) => DoStartHandling(s, c, order)
    case HandleOne(c) => DoHandle(s, c)
    case EndIteration(c) => DoEnd(s, c)
  }

  /** The state after a whole run; `None` when some step of it cannot happen. */
  function Run(cfg: Config, s: System, steps: seq<Step>): Option<System> {
    if steps == [] then Some(s)
    else
      var before :- Run(cfg, s, steps[..|steps| - 1]);
      Next(cfg, before, steps[|steps| - 1])
  }
}
