/** What handling one endpoint's queue does to the servlet's bookkeeping, and when it is safe. */
module RoomEffects {
  import opened Strings
  import opened Sockio
  import opened Irc
  import opened Room
  import opened RoomInvariant

  // ---- Which sockets and members are left ----

  lemma {:induction false} SockRemoved(socks: seq<Endpoint>, e: Endpoint, x: Endpoint)
    requires NoDup(socks)
    ensures NoDup(WithoutSock(socks, e))
    ensures x in WithoutSock(socks, e) <==> x in socks && x != e
  {
    if socks == [] {
    } else if socks[0] == e {
    } else {
      var rest := WithoutSock(socks[1..], e);
      assert NoDup(socks[1..]);
      SockRemoved(socks[1..], e, x);
      SockRemovedOnly(socks[1..], e);
      forall y | y in rest
        ensures y != socks[0]
      {
        assert y in socks[1..];
      }
      ConsNoDup(socks[0], rest);
    }
  }

  lemma ConsNoDup(x: Endpoint, s: seq<Endpoint>)
    requires NoDup(s) && x !in s
    ensures NoDup([x] + s)
  {
  }

  lemma {:induction false} SockRemovedOnly(socks: seq<Endpoint>, e: Endpoint)
    ensures forall y | y in WithoutSock(socks, e) :: y in socks
  {
    if socks != [] && socks[0] != e {
      SockRemovedOnly(socks[1..], e);
    }
  }

  /** The bookkeeping of every endpoint but `e` is as before; `done` more messages of `e` were handled. */
  ghost predicate Effect(r: Room, q: Room, e: Endpoint, done: seq<string>) {
    && q.chan == r.chan && q.host == r.host && q.newusers == r.newusers
    && (forall u | u in q.users :: u in r.users)
    && (forall x | x != e :: Has(q.users, x) <==> Has(r.users, x))
    && (forall x | x != e :: x in q.socks <==> x in r.socks)
    && (forall x | x != e :: QueueAt(q.queues, x) == QueueAt(r.queues, x))
    && (forall x | x != e :: QueueAt(q.handled, x) == QueueAt(r.handled, x))
    && (Has(q.users, e) ==> Has(r.users, e) && (e in q.socks <==> e in r.socks) && QueueAt(q.queues, e) == QueueAt(r.queues, e))
    && (!Has(q.users, e) && Has(r.users, e) ==> e !in q.socks)
    && QueueAt(q.handled, e) == QueueAt(r.handled, e) + done
    && NoDup(q.socks)
  }

  lemma PartEffect(r: Room, client: User, msg: string)
    requires Shape(r) && Has(r.users, client.endpt) && NoDup(r.socks)
    ensures Effect(r, HandlePart(r, client, msg), client.endpt, [])
    ensures !Has(HandlePart(r, client, msg).users, client.endpt)
  {
    hide RemoveAt, Deliver, Others, Has, Distinct, NoDup;
    var e := client.endpt;
    var k := IndexOf(r.users, e);
    forall x
      ensures Has(RemoveAt(r.users, k), x) <==> Has(r.users, x) && x != e
    {
      RemovedHas(r.users, k, x);
    }
    forall u | u in RemoveAt(r.users, k)
      ensures u in r.users
    {
      InRemainder(r.users, k, u);
    }
    forall x
      ensures x in WithoutSock(r.socks, e) <==> x in r.socks && x != e
    {
      SockRemoved(r.socks, e, x);
    }
    SockRemoved(r.socks, e, e);
  }

  lemma MsgEffect(r: Room, e: Endpoint, msg: string)
    requires RoomOk(r, |r.users|) && Has(r.users, e) && NoDup(r.socks)
    ensures match HandleMsg(r, e, msg)
            case None => !IsPriv(msg) && !IsPart(msg) && !IsTopic(msg)
            case Some(q) => Effect(r, q, e, [msg]) && (!Has(q.users, e) <==> !IsPriv(msg) && IsPart(msg))
  {
    hide MemberOk, Deliver, Others, NewTopic, HandlePart, Has, Distinct, NoDup, IsPriv, IsPart, IsTopic;
    if !IsPriv(msg) && IsPart(msg) {
      PartEffect(Record(r, e, msg), r.users[IndexOf(r.users, e)], msg);
    }
  }

  lemma EffectsCompose(r: Room, m: Room, q: Room, e: Endpoint, a: seq<string>, b: seq<string>)
    requires Effect(r, m, e, a) && Effect(m, q, e, b) && Has(m.users, e)
    ensures Effect(r, q, e, a + b)
  {
    hide Has, NoDup;
  }

  lemma EffectNone(r: Room, e: Endpoint)
    requires NoDup(r.socks)
    ensures Effect(r, r, e, [])
  {
  }

  /** The messages of a queue up to and including its first PART. */
  function UntilPart(msgs: seq<string>): seq<string> {
    if msgs == [] then []
    else if !IsPriv(msgs[0]) && IsPart(msgs[0]) then [msgs[0]]
    else [msgs[0]] + UntilPart(msgs[1..])
  }

  predicate HasPart(msgs: seq<string>) {
    exists i | 0 <= i < |msgs| :: !IsPriv(msgs[i]) && IsPart(msgs[i])
  }

  lemma {:induction false} QueueEffect(r: Room, e: Endpoint, msgs: seq<string>)
    requires RoomOk(r, |r.users|) && Has(r.users, e) && NoDup(r.socks)
    ensures match HandleQueue(r, e, msgs)
            case None => true
            case Some(q) => Effect(r, q, e, UntilPart(msgs)) && (!Has(q.users, e) <==> HasPart(msgs))
    decreases |msgs|
  {
    hide RoomOk, Effect, IsPriv, IsPart, Has;
    if msgs == [] {
      EffectNone(r, e);
    } else {
      MsgEffect(r, e, msgs[0]);
      MsgKeepsRoom(r, e, msgs[0]);
      match HandleMsg(r, e, msgs[0])
      case None =>
      case Some(m) =>
        HasPartStep(msgs);
        assert HandleQueue(r, e, msgs) == HandleQueue(m, e, msgs[1..]);
        if Has(m.users, e) {
          EffectIsSockSafe(r, m, e, [msgs[0]]);
          QueueEffect(m, e, msgs[1..]);
          match HandleQueue(m, e, msgs[1..]) {
            case None =>
            case Some(q) => EffectsCompose(r, m, q, e, [msgs[0]], UntilPart(msgs[1..]));
          }
        } else {
          assert HandleQueue(m, e, msgs[1..]) == Some(m);
        }
    }
  }

  lemma EffectIsSockSafe(r: Room, m: Room, e: Endpoint, done: seq<string>)
    requires Effect(r, m, e, done)
    ensures NoDup(m.socks)
  {
  }

  lemma HasPartStep(msgs: seq<string>)
    requires msgs != []
    ensures HasPart(msgs) <==> (!IsPriv(msgs[0]) && IsPart(msgs[0])) || HasPart(msgs[1..])
  {
    hide IsPriv, IsPart;
    if HasPart(msgs[1..]) {
      var i :| 0 <= i < |msgs[1..]| && !IsPriv(msgs[1..][i]) && IsPart(msgs[1..][i]);
      assert msgs[i + 1] == msgs[1..][i];
    }
    if HasPart(msgs) {
      var i :| 0 <= i < |msgs| && !IsPriv(msgs[i]) && IsPart(msgs[i]);
      if i > 0 {
        assert msgs[1..][i - 1] == msgs[i];
      }
    }
  }

  ghost predicate EntryDone(r: Room, q: Room, e: Endpoint) {
    var queue := QueueAt(r.queues, e);
    && q.chan == r.chan && q.host == r.host && q.newusers == r.newusers
    && (forall u | u in q.users :: u in r.users)
    && (forall x | x != e :: Has(q.users, x) <==> Has(r.users, x))
    && (forall x | x != e :: x in q.socks <==> x in r.socks)
    && (forall x | x != e :: QueueAt(q.queues, x) == QueueAt(r.queues, x))
    && (forall x | x != e :: QueueAt(q.handled, x) == QueueAt(r.handled, x))
    && (Has(q.users, e) <==> !HasPart(queue))
    && (Has(q.users, e) ==> (e in q.socks <==> e in r.socks) && QueueAt(q.queues, e) == [])
    && (!Has(q.users, e) ==> e !in q.socks)
    && QueueAt(q.handled, e) == QueueAt(r.handled, e) + UntilPart(queue)
    && NoDup(q.socks)
  }

  lemma ClearEffect(r: Room, d: Room, q: Room, e: Endpoint, done: seq<string>)
    requires Effect(r, d, e, done) && done == UntilPart(QueueAt(r.queues, e))
    requires Has(d.users, e) <==> !HasPart(QueueAt(r.queues, e))
    requires e in d.queues <==> Has(d.users, e)
    requires Has(r.users, e)
    requires q == if e in d.queues then d.(queues := d.queues[e := []]) else d
    ensures EntryDone(r, q, e)
  {
    hide Has, NoDup, HasPart, UntilPart;
  }

  /** Handling a whole entry: what `e` had queued up to its PART counts as handled, and nothing of it stays queued. */
  lemma EntryEffect(r: Room, e: Endpoint)
    requires RoomOk(r, |r.users|) && Has(r.users, e) && NoDup(r.socks)
    ensures match HandleEntry(r, e)
            case None => true
            case Some(q) => EntryDone(r, q, e)
  {
    hide MemberOk, UntilPart, Effect, EntryDone, Has, HasPart, HandleQueue, Distinct, NoDup;
    var queue := QueueAt(r.queues, e);
    QueueEffect(r, e, queue);
    QueueKeepsRoom(r, e, queue);
    match HandleQueue(r, e, queue)
    case None =>
    case Some(d) =>
      ClearEffect(r, d, HandleEntry(r, e).value, e, UntilPart(queue));
  }

  // ---- Safe queues ----

  predicate Recognised(msg: string) {
    IsPriv(msg) || IsPart(msg) || IsTopic(msg)
  }

  /** A PART, if any, comes last. */
  predicate PartLast(msgs: seq<string>) {
    forall i | 0 <= i < |msgs| - 1 :: IsPriv(msgs[i]) || !IsPart(msgs[i])
  }

  /** The loop as written: for every message in the list the lookup in `_users` must find the sender. */
  predicate LookupsSafe(r: Room, e: Endpoint, msgs: seq<string>)
    decreases |msgs|
  {
    msgs == [] ||
    (Has(r.users, e) &&
     match HandleMsg(r, e, msgs[0])
     case None => true
     case Some(q) => LookupsSafe(q, e, msgs[1..]))
  }

  lemma {:induction false} UntilPartIsAll(msgs: seq<string>)
    ensures UntilPart(msgs) == msgs <==> PartLast(msgs)
    ensures UntilPart(msgs) <= msgs
    decreases |msgs|
  {
    hide IsPriv, IsPart;
    if |msgs| == 0 {
    } else {
      UntilPartIsAll(msgs[1..]);
      PartLastStep(msgs);
      assert msgs == [msgs[0]] + msgs[1..];
    }
  }

  lemma PartLastStep(msgs: seq<string>)
    requires msgs != []
    ensures PartLast(msgs) <==> (|msgs| == 1 || IsPriv(msgs[0]) || !IsPart(msgs[0])) && PartLast(msgs[1..])
  {
    hide IsPriv, IsPart;
    if PartLast(msgs) {
      forall i | 0 <= i < |msgs[1..]| - 1
        ensures IsPriv(msgs[1..][i]) || !IsPart(msgs[1..][i])
      {
        assert msgs[1..][i] == msgs[i + 1];
      }
    }
    if PartLast(msgs[1..]) {
      forall i | 1 <= i < |msgs| - 1
        ensures IsPriv(msgs[i]) || !IsPart(msgs[i])
      {
        assert msgs[i] == msgs[1..][i - 1];
      }
    }
  }

  predicate AllRecognised(msgs: seq<string>) {
    forall m | m in msgs :: Recognised(m)
  }

  lemma RecognisedStep(msgs: seq<string>)
    requires msgs != []
    ensures AllRecognised(UntilPart(msgs)) <==>
            Recognised(msgs[0]) && ((!IsPriv(msgs[0]) && IsPart(msgs[0])) || AllRecognised(UntilPart(msgs[1..])))
  {
    hide IsPriv, IsPart, IsTopic;
    if !(!IsPriv(msgs[0]) && IsPart(msgs[0])) {
      var rest := UntilPart(msgs[1..]);
      assert UntilPart(msgs) == [msgs[0]] + rest;
      assert forall m :: m in [msgs[0]] + rest <==> m == msgs[0] || m in rest;
    }
  }

  /** Handling a queue throws exactly when an unrecognised message comes before the first PART. */
  lemma {:induction false} ThrowsExactlyWhenUnrecognised(r: Room, e: Endpoint, msgs: seq<string>)
    requires RoomOk(r, |r.users|) && Has(r.users, e) && NoDup(r.socks)
    ensures HandleQueue(r, e, msgs).None? <==> !AllRecognised(UntilPart(msgs))
    decreases |msgs|
  {
    hide RoomOk, Effect, IsPriv, IsPart, IsTopic, Has, AllRecognised;
    if msgs == [] {
      assert AllRecognised([]) by {
        NoneUnrecognised();
      }
    } else {
      RecognisedStep(msgs);
      MsgEffect(r, e, msgs[0]);
      MsgKeepsRoom(r, e, msgs[0]);
      match HandleMsg(r, e, msgs[0])
      case None =>
      case Some(m) =>
        MsgRecognised(r, e, msgs[0]);
        EffectIsSockSafe(r, m, e, [msgs[0]]);
        assert HandleQueue(r, e, msgs) == HandleQueue(m, e, msgs[1..]);
        if Has(m.users, e) {
          ThrowsExactlyWhenUnrecognised(m, e, msgs[1..]);
        }
    }
  }

  lemma NoneUnrecognised()
    ensures AllRecognised([])
  {
  }

  lemma MsgRecognised(r: Room, e: Endpoint, msg: string)
    requires Has(r.users, e) && HandleMsg(r, e, msg).Some?
    ensures Recognised(msg)
  {
    hide HandlePriv, HandlePart, HandleTopic;
  }

  /** The loop's lookups all succeed exactly when no message follows a PART, or the loop throws before it comes to one. */
  lemma {:induction false} SafeExactlyWhenPartLast(r: Room, e: Endpoint, msgs: seq<string>)
    requires RoomOk(r, |r.users|) && Has(r.users, e) && NoDup(r.socks)
    ensures LookupsSafe(r, e, msgs) <==> PartLast(msgs) || !AllRecognised(UntilPart(msgs))
    decreases |msgs|
  {
    hide RoomOk, Effect, IsPriv, IsPart, IsTopic, Has, AllRecognised;
    if msgs != [] {
      RecognisedStep(msgs);
      PartLastStep(msgs);
      MsgEffect(r, e, msgs[0]);
      MsgKeepsRoom(r, e, msgs[0]);
      match HandleMsg(r, e, msgs[0])
      case None =>
      case Some(m) =>
        MsgRecognised(r, e, msgs[0]);
        EffectIsSockSafe(r, m, e, [msgs[0]]);
        if Has(m.users, e) {
          SafeExactlyWhenPartLast(m, e, msgs[1..]);
        }
    }
  }
}
