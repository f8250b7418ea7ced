/** The websocket endpoint of the chat server (server.py:193-226): a
    handshake, a loop that dispatches each inbound frame on its type, and a
    `finally` that removes the session's name. The endpoint's socket is the
    connection c; what the client sends arrives as a sequence of events. */
module ChatEndpoint {
  import opened Wrappers
  import opened Text
  import opened Dicts
  import opened Wire
  import opened Registry
  import opened ChatServer

  /** What one receive_text() yields: a JSON object, text that json.loads
      rejects or that is not an object, or the client having gone away. */
  datatype Inbound = Received(frame: Frame) | Garbled | Closed

  /** An inbound item and the clock reading when it arrives. */
  datatype Event = Event(at: Time, input: Inbound)

  /** How a session ends, as far as the given events take it. */
  datatype Outcome =
    | Refused               // no join: timeout, garbage, closed, or another type
    | Taken(name: string)   // the name was in use; the finally still ran
    | Ended(name: string)   // the session ran and its finally ran
    | Waiting(name: string) // the events ran out with the session still open

  /** The name a join registers: the one it carries, or User_{n+1} where n
      is the number of registered names. */
  function JoinName(f: Frame, registered: nat): (name: string)
    ensures f.username.Some? ==> name == f.username.value
    ensures f.username.None?
      ==> |name| > 5 && name[..5] == "User_" && IsDecimal(name[5..]) && DecimalValue(name[5..]) == registered + 1
  {
    var fallback := "User_" + NatToString(registered + 1);
    assert fallback[..5] == "User_" && fallback[5..] == NatToString(registered + 1);
    DecimalRoundTrip(registered + 1);
    f.username.GetOr(fallback)
  }

  /** The first receive carries a join frame. */
  predicate IsJoin(first: Option<Inbound>)
  {
    first.Some? && first.value.Received? && IsKind(first.value.frame, "join")
  }

  /** The Flowey answer to a "flowey" frame, sent as a chat from "Flowey";
      ai stands for get_flowey_response, which never raises. */
  function FloweyAnswer(f: Frame, name: string, now: Time, ai: (string, string) -> string): Frame
  {
    ChatFrom("Flowey", ai(f.message.GetOr(""), name), now)
  }

  /** The frame types the active loop acts on. */
  predicate Handled(f: Frame)
  {
    IsKind(f, "chat") || IsKind(f, "flowey") || IsKind(f, "typing") || IsKind(f, "pong") || IsKind(f, "leave")
  }

  /** Deliveries made by a relay of f that excluded n, followed by a typing
      update: n never receives f when f is not itself a notice. */
  lemma RelayNotEchoed(o0: seq<Delivery>, o1: seq<Delivery>, o2: seq<Delivery>,
                       snapshot: Dict<Conn>, n: string, broken: set<Conn>, f: Frame)
    requires !IsEvictionNotice(f)
    requires Extends(o0, o1) && Extends(o1, o2)
    requires AllLegit(o1[|o0|..], snapshot, Some(n), broken, f)
    requires forall d :: d in o2[|o1|..] ==> IsEvictionNotice(d.frame)
    ensures Extends(o0, o2)
    ensures forall x :: x in o1[|o0|..] ==> x in o2[|o0|..]
    ensures forall d :: d in o2[|o0|..] && d.frame == f ==> d.user != n
  {
    ExtendsSince(o1, o2, |o0|);
    ExtendsTrans(o0, o1, o2);
  }

  lemma ReachedGrows(a: seq<Delivery>, b: seq<Delivery>, snapshot: Dict<Conn>, exclude: Option<string>,
                     broken: set<Conn>, m: Frame)
    requires Reached(a, snapshot, exclude, broken, m)
    requires forall x :: x in a ==> x in b
    ensures Reached(b, snapshot, exclude, broken, m)
  {
  }

  /** Two sends in a row leave the outbox ending in those two deliveries. */
  lemma SentTwo(o: seq<Delivery>, x: Delivery, y: Delivery)
    ensures Extends(o, o + [x] + [y])
    ensures |o + [x] + [y]| >= 2 && (o + [x] + [y])[|o + [x] + [y]| - 2..] == [x, y]
  {
    assert (o + [x] + [y])[..|o|] == o;
  }

  /** The welcome and the roster sent to a newly connected name
      (server.py:206-207); the second send is only tried when the first went
      through, and both go over the same transport. */
  method Welcome(mgr: ConnectionManager, c: Conn, n: string, now: Time) returns (proceed: bool)
    modifies mgr`outbox
    ensures proceed == (c !in mgr.broken)
    ensures mgr.outbox == old(mgr.outbox)
              + (if proceed then [Delivery(n, c, ChatFrom("System", "Welcome, " + n + "!", now)),
                                  Delivery(n, c, UserList(mgr.users.order))] else [])
  {
    var welcome := ChatFrom("System", "Welcome, " + n + "!", now);
    proceed := mgr.Send(n, c, welcome);
    if proceed {
      var roster := UserList(mgr.users.order);
      proceed := mgr.Send(n, c, roster);
      assert mgr.outbox == old(mgr.outbox) + [Delivery(n, c, welcome), Delivery(n, c, roster)];
    }
  }

  /** A free name is connected (server.py:205), then sent the welcome and
      the roster; proceed says whether both sends went through, that is
      whether the transport works. */
  method Admit(mgr: ConnectionManager, c: Conn, n: string, now: Time) returns (proceed: bool)
    requires mgr.Valid()
    modifies mgr`active, mgr`users, mgr`pingTasks, mgr`typing, mgr`cancelled, mgr`outbox, mgr`tasksStarted
    ensures mgr.Valid()
    ensures proceed == (c !in mgr.broken)
    ensures var joined := Joined(old(mgr.Regs()), n, c, now, old(mgr.tasksStarted));
      mgr.Regs() == Evict(joined, BrokenIn(joined.active, mgr.broken))
    ensures Extends(old(mgr.outbox), mgr.outbox)
    ensures proceed ==>
              (&& |mgr.outbox| >= 2
               && mgr.outbox[|mgr.outbox| - 2..] == [Delivery(n, c, ChatFrom("System", "Welcome, " + n + "!", now)),
                                                     Delivery(n, c, UserList(mgr.users.order))])
  {
    mgr.Connect(c, n, now);
    ghost var r1, o1 := mgr.Regs(), mgr.outbox;
    proceed := Welcome(mgr, c, n, now);
    assert mgr.Regs() == r1;
    var welcome := Delivery(n, c, ChatFrom("System", "Welcome, " + n + "!", now));
    var roster := Delivery(n, c, UserList(mgr.users.order));
    if proceed {
      SentTwo(o1, welcome, roster);
      assert mgr.outbox == o1 + [welcome] + [roster];
    } else {
      assert mgr.outbox == o1;
    }
    ExtendsTrans(old(mgr.outbox), o1, mgr.outbox);
  }

  /** The handshake (server.py:197-208): wait for the first frame; only a
      join is accepted. A name already connected gets an error frame and
      the socket is closed; otherwise the name is connected and welcomed,
      and told the roster. proceed says whether the active loop starts. */
  method Handshake(mgr: ConnectionManager, c: Conn, first: Option<Inbound>, now: Time)
    returns (name: Option<string>, taken: bool, proceed: bool)
    requires mgr.Valid()
    modifies mgr`active, mgr`users, mgr`pingTasks, mgr`typing, mgr`cancelled, mgr`outbox, mgr`tasksStarted
    ensures mgr.Valid()
    ensures name.Some? <==> IsJoin(first)
    ensures name.None? ==> !proceed && mgr.Regs() == old(mgr.Regs()) && mgr.outbox == old(mgr.outbox)
    ensures name.Some? ==> name.value == JoinName(first.value.frame, |old(mgr.users.order)|)
    ensures taken <==> name.Some? && name.value in old(mgr.active.entries)
    ensures taken
      ==> !proceed && mgr.Regs() == old(mgr.Regs())
          && mgr.outbox == old(mgr.outbox) + (if c in mgr.broken then [] else [Delivery(name.value, c, ErrorFrame("Username taken."))])
    ensures name.Some? && name.value !in old(mgr.active.entries)
      ==> proceed == (c !in mgr.broken)
          && (var joined := Joined(old(mgr.Regs()), name.value, c, now, old(mgr.tasksStarted));
              mgr.Regs() == Evict(joined, BrokenIn(joined.active, mgr.broken)))
    ensures Extends(old(mgr.outbox), mgr.outbox)
    ensures proceed ==>
              (&& |mgr.outbox| >= 2
               && mgr.outbox[|mgr.outbox| - 2..] == [Delivery(name.value, c, ChatFrom("System", "Welcome, " + name.value + "!", now)),
                                                     Delivery(name.value, c, UserList(mgr.users.order))])
  {
    name, taken, proceed := None, false, false;
    if !IsJoin(first) {
      return;
    }
    var n := JoinName(first.value.frame, |mgr.users.order|);
    name := Some(n);
    if n in mgr.active.entries {
      taken := true;
      var _ := mgr.Send(n, c, ErrorFrame("Username taken."));
      return;
    }
    proceed := Admit(mgr, c, n, now);
  }

  /** A broadcast of m followed by clearing n's typing flag, as the chat and
      flowey branches do (server.py:213, server.py:215-217). When a name is
      excluded and m is not a notice, the excluded name never receives m. */
  method Relay(mgr: ConnectionManager, n: string, m: Frame, exclude: Option<string>, now: Time)
    requires mgr.Valid()
    modifies mgr`active, mgr`users, mgr`pingTasks, mgr`typing, mgr`cancelled, mgr`outbox
    ensures mgr.Valid()
    ensures Extends(old(mgr.outbox), mgr.outbox)
    ensures Reached(mgr.outbox[|old(mgr.outbox)|..], old(mgr.active), exclude, mgr.broken, m)
    ensures exclude.Some? && !IsEvictionNotice(m)
      ==> forall d :: d in mgr.outbox[|old(mgr.outbox)|..] && d.frame == m ==> d.user != exclude.value
    ensures n !in mgr.typing.entries
  {
    ghost var o0, a0 := mgr.outbox, mgr.active;
    mgr.Broadcast(m, exclude, now);
    ghost var o1 := mgr.outbox;
    var _ := mgr.UpdateTypingStatus(n, false, now);
    ExtendsSince(o1, mgr.outbox, |o0|);
    ExtendsTrans(o0, o1, mgr.outbox);
    if exclude.Some? && !IsEvictionNotice(m) {
      RelayNotEchoed(o0, o1, mgr.outbox, a0, exclude.value, mgr.broken, m);
    }
    ReachedGrows(o1[|o0|..], mgr.outbox[|o0|..], a0, exclude, mgr.broken, m);
  }

  /** One pass of the active loop (server.py:211-223) for the frame f from
      the session's name n: a chat is relayed verbatim to everyone else and
      clears n's typing flag; a flowey question is answered to everyone;
      typing sets the flag; pong refreshes last_pong; leave stops the loop;
      any other type is ignored. */
  method Dispatch(mgr: ConnectionManager, n: string, f: Frame, now: Time, ai: (string, string) -> string)
    returns (stop: bool)
    requires mgr.Valid()
    modifies mgr`active, mgr`users, mgr`pingTasks, mgr`typing, mgr`cancelled, mgr`outbox
    ensures mgr.Valid()
    ensures stop <==> IsKind(f, "leave")
    ensures Extends(old(mgr.outbox), mgr.outbox)
    ensures IsKind(f, "chat")
      ==> Reached(mgr.outbox[|old(mgr.outbox)|..], old(mgr.active), Some(n), mgr.broken, f)
          && (forall d :: d in mgr.outbox[|old(mgr.outbox)|..] && d.frame == f ==> d.user != n)
          && n !in mgr.typing.entries
    ensures IsKind(f, "flowey")
      ==> Reached(mgr.outbox[|old(mgr.outbox)|..], old(mgr.active), None, mgr.broken, FloweyAnswer(f, n, now, ai))
          && n !in mgr.typing.entries
    ensures IsKind(f, "typing")
      ==> mgr.Regs() == Evict(WithTyping(old(mgr.Regs()), n, true, now),
                              if TypingChanges(old(mgr.Regs()), n, true) then old(mgr.BrokenActive()) else {})
    ensures IsKind(f, "pong")
      ==> mgr.outbox == old(mgr.outbox) && mgr.active == old(mgr.active) && mgr.users.order == old(mgr.users.order)
          && (n in old(mgr.users.entries) ==> mgr.users.entries == old(mgr.users.entries)[n := old(mgr.users.entries[n]).(lastPong := now)])
          && (n !in old(mgr.users.entries) ==> mgr.users == old(mgr.users))
    ensures !Handled(f) || IsKind(f, "leave") ==> mgr.Regs() == old(mgr.Regs()) && mgr.outbox == old(mgr.outbox)
  {
    stop := false;
    if IsKind(f, "chat") {
      Relay(mgr, n, f, Some(n), now);
    } else if IsKind(f, "flowey") {
      Relay(mgr, n, FloweyAnswer(f, n, now, ai), None, now);
    } else if IsKind(f, "typing") {
      var _ := mgr.UpdateTypingStatus(n, true, now);
    } else if IsKind(f, "pong") {
      mgr.Pong(n, now);
    } else if IsKind(f, "leave") {
      stop := true;
    }
  }

  /** An event that keeps the active loop going: a JSON object other than
      a leave. */
  predicate Stays(e: Event)
  {
    e.input.Received? && !IsKind(e.input.frame, "leave")
  }

  lemma StaysStep(events: seq<Event>, i: nat)
    requires i < |events| && Stays(events[i])
    requires forall j :: 0 <= j < i ==> Stays(events[j])
    ensures forall j :: 0 <= j < i + 1 ==> Stays(events[j])
  {
  }

  /** The active loop (server.py:210-223) over the given events: ended says
      whether it stopped (leave, garbage or a closed socket), and then at is
      the time of the first event that does not keep it going; otherwise
      every event kept it going. */
  method Session(mgr: ConnectionManager, n: string, start: Time, events: seq<Event>,
                 ai: (string, string) -> string)
    returns (ended: bool, at: Time)
    requires mgr.Valid()
    modifies mgr`active, mgr`users, mgr`pingTasks, mgr`typing, mgr`cancelled, mgr`outbox
    ensures mgr.Valid()
    ensures Extends(old(mgr.outbox), mgr.outbox)
    ensures !ended ==> forall j :: 0 <= j < |events| ==> Stays(events[j])
    ensures ended ==> exists j :: 0 <= j < |events| && !Stays(events[j]) && at == events[j].at
                                  && forall k :: 0 <= k < j ==> Stays(events[k])
  {
    ended, at := false, start;
    var i := 0;
    while i < |events| && !ended
      invariant mgr.Valid()
      invariant 0 <= i <= |events|
      invariant Extends(old(mgr.outbox), mgr.outbox)
      invariant !ended ==> forall j :: 0 <= j < i ==> Stays(events[j])
      invariant ended ==> 0 < i && !Stays(events[i - 1]) && at == events[i - 1].at
                          && forall k :: 0 <= k < i - 1 ==> Stays(events[k])
    {
      at := events[i].at;
      match events[i].input {
        case Received(f) =>
          ghost var o := mgr.outbox;
          ended := Dispatch(mgr, n, f, at, ai);
          ExtendsTrans(old(mgr.outbox), o, mgr.outbox);
          if !ended {
            StaysStep(events, i);
          }
        case Garbled =>
          ended := true;
        case Closed =>
          ended := true;
      }
      i := i + 1;
    }
  }

  /** The endpoint's finally (server.py:225-226): a non-empty name is
      removed; an empty one is falsy and left alone. */
  method Farewell(mgr: ConnectionManager, n: string, now: Time)
    requires mgr.Valid()
    modifies mgr`active, mgr`users, mgr`pingTasks, mgr`typing, mgr`cancelled, mgr`outbox
    ensures mgr.Valid()
    ensures n != "" ==> n !in mgr.active.entries && n !in mgr.users.entries
    ensures n == "" ==> mgr.Regs() == old(mgr.Regs()) && mgr.outbox == old(mgr.outbox)
  {
    if n != "" {
      mgr.RemoveConnection(n, now);
    }
  }

  /** websocket_endpoint (server.py:193-226): the handshake, then one
      dispatch per event until the client leaves, goes away or sends
      something that is not a JSON object; then the finally removes the
      session's name, unless the name is empty. A rejected join runs that
      finally too, with the name that was taken, so the user holding it is
      evicted. */
  method Serve(mgr: ConnectionManager, c: Conn, first: Option<Inbound>, joinAt: Time, events: seq<Event>,
               ai: (string, string) -> string)
    returns (outcome: Outcome)
    requires mgr.Valid()
    modifies mgr`active, mgr`users, mgr`pingTasks, mgr`typing, mgr`cancelled, mgr`outbox, mgr`tasksStarted
    ensures mgr.Valid()
    ensures outcome.Refused? <==> !IsJoin(first)
    ensures outcome.Refused? ==> mgr.Regs() == old(mgr.Regs()) && mgr.outbox == old(mgr.outbox)
    ensures !outcome.Refused? ==> outcome.name == JoinName(first.value.frame, |old(mgr.users.order)|)
    ensures outcome.Taken? <==> IsJoin(first) && outcome.name in old(mgr.active.entries)
    ensures outcome == Taken("") ==> mgr.Regs() == old(mgr.Regs())
    ensures (outcome.Taken? || outcome.Ended?) && outcome.name != ""
      ==> outcome.name !in mgr.active.entries && outcome.name !in mgr.users.entries
    ensures outcome.Waiting? ==> c !in mgr.broken && forall i :: 0 <= i < |events| ==> Stays(events[i])
  {
    var name, taken, proceed := Handshake(mgr, c, first, joinAt);
    if name.None? {
      return Refused;
    }
    var n := name.value;
    if !proceed {
      outcome := if taken then Taken(n) else Ended(n);
      Farewell(mgr, n, joinAt);
      return;
    }
    var ended, at := Session(mgr, n, joinAt, events, ai);
    if ended {
      Farewell(mgr, n, at);
      return Ended(n);
    }
    return Waiting(n);
  }
}
