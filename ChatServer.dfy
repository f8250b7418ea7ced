/** The chat server's ConnectionManager (server.py:32-119): four dicts keyed
    by username, updated in place, and the broadcasts that write frames to
    every connection. Each operation runs to completion before another
    starts; the network is an outbox of deliveries, and a connection whose
    transport fails is one in `broken`, on which every send raises. */
module ChatServer {
  import opened Wrappers
  import opened Dicts
  import opened Wire
  import opened Registry

  /** b starts with a. */
  predicate Extends(a: seq<Delivery>, b: seq<Delivery>)
  {
    |a| <= |b| && b[..|a|] == a
  }

  /** Every name of the snapshot except the excluded one, whose transport
      works, was sent m over its own connection. */
  ghost predicate Reached(sent: seq<Delivery>, snapshot: Dict<Conn>, exclude: Option<string>, broken: set<Conn>, m: Frame)
  {
    forall u :: u in snapshot.entries && Some(u) != exclude && snapshot.entries[u] !in broken
      ==> Delivery(u, snapshot.entries[u], m) in sent
  }

  /** A delivery made during a broadcast of m: it went over a working
      transport and is either m to a name of the snapshot other than the
      excluded one, or a notice sent because somebody was evicted. */
  ghost predicate Legit(d: Delivery, snapshot: Dict<Conn>, exclude: Option<string>, broken: set<Conn>, m: Frame)
  {
    && d.conn !in broken
    && (IsEvictionNotice(d.frame)
        || (d.frame == m && d.user in snapshot.entries && d.conn == snapshot.entries[d.user]
            && Some(d.user) != exclude))
  }

  lemma ExtendsSince(a: seq<Delivery>, b: seq<Delivery>, n: nat)
    requires n <= |a| && Extends(a, b)
    ensures forall x :: x in a[n..] ==> x in b[n..]
    ensures forall x :: x in b[n..] ==> x in a[n..] || x in b[|a|..]
  {
    forall x | x in b[n..] ensures x in a[n..] || x in b[|a|..] {
      var k :| n <= k < |b| && b[k] == x;
      if k < |a| {
        assert a[k] == x;
      } else {
        assert b[|a|..][k - |a|] == x;
      }
    }
    forall x | x in a[n..] ensures x in b[n..] {
      var k :| n <= k < |a| && a[k] == x;
      assert b[k] == x;
    }
  }

  lemma ExtendsTrans(a: seq<Delivery>, b: seq<Delivery>, c: seq<Delivery>)
    requires Extends(a, b) && Extends(b, c)
    ensures Extends(a, c)
  {
    assert c[..|a|] == c[..|b|][..|a|];
  }

  lemma ExtendsSplit(a: seq<Delivery>, b: seq<Delivery>)
    requires Extends(a, b)
    ensures b == a + b[|a|..]
  {
    assert b == b[..|a|] + b[|a|..];
  }

  lemma AppendGrows(base: seq<Delivery>, sent: seq<Delivery>, more: seq<Delivery>)
    ensures base + sent + more == base + (sent + more)
  {
  }

  /** Every name of names, other than the excluded one, that has a working
      transport in conns was sent m over it. */
  ghost predicate Covers(sent: seq<Delivery>, names: seq<string>, conns: map<string, Conn>,
                         exclude: Option<string>, broken: set<Conn>, m: Frame)
  {
    forall u :: u in names && u in conns && Some(u) != exclude && conns[u] !in broken
      ==> Delivery(u, conns[u], m) in sent
  }

  lemma CoversStep(sent: seq<Delivery>, more: seq<Delivery>, names: seq<string>, u: string,
                   conns: map<string, Conn>, exclude: Option<string>, broken: set<Conn>, m: Frame)
    requires Covers(sent, names, conns, exclude, broken, m)
    requires u in conns && Some(u) != exclude && conns[u] !in broken ==> Delivery(u, conns[u], m) in more
    ensures Covers(sent + more, names + [u], conns, exclude, broken, m)
  {
    forall v | v in names + [u] && v in conns && Some(v) != exclude && conns[v] !in broken
      ensures Delivery(v, conns[v], m) in sent + more
    {
      if v != u {
        assert v in names;
      }
    }
  }

  lemma CoversReached(sent: seq<Delivery>, snapshot: Dict<Conn>, exclude: Option<string>, broken: set<Conn>, m: Frame)
    requires snapshot.Valid()
    requires Covers(sent, snapshot.order, snapshot.entries, exclude, broken, m)
    ensures Reached(sent, snapshot, exclude, broken, m)
  {
  }

  /** No name of names other than the excluded one has a failing transport. */
  ghost predicate Unbroken(names: seq<string>, conns: map<string, Conn>, exclude: Option<string>, broken: set<Conn>)
  {
    forall u :: u in names && u in conns && Some(u) != exclude ==> conns[u] !in broken
  }

  lemma UnbrokenStep(names: seq<string>, u: string, conns: map<string, Conn>, exclude: Option<string>, broken: set<Conn>)
    requires Unbroken(names, conns, exclude, broken)
    requires u in conns && Some(u) != exclude ==> conns[u] !in broken
    ensures Unbroken(names + [u], conns, exclude, broken)
  {
    forall v | v in names + [u] && v in conns && Some(v) != exclude ensures conns[v] !in broken {
      if v != u {
        assert v in names;
      }
    }
  }

  lemma UnbrokenSpared(snapshot: Dict<Conn>, exclude: Option<string>, broken: set<Conn>)
    requires snapshot.Valid()
    requires Unbroken(snapshot.order, snapshot.entries, exclude, broken)
    ensures BrokenIn(snapshot, broken) <= ExcludeSet(exclude)
  {
  }

  /** Every delivery of sent is legitimate for a broadcast of m. */
  ghost predicate AllLegit(sent: seq<Delivery>, snapshot: Dict<Conn>, exclude: Option<string>, broken: set<Conn>, m: Frame)
  {
    forall d :: d in sent ==> Legit(d, snapshot, exclude, broken, m)
  }

  /** A broadcast of a notice writes notices only. */
  lemma LegitNotices(sent: seq<Delivery>, snapshot: Dict<Conn>, exclude: Option<string>, broken: set<Conn>, m: Frame)
    requires AllLegit(sent, snapshot, exclude, broken, m) && IsEvictionNotice(m)
    ensures forall d :: d in sent ==> IsEvictionNotice(d.frame)
  {
  }

  lemma AllLegitAppend(a: seq<Delivery>, b: seq<Delivery>, snapshot: Dict<Conn>, exclude: Option<string>, broken: set<Conn>, m: Frame)
    requires AllLegit(a, snapshot, exclude, broken, m) && AllLegit(b, snapshot, exclude, broken, m)
    ensures AllLegit(a + b, snapshot, exclude, broken, m)
  {
  }

  /** Where a broadcast of m that started from r0 stands after the first i
      names of its snapshot: reg is the registry now and sent what it wrote.
      Until a send fails nothing is evicted, and what was written is exactly
      the fanout to those names; after the first failure every name that was
      failing at the start has been evicted. */
  ghost predicate Progress(r0: Registry, exclude: Option<string>, broken: set<Conn>, m: Frame,
                           i: nat, failed: bool, reg: Registry, sent: seq<Delivery>)
  {
    var snapshot := r0.active;
    var ba0 := BrokenIn(snapshot, broken);
    && Coherent(r0)
    && i <= |snapshot.order|
    && (failed ==> reg == Evict(r0, ba0) && !(ba0 <= ExcludeSet(exclude)))
    && (!failed ==> reg == r0 && Unbroken(snapshot.order[..i], snapshot.entries, exclude, broken))
    && (!failed ==> sent == Fanout(snapshot.order[..i], snapshot.entries, exclude, m))
    && Covers(sent, snapshot.order[..i], snapshot.entries, exclude, broken, m)
    && AllLegit(sent, snapshot, exclude, broken, m)
  }

  lemma ProgressStart(r0: Registry, exclude: Option<string>, broken: set<Conn>, m: Frame)
    requires Coherent(r0)
    ensures Progress(r0, exclude, broken, m, 0, false, r0, [])
  {
    assert r0.active.order[..0] == [];
  }

  /** The name at position i is the excluded one: nothing is sent. */
  lemma ProgressSkip(r0: Registry, exclude: Option<string>, broken: set<Conn>, m: Frame,
                     i: nat, failed: bool, reg: Registry, sent: seq<Delivery>)
    requires Progress(r0, exclude, broken, m, i, failed, reg, sent)
    requires i < |r0.active.order| && Some(r0.active.order[i]) == exclude
    ensures Progress(r0, exclude, broken, m, i + 1, failed, reg, sent)
  {
    var order, conns := r0.active.order, r0.active.entries;
    var u := order[i];
    assert order[..i + 1] == order[..i] + [u];
    CoversStep(sent, [], order[..i], u, conns, exclude, broken, m);
    assert sent + [] == sent;
    if !failed {
      UnbrokenStep(order[..i], u, conns, exclude, broken);
      FanoutSnoc(order[..i], conns, exclude, m, u);
    }
  }

  /** The send to the name at position i succeeds. */
  lemma ProgressSent(r0: Registry, exclude: Option<string>, broken: set<Conn>, m: Frame,
                     i: nat, failed: bool, reg: Registry, sent: seq<Delivery>)
    requires Progress(r0, exclude, broken, m, i, failed, reg, sent)
    requires i < |r0.active.order| && Some(r0.active.order[i]) != exclude
    requires r0.active.order[i] in r0.active.entries && r0.active.entries[r0.active.order[i]] !in broken
    ensures Progress(r0, exclude, broken, m, i + 1, failed, reg,
                     sent + [Delivery(r0.active.order[i], r0.active.entries[r0.active.order[i]], m)])
  {
    var order, conns := r0.active.order, r0.active.entries;
    var u := order[i];
    var d := Delivery(u, conns[u], m);
    assert order[..i + 1] == order[..i] + [u];
    CoversStep(sent, [d], order[..i], u, conns, exclude, broken, m);
    AllLegitAppend(sent, [d], r0.active, exclude, broken, m);
    if !failed {
      UnbrokenStep(order[..i], u, conns, exclude, broken);
      FanoutSnoc(order[..i], conns, exclude, m, u);
    }
  }

  /** The send to the name at position i fails, and removing that name
      evicts it together with every name then failing, writing only
      eviction notices over working transports. */
  lemma ProgressFailed(r0: Registry, exclude: Option<string>, broken: set<Conn>, m: Frame,
                       i: nat, failed: bool, reg: Registry, sent: seq<Delivery>,
                       reg': Registry, more: seq<Delivery>)
    requires Progress(r0, exclude, broken, m, i, failed, reg, sent)
    requires i < |r0.active.order| && Some(r0.active.order[i]) != exclude
    requires r0.active.order[i] in r0.active.entries && r0.active.entries[r0.active.order[i]] in broken
    requires reg' == Evict(reg, {r0.active.order[i]} + BrokenIn(reg.active, broken))
    requires forall d :: d in more ==> d.conn !in broken && IsEvictionNotice(d.frame)
    ensures Progress(r0, exclude, broken, m, i + 1, true, reg', sent + more)
  {
    var order, conns := r0.active.order, r0.active.entries;
    var u := order[i];
    assert order[..i + 1] == order[..i] + [u];
    FailedSendStep(r0, reg, u, broken, failed);
    assert u in BrokenIn(r0.active, broken) - ExcludeSet(exclude);
    CoversStep(sent, more, order[..i], u, conns, exclude, broken, m);
    AllLegitAppend(sent, more, r0.active, exclude, broken, m);
  }

  /** One send of the snapshot, successful or not: from the registry rb and
      the writes before it stood at, to ra and after, the state SendOrRemove
      leaves behind. */
  lemma ProgressStep(r0: Registry, exclude: Option<string>, broken: set<Conn>, m: Frame,
                     i: nat, failed: bool, rb: Registry, sent: seq<Delivery>,
                     out0: seq<Delivery>, before: seq<Delivery>, after: seq<Delivery>, ra: Registry, c: Conn)
    requires Progress(r0, exclude, broken, m, i, failed, rb, sent)
    requires i < |r0.active.order| && Some(r0.active.order[i]) != exclude
    requires r0.active.order[i] in r0.active.entries && c == r0.active.entries[r0.active.order[i]]
    requires before == out0 + sent
    requires c !in broken ==> ra == rb && after == before + [Delivery(r0.active.order[i], c, m)]
    requires c in broken ==> ra == Evict(rb, {r0.active.order[i]} + BrokenIn(rb.active, broken))
    requires Extends(before, after)
    requires c in broken ==> forall d :: d in after[|before|..] ==> d.conn !in broken && IsEvictionNotice(d.frame)
    ensures after == out0 + (sent + after[|before|..])
    ensures Progress(r0, exclude, broken, m, i + 1, failed || c in broken, ra, sent + after[|before|..])
  {
    var u := r0.active.order[i];
    ExtendsSplit(before, after);
    AppendGrows(out0, sent, after[|before|..]);
    if c !in broken {
      assert after[|before|..] == [Delivery(u, c, m)];
      ProgressSent(r0, exclude, broken, m, i, failed, rb, sent);
    } else {
      ProgressFailed(r0, exclude, broken, m, i, failed, rb, sent, ra, after[|before|..]);
    }
  }

  /** After the whole snapshot: the registry lost exactly the casualties,
      every working name was reached, and without casualties the writes are
      exactly the fanout. */
  lemma ProgressDone(r0: Registry, exclude: Option<string>, broken: set<Conn>, m: Frame,
                     failed: bool, reg: Registry, sent: seq<Delivery>)
    requires Progress(r0, exclude, broken, m, |r0.active.order|, failed, reg, sent)
    ensures reg == Evict(r0, Casualties(BrokenIn(r0.active, broken), exclude))
    ensures Reached(sent, r0.active, exclude, broken, m)
    ensures AllLegit(sent, r0.active, exclude, broken, m)
    ensures Casualties(BrokenIn(r0.active, broken), exclude) == {}
      ==> sent == Fanout(r0.active.order, r0.active.entries, exclude, m)
  {
    assert r0.active.order[..|r0.active.order|] == r0.active.order;
    CoversReached(sent, r0.active, exclude, broken, m);
    CasualtiesCases(BrokenIn(r0.active, broken), exclude);
    if !failed {
      UnbrokenSpared(r0.active, exclude, broken);
      EvictNothing(r0);
    }
  }

  /** Every name of conns was sent left within the first k deliveries of
      sent, and typing after them. */
  ghost predicate HeardInTurn(sent: seq<Delivery>, k: nat, conns: map<string, Conn>, left: Frame, typing: Frame)
    requires k <= |sent|
  {
    forall u :: u in conns ==> Delivery(u, conns[u], left) in sent[..k] && Delivery(u, conns[u], typing) in sent[k..]
  }

  /** Every name of conns was sent left over its connection and, later in
      sent, typing. */
  ghost predicate HeardDeparture(sent: seq<Delivery>, conns: map<string, Conn>, left: Frame, typing: Frame)
  {
    exists k: nat :: k <= |sent| && HeardInTurn(sent, k, conns, left, typing)
  }

  /** What remove_connection writes, from what its two broadcasts wrote:
      out0 before, out2 after the user_left event from r1, out3 after the
      typing roster. Only notices go out, over working transports, and every
      name still connected at the end heard of the departure and then got
      the typing roster. */
  lemma RemovalNotices(out0: seq<Delivery>, out2: seq<Delivery>, out3: seq<Delivery>,
                       r1: Registry, r2: Registry, left: Frame, typing: Frame, broken: set<Conn>)
    requires IsKind(left, "user_left") && IsKind(typing, "typing_status")
    requires Extends(out0, out2) && Extends(out2, out3)
    requires Reached(out2[|out0|..], r1.active, None, broken, left)
    requires AllLegit(out2[|out0|..], r1.active, None, broken, left)
    requires Reached(out3[|out2|..], r2.active, None, broken, typing)
    requires AllLegit(out3[|out2|..], r2.active, None, broken, typing)
    requires r2 == Evict(r1, BrokenIn(r1.active, broken))
    ensures Extends(out0, out3)
    ensures forall d :: d in out3[|out0|..] ==> d.conn !in broken && IsEvictionNotice(d.frame)
    ensures HeardDeparture(out3[|out0|..], r2.active.entries, left, typing)
  {
    ExtendsSince(out2, out3, |out0|);
    ExtendsTrans(out0, out2, out3);
    forall d | d in out3[|out0|..] ensures d.conn !in broken && IsEvictionNotice(d.frame) {
      if d !in out2[|out0|..] {
        assert d in out3[|out2|..];
      }
    }
    var sent := out3[|out0|..];
    var k := |out2| - |out0|;
    assert sent[..k] == out2[|out0|..];
    assert sent[k..] == out3[|out2|..];
    forall u | u in r2.active.entries
      ensures Delivery(u, r2.active.entries[u], left) in sent[..k]
      ensures Delivery(u, r2.active.entries[u], typing) in sent[k..]
    {
      assert u in r1.active.entries && r1.active.entries[u] !in broken;
    }
    assert HeardInTurn(sent, k, r2.active.entries, left, typing);
  }

  class ConnectionManager {
    var active: Dict<Conn>
    var users: Dict<UserRecord>
    var pingTasks: map<string, TaskId>
    var typing: Dict<Time>
    /** Tasks whose cancel() was called. */
    var cancelled: set<TaskId>
    /** How many ping tasks were created; task ids are 0, 1, ... */
    var tasksStarted: nat
    /** Every frame written, in order. */
    var outbox: seq<Delivery>
    /** Connections on which a send raises; only the environment changes it. */
    var broken: set<Conn>

    ghost function Regs(): Registry
      reads this`active, this`users, this`pingTasks, this`typing, this`cancelled
    {
      Registry(active, users, pingTasks, typing, cancelled)
    }

    ghost predicate Valid()
      reads this`active, this`users, this`pingTasks, this`typing, this`cancelled
    {
      Coherent(Regs())
    }

    ghost function BrokenActive(): set<string>
      reads this`active, this`broken
    {
      BrokenIn(active, broken)
    }

    constructor ()
      ensures Valid()
      ensures active.order == [] && users.order == [] && pingTasks == map[] && typing.order == []
      ensures outbox == [] && broken == {} && cancelled == {} && tasksStarted == 0
    {
      active := Dict([], map[]);
      users := Dict([], map[]);
      pingTasks := map[];
      typing := Dict([], map[]);
      cancelled := {};
      tasksStarted := 0;
      outbox := [];
      broken := {};
    }

    /** The environment: the transport of c starts to fail. */
    method DropTransport(c: Conn)
      requires Valid()
      modifies this`broken
      ensures Valid() && broken == old(broken) + {c}
    {
      broken := broken + {c};
    }

    /** get_user_list(): the registered names, in registration order. */
    method GetUserList() returns (names: seq<string>)
      requires Valid()
      ensures forall u :: u in names <==> u in users.entries
      ensures Distinct(names) && names == active.order
    {
      names := users.order;
    }

    /** disconnect(username) (server.py:53-58): deletes the name from the
        four dicts and cancels its ping task; an absent name changes nothing. */
    method Disconnect(name: string)
      requires Valid()
      modifies this`active, this`users, this`pingTasks, this`typing, this`cancelled
      ensures Valid()
      ensures Regs() == Evict(old(Regs()), {name})
      ensures name !in active.entries && name !in users.entries
      ensures name !in pingTasks && name !in typing.entries
      ensures old(name !in active.entries && name !in typing.entries) ==> Regs() == old(Regs())
    {
      ghost var r := Regs();
      if name in pingTasks {
        cancelled := cancelled + {pingTasks[name]};
      }
      active := active.RemoveAll({name});
      users := users.RemoveAll({name});
      pingTasks := pingTasks - {name};
      typing := typing.RemoveAll({name});
      TasksOfOne(r.pingTasks, name);
      assert Regs() == Evict(r, {name});
      EvictSpec(r, {name});
      if !(name in r.active.entries || name in r.typing.entries) {
        EvictAbsent(r, {name});
      }
    }

    /** One write to one connection: a failing transport raises, which the
        caller sees as ok = false, and nothing is written. */
    method Send(user: string, c: Conn, m: Frame) returns (ok: bool)
      modifies this`outbox
      ensures ok == (c !in broken)
      ensures outbox == if ok then old(outbox) + [Delivery(user, c, m)] else old(outbox)
    {
      ok := c !in broken;
      if ok {
        outbox := outbox + [Delivery(user, c, m)];
      }
    }

    /** The body of broadcast's loop for one name (server.py:71-75): send,
        and when the send raises, remove_connection for that name. Only the
        failing path recurses, which is what the second component of the
        termination measure says. */
    method SendOrRemove(u: string, c: Conn, m: Frame, now: Time)
      requires Valid()
      modifies this`active, this`users, this`pingTasks, this`typing, this`cancelled, this`outbox
      ensures Valid()
      ensures c !in broken ==> Regs() == old(Regs()) && outbox == old(outbox) + [Delivery(u, c, m)]
      ensures c in broken ==> Regs() == Evict(old(Regs()), {u} + old(BrokenActive()))
      ensures Extends(old(outbox), outbox)
      ensures c in broken ==> forall d :: d in outbox[|old(outbox)|..] ==> d.conn !in broken && IsEvictionNotice(d.frame)
      decreases |BrokenActive() - {u}|, if c in broken then 4 else 0, 0
    {
      ghost var r := Regs();
      var ok := Send(u, c, m);
      assert Regs() == r && BrokenActive() == old(BrokenActive());
      if !ok {
        RemoveConnection(u, now);
      } else {
        assert outbox[..|old(outbox)|] == old(outbox);
      }
    }

    /** broadcast(message, exclude_user) (server.py:68-75): the message goes
        to each name of a snapshot of the connections except the excluded
        one; a send that fails runs remove_connection for that name. */
    method Broadcast(m: Frame, exclude: Option<string>, now: Time)
      requires Valid()
      modifies this`active, this`users, this`pingTasks, this`typing, this`cancelled, this`outbox
      ensures Valid()
      ensures Regs() == Evict(old(Regs()), Casualties(old(BrokenActive()), exclude))
      ensures Extends(old(outbox), outbox)
      ensures Reached(outbox[|old(outbox)|..], old(active), exclude, broken, m)
      ensures AllLegit(outbox[|old(outbox)|..], old(active), exclude, broken, m)
      ensures Casualties(old(BrokenActive()), exclude) == {}
        ==> outbox == old(outbox) + Fanout(old(active.order), old(active.entries), exclude, m)
      decreases |BrokenActive()|, 1, 0
    {
      ghost var r0 := Regs();
      ProgressStart(r0, exclude, broken, m);
      var snapshot := active.order;
      var conns := active.entries;
      ghost var failed, sent := SendAll(m, exclude, now, snapshot, conns, r0);
      ProgressDone(r0, exclude, broken, m, failed, Regs(), sent);
    }

    /** The loop of broadcast over its snapshot of the connections. */
    method SendAll(m: Frame, exclude: Option<string>, now: Time, snapshot: seq<string>, conns: map<string, Conn>,
                   ghost r0: Registry)
      returns (ghost failed: bool, ghost sent: seq<Delivery>)
      requires Valid() && r0 == Regs()
      requires snapshot == r0.active.order && conns == r0.active.entries
      requires Progress(r0, exclude, broken, m, 0, false, r0, [])
      modifies this`active, this`users, this`pingTasks, this`typing, this`cancelled, this`outbox
      ensures Valid()
      ensures outbox == old(outbox) + sent
      ensures Progress(r0, exclude, broken, m, |snapshot|, failed, Regs(), sent)
      decreases |BrokenIn(r0.active, broken)|, 0, 2
    {
      ghost var out0 := outbox;
      failed, sent := false, [];
      var i := 0;
      while i < |snapshot|
        invariant i <= |snapshot|
        invariant Valid()
        invariant outbox == out0 + sent
        invariant Progress(r0, exclude, broken, m, i, failed, Regs(), sent)
      {
        failed, sent := BroadcastOne(m, exclude, now, snapshot[i], conns, r0, i, failed, out0, sent);
        i := i + 1;
      }
    }

    /** One pass of broadcast's loop (server.py:70-75): the name u at
        position i of the snapshot is skipped when it is the excluded one,
        and otherwise sent m (and removed when the send raises). */
    method BroadcastOne(m: Frame, exclude: Option<string>, now: Time, u: string, conns: map<string, Conn>,
                        ghost r0: Registry, ghost i: nat, ghost failed: bool, ghost out0: seq<Delivery>, ghost sent: seq<Delivery>)
      returns (ghost failed': bool, ghost sent': seq<Delivery>)
      requires Valid()
      requires Progress(r0, exclude, broken, m, i, failed, Regs(), sent)
      requires i < |r0.active.order| && u == r0.active.order[i] && conns == r0.active.entries
      requires outbox == out0 + sent
      modifies this`active, this`users, this`pingTasks, this`typing, this`cancelled, this`outbox
      ensures Valid()
      ensures outbox == out0 + sent'
      ensures Progress(r0, exclude, broken, m, i + 1, failed', Regs(), sent')
      decreases |BrokenIn(r0.active, broken)|, 0, 1
    {
      if Some(u) == exclude {
        ProgressSkip(r0, exclude, broken, m, i, failed, Regs(), sent);
        return failed, sent;
      }
      assert u in r0.active.order;
      var c := conns[u];
      ghost var before := outbox;
      ghost var rb := Regs();
      BrokenShrinks(r0, rb, u, broken, failed);
      SendOrRemove(u, c, m, now);
      ProgressStep(r0, exclude, broken, m, i, failed, rb, sent, out0, before, outbox, Regs(), c);
      failed', sent' := failed || c in broken, sent + outbox[|before|..];
    }

    /** broadcast_user_event(event_type, username) (server.py:77-79): the
        event names the user and carries the current roster. */
    method BroadcastUserEvent(kind: string, who: string, now: Time)
      requires Valid()
      modifies this`active, this`users, this`pingTasks, this`typing, this`cancelled, this`outbox
      ensures Valid()
      ensures Regs() == Evict(old(Regs()), old(BrokenActive()))
      ensures Extends(old(outbox), outbox)
      ensures Reached(outbox[|old(outbox)|..], old(active), None, broken, UserEvent(kind, who, now, old(users.order)))
      ensures AllLegit(outbox[|old(outbox)|..], old(active), None, broken, UserEvent(kind, who, now, old(users.order)))
      decreases |BrokenActive()|, 2, 0
    {
      var roster := users.order;
      CasualtiesNone(BrokenActive());
      Broadcast(UserEvent(kind, who, now, roster), None, now);
    }

    /** broadcast_typing_status() (server.py:81-85): the names currently
        typing, in the order they started. */
    method BroadcastTypingStatus(now: Time)
      requires Valid()
      modifies this`active, this`users, this`pingTasks, this`typing, this`cancelled, this`outbox
      ensures Valid()
      ensures Regs() == Evict(old(Regs()), old(BrokenActive()))
      ensures Extends(old(outbox), outbox)
      ensures Reached(outbox[|old(outbox)|..], old(active), None, broken, TypingStatus(old(typing.order), now))
      ensures AllLegit(outbox[|old(outbox)|..], old(active), None, broken, TypingStatus(old(typing.order), now))
      decreases |BrokenActive()|, 2, 0
    {
      var names := typing.order;
      CasualtiesNone(BrokenActive());
      Broadcast(TypingStatus(names, now), None, now);
    }

    /** The two broadcasts that end remove_connection (server.py:100-101): a
        user_left event naming name, with the roster as it now is, then the
        typing roster. Every connected name whose transport fails is evicted,
        and every name still connected afterwards heard the event and then
        the typing roster. */
    method AnnounceDeparture(name: string, now: Time)
      requires Valid()
      modifies this`active, this`users, this`pingTasks, this`typing, this`cancelled, this`outbox
      ensures Valid()
      ensures Regs() == Evict(old(Regs()), old(BrokenActive()))
      ensures Extends(old(outbox), outbox)
      ensures forall d :: d in outbox[|old(outbox)|..] ==> d.conn !in broken && IsEvictionNotice(d.frame)
      ensures HeardDeparture(outbox[|old(outbox)|..], active.entries,
                             UserEvent("user_left", name, now, old(users.order)),
                             TypingStatus(typing.order, now))
      decreases |BrokenActive()|, 2, 1
    {
      ghost var r1 := Regs();
      ghost var out1 := outbox;
      BroadcastUserEvent("user_left", name, now);
      ghost var r2 := Regs();
      ghost var out2 := outbox;
      EvictBroken(r1, broken);
      assert BrokenActive() == {};
      BroadcastTypingStatus(now);
      EvictNothing(r2);
      assert Regs() == r2;
      RemovalNotices(out1, out2, outbox, r1, r2, UserEvent("user_left", name, now, r1.users.order),
                     TypingStatus(r2.typing.order, now), broken);
    }

    /** remove_connection(username) (server.py:98-101): disconnect, then a
        user_left event whose roster no longer holds the name, then the typing
        roster. Every other connected name whose transport works hears of the
        departure; every connected name whose transport fails is evicted too. */
    method RemoveConnection(name: string, now: Time)
      requires Valid()
      modifies this`active, this`users, this`pingTasks, this`typing, this`cancelled, this`outbox
      ensures Valid()
      ensures Regs() == Evict(old(Regs()), {name} + old(BrokenActive()))
      ensures Extends(old(outbox), outbox)
      ensures forall d :: d in outbox[|old(outbox)|..] ==> d.conn !in broken && IsEvictionNotice(d.frame)
      ensures HeardDeparture(outbox[|old(outbox)|..], active.entries,
                             UserEvent("user_left", name, now, Drop(old(users.order), {name})),
                             TypingStatus(typing.order, now))
      decreases |BrokenActive() - {name}|, 3, 0
    {
      ghost var r0 := Regs();
      Disconnect(name);
      ghost var r1 := Regs();
      assert r1 == Evict(r0, {name}) && r1.users.order == Drop(r0.users.order, {name});
      EvictOneBroken(r0, name, broken);
      assert BrokenActive() == BrokenIn(r0.active, broken) - {name};
      AnnounceDeparture(name, now);
      ghost var r2 := Regs();
      EvictBroken(r1, broken);
      EvictNothing(r2);
      RemovalChain(r0, r1, r2, r2, name, broken);
    }

    /** connect(websocket, username) (server.py:42-51): stores the connection
        and a user record stamped now, starts a ping task (a task already held
        under the name is replaced without being cancelled), then announces
        user_joined to everyone, the new user included. */
    method Connect(c: Conn, name: string, now: Time)
      requires Valid()
      modifies this`active, this`users, this`pingTasks, this`typing, this`cancelled, this`outbox, this`tasksStarted
      ensures Valid()
      ensures tasksStarted == old(tasksStarted) + 1
      ensures var joined := Joined(old(Regs()), name, c, now, old(tasksStarted));
        Regs() == Evict(joined, BrokenIn(joined.active, broken))
      ensures Extends(old(outbox), outbox)
      ensures var joined := Joined(old(Regs()), name, c, now, old(tasksStarted));
        Reached(outbox[|old(outbox)|..], joined.active, None, broken, UserEvent("user_joined", name, now, joined.users.order))
      ensures c !in broken ==> name in active.entries && users.Get(name) == Some(UserRecord(name, now, now))
    {
      ghost var r0 := Regs();
      ghost var out0 := outbox;
      ghost var task := tasksStarted;
      JoinedSpec(r0, name, c, now, task);
      active := active.Put(name, c);
      users := users.Put(name, UserRecord(name, now, now));
      pingTasks := pingTasks[name := tasksStarted];
      tasksStarted := tasksStarted + 1;
      ghost var joined := Regs();
      assert joined == Joined(r0, name, c, now, task) && outbox == out0;
      BroadcastUserEvent("user_joined", name, now);
      assert Extends(out0, outbox);
      if c !in broken {
        JoinedSurvives(r0, name, c, now, task, broken);
      }
    }

    /** update_typing_status(username, is_typing) (server.py:87-96): stores
        or clears the flag (a repeated `true` refreshes the time) and
        broadcasts the typing roster only when the set of typing names changed. */
    method UpdateTypingStatus(name: string, isTyping: bool, now: Time) returns (changed: bool)
      requires Valid()
      modifies this`active, this`users, this`pingTasks, this`typing, this`cancelled, this`outbox
      ensures Valid()
      ensures changed == TypingChanges(old(Regs()), name, isTyping)
      ensures var typed := WithTyping(old(Regs()), name, isTyping, now);
        Regs() == Evict(typed, if changed then old(BrokenActive()) else {})
      ensures !changed ==> outbox == old(outbox)
      ensures Extends(old(outbox), outbox)
      ensures forall d :: d in outbox[|old(outbox)|..] ==> IsEvictionNotice(d.frame)
      ensures changed ==> Reached(outbox[|old(outbox)|..], old(active), None, broken,
                                  TypingStatus(WithTyping(old(Regs()), name, isTyping, now).typing.order, now))
    {
      ghost var r0 := Regs();
      WithTypingSpec(r0, name, isTyping, now);
      changed := false;
      if isTyping {
        if name !in typing.entries {
          changed := true;
        }
        typing := typing.Put(name, now);
      } else if name in typing.entries {
        typing := typing.RemoveAll({name});
        changed := true;
      }
      ghost var typed := Regs();
      if changed {
        ghost var a0, o0 := active, outbox;
        BroadcastTypingStatus(now);
        LegitNotices(outbox[|o0|..], a0, None, broken, TypingStatus(typed.typing.order, now));
      } else {
        if !isTyping {
          RemoveAbsent(r0.typing, {name});
        }
        EvictNothing(typed);
      }
    }

    /** The pong branch of the endpoint (server.py:220-222): refreshes
        last_pong when the name is registered, and changes nothing otherwise. */
    method Pong(name: string, now: Time)
      requires Valid()
      modifies this`users
      ensures Valid()
      ensures users.order == old(users.order)
      ensures name in old(users.entries) ==> users.entries == old(users.entries)[name := old(users.entries[name]).(lastPong := now)]
      ensures name in old(users.entries) ==> users == Ponged(old(users), name, now)
      ensures name !in old(users.entries) ==> users == old(users)
    {
      if name in users.entries {
        PutSpec(users, name, users.entries[name].(lastPong := now));
        users := users.Put(name, users.entries[name].(lastPong := now));
      }
    }

    /** The first half of a periodic_ping round (server.py:108-113), after
        the ping_interval sleep: stop if the task was cancelled or the name is
        no longer registered; otherwise send a ping, and on a failed send
        remove the connection and stop. */
    method PingSend(name: string, task: TaskId, now: Time) returns (go: bool)
      requires Valid()
      modifies this`active, this`users, this`pingTasks, this`typing, this`cancelled, this`outbox
      ensures Valid()
      ensures !go ==> task in cancelled || name !in users.entries
      ensures Extends(old(outbox), outbox)
      ensures old(task in cancelled || name !in active.entries) ==> !go && Regs() == old(Regs()) && outbox == old(outbox)
      ensures old(task !in cancelled && name in active.entries) && old(active.entries[name]) !in broken
        ==> go && Regs() == old(Regs()) && outbox == old(outbox) + [Delivery(name, old(active.entries[name]), Typed("ping"))]
      ensures old(task !in cancelled && name in active.entries) && old(active.entries[name]) in broken
        ==> !go && Regs() == Evict(old(Regs()), {name} + old(BrokenActive()))
    {
      if task in cancelled || name !in users.entries || name !in active.entries {
        go := false;
        return;
      }
      var c := active.entries[name];
      go := Send(name, c, Typed("ping"));
      if !go {
        RemoveConnection(name, now);
      }
    }

    /** The second half of a periodic_ping round (server.py:114-119), after
        the ping_timeout sleep: stop if the task was cancelled; evict and stop
        when the name is registered and its last pong is more than
        ping_timeout seconds old; otherwise go on. */
    method PingCheck(name: string, task: TaskId, now: Time) returns (go: bool)
      requires Valid()
      modifies this`active, this`users, this`pingTasks, this`typing, this`cancelled, this`outbox
      ensures Valid()
      ensures !go ==> task in cancelled || name !in users.entries
      ensures go <==> old(task !in cancelled && (name !in users.entries || now - users.entries[name].lastPong <= PingTimeout))
      ensures go ==> Regs() == old(Regs()) && outbox == old(outbox)
      ensures Extends(old(outbox), outbox)
      ensures old(task !in cancelled && name in users.entries && now - users.entries[name].lastPong > PingTimeout)
        ==> Regs() == Evict(old(Regs()), {name} + old(BrokenActive()))
    {
      if task in cancelled {
        go := false;
      } else if name in users.entries && now - users.entries[name].lastPong > PingTimeout {
        RemoveConnection(name, now);
        go := false;
      } else {
        go := true;
      }
    }

    /** The pongs of w, recorded by the endpoint (server.py:220-222) while
        the ping task sleeps for ping_timeout: a registered name ends with
        the last of them as its last_pong. */
    method TakePongs(name: string, w: Wake)
      requires Valid()
      modifies this`users
      ensures Valid()
      ensures name in old(users.entries) ==> users == Ponged(old(users), name, PongsBy(old(users.entries[name].lastPong), w))
      ensures name !in old(users.entries) ==> users == old(users)
    {
      ghost var u0 := users;
      if name in u0.entries {
        PongedSame(u0, name);
      }
      var k := 0;
      while k < |w.pongsAt|
        invariant Valid() && k <= |w.pongsAt|
        invariant name in u0.entries ==> users == Ponged(u0, name, if k == 0 then u0.entries[name].lastPong else w.pongsAt[k - 1])
        invariant name !in u0.entries ==> users == u0
      {
        if name in u0.entries {
          PongedTwice(u0, name, if k == 0 then u0.entries[name].lastPong else w.pongsAt[k - 1], w.pongsAt[k]);
        }
        Pong(name, w.pongsAt[k]);
        k := k + 1;
      }
    }

    /** One round of periodic_ping (server.py:107-119) at the wake-up w: ping,
        take the pongs that arrive during the timeout sleep, check. What it
        does is RoundOutcome. */
    method PingRound(name: string, task: TaskId, w: Wake) returns (go: bool)
      requires Valid()
      modifies this`active, this`users, this`pingTasks, this`typing, this`cancelled, this`outbox
      ensures Valid()
      ensures RoundOutcome(old(Regs()), old(outbox), name, task, w, broken, go, Regs(), outbox)
    {
      ghost var rb := Regs();
      ghost var outb := outbox;
      go := PingSend(name, task, w.pingAt);
      if !go {
        return;
      }
      ghost var sent := outbox;
      TakePongs(name, w);
      ghost var checked := Regs();
      go := PingCheck(name, task, w.checkAt);
      if !go {
        EvictPonged(rb, name, PongsBy(rb.users.entries[name].lastPong, w), {name} + BrokenIn(rb.active, broken));
        ExtendsTrans(outb, sent, outbox);
      }
    }

    /** periodic_ping(username) (server.py:106-119), run over the task's
        successive wake-ups. The pongs the endpoint records while the task
        sleeps between its ping and its check arrive with each wake-up. What
        the rounds do is PingOutcome. */
    method PeriodicPing(name: string, task: TaskId, wakes: seq<Wake>) returns (rounds: nat)
      requires Valid()
      modifies this`active, this`users, this`pingTasks, this`typing, this`cancelled, this`outbox
      ensures Valid()
      ensures PingOutcome(old(Regs()), old(outbox), name, task, wakes, broken, rounds, Regs(), outbox)
    {
      ghost var r0 := Regs();
      ghost var out0 := outbox;
      ghost var t: Time := if name in users.entries then users.entries[name].lastPong else 0;
      RanStart(r0, out0, name, task, wakes, broken, t);
      rounds := 0;
      while rounds < |wakes|
        invariant Valid()
        invariant Ran(r0, out0, name, task, wakes, broken, rounds, t, Regs(), outbox)
      {
        ghost var rb := Regs();
        ghost var outb := outbox;
        var go := PingRound(name, task, wakes[rounds]);
        RanStep(r0, out0, name, task, wakes, broken, rounds, t, rb, outb, go, Regs(), outbox);
        if !go {
          return;
        }
        t := PongsBy(t, wakes[rounds]);
        rounds := rounds + 1;
      }
      RanAll(r0, out0, name, task, wakes, broken, rounds, t, Regs(), outbox);
    }
  }

  /** What periodic_ping does over the wake-ups wakes (server.py:106-119),
      from the registry r0 and outbox out0 to r and out after rounds
      completed rounds. The loop never runs more rounds than wake-ups, and
      stops early only when the task was cancelled or its user is gone. A
      task that was cancelled, or whose user is not connected, changes
      nothing. For a live task over connection c with last pong p: the rounds
      completed are none when c fails, and otherwise those before the first
      check that finds the last pong more than ping_timeout seconds old; each
      completed round wrote one ping to the user; when all rounds complete,
      the only change to the registry is the user's last pong, now the last
      one received; when the loop stops early, the user and every user whose
      transport fails are evicted. */
  ghost predicate PingOutcome(r0: Registry, out0: seq<Delivery>, name: string, task: TaskId, wakes: seq<Wake>,
                              broken: set<Conn>, rounds: nat, r: Registry, out: seq<Delivery>)
  {
    && rounds <= |wakes|
    && (rounds < |wakes| ==> task in r.cancelled || name !in r.users.entries)
    && (task in r0.cancelled || name !in r0.active.entries ==> rounds == 0 && r == r0 && out == out0)
    && (task !in r0.cancelled && name in r0.active.entries && name in r0.users.entries ==>
          var c := r0.active.entries[name];
          var p := r0.users.entries[name].lastPong;
          && rounds == (if c in broken then 0 else FirstStale(p, wakes))
          && |out0| + rounds <= |out|
          && out[..|out0| + rounds] == out0 + Repeated(Delivery(name, c, Typed("ping")), rounds)
          && (rounds == |wakes| ==> r == r0.(users := Ponged(r0.users, name, PongAfter(p, wakes)))
                                    && out == out0 + Repeated(Delivery(name, c, Typed("ping")), rounds))
          && (rounds < |wakes| ==> r == Evict(r0, {name} + BrokenIn(r0.active, broken))))
  }

  /** What one round of periodic_ping does (server.py:107-119) at the
      wake-up w, from the registry rb and outbox outb to r and out; go says
      the loop goes on. A round that stops leaves the task cancelled or its
      user gone. A task that was cancelled, or whose user is not connected,
      changes nothing. For a live task over connection c, with p the last
      pong once the pongs of w arrived: the round goes on exactly when c
      works and the check finds p at most ping_timeout seconds old; then the
      only changes are one ping to the user and its last pong, p; otherwise
      the user and every user whose transport fails are evicted. */
  ghost predicate RoundOutcome(rb: Registry, outb: seq<Delivery>, name: string, task: TaskId, w: Wake,
                               broken: set<Conn>, go: bool, r: Registry, out: seq<Delivery>)
  {
    && (!go ==> task in r.cancelled || name !in r.users.entries)
    && (task in rb.cancelled || name !in rb.active.entries ==> !go && r == rb && out == outb)
    && (task !in rb.cancelled && name in rb.active.entries && name in rb.users.entries ==>
          var c := rb.active.entries[name];
          var p := PongsBy(rb.users.entries[name].lastPong, w);
          && (go <==> c !in broken && w.checkAt - p <= PingTimeout)
          && (go ==> r == rb.(users := Ponged(rb.users, name, p)) && out == outb + [Delivery(name, c, Typed("ping"))])
          && (!go ==> r == Evict(rb, {name} + BrokenIn(rb.active, broken)) && Extends(outb, out)))
  }

  /** The state of periodic_ping after `rounds` rounds that all went on,
      from r0 and out0: t is the last pong so far. A dead task ran none; a
      live one found every check fresh, pinged once per round, and changed
      nothing but its user's last pong. */
  ghost predicate Ran(r0: Registry, out0: seq<Delivery>, name: string, task: TaskId, wakes: seq<Wake>,
                      broken: set<Conn>, rounds: nat, t: Time, r: Registry, out: seq<Delivery>)
  {
    && rounds <= |wakes|
    && (!(task !in r0.cancelled && name in r0.active.entries && name in r0.users.entries) ==> rounds == 0 && r == r0 && out == out0)
    && (task !in r0.cancelled && name in r0.active.entries && name in r0.users.entries ==>
          var c := r0.active.entries[name];
          var p := r0.users.entries[name].lastPong;
          && (rounds > 0 ==> c !in broken)
          && t == PongAfter(p, wakes[..rounds])
          && (forall j :: 0 <= j < rounds ==> FreshAt(p, wakes, j))
          && r == r0.(users := Ponged(r0.users, name, t))
          && out == out0 + Repeated(Delivery(name, c, Typed("ping")), rounds))
  }

  lemma RanStart(r0: Registry, out0: seq<Delivery>, name: string, task: TaskId, wakes: seq<Wake>,
                 broken: set<Conn>, t: Time)
    requires name in r0.users.entries ==> t == r0.users.entries[name].lastPong
    ensures Ran(r0, out0, name, task, wakes, broken, 0, t, r0, out0)
  {
    if name in r0.users.entries {
      PongedSame(r0.users, name);
    }
  }

  /** One more round: it either keeps the loop's state or ends the loop
      with PingOutcome. */
  lemma RanStep(r0: Registry, out0: seq<Delivery>, name: string, task: TaskId, wakes: seq<Wake>,
                broken: set<Conn>, rounds: nat, t: Time, rb: Registry, outb: seq<Delivery>,
                go: bool, r: Registry, out: seq<Delivery>)
    requires Coherent(r0) && rounds < |wakes|
    requires Ran(r0, out0, name, task, wakes, broken, rounds, t, rb, outb)
    requires RoundOutcome(rb, outb, name, task, wakes[rounds], broken, go, r, out)
    ensures go ==> Ran(r0, out0, name, task, wakes, broken, rounds + 1, PongsBy(t, wakes[rounds]), r, out)
    ensures !go ==> PingOutcome(r0, out0, name, task, wakes, broken, rounds, r, out)
  {
    if task !in r0.cancelled && name in r0.active.entries {
      var c := r0.active.entries[name];
      var p := r0.users.entries[name].lastPong;
      var d := Delivery(name, c, Typed("ping"));
      PongAfterStep(p, wakes, rounds);
      FirstStaleIs(p, wakes, rounds);
      if go {
        PongedTwice(r0.users, name, t, PongsBy(t, wakes[rounds]));
        assert out == out0 + Repeated(d, rounds + 1);
        FirstStaleIs(p, wakes, rounds + 1);
      } else {
        EvictPonged(r0, name, t, {name} + BrokenIn(r0.active, broken));
      }
    }
  }

  /** A live or dead task whose rounds all went on. */
  lemma RanAll(r0: Registry, out0: seq<Delivery>, name: string, task: TaskId, wakes: seq<Wake>,
               broken: set<Conn>, rounds: nat, t: Time, r: Registry, out: seq<Delivery>)
    requires Coherent(r0) && rounds == |wakes|
    requires Ran(r0, out0, name, task, wakes, broken, rounds, t, r, out)
    ensures PingOutcome(r0, out0, name, task, wakes, broken, rounds, r, out)
  {
    if task !in r0.cancelled && name in r0.active.entries {
      assert wakes[..rounds] == wakes;
      FirstStaleIs(r0.users.entries[name].lastPong, wakes, rounds);
      assert out[..|out0| + rounds] == out;
    }
  }

  /** One wake-up of a ping task: when it pings, the pongs recorded during
      its timeout sleep, and when it checks. */
  datatype Wake = Wake(pingAt: Time, pongsAt: seq<Time>, checkAt: Time)

  /** n copies of the delivery d. */
  function Repeated(d: Delivery, n: nat): (s: seq<Delivery>)
    ensures |s| == n && forall i :: 0 <= i < n ==> s[i] == d
  {
    if n == 0 then [] else Repeated(d, n - 1) + [d]
  }

  /** The last pong once the pongs of w arrived, from p before them. */
  function PongsBy(p: Time, w: Wake): Time
  {
    if w.pongsAt == [] then p else w.pongsAt[|w.pongsAt| - 1]
  }

  /** The last pong after the wake-ups ws, from p before them. */
  function PongAfter(p: Time, ws: seq<Wake>): Time
    decreases |ws|
  {
    if ws == [] then p else PongsBy(PongAfter(p, ws[..|ws| - 1]), ws[|ws| - 1])
  }

  lemma PongAfterStep(p: Time, ws: seq<Wake>, i: nat)
    requires i < |ws|
    ensures PongAfter(p, ws[..i + 1]) == PongsBy(PongAfter(p, ws[..i]), ws[i])
  {
    assert ws[..i + 1][..i] == ws[..i];
  }

  /** The check of round i, from last pong p before the first round, finds
      a pong at most ping_timeout seconds old (server.py:116). */
  predicate FreshAt(p: Time, ws: seq<Wake>, i: nat)
    requires i < |ws|
  {
    ws[i].checkAt - PongAfter(p, ws[..i + 1]) <= PingTimeout
  }

  /** The first round from i on whose check finds the last pong too old, or
      |ws| when there is none. */
  function FirstStaleFrom(p: Time, ws: seq<Wake>, i: nat): nat
    requires i <= |ws|
    decreases |ws| - i
  {
    if i == |ws| then i else if !FreshAt(p, ws, i) then i else FirstStaleFrom(p, ws, i + 1)
  }

  function FirstStale(p: Time, ws: seq<Wake>): nat
  {
    FirstStaleFrom(p, ws, 0)
  }

  lemma {:induction false} FirstStaleFromSpec(p: Time, ws: seq<Wake>, i: nat)
    requires i <= |ws|
    ensures i <= FirstStaleFrom(p, ws, i) <= |ws|
    ensures forall j :: i <= j < FirstStaleFrom(p, ws, i) ==> FreshAt(p, ws, j)
    ensures FirstStaleFrom(p, ws, i) < |ws| ==> !FreshAt(p, ws, FirstStaleFrom(p, ws, i))
    decreases |ws| - i
  {
    if i < |ws| && FreshAt(p, ws, i) {
      FirstStaleFromSpec(p, ws, i + 1);
    }
  }

  /** The first stale round is the one index n such that every round before
      it is fresh and round n, if there is one, is not. */
  lemma FirstStaleIs(p: Time, ws: seq<Wake>, n: nat)
    ensures FirstStale(p, ws) == n
            <==> n <= |ws| && (forall j :: 0 <= j < n ==> FreshAt(p, ws, j)) && (n < |ws| ==> !FreshAt(p, ws, n))
  {
    FirstStaleFromSpec(p, ws, 0);
  }
}
