/** The server's session registry as a value: the four username-keyed dicts of
    the connection manager plus the set of ping tasks that were cancelled, and
    the pure functions that say how each manager operation changes them. */
module Registry {
  import opened Wrappers
  import opened Dicts
  import opened Wire

  /** A WebSocket connection, by identity. */
  type Conn = nat
  /** A periodic-ping task, by identity. */
  type TaskId = nat

  /** Seconds between pings, and seconds a pong may be late (server.py:36-37). */
  const PingInterval: nat := 15
  const PingTimeout: nat := 5

  /** The record kept in `users`; connected_at is kept as the clock reading. */
  datatype UserRecord = UserRecord(username: string, connectedAt: Time, lastPong: Time)

  /** One frame written to one connection. */
  datatype Delivery = Delivery(user: string, conn: Conn, frame: Frame)

  datatype Registry = Registry(
    active: Dict<Conn>,                // active_connections
    users: Dict<UserRecord>,
    pingTasks: map<string, TaskId>,
    typing: Dict<Time>,                // typing_users
    cancelled: set<TaskId>)

  /** What every manager operation keeps: the three ordered dicts are well
      formed, `active_connections` and `users` list the same names in the same
      order, every connected name has a ping task, and each user record
      carries its own name. `typing_users` may hold names that are no longer
      connected (an endpoint whose user was evicted can still report typing). */
  ghost predicate Coherent(r: Registry)
  {
    && r.active.Valid() && r.users.Valid() && r.typing.Valid()
    && r.active.order == r.users.order
    && (forall u :: u in r.pingTasks <==> u in r.active.entries)
    && (forall u :: u in r.users.entries ==> r.users.entries[u].username == u)
  }

  /** The tasks of the names in gone. */
  function TasksOf(pingTasks: map<string, TaskId>, gone: set<string>): set<TaskId>
  {
    set u | u in gone && u in pingTasks :: pingTasks[u]
  }

  lemma TasksOfOne(pingTasks: map<string, TaskId>, name: string)
    ensures TasksOf(pingTasks, {name}) == if name in pingTasks then {pingTasks[name]} else {}
  {
  }

  /** `disconnect` applied to every name in gone: each is deleted from the
      four dicts and its ping task is cancelled. */
  function Evict(r: Registry, gone: set<string>): (e: Registry)
  {
    Registry(r.active.RemoveAll(gone), r.users.RemoveAll(gone), r.pingTasks - gone,
             r.typing.RemoveAll(gone), r.cancelled + TasksOf(r.pingTasks, gone))
  }

  /** The registry once `connect` has stored the name (before its broadcast). */
  function Joined(r: Registry, name: string, conn: Conn, now: Time, task: TaskId): Registry
  {
    r.(active := r.active.Put(name, conn),
       users := r.users.Put(name, UserRecord(name, now, now)),
       pingTasks := r.pingTasks[name := task])
  }

  /** The registry once `update_typing_status` has stored the flag (before
      its broadcast). */
  function WithTyping(r: Registry, name: string, isTyping: bool, now: Time): Registry
  {
    r.(typing := if isTyping then r.typing.Put(name, now) else r.typing.RemoveAll({name}))
  }

  /** Whether `update_typing_status` finds the typing set changed. */
  predicate TypingChanges(r: Registry, name: string, isTyping: bool)
  {
    isTyping != (name in r.typing.entries)
  }

  /** The connected names whose transport fails. */
  function BrokenIn(active: Dict<Conn>, broken: set<Conn>): set<string>
  {
    set u | u in active.entries && active.entries[u] in broken
  }

  function ExcludeSet(exclude: Option<string>): set<string>
  {
    if exclude.Some? then {exclude.value} else {}
  }

  /** Who a broadcast evicts, given the connected names whose transport fails
      when it starts: nobody if only the excluded name is among them;
      otherwise the first failed send starts an eviction whose own broadcast
      reaches, and so evicts, every one of them. */
  function Casualties(brokenActive: set<string>, exclude: Option<string>): (gone: set<string>)
    ensures gone == {} || gone == brokenActive
    ensures gone == {} <==> brokenActive <= ExcludeSet(exclude)
  {
    if brokenActive - ExcludeSet(exclude) == {} then {} else brokenActive
  }

  /** Without an excluded name a broadcast evicts every failing name. */
  lemma CasualtiesNone(brokenActive: set<string>)
    ensures Casualties(brokenActive, None) == brokenActive
  {
    if brokenActive != {} {
      var u :| u in brokenActive;
      assert u in brokenActive - ExcludeSet(None);
    }
  }

  /** The deliveries of one broadcast in which no send fails: the message to
      each name of the snapshot except the excluded one, in snapshot order. */
  function Fanout(order: seq<string>, conns: map<string, Conn>, exclude: Option<string>, m: Frame): seq<Delivery>
    requires forall u :: u in order ==> u in conns
  {
    if order == [] then []
    else (if Some(order[0]) == exclude then [] else [Delivery(order[0], conns[order[0]], m)])
         + Fanout(order[1..], conns, exclude, m)
  }

  /** Casualties, case by case. */
  lemma CasualtiesCases(brokenActive: set<string>, exclude: Option<string>)
    ensures brokenActive <= ExcludeSet(exclude) ==> Casualties(brokenActive, exclude) == {}
    ensures !(brokenActive <= ExcludeSet(exclude)) ==> Casualties(brokenActive, exclude) == brokenActive
  {
  }

  /** One failed send inside a broadcast that started from r0: whether or not
      an earlier send failed, the eviction it triggers leaves the registry
      with every name that was failing at the start evicted, and the
      eviction's own failing names are fewer than at the start. */
  lemma FailedSendStep(r0: Registry, rb: Registry, u: string, broken: set<Conn>, failed: bool)
    requires Coherent(r0)
    requires u in BrokenIn(r0.active, broken)
    requires rb == if failed then Evict(r0, BrokenIn(r0.active, broken)) else r0
    ensures Evict(rb, {u} + BrokenIn(rb.active, broken)) == Evict(r0, BrokenIn(r0.active, broken))
    ensures |BrokenIn(rb.active, broken) - {u}| < |BrokenIn(r0.active, broken)|
  {
    var ba0 := BrokenIn(r0.active, broken);
    if failed {
      EvictBroken(r0, broken);
      assert {u} + BrokenIn(rb.active, broken) == {u};
      EvictTwice(r0, ba0, {u});
      assert ba0 + {u} == ba0;
    } else {
      assert {u} + ba0 == ba0;
      assert ba0 - {u} < ba0;
    }
  }

  /** During a broadcast from r0 the failing names never grow in number. */
  lemma BrokenShrinks(r0: Registry, rb: Registry, u: string, broken: set<Conn>, failed: bool)
    requires Coherent(r0)
    requires rb == if failed then Evict(r0, BrokenIn(r0.active, broken)) else r0
    ensures |BrokenIn(rb.active, broken) - {u}| <= |BrokenIn(r0.active, broken)|
  {
    if failed {
      EvictBroken(r0, broken);
    }
  }

  /** A broadcast reaches exactly the snapshot's names other than the
      excluded one, each over its own connection, and nobody else. */
  lemma {:induction false} FanoutSpec(order: seq<string>, conns: map<string, Conn>, exclude: Option<string>, m: Frame, d: Delivery)
    requires forall u :: u in order ==> u in conns
    ensures d in Fanout(order, conns, exclude, m)
        <==> d.user in order && Some(d.user) != exclude && d.conn == conns[d.user] && d.frame == m
  {
    if order != [] {
      FanoutSpec(order[1..], conns, exclude, m, d);
      assert order == [order[0]] + order[1..];
    }
  }

  /** The excluded name never receives the broadcast. */
  lemma FanoutSkipsExcluded(order: seq<string>, conns: map<string, Conn>, who: string, m: Frame)
    requires forall u :: u in order ==> u in conns
    ensures forall d :: d in Fanout(order, conns, Some(who), m) ==> d.user != who
  {
    forall d | d in Fanout(order, conns, Some(who), m) ensures d.user != who {
      FanoutSpec(order, conns, Some(who), m, d);
    }
  }

  lemma {:induction false} FanoutSnoc(order: seq<string>, conns: map<string, Conn>, exclude: Option<string>, m: Frame, u: string)
    requires forall v :: v in order ==> v in conns
    requires u in conns
    ensures Fanout(order + [u], conns, exclude, m)
         == Fanout(order, conns, exclude, m)
            + (if Some(u) == exclude then [] else [Delivery(u, conns[u], m)])
  {
    if order == [] {
      assert [u] + [] == [u];
    } else {
      assert (order + [u])[1..] == order[1..] + [u];
      FanoutSnoc(order[1..], conns, exclude, m, u);
    }
  }

  /** Eviction keeps the registry coherent and deletes exactly the names in
      gone from every dict, leaving every other entry as it was. */
  lemma EvictSpec(r: Registry, gone: set<string>)
    requires Coherent(r)
    ensures Coherent(Evict(r, gone))
    ensures forall u :: u in Evict(r, gone).active.entries <==> u in r.active.entries && u !in gone
    ensures forall u :: u in Evict(r, gone).typing.entries <==> u in r.typing.entries && u !in gone
    ensures forall u :: u !in gone ==> Evict(r, gone).users.Get(u) == r.users.Get(u)
    ensures forall u :: u in gone && u in r.pingTasks ==> r.pingTasks[u] in Evict(r, gone).cancelled
  {
    RemoveAllSpec(r.active, gone);
    RemoveAllSpec(r.users, gone);
    RemoveAllSpec(r.typing, gone);
  }

  /** Evicting in two rounds evicts the union; evicting a name twice is the
      same as evicting it once (disconnect is idempotent). */
  lemma EvictTwice(r: Registry, a: set<string>, b: set<string>)
    ensures Evict(Evict(r, a), b) == Evict(r, a + b)
  {
    RemoveAllTwice(r.active, a, b);
    RemoveAllTwice(r.users, a, b);
    RemoveAllTwice(r.typing, a, b);
    assert r.pingTasks - a - b == r.pingTasks - (a + b);
    assert TasksOf(r.pingTasks, a) + TasksOf(r.pingTasks - a, b) == TasksOf(r.pingTasks, a + b);
  }

  /** Evicting names that are neither connected nor typing changes nothing. */
  lemma EvictAbsent(r: Registry, gone: set<string>)
    requires Coherent(r)
    requires forall u :: u in gone ==> u !in r.active.entries && u !in r.typing.entries
    ensures Evict(r, gone) == r
  {
    RemoveAbsent(r.active, gone);
    RemoveAbsent(r.users, gone);
    RemoveAbsent(r.typing, gone);
    assert r.pingTasks - gone == r.pingTasks;
    assert TasksOf(r.pingTasks, gone) == {};
  }

  /** Evicting nobody changes nothing. */
  lemma EvictNothing(r: Registry)
    ensures Evict(r, {}) == r
  {
    DropNothing(r.active.order, {});
    DropNothing(r.users.order, {});
    DropNothing(r.typing.order, {});
    assert r.active.entries - {} == r.active.entries;
    assert r.users.entries - {} == r.users.entries;
    assert r.typing.entries - {} == r.typing.entries;
    assert r.pingTasks - {} == r.pingTasks;
  }

  /** Once the names with failing transports are evicted, none is left. */
  lemma EvictBroken(r: Registry, broken: set<Conn>)
    ensures BrokenIn(Evict(r, BrokenIn(r.active, broken)).active, broken) == {}
  {
  }

  /** Evicting one name removes it from the failing ones and nothing else. */
  lemma EvictOneBroken(r: Registry, name: string, broken: set<Conn>)
    ensures BrokenIn(Evict(r, {name}).active, broken) == BrokenIn(r.active, broken) - {name}
  {
  }

  /** Storing a new user keeps the registry coherent, connects the name over
      the given connection with last_pong at now, and puts the name in the
      roster. */
  lemma JoinedSpec(r: Registry, name: string, conn: Conn, now: Time, task: TaskId)
    requires Coherent(r)
    ensures Coherent(Joined(r, name, conn, now, task))
    ensures Joined(r, name, conn, now, task).active.Get(name) == Some(conn)
    ensures Joined(r, name, conn, now, task).users.Get(name) == Some(UserRecord(name, now, now))
    ensures name in Joined(r, name, conn, now, task).users.order
    ensures forall u :: u != name ==> Joined(r, name, conn, now, task).active.Get(u) == r.active.Get(u)
  {
    PutSpec(r.active, name, conn);
    PutSpec(r.users, name, UserRecord(name, now, now));
  }

  /** A newcomer whose transport works survives the evictions of the
      user_joined broadcast, with the record stored when it joined. */
  lemma JoinedSurvives(r: Registry, name: string, conn: Conn, now: Time, task: TaskId, broken: set<Conn>)
    requires Coherent(r) && conn !in broken
    ensures var joined := Joined(r, name, conn, now, task);
      var after := Evict(joined, BrokenIn(joined.active, broken));
      name in after.active.entries && after.users.Get(name) == Some(UserRecord(name, now, now))
  {
    JoinedSpec(r, name, conn, now, task);
  }

  /** Storing the typing flag keeps the registry coherent and makes the name
      typing exactly when the flag says so. */
  lemma WithTypingSpec(r: Registry, name: string, isTyping: bool, now: Time)
    requires Coherent(r)
    ensures Coherent(WithTyping(r, name, isTyping, now))
    ensures name in WithTyping(r, name, isTyping, now).typing.entries <==> isTyping
    ensures isTyping ==> WithTyping(r, name, isTyping, now).typing.entries[name] == now
    ensures forall u :: u != name ==> WithTyping(r, name, isTyping, now).typing.Get(u) == r.typing.Get(u)
  {
    PutSpec(r.typing, name, now);
    RemoveAllSpec(r.typing, {name});
  }

  /** Reporting typing twice changes the set once; clearing a name that is
      not typing changes nothing. */
  lemma TypingChangesOnce(r: Registry, name: string, now: Time)
    requires Coherent(r)
    ensures !TypingChanges(WithTyping(r, name, true, now), name, true)
    ensures name !in r.typing.entries ==> !TypingChanges(r, name, false)
  {
    WithTypingSpec(r, name, true, now);
  }

  /** remove_connection's three steps compose: disconnecting the name and
      then evicting the failing names twice evicts the name and the failing
      names once. */
  lemma RemovalChain(r0: Registry, r1: Registry, r2: Registry, r3: Registry, name: string, broken: set<Conn>)
    requires Coherent(r0)
    requires r1 == Evict(r0, {name})
    requires r2 == Evict(r1, BrokenIn(r1.active, broken))
    requires r3 == Evict(r2, BrokenIn(r2.active, broken))
    ensures BrokenIn(r1.active, broken) == BrokenIn(r0.active, broken) - {name}
    ensures BrokenIn(r2.active, broken) == {}
    ensures r3 == r2 == Evict(r0, {name} + BrokenIn(r0.active, broken))
  {
    var ba0 := BrokenIn(r0.active, broken);
    EvictOneBroken(r0, name, broken);
    EvictBroken(r1, broken);
    EvictNothing(r2);
    EvictTwice(r0, {name}, ba0 - {name});
    assert {name} + (ba0 - {name}) == {name} + ba0;
  }

  /** The users dict once a pong from name arrived at t (server.py:220-222):
      only that record's last_pong changes. */
  function Ponged(d: Dict<UserRecord>, name: string, t: Time): Dict<UserRecord>
    requires name in d.entries
  {
    Dict(d.order, d.entries[name := d.entries[name].(lastPong := t)])
  }

  /** Stamping a record with the last_pong it already has changes nothing. */
  lemma PongedSame(d: Dict<UserRecord>, name: string)
    requires name in d.entries
    ensures Ponged(d, name, d.entries[name].lastPong) == d
  {
    assert d.entries[name := d.entries[name]] == d.entries;
  }

  /** Only the latest pong counts. */
  lemma PongedTwice(d: Dict<UserRecord>, name: string, t1: Time, t2: Time)
    requires name in d.entries
    ensures Ponged(Ponged(d, name, t1), name, t2) == Ponged(d, name, t2)
  {
  }

  /** Evicting a name forgets the pongs it sent. */
  lemma EvictPonged(r: Registry, name: string, t: Time, gone: set<string>)
    requires name in r.users.entries && name in gone
    ensures Evict(r.(users := Ponged(r.users, name, t)), gone) == Evict(r, gone)
  {
    assert Ponged(r.users, name, t).entries - gone == r.users.entries - gone;
  }
}
