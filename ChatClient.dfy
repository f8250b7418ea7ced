/** The terminal chat client (src/online_chat.py): the cached roster, the
    map of names shown as typing, the connected flag and the frames written
    to the websocket. Each send over the socket either goes through or
    raises; which one is a parameter (sendOk), as is the socket that
    websockets.connect yields. Printing and the ANSI redraw of the typing
    line are left out. */
module ChatClient {
  import opened Wrappers
  import opened Text
  import opened Dicts
  import opened Wire

  /** A websocket handle. */
  type Socket = nat

  /** A name stays on the typing line for this many seconds without a
      refresh (src/online_chat.py:93). */
  const TypingShownFor: int := 5

  /** typing_display_task: never created, created and not done, or done
      (which includes cancelled). */
  datatype Sweeper = Unstarted | Running | Finished

  /** The URL connect dials: http:// becomes ws:// and /ws is appended
      (src/online_chat.py:26). */
  function WsUrl(serverUrl: string): string
  {
    ReplaceAll(serverUrl, "http://", "ws://") + "/ws"
  }

  /** An http:// URL is dialled as ws:// at path /ws; a URL without http://
      in it only gets /ws appended. */
  lemma WsUrlSpec(serverUrl: string)
    ensures EndsWith(WsUrl(serverUrl), "/ws")
    ensures StartsWith(serverUrl, "http://") && !Contains(serverUrl[7..], "http://")
      ==> WsUrl(serverUrl) == "ws://" + serverUrl[7..] + "/ws"
    ensures !Contains(serverUrl, "http://") ==> WsUrl(serverUrl) == serverUrl + "/ws"
  {
    if StartsWith(serverUrl, "http://") && !Contains(serverUrl[7..], "http://") {
      assert serverUrl == "http://" + serverUrl[7..];
      ReplaceLeading("http://", serverUrl[7..], "ws://");
      ReplaceAbsent(serverUrl[7..], "http://", "ws://");
    }
    if !Contains(serverUrl, "http://") {
      ReplaceAbsent(serverUrl, "http://", "ws://");
    }
  }

  /** Between typing maps before and after: every listed name other than me
      is stamped now, every unlisted name kept its entry, and no name was
      lost. */
  ghost predicate Stamped(before: map<string, Time>, after: map<string, Time>, names: seq<string>, me: string, now: Time)
  {
    && (forall u :: u in names && u != me ==> u in after && after[u] == now)
    && (forall u :: u in after && u !in names ==> u in before && after[u] == before[u])
    && (forall u :: u in before ==> u in after)
  }

  /** One more name of the roster stamped (unless it is me). */
  lemma StampStep(before: map<string, Time>, d: Dict<Time>, names: seq<string>, i: nat, me: string, now: Time)
    requires d.Valid() && me !in d.entries && i < |names|
    requires Stamped(before, d.entries, names[..i], me, now)
    ensures var d' := if names[i] != me then d.Put(names[i], now) else d;
      && d'.Valid() && me !in d'.entries
      && Stamped(before, d'.entries, names[..i + 1], me, now)
  {
    var done, x := names[..i], names[i];
    assert names[..i + 1] == done + [x];
    if x != me {
      var d' := d.Put(x, now);
      PutSpec(d, x, now);
      forall u | u in done + [x] && u != me
        ensures u in d'.entries && d'.entries[u] == now
      {
        if u != x {
          assert d'.Get(u) == d.Get(u);
        }
      }
      forall u | u in d'.entries && u !in done + [x]
        ensures u in before && d'.entries[u] == before[u]
      {
        assert d'.Get(u) == d.Get(u);
      }
      forall u | u in before
        ensures u in d'.entries
      {
        if u != x {
          assert d'.Get(u) == d.Get(u);
        }
      }
      assert Stamped(before, d'.entries, done + [x], me, now);
    } else {
      assert Stamped(before, d.entries, done + [x], me, now);
    }
  }

  /** The names whose typing entry is older than the display window at now. */
  function Stale(d: Dict<Time>, now: Time): set<string>
  {
    set u | u in d.entries && now - d.entries[u] > TypingShownFor
  }

  /** A sweep keeps exactly the entries at most five seconds old, with their
      stamps and in their order. */
  lemma SweepSpec(d: Dict<Time>, now: Time)
    requires d.Valid()
    ensures d.RemoveAll(Stale(d, now)).Valid()
    ensures forall u :: u in d.RemoveAll(Stale(d, now)).entries
                        <==> u in d.entries && now - d.entries[u] <= TypingShownFor
    ensures forall u :: u in d.RemoveAll(Stale(d, now)).entries
                        ==> d.RemoveAll(Stale(d, now)).entries[u] == d.entries[u]
    ensures d.RemoveAll(Stale(d, now)).order == Drop(d.order, Stale(d, now))
  {
    RemoveAllSpec(d, Stale(d, now));
  }

  /** Sweeping twice at the same time is sweeping once. */
  lemma {:induction false} SweepIdempotent(d: Dict<Time>, now: Time)
    requires d.Valid()
    ensures Stale(d.RemoveAll(Stale(d, now)), now) == {}
    ensures d.RemoveAll(Stale(d, now)).RemoveAll({}) == d.RemoveAll(Stale(d, now))
  {
    SweepSpec(d, now);
    var e := d.RemoveAll(Stale(d, now));
    RemoveAbsent(e, {});
  }

  class OnlineChatClient {
    const serverUrl: string
    const username: string
    var websocket: Option<Socket>
    var connected: bool
    var onlineUsers: seq<string>
    /** currently_typing_users: name -> when it was last reported typing. */
    var typing: Dict<Time>
    var sweeper: Sweeper
    /** Every frame written to the websocket, in order. */
    var sent: seq<Frame>

    /** The typing map is a well-formed dict that never holds the client's
        own name, and the flag is only set with a socket in hand. */
    ghost predicate Valid()
      reads this`typing, this`connected, this`websocket
    {
      typing.Valid() && username !in typing.entries && (connected ==> websocket.Some?)
    }

    constructor (serverUrl: string, username: string)
      ensures Valid()
      ensures this.serverUrl == serverUrl && this.username == username
      ensures websocket == None && !connected && onlineUsers == [] && typing == Dict([], map[])
      ensures sweeper == Unstarted && sent == []
    {
      this.serverUrl := serverUrl;
      this.username := username;
      websocket := None;
      connected := false;
      onlineUsers := [];
      typing := Dict([], map[]);
      sweeper := Unstarted;
      sent := [];
    }

    /** is_connected (src/online_chat.py:21) */
    predicate IsConnected()
      reads this`connected, this`websocket
    {
      connected && websocket.Some?
    }

    /** get_online_users (src/online_chat.py:22): the roster, by value. */
    function OnlineUsers(): seq<string>
      reads this`onlineUsers
    {
      onlineUsers
    }

    /** connect (src/online_chat.py:24-37): dialled is the socket
        websockets.connect yields for WsUrl(serverUrl), None when it fails
        or times out. The two status lines go through prompt_toolkit's
        markup, which raises on text it cannot parse: `urlLineParses` says
        whether the "Connecting to" line, printed before dialling, parses;
        `joinedLineParses` whether the "Connected ... as" line, printed
        after the join went out, does. Once the socket is in hand the client
        is connected, even when something raises afterwards; only a connect
        that gets to the end starts the sweeper, and only when none is
        running. */
    method Connect(dialled: Option<Socket>, sendOk: bool, urlLineParses: bool, joinedLineParses: bool)
      returns (ok: bool)
      requires Valid()
      modifies this`websocket, this`connected, this`sent, this`sweeper
      ensures Valid()
      ensures ok <==> urlLineParses && dialled.Some? && sendOk && joinedLineParses
      ensures !urlLineParses || dialled.None? ==> websocket == old(websocket) && connected == old(connected)
      ensures urlLineParses && dialled.Some? ==> websocket == dialled && connected
      ensures sent == old(sent) + (if urlLineParses && dialled.Some? && sendOk then [Join(username)] else [])
      ensures sweeper == if ok && !old(sweeper).Running? then Running else old(sweeper)
    {
      if !urlLineParses || dialled.None? {
        return false;
      }
      websocket := dialled;
      connected := true;
      if !sendOk {
        return false;
      }
      sent := sent + [Join(username)];
      if !joinedLineParses {
        return false;
      }
      if !sweeper.Running? {
        sweeper := Running;
      }
      ok := true;
    }

    /** One write to the socket: it goes through or raises. */
    method Write(f: Frame, sendOk: bool) returns (raised: bool)
      modifies this`sent
      ensures raised == !sendOk
      ensures sent == old(sent) + (if sendOk then [f] else [])
    {
      raised := !sendOk;
      if sendOk {
        sent := sent + [f];
      }
    }

    /** The typing_status branch (src/online_chat.py:66-71): stamp every
        listed name but the client's own with now, then delete every name
        that is not listed. */
    method ApplyTypingStatus(names: seq<string>, now: Time)
      requires Valid()
      modifies this`typing
      ensures Valid()
      ensures forall u :: u in typing.entries <==> u in names && u != username
      ensures forall u :: u in typing.entries ==> typing.entries[u] == now
    {
      StampListed(names, now);
      DropUnlisted(names);
    }

    /** The first loop of the typing_status branch (src/online_chat.py:68-69). */
    method StampListed(names: seq<string>, now: Time)
      requires Valid()
      modifies this`typing
      ensures Valid()
      ensures forall u :: u in names && u != username ==> u in typing.entries && typing.entries[u] == now
      ensures forall u :: u in typing.entries && u !in names
                ==> u in old(typing.entries) && typing.entries[u] == old(typing.entries)[u]
      ensures forall u :: u in old(typing.entries) ==> u in typing.entries
    {
      ghost var t0 := typing.entries;
      var i := 0;
      while i < |names|
        invariant 0 <= i <= |names|
        invariant Valid()
        invariant Stamped(t0, typing.entries, names[..i], username, now)
      {
        StampStep(t0, typing, names, i, username, now);
        if names[i] != username {
          typing := typing.Put(names[i], now);
        }
        i := i + 1;
      }
      assert names[..i] == names;
    }

    /** The second loop of the typing_status branch (src/online_chat.py:70-71),
        over a copy of the keys. */
    method DropUnlisted(names: seq<string>)
      requires Valid()
      modifies this`typing
      ensures Valid()
      ensures forall u :: u in typing.entries <==> u in old(typing.entries) && u in names
      ensures forall u :: u in typing.entries ==> typing.entries[u] == old(typing.entries)[u]
    {
      var keys := typing.order;
      ghost var d0 := typing;
      ghost var gone: set<string> := {};
      RemoveAbsent(d0, gone);
      var k := 0;
      while k < |keys|
        invariant 0 <= k <= |keys|
        invariant gone == set u | u in keys[..k] && u !in names
        invariant typing == d0.RemoveAll(gone)
      {
        assert keys[..k + 1] == keys[..k] + [keys[k]];
        if keys[k] !in names {
          RemoveAllTwice(d0, gone, {keys[k]});
          typing := typing.RemoveAll({keys[k]});
          gone := gone + {keys[k]};
        }
        k := k + 1;
      }
      assert keys[..k] == keys;
      assert gone == set u | u in d0.entries && u !in names;
      RemoveAllSpec(d0, gone);
    }

    /** Whether handle_message prints a line of its own for f: chat, the
        presence frames, user_list and error do. */
    predicate PrintsLine(f: Frame)
    {
      IsKind(f, "chat") || IsKind(f, "user_joined") || IsKind(f, "user_left") || IsKind(f, "user_list") || IsKind(f, "error")
    }

    /** handle_message (src/online_chat.py:48-73) for the frame f received at
        now: a chat drops its sender from the typing line; the presence
        frames replace the roster with their users field, and user_left also
        drops the departed name; a ping is answered with one pong;
        typing_status sets the typing line; an error or any other type only
        prints. Each printed line goes through prompt_toolkit's HTML, which
        raises when the text it is given is not well-formed markup (a name
        or message holding '<' or '&', say): lineParses says whether the
        frame's own line parses, typingLineParses whether the typing line
        redrawn at the end does. A user_left line that does not parse
        raises before the departed name leaves the typing line. raised says
        that handle_message raised: the line, the pong (no socket, or a send
        that raises) or the redrawn typing line. */
    method HandleMessage(f: Frame, now: Time, sendOk: bool, lineParses: bool, typingLineParses: bool)
      returns (raised: bool)
      requires Valid()
      modifies this`onlineUsers, this`typing, this`sent
      ensures Valid()
      ensures raised <==> || (PrintsLine(f) && !lineParses)
                          || (IsKind(f, "ping") && (websocket.None? || !sendOk))
                          || (typing.order != [] && !typingLineParses)
      ensures IsKind(f, "chat")
        ==> typing == old(typing).RemoveAll({f.username.GetOr("???")}) && onlineUsers == old(onlineUsers)
      ensures IsKind(f, "user_joined") || IsKind(f, "user_list")
        ==> onlineUsers == f.users.GetOr([]) && typing == old(typing)
      ensures IsKind(f, "user_left")
        ==> onlineUsers == f.users.GetOr([])
            && typing == if f.username.Some? && lineParses then old(typing).RemoveAll({f.username.value}) else old(typing)
      ensures IsKind(f, "typing_status")
        ==> onlineUsers == old(onlineUsers)
            && (forall u :: u in typing.entries <==> u in f.typingUsers.GetOr([]) && u != username)
            && (forall u :: u in typing.entries ==> typing.entries[u] == now)
      ensures IsKind(f, "ping")
        ==> onlineUsers == old(onlineUsers) && typing == old(typing)
            && sent == old(sent) + (if websocket.Some? && sendOk then [Typed("pong")] else [])
      ensures !IsKind(f, "ping") ==> sent == old(sent)
      ensures !IsKind(f, "chat") && !IsKind(f, "user_joined") && !IsKind(f, "user_left")
              && !IsKind(f, "user_list") && !IsKind(f, "ping") && !IsKind(f, "typing_status")
        ==> onlineUsers == old(onlineUsers) && typing == old(typing)
    {
      raised := false;
      if IsKind(f, "chat") {
        var sender := f.username.GetOr("???");
        RemoveAllSpec(typing, {sender});
        typing := typing.RemoveAll({sender});
        raised := !lineParses;
      } else if IsKind(f, "user_joined") || IsKind(f, "user_left") {
        onlineUsers := f.users.GetOr([]);
        if !lineParses {
          raised := true;
        } else if IsKind(f, "user_left") && f.username.Some? {
          RemoveAllSpec(typing, {f.username.value});
          typing := typing.RemoveAll({f.username.value});
        }
      } else if IsKind(f, "user_list") {
        onlineUsers := f.users.GetOr([]);
        raised := !lineParses;
      } else if IsKind(f, "ping") {
        if websocket.None? {
          raised := true;
        } else {
          raised := Write(Typed("pong"), sendOk);
        }
      } else if IsKind(f, "typing_status") {
        ApplyTypingStatus(f.typingUsers.GetOr([]), now);
      } else if IsKind(f, "error") {
        raised := !lineParses;
      }
      if !raised && typing.order != [] && !typingLineParses {
        raised := true;
      }
    }

    /** send_message (src/online_chat.py:75-77): a chat frame without a
        username, only while connected and only for text that is not all
        whitespace. */
    method SendMessage(message: string, sendOk: bool) returns (raised: bool)
      requires Valid()
      modifies this`sent
      ensures raised <==> IsConnected() && !IsBlank(message) && !sendOk
      ensures sent == old(sent) + (if IsConnected() && !IsBlank(message) && sendOk then [ChatText(message)] else [])
    {
      StripSpec(message);
      raised := false;
      if !(IsConnected() && Strip(message) != []) {
        return;
      }
      raised := Write(ChatText(message), sendOk);
    }

    /** call_flowey (src/online_chat.py:79-81): only connectedness is
        checked; a blank question is sent too. */
    method CallFlowey(message: string, sendOk: bool) returns (raised: bool)
      requires Valid()
      modifies this`sent
      ensures raised <==> IsConnected() && !sendOk
      ensures sent == old(sent) + (if IsConnected() && sendOk then [FloweyQuery(message)] else [])
    {
      raised := false;
      if !IsConnected() {
        return;
      }
      raised := Write(FloweyQuery(message), sendOk);
    }

    /** disconnect (src/online_chat.py:83-87): with a socket, send leave and,
        whether or not that raises, drop the socket and the flag; then
        cancel the sweeper. A raising leave propagates out of the finally,
        so the cancel is skipped. */
    method Disconnect(sendOk: bool) returns (raised: bool)
      requires Valid()
      modifies this`websocket, this`connected, this`sent, this`sweeper
      ensures Valid()
      ensures websocket.None? && !connected
      ensures raised <==> old(websocket).Some? && !sendOk
      ensures sent == old(sent) + (if old(websocket).Some? && sendOk then [Typed("leave")] else [])
      ensures sweeper == if raised || !old(sweeper).Running? then old(sweeper) else Finished
    {
      raised := false;
      if websocket.Some? {
        raised := Write(Typed("leave"), sendOk);
        websocket := None;
        connected := false;
        if raised {
          return;
        }
      }
      if sweeper.Running? {
        sweeper := Finished;
      }
    }

    /** The list comprehension of _cleanup_typing_display
        (src/online_chat.py:93): the names whose entry is more than five
        seconds old at now, in the map's order. */
    method StaleNames(now: Time) returns (toRemove: seq<string>)
      requires Valid()
      ensures forall u :: u in toRemove <==> u in Stale(typing, now)
    {
      toRemove := [];
      var i := 0;
      while i < |typing.order|
        invariant 0 <= i <= |typing.order|
        invariant forall u :: u in toRemove <==> u in typing.order[..i] && now - typing.entries[u] > TypingShownFor
      {
        var u := typing.order[i];
        if now - typing.entries[u] > TypingShownFor {
          toRemove := toRemove + [u];
        }
        assert typing.order[..i + 1] == typing.order[..i] + [u];
        i := i + 1;
      }
      assert typing.order[..i] == typing.order;
    }

    /** One pass of _cleanup_typing_display (src/online_chat.py:92-97):
        collect the stale names, then delete each. */
    method Sweep(now: Time)
      requires Valid()
      modifies this`typing
      ensures Valid()
      ensures typing == old(typing).RemoveAll(Stale(old(typing), now))
    {
      var toRemove := StaleNames(now);
      ghost var d0 := typing;
      ghost var gone: set<string> := {};
      RemoveAbsent(d0, gone);
      var k := 0;
      while k < |toRemove|
        invariant 0 <= k <= |toRemove|
        invariant gone == set u | u in toRemove[..k]
        invariant typing == d0.RemoveAll(gone)
      {
        assert toRemove[..k + 1] == toRemove[..k] + [toRemove[k]];
        RemoveAllTwice(d0, gone, {toRemove[k]});
        typing := typing.RemoveAll({toRemove[k]});
        gone := gone + {toRemove[k]};
        k := k + 1;
      }
      assert toRemove[..k] == toRemove;
      assert gone == Stale(d0, now);
      SweepSpec(d0, now);
    }

    /** The sweeper's loop (src/online_chat.py:89-97), one sweep per wake-up
        at the given times: it never adds a name, and after the last wake-up
        no name older than five seconds at that time is left. */
    method RunSweeper(wakes: seq<Time>)
      requires Valid()
      modifies this`typing
      ensures Valid()
      ensures forall u :: u in typing.entries ==> u in old(typing.entries) && typing.entries[u] == old(typing.entries)[u]
      ensures wakes != [] ==> Stale(typing, wakes[|wakes| - 1]) == {}
    {
      var i := 0;
      while i < |wakes|
        invariant 0 <= i <= |wakes|
        invariant Valid()
        invariant forall u :: u in typing.entries ==> u in old(typing.entries) && typing.entries[u] == old(typing.entries)[u]
        invariant i > 0 ==> Stale(typing, wakes[i - 1]) == {}
      {
        ghost var before := typing;
        Sweep(wakes[i]);
        SweepSpec(before, wakes[i]);
        i := i + 1;
      }
    }
  }
}
