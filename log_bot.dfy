/** The chat-log bot: its channel table, its event handlers and its
    connection supervision, as a class whose methods update its fields in
    place. Each method is tied to the value-level definitions of
    LogStore and Reconnect, where the properties are proved.

    The chat library is not modelled: what the bot asks of it (connect,
    join, send a message, quit) is recorded in `sent`, the outcome of a
    connection attempt is an input, and so are the clock (`now`, in whole
    seconds) and the UTC date and time strings (`today`, `time`). */
module Bot {
  import opened LogFormat
  import opened LogStore
  import Reconnect

  /** A request made to the chat library. */
  datatype Command = ConnectCmd | JoinCmd(channel: string) | PrivmsgCmd(target: string, text: string) | QuitCmd(reason: string)

  /** How a write ended: the source either returns or raises. */
  datatype Status = Ok | Err(error: WriteError)

  /** The join requests for `cs`, in order. */
  function JoinCommands(cs: seq<string>): (r: seq<Command>)
    ensures |r| == |cs|
  {
    if cs == [] then [] else JoinCommands(cs[..|cs| - 1]) + [JoinCmd(cs[|cs| - 1])]
  }

  /** The configured channels that the welcome handler joins and opens, in
      configuration order: those that the library accepts as channel names. */
  function Welcomed(cs: seq<string>, isChannel: string -> bool): (r: seq<string>)
    ensures |r| <= |cs|
    ensures forall c :: c in r ==> isChannel(c)
    decreases |cs|
  {
    if cs == [] then []
    else Welcomed(cs[..|cs| - 1], isChannel) + (if isChannel(cs[|cs| - 1]) then [cs[|cs| - 1]] else [])
  }

  /** The welcome handler opens exactly the configured names that are
      channel names. */
  lemma {:induction false} WelcomedMembers(cs: seq<string>, isChannel: string -> bool)
    ensures forall c :: c in Welcomed(cs, isChannel) <==> c in cs && isChannel(c)
    decreases |cs|
  {
    if cs != [] {
      var init := cs[..|cs| - 1];
      WelcomedMembers(init, isChannel);
      assert cs == init + [cs[|cs| - 1]];
    }
  }

  lemma WelcomedStep(cs: seq<string>, i: nat, isChannel: string -> bool)
    requires i < |cs|
    ensures var w := Welcomed(cs[..i], isChannel);
      Welcomed(cs[..i + 1], isChannel) == if isChannel(cs[i]) then w + [cs[i]] else w
  {
    assert cs[..i + 1][..i] == cs[..i];
  }

  lemma JoinCommandsStep(sent: seq<Command>, cs: seq<string>, c: string)
    ensures sent + JoinCommands(cs + [c]) == sent + JoinCommands(cs) + [JoinCmd(c)]
  {
    assert (cs + [c])[..|cs|] == cs;
  }

  class LogBot {
    /** The configured channel list. */
    const channels: seq<string>
    /** The per-channel log state, keyed by channel name. */
    var cdata: map<string, Entry>
    /** Every file handle joined so far; entries of `cdata` point into it. */
    var handles: seq<FileHandle>
    /** Whether the library reports the connection as up. */
    var connected: bool
    /** How many reconnect checks are scheduled. */
    var armed: nat
    /** Everything asked of the chat library, in order. */
    var sent: seq<Command>

    ghost function Table(): Store
      reads this
    {
      Store(cdata, handles)
    }

    ghost function LinkState(): Reconnect.Link
      reads this
    {
      Reconnect.Link(connected, armed)
    }

    ghost predicate Valid()
      reads this
    {
      LogStore.Valid(Table())
    }

    constructor (channels: seq<string>)
      ensures Valid()
      ensures this.channels == channels
      ensures cdata == map[] && handles == []
      ensures !connected && armed == 0 && sent == []
    {
      this.channels := channels;
      cdata := map[];
      handles := [];
      connected := false;
      armed := 0;
      sent := [];
    }

    method Privmsg(target: string, message: string)
      modifies this`sent
      ensures sent == old(sent) + [PrivmsgCmd(target, message)]
    {
      sent := sent + [PrivmsgCmd(target, message)];
    }

    // -------------------------------------------------------------------
    // The log files

    /** Opens the channel's files for today, or rotates them. */
    method Reopen(c: string, today: string)
      requires Valid()
      modifies this`cdata, this`handles
      ensures Valid()
      ensures Table() == LogStore.Reopen(old(Table()), c, today)
    {
      ghost var s := Table();
      if c in cdata {
        var fh := cdata[c].msgFh;
        assert WellFormedEntry(s, c);
        handles := handles[fh := Closed(handles[fh])];
      }
      var msgFh, joinFh := |handles|, |handles| + 1;
      handles := handles + [OpenAppend(LogFile(Messages, today, c)), OpenAppend(LogFile(Joins, today, c))];
      cdata := cdata[c := Entry(today, 0, msgFh, 0, joinFh)];
      assert Table() == LogStore.Reopen(s, c, today);
    }

    /** Rotates the channel's files when their date is not today's. */
    method CheckDate(c: string, today: string)
      requires Valid() && c in cdata
      modifies this`cdata, this`handles
      ensures Valid()
      ensures Table() == LogStore.CheckDate(old(Table()), c, today)
    {
      if cdata[c].date != today {
        Reopen(c, today);
      }
    }

    /** `write_msg` (kind `Messages`) and `write_join` (kind `Joins`). */
    method Write(c: string, kind: LogKind, line: string, flush: bool, now: int, today: string) returns (status: Status)
      requires Valid()
      modifies this`cdata, this`handles
      ensures Valid()
      ensures var w := LogStore.Write(old(Table()), c, kind, line, flush, now, today);
        && (w.Written? ==> status == Ok && Table() == w.store)
        && (w.Failed? ==> status == Err(w.error) && Table() == old(Table()))
    {
      if c !in cdata {
        return Err(NoEntry);
      }
      ghost var s0 := Table();
      CheckDate(c, today);
      ghost var s1 := Table();
      assert WellFormedEntry(s1, c);
      var e := cdata[c];
      var id := e.Fh(kind);
      if !handles[id].isOpen {
        assert s1 == s0 by { CheckDateHandles(s0, c, today, kind); }
        return Err(ClosedFile);
      }
      Append(c, kind, line, flush, now);
      status := Ok;
    }

    /** The write itself: append the line and flush when due. */
    method Append(c: string, kind: LogKind, line: string, flush: bool, now: int)
      requires Valid() && c in cdata
      modifies this`cdata, this`handles
      ensures Table() == AppendLine(old(Table()), c, kind, line, flush, now)
    {
      ghost var s := Table();
      assert WellFormedEntry(s, c);
      var e := cdata[c];
      var id := e.Fh(kind);
      var h := Appended(handles[id], line + "\n");
      if flush && now - e.LastFlush(kind) > FlushInterval {
        handles := handles[id := Flushed(h)];
        cdata := cdata[c := e.WithLastFlush(kind, now)];
      } else {
        handles := handles[id := h];
        assert cdata == s.cdata[c := e];
      }
    }

    // -------------------------------------------------------------------
    // Event handlers

    /** Joins every configured channel name the library accepts and opens
        its files. */
    method OnWelcome(isChannel: string -> bool, today: string)
      requires Valid()
      modifies this`cdata, this`handles, this`sent
      ensures Valid()
      ensures Table() == ReopenAll(old(Table()), Welcomed(channels, isChannel), today)
      ensures sent == old(sent) + JoinCommands(Welcomed(channels, isChannel))
    {
      var i := 0;
      ghost var joined: seq<string> := [];
      ghost var s0, sent0 := Table(), sent;
      while i < |channels|
        invariant 0 <= i <= |channels|
        invariant joined == Welcomed(channels[..i], isChannel)
        invariant Table() == ReopenAll(s0, joined, today)
        invariant sent == sent0 + JoinCommands(joined)
      {
        var channel := channels[i];
        WelcomedStep(channels, i, isChannel);
        if isChannel(channel) {
          JoinAndOpen(channel, today, s0, sent0, joined);
          joined := joined + [channel];
        }
        i := i + 1;
      }
      assert channels[..i] == channels;
    }

    /** Joins one more channel and opens its files: the table and the
        commands sent grow by that channel. */
    method JoinAndOpen(channel: string, today: string, ghost s0: Store, ghost sent0: seq<Command>, ghost joined: seq<string>)
      requires LogStore.Valid(s0)
      requires Table() == ReopenAll(s0, joined, today)
      requires sent == sent0 + JoinCommands(joined)
      modifies this`cdata, this`handles, this`sent
      ensures Table() == ReopenAll(s0, joined + [channel], today)
      ensures sent == sent0 + JoinCommands(joined + [channel])
    {
      sent := sent + [JoinCmd(channel)];
      Reopen(channel, today);
      ReopenAllStep(s0, joined, channel, today);
      JoinCommandsStep(sent0, joined, channel);
    }

    /** Logs a public message; the administrator's ping is answered once the
        message is logged. */
    method OnPubmsg(target: string, user: string, text: string, time: string, now: int, today: string) returns (status: Status)
      requires Valid()
      modifies this`cdata, this`handles, this`sent
      ensures Valid()
      ensures var w := LogStore.Write(old(Table()), target, Messages, Line(time, Said(user, text)), true, now, today);
        && (w.Written? ==> status == Ok && Table() == w.store)
        && (w.Failed? ==> status == Err(w.error) && Table() == old(Table()))
      ensures sent == old(sent) +
        if status == Ok && user == Admin && text == PingCommand then [PrivmsgCmd(target, PongReply)] else []
    {
      status := Write(target, Messages, Line(time, Said(user, text)), true, now, today);
      if status == Ok && user == Admin && text == PingCommand {
        Privmsg(target, PongReply);
      }
    }

    /** Logs a user joining the channel. */
    method OnJoin(target: string, user: string, time: string, now: int, today: string) returns (status: Status)
      requires Valid()
      modifies this`cdata, this`handles
      ensures Valid()
      ensures var w := LogStore.Write(old(Table()), target, Joins, Line(time, Joined(user)), true, now, today);
        && (w.Written? ==> status == Ok && Table() == w.store)
        && (w.Failed? ==> status == Err(w.error) && Table() == old(Table()))
    {
      status := Write(target, Joins, Line(time, Joined(user)), true, now, today);
    }

    /** Logs a user leaving the channel. */
    method OnPart(target: string, user: string, time: string, now: int, today: string) returns (status: Status)
      requires Valid()
      modifies this`cdata, this`handles
      ensures Valid()
      ensures var w := LogStore.Write(old(Table()), target, Joins, Line(time, Parted(user)), true, now, today);
        && (w.Written? ==> status == Ok && Table() == w.store)
        && (w.Failed? ==> status == Err(w.error) && Table() == old(Table()))
    {
      status := Write(target, Joins, Line(time, Parted(user)), true, now, today);
    }

    /** Says goodbye if connected, then closes both handles of every
        channel in the table. */
    method Quit()
      requires Valid()
      modifies this`handles, this`sent
      ensures Valid()
      ensures Table() == CloseAll(old(Table()))
      ensures sent == old(sent) + if connected then [QuitCmd("bye")] else []
    {
      if connected {
        sent := sent + [QuitCmd("bye")];
      }
      CloseEach();
      assert Table() == CloseAll(old(Table()));
    }

    /** The loop of `quit`: closes both handles of every entry, in whatever
        order the table yields them. */
    method CloseEach()
      requires forall c :: c in cdata ==> cdata[c].msgFh < |handles| && cdata[c].joinFh < |handles|
      modifies this`handles
      ensures handles == CloseIds(old(handles), OwnedIds(cdata, cdata.Keys))
    {
      var todo := cdata.Keys;
      ghost var done: set<string> := {};
      ghost var h0 := handles;
      while todo != {}
        invariant done + todo == cdata.Keys
        invariant handles == CloseIds(h0, OwnedIds(cdata, done))
        decreases todo
      {
        var c :| c in todo;
        var e := cdata[c];
        OwnedIdsAdd(cdata, done, c);
        CloseHandle(e.msgFh, h0, OwnedIds(cdata, done));
        CloseHandle(e.joinFh, h0, OwnedIds(cdata, done) + {e.msgFh});
        todo := todo - {c};
        done := done + {c};
      }
      assert done == cdata.Keys;
    }

    /** Closes one more handle of a partly closed list. */
    method CloseHandle(id: nat, ghost h0: seq<FileHandle>, ghost ids: set<nat>)
      requires id < |handles| && handles == CloseIds(h0, ids)
      modifies this`handles
      ensures handles == CloseIds(h0, ids + {id})
    {
      CloseIdsAdd(h0, ids, id);
      handles := handles[id := Closed(handles[id])];
    }

    // -------------------------------------------------------------------
    // Connection supervision

    /** One connection attempt; a failure is swallowed. */
    method Connect(succeeds: bool)
      modifies this`connected, this`sent
      ensures LinkState() == Reconnect.Connect(old(LinkState()), succeeds)
      ensures sent == old(sent) + [ConnectCmd]
    {
      sent := sent + [ConnectCmd];
      connected := succeeds;
    }

    /** The scheduled check: while disconnected, schedule the next check and
        try to connect; once connected, stop. */
    method ConnectedChecker(succeeds: bool)
      modifies this`connected, this`armed, this`sent
      ensures LinkState() == Reconnect.ConnectedChecker(old(LinkState()), succeeds)
      ensures sent == old(sent) + if old(connected) then [] else [ConnectCmd]
    {
      if !connected {
        armed := armed + 1;
        Connect(succeeds);
      }
    }

    /** The disconnect handler; the library has already marked the
        connection down when it runs. */
    method OnDisconnect()
      modifies this`connected, this`armed
      ensures LinkState() == Reconnect.OnDisconnect(old(LinkState()))
    {
      connected := false;
      armed := armed + 1;
    }

    /** The library's reactor runs one scheduled check. */
    method RunScheduledCheck(succeeds: bool)
      requires armed > 0
      modifies this`connected, this`armed, this`sent
      ensures LinkState() == Reconnect.Fire(old(LinkState()), succeeds)
      ensures sent == old(sent) + if old(connected) then [] else [ConnectCmd]
    {
      armed := armed - 1;
      ConnectedChecker(succeeds);
    }

    /** Start-up: the first connection attempt is made through a check, so
        that a failure is retried like any later one. */
    method Start(succeeds: bool)
      requires !connected && armed == 0
      modifies this`connected, this`armed, this`sent
      ensures LinkState() == Reconnect.Start(succeeds)
      ensures Reconnect.Supervised(LinkState())
      ensures sent == old(sent) + [ConnectCmd]
    {
      ConnectedChecker(succeeds);
    }
  }
}
