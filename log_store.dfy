/** The per-channel log state of the bot, as values.

    The bot keeps a table from channel name to an entry holding the UTC date
    its files were opened for, a handle on each of its two log files and,
    per handle, when it was last flushed. File handles are objects: a handle
    that the table lets go of keeps existing, open or closed. They are
    modelled here as the sequence `handles` of every handle ever opened,
    and an entry holds positions in it. */
module LogStore {
  import opened LogFormat

  /** Seconds that must pass, strictly, between two flushes of a handle. */
  const FlushInterval: int := 5

  /** A file opened for appending: which log file it is, what has been
      written through it, how much of that has been flushed, and whether it
      is still open. */
  datatype FileHandle = FileHandle(file: LogFile, isOpen: bool, written: seq<string>, flushed: nat)
  {
    /** The name the file was opened under. */
    function Path(): string {
      LogPath(file.kind, file.date, file.channel)
    }
  }

  /** `open(name, 'a')`: an open handle on the file, through which
      nothing has been written or flushed yet. */
  function OpenAppend(file: LogFile): (r: FileHandle)
    ensures r.file == file && r.isOpen && r.written == [] && r.flushed == 0
  {
    FileHandle(file, true, [], 0)
  }

  /** `close()`: the handle is closed with everything written through it
      flushed, so closing a closed file changes nothing. */
  function Closed(h: FileHandle): (r: FileHandle)
    ensures !r.isOpen && r.file == h.file && r.written == h.written && r.flushed == |r.written|
    ensures !h.isOpen && h.flushed == |h.written| ==> r == h
  {
    h.(isOpen := false, flushed := |h.written|)
  }

  /** `flush()`: everything written so far is flushed; the handle stays as
      open as it was. */
  function Flushed(h: FileHandle): (r: FileHandle)
    ensures r.file == h.file && r.isOpen == h.isOpen && r.written == h.written && r.flushed == |r.written|
  {
    h.(flushed := |h.written|)
  }

  /** `write(chunk)`: the chunk goes after what was written before, and
      only buffered: the flushed prefix does not grow. */
  function Appended(h: FileHandle, chunk: string): (r: FileHandle)
    ensures r.file == h.file && r.isOpen == h.isOpen && r.flushed == h.flushed
    ensures |r.written| == |h.written| + 1 && r.written[..|h.written|] == h.written && r.written[|h.written|] == chunk
  {
    h.(written := h.written + [chunk])
  }

  /** One channel's entry: the date its files are for, and per log kind
      the last flush time and the position of the handle. */
  datatype Entry = Entry(date: string, msgLastFlush: int, msgFh: nat, joinLastFlush: int, joinFh: nat)
  {
    function Fh(kind: LogKind): nat {
      match kind
      case Messages => msgFh
      case Joins => joinFh
    }

    function LastFlush(kind: LogKind): int {
      match kind
      case Messages => msgLastFlush
      case Joins => joinLastFlush
    }

    function WithLastFlush(kind: LogKind, t: int): Entry {
      match kind
      case Messages => this.(msgLastFlush := t)
      case Joins => this.(joinLastFlush := t)
    }
  }

  datatype Store = Store(cdata: map<string, Entry>, handles: seq<FileHandle>)

  /** No two entries share a handle. */
  predicate Disjoint(e1: Entry, e2: Entry) {
    e1.msgFh != e2.msgFh && e1.msgFh != e2.joinFh && e1.joinFh != e2.msgFh && e1.joinFh != e2.joinFh
  }

  /** An entry's two handles exist, differ, and are the files of its date. */
  ghost predicate WellFormedEntry(s: Store, c: string)
    requires c in s.cdata
  {
    var e := s.cdata[c];
    && e.msgFh < |s.handles|
    && e.joinFh < |s.handles|
    && e.msgFh != e.joinFh
    && s.handles[e.msgFh].file == LogFile(Messages, e.date, c)
    && s.handles[e.joinFh].file == LogFile(Joins, e.date, c)
  }

  /** Two different entries share no handle. */
  ghost predicate Separate(s: Store, c: string, d: string) {
    c in s.cdata && d in s.cdata && c != d ==> Disjoint(s.cdata[c], s.cdata[d])
  }

  /** The table invariant: no handle has flushed more than was written,
      every entry is well formed, and every handle has one owner. */
  ghost predicate Valid(s: Store) {
    && (forall i :: 0 <= i < |s.handles| ==> s.handles[i].flushed <= |s.handles[i].written|)
    && (forall c :: c in s.cdata ==> s.cdata[c].msgFh < |s.handles| && s.cdata[c].joinFh < |s.handles|)
    && (forall c {:trigger WellFormedEntry(s, c)} :: c in s.cdata ==> WellFormedEntry(s, c))
    && (forall c, d :: Separate(s, c, d))
  }

  /** Every handle the table holds is open. */
  ghost predicate AllOpen(s: Store)
    requires Valid(s)
  {
    forall c :: c in s.cdata ==> s.handles[s.cdata[c].msgFh].isOpen && s.handles[s.cdata[c].joinFh].isOpen
  }

  /** The state `reopen` leaves an entry in: today's date, both last-flush
      times 0, and both handles newly opened on today's files. */
  ghost predicate FreshEntry(s: Store, c: string, today: string) {
    && c in s.cdata
    && var e := s.cdata[c];
    && e.date == today
    && e.msgLastFlush == 0
    && e.joinLastFlush == 0
    && e.msgFh < |s.handles|
    && e.joinFh < |s.handles|
    && s.handles[e.msgFh] == OpenAppend(LogFile(Messages, today, c))
    && s.handles[e.joinFh] == OpenAppend(LogFile(Joins, today, c))
  }

  // ---------------------------------------------------------------------
  // reopen

  /** Opens a channel's files for today, or rotates them: the old message
      handle is closed, the old join handle is dropped from the table
      without an explicit close, and no other entry changes. */
  function Reopen(s: Store, c: string, today: string): (r: Store)
    requires Valid(s)
    ensures Valid(r)
  {
    var hs := if c in s.cdata then s.handles[s.cdata[c].msgFh := Closed(s.handles[s.cdata[c].msgFh])] else s.handles;
    var r := Store(s.cdata[c := Entry(today, 0, |hs|, 0, |hs| + 1)],
                   hs + [OpenAppend(LogFile(Messages, today, c)), OpenAppend(LogFile(Joins, today, c))]);
    ReopenedValid(s, c, today, r);
    r
  }

  /** What `reopen` does: the channel gets a fresh entry for today on two
      newly opened handles; an existing entry's message handle is closed
      and its join handle, dropped without an explicit close, is left as it
      was; nothing else changes. */
  lemma ReopenSpec(s: Store, c: string, today: string)
    requires Valid(s)
    ensures var r := Reopen(s, c, today);
      && r.cdata.Keys == s.cdata.Keys + {c}
      && FreshEntry(r, c, today)
      && |r.handles| == |s.handles| + 2
      && r.cdata[c].msgFh >= |s.handles| && r.cdata[c].joinFh >= |s.handles|
      && (forall d :: d in s.cdata && d != c ==> r.cdata[d] == s.cdata[d])
      && (forall i :: 0 <= i < |s.handles| ==>
            r.handles[i] == if c in s.cdata && i == s.cdata[c].msgFh then Closed(s.handles[i]) else s.handles[i])
      && (c in s.cdata ==>
            && r.handles[s.cdata[c].msgFh] == Closed(s.handles[s.cdata[c].msgFh])
            && r.handles[s.cdata[c].joinFh] == s.handles[s.cdata[c].joinFh])
  {
    ReopenedFresh(s, c, today, Reopen(s, c, today));
  }

  /** The table `reopen` leaves behind holds a fresh entry for the channel
      and leaves the others alone. */
  lemma ReopenedFresh(s: Store, c: string, today: string, r: Store)
    requires Valid(s)
    requires r.cdata == s.cdata[c := Entry(today, 0, |s.handles|, 0, |s.handles| + 1)]
    requires |r.handles| == |s.handles| + 2
    requires forall i :: 0 <= i < |s.handles| ==>
      r.handles[i] == if c in s.cdata && i == s.cdata[c].msgFh then Closed(s.handles[i]) else s.handles[i]
    requires r.handles[|s.handles|] == OpenAppend(LogFile(Messages, today, c))
    requires r.handles[|s.handles| + 1] == OpenAppend(LogFile(Joins, today, c))
    ensures r.cdata.Keys == s.cdata.Keys + {c}
    ensures FreshEntry(r, c, today)
    ensures forall d :: d in s.cdata && d != c ==> r.cdata[d] == s.cdata[d]
    ensures forall i :: 0 <= i < |s.handles| ==>
      r.handles[i] == if c in s.cdata && i == s.cdata[c].msgFh then Closed(s.handles[i]) else s.handles[i]
    ensures c in s.cdata ==>
      && r.handles[s.cdata[c].msgFh] == Closed(s.handles[s.cdata[c].msgFh])
      && r.handles[s.cdata[c].joinFh] == s.handles[s.cdata[c].joinFh]
  {
    if c in s.cdata {
      assert WellFormedEntry(s, c);
    }
  }

  /** The table `reopen` leaves behind satisfies the invariant. */
  lemma ReopenedValid(s: Store, c: string, today: string, r: Store)
    requires Valid(s)
    requires r.cdata == s.cdata[c := Entry(today, 0, |s.handles|, 0, |s.handles| + 1)]
    requires |r.handles| == |s.handles| + 2
    requires forall i :: 0 <= i < |s.handles| ==>
      r.handles[i] == if c in s.cdata && i == s.cdata[c].msgFh then Closed(s.handles[i]) else s.handles[i]
    requires r.handles[|s.handles|] == OpenAppend(LogFile(Messages, today, c))
    requires r.handles[|s.handles| + 1] == OpenAppend(LogFile(Joins, today, c))
    ensures Valid(r)
  {
    forall i | 0 <= i < |r.handles| ensures r.handles[i].flushed <= |r.handles[i].written| {
      if i < |s.handles| {
        assert s.handles[i].flushed <= |s.handles[i].written|;
      }
    }
    forall d | d in r.cdata ensures WellFormedEntry(r, d) {
      if d != c {
        assert WellFormedEntry(s, d);
        if c in s.cdata {
          assert Separate(s, c, d);
        }
      }
    }
    forall d, d' ensures Separate(r, d, d') {
      if d !in r.cdata || d' !in r.cdata || d == d' {
      } else if d != c && d' != c {
        assert Separate(s, d, d');
      } else if d == c {
        assert WellFormedEntry(s, d');
      } else {
        assert WellFormedEntry(s, d);
      }
    }
  }

  /** Rotating one channel keeps every other channel's fresh entry fresh. */
  lemma ReopenKeepsFresh(s: Store, c: string, today: string, d: string, t: string)
    requires Valid(s) && d != c && FreshEntry(s, d, t)
    ensures FreshEntry(Reopen(s, c, today), d, t)
  {
    var r := Reopen(s, c, today);
    if c in s.cdata {
      assert Separate(s, c, d);
    }
    assert r.cdata[d] == s.cdata[d];
  }

  // ---------------------------------------------------------------------
  // _check_date

  /** Rotates a channel's files exactly when its date is not today's. */
  function CheckDate(s: Store, c: string, today: string): (r: Store)
    requires Valid(s) && c in s.cdata
    ensures Valid(r)
    ensures r.cdata.Keys == s.cdata.Keys && r.cdata[c].date == today
    ensures s.cdata[c].date == today ==> r == s
    ensures s.cdata[c].date != today ==> r == Reopen(s, c, today)
  {
    if s.cdata[c].date != today then Reopen(s, c, today) else s
  }

  /** After the date check, each of the channel's handles is either the
      one it had, or a new one on today's file with a last-flush time 0. */
  lemma CheckDateHandles(s: Store, c: string, today: string, k: LogKind)
    requires Valid(s) && c in s.cdata
    ensures var r, rot := CheckDate(s, c, today), s.cdata[c].date != today;
      && WellFormedEntry(r, c)
      && r.cdata[c].LastFlush(k) == (if rot then 0 else s.cdata[c].LastFlush(k))
      && r.handles[r.cdata[c].Fh(k)] == (if rot then OpenAppend(LogFile(k, today, c)) else s.handles[s.cdata[c].Fh(k)])
  {
    var r := CheckDate(s, c, today);
    assert WellFormedEntry(r, c);
    if s.cdata[c].date != today {
      assert FreshEntry(r, c, today);
    }
  }

  // ---------------------------------------------------------------------
  // write_msg / write_join

  /** The two ways a write fails in the source: the channel has no entry
      (the table lookup raises), or the handle was closed by a quit and the
      date has not changed since (writing to a closed file raises). */
  datatype WriteError = NoEntry | ClosedFile

  datatype WriteResult = Written(store: Store) | Failed(error: WriteError)

  /** Whether a write to `c` today finds a handle it can append to. */
  ghost predicate Writable(s: Store, c: string, kind: LogKind, today: string)
    requires Valid(s)
  {
    c in s.cdata && (s.cdata[c].date != today || s.handles[s.cdata[c].Fh(kind)].isOpen)
  }

  /** The same files: an entry whose date and handles did not change. */
  predicate SameFiles(e1: Entry, e2: Entry) {
    e1.date == e2.date && e1.msgFh == e2.msgFh && e1.joinFh == e2.joinFh
  }

  /** Changing only the contents of handles and the flush times of entries
      keeps the table invariant. */
  lemma SameFilesValid(s: Store, r: Store)
    requires Valid(s)
    requires r.cdata.Keys == s.cdata.Keys
    requires forall c :: c in s.cdata ==> SameFiles(r.cdata[c], s.cdata[c])
    requires |r.handles| == |s.handles|
    requires forall i :: 0 <= i < |s.handles| ==>
      r.handles[i].file == s.handles[i].file && r.handles[i].flushed <= |r.handles[i].written|
    ensures Valid(r)
  {
    forall c | c in r.cdata ensures WellFormedEntry(r, c) {
      assert WellFormedEntry(s, c);
    }
    forall c, d ensures Separate(r, c, d) {
      assert Separate(s, c, d);
    }
  }

  /** Appends `line` and a newline to the channel's handle of `kind`, then
      flushes it when `flush` is set and more than `FlushInterval` seconds
      have passed since its last flush. */
  function AppendLine(s: Store, c: string, kind: LogKind, line: string, flush: bool, now: int): (r: Store)
    requires Valid(s) && c in s.cdata
    ensures Valid(r)
    ensures r.cdata.Keys == s.cdata.Keys && |r.handles| == |s.handles|
    ensures forall d :: d in s.cdata && d != c ==> r.cdata[d] == s.cdata[d]
    ensures SameFiles(r.cdata[c], s.cdata[c])
    ensures var e0, e := s.cdata[c], r.cdata[c];
      var due := flush && now - e0.LastFlush(kind) > FlushInterval;
      var h0, h := s.handles[e0.Fh(kind)], r.handles[e.Fh(kind)];
      && h == h0.(written := h0.written + [line + "\n"], flushed := if due then |h0.written| + 1 else h0.flushed)
      && e.LastFlush(kind) == (if due then now else e0.LastFlush(kind))
      && e.LastFlush(Other(kind)) == e0.LastFlush(Other(kind))
    ensures forall i :: 0 <= i < |s.handles| && i != s.cdata[c].Fh(kind) ==> r.handles[i] == s.handles[i]
  {
    var e := s.cdata[c];
    var id := e.Fh(kind);
    assert WellFormedEntry(s, c);
    var h := Appended(s.handles[id], line + "\n");
    var due := flush && now - e.LastFlush(kind) > FlushInterval;
    var r := Store(s.cdata[c := if due then e.WithLastFlush(kind, now) else e],
                   s.handles[id := if due then Flushed(h) else h]);
    SameFilesValid(s, r);
    r
  }

  /** `write_msg` and `write_join`: rotates if the date changed, then
      appends the line, failing where the source raises. */
  function Write(s: Store, c: string, kind: LogKind, line: string, flush: bool, now: int, today: string): (r: WriteResult)
    requires Valid(s)
    ensures r.Written? ==> Valid(r.store)
  {
    if c !in s.cdata then Failed(NoEntry)
    else
      var s1 := CheckDate(s, c, today);
      assert WellFormedEntry(s1, c);
      if !s1.handles[s1.cdata[c].Fh(kind)].isOpen then Failed(ClosedFile)
      else Written(AppendLine(s1, c, kind, line, flush, now))
  }

  /** A write fails exactly when the channel has no entry, or when its
      handle is closed and no rotation replaces it. */
  lemma WriteErrors(s: Store, c: string, kind: LogKind, line: string, flush: bool, now: int, today: string)
    requires Valid(s)
    ensures var r := Write(s, c, kind, line, flush, now, today);
      && (c !in s.cdata ==> r == Failed(NoEntry))
      && (c in s.cdata ==> (r.Written? <==> Writable(s, c, kind, today)))
      && (c in s.cdata && r.Failed? ==> r.error == ClosedFile)
  {
    if c in s.cdata {
      assert WellFormedEntry(s, c);
    }
  }

  /** The triggering line lands in today's file of its kind, after
      whatever that handle held (nothing, if the write rotated), and the
      other handle of the channel receives nothing. */
  lemma WriteAppendsToToday(s: Store, c: string, kind: LogKind, line: string, flush: bool, now: int, today: string)
    requires Valid(s) && Write(s, c, kind, line, flush, now, today).Written?
    ensures var r := Write(s, c, kind, line, flush, now, today).store;
      var e0, e, rot := s.cdata[c], r.cdata[c], s.cdata[c].date != today;
      && r.cdata.Keys == s.cdata.Keys
      && e.date == today
      && |r.handles| == |s.handles| + (if rot then 2 else 0)
      && r.handles[e.Fh(kind)].file == LogFile(kind, today, c)
      && r.handles[e.Fh(kind)].isOpen
      && r.handles[e.Fh(kind)].written == (if rot then [] else s.handles[e0.Fh(kind)].written) + [line + "\n"]
      && r.handles[e.Fh(Other(kind))] ==
           (if rot then OpenAppend(LogFile(Other(kind), today, c)) else s.handles[e0.Fh(Other(kind))])
  {
    WriteErrors(s, c, kind, line, flush, now, today);
    CheckDateHandles(s, c, today, kind);
    CheckDateHandles(s, c, today, Other(kind));
  }

  /** The flush throttle: the handle is flushed, and its last-flush time
      set to `now`, exactly when `flush` is set and more than
      `FlushInterval` seconds have passed since its last flush (0 after a
      rotation); the other handle's last-flush time is untouched. */
  lemma WriteFlushThrottle(s: Store, c: string, kind: LogKind, line: string, flush: bool, now: int, today: string)
    requires Valid(s) && Write(s, c, kind, line, flush, now, today).Written?
    ensures var r := Write(s, c, kind, line, flush, now, today).store;
      var e0, e, rot := s.cdata[c], r.cdata[c], s.cdata[c].date != today;
      var last := if rot then 0 else e0.LastFlush(kind);
      var due := flush && now - last > FlushInterval;
      var h := r.handles[e.Fh(kind)];
      && e.LastFlush(kind) == (if due then now else last)
      && e.LastFlush(Other(kind)) == (if rot then 0 else e0.LastFlush(Other(kind)))
      && (due ==> h.flushed == |h.written|)
      && (!due ==> h.flushed == (if rot then 0 else s.handles[e0.Fh(kind)].flushed))
  {
    WriteErrors(s, c, kind, line, flush, now, today);
    CheckDateHandles(s, c, today, kind);
    CheckDateHandles(s, c, today, Other(kind));
  }

  /** A write changes no other channel's entry and no handle other than
      the channel's own; a rotation closes the old message handle and
      leaves the old join handle, which it drops without an explicit
      close, as it was. */
  lemma WriteLeavesOthers(s: Store, c: string, kind: LogKind, line: string, flush: bool, now: int, today: string)
    requires Valid(s) && Write(s, c, kind, line, flush, now, today).Written?
    ensures var r := Write(s, c, kind, line, flush, now, today).store;
      var e0 := s.cdata[c];
      && (forall d :: d in s.cdata && d != c ==> r.cdata[d] == s.cdata[d])
      && (forall i :: 0 <= i < |s.handles| && i != e0.msgFh && i != e0.joinFh ==> r.handles[i] == s.handles[i])
      && (e0.date != today ==>
            r.handles[e0.msgFh] == Closed(s.handles[e0.msgFh]) && r.handles[e0.joinFh] == s.handles[e0.joinFh])
  {
    WriteErrors(s, c, kind, line, flush, now, today);
    assert WellFormedEntry(s, c);
    if s.cdata[c].date != today {
      ReopenSpec(s, c, today);
    }
  }

  /** Reopening keeps every handle in the table open: the closed handle
      leaves the table along with the entry that held it. */
  lemma ReopenKeepsOpen(s: Store, c: string, today: string)
    requires Valid(s) && AllOpen(s)
    ensures AllOpen(Reopen(s, c, today))
  {
    var r := Reopen(s, c, today);
    forall d | d in r.cdata && d != c
      ensures r.handles[r.cdata[d].msgFh].isOpen && r.handles[r.cdata[d].joinFh].isOpen
    {
      assert Separate(s, c, d);
    }
  }

  /** Appending changes no handle's open state. */
  lemma AppendLineKeepsOpen(s: Store, c: string, kind: LogKind, line: string, flush: bool, now: int)
    requires Valid(s) && AllOpen(s) && c in s.cdata
    ensures AllOpen(AppendLine(s, c, kind, line, flush, now))
  {
    var r := AppendLine(s, c, kind, line, flush, now);
    forall d | d in r.cdata
      ensures r.handles[r.cdata[d].msgFh].isOpen && r.handles[r.cdata[d].joinFh].isOpen
    {
      if d != c {
        assert Separate(s, c, d);
      }
    }
  }

  /** While every handle in the table is open, writes to a channel with an
      entry succeed and keep every handle open. */
  lemma WriteKeepsOpen(s: Store, c: string, kind: LogKind, line: string, flush: bool, now: int, today: string)
    requires Valid(s) && AllOpen(s) && c in s.cdata
    ensures Write(s, c, kind, line, flush, now, today).Written?
    ensures AllOpen(Write(s, c, kind, line, flush, now, today).store)
  {
    var s1 := CheckDate(s, c, today);
    if s.cdata[c].date != today {
      ReopenKeepsOpen(s, c, today);
    }
    AppendLineKeepsOpen(s1, c, kind, line, flush, now);
  }

  /** The first flushing write after a reopen always flushes, provided the
      clock reads more than the flush interval. */
  lemma FirstWriteAfterReopenFlushes(s: Store, c: string, today: string, kind: LogKind, line: string, now: int)
    requires Valid(s) && now > FlushInterval
    ensures var r := Write(Reopen(s, c, today), c, kind, line, true, now, today);
      && r.Written?
      && r.store.cdata[c].LastFlush(kind) == now
      && r.store.handles[r.store.cdata[c].Fh(kind)] == FileHandle(LogFile(kind, today, c), true, [line + "\n"], 1)
  {
    var s1 := Reopen(s, c, today);
    assert s1.handles[s1.cdata[c].Fh(kind)].isOpen;
  }

  /** Rotation isolation: when the day changes, the write goes to a file
      other than the old day's, the old day's message file is closed with
      exactly what it held, and the old join handle, dropped without an
      explicit close, is left as it was. The file names differ whatever the
      date strings are. */
  lemma RotationIsolation(s: Store, c: string, kind: LogKind, line: string, flush: bool, now: int, today: string)
    requires Valid(s) && c in s.cdata
    requires s.cdata[c].date != today
    ensures var r := Write(s, c, kind, line, flush, now, today);
      var e0 := s.cdata[c];
      && r.Written?
      && r.store.handles[r.store.cdata[c].Fh(kind)].Path() != s.handles[e0.Fh(kind)].Path()
      && r.store.handles[e0.msgFh].written == s.handles[e0.msgFh].written
      && !r.store.handles[e0.msgFh].isOpen
      && r.store.handles[e0.joinFh] == s.handles[e0.joinFh]
  {
    var e0 := s.cdata[c];
    WriteErrors(s, c, kind, line, flush, now, today);
    WriteLeavesOthers(s, c, kind, line, flush, now, today);
    WriteAppendsToToday(s, c, kind, line, flush, now, today);
    assert WellFormedEntry(s, c);
    assert s.handles[e0.Fh(kind)].file == LogFile(kind, e0.date, c);
    if LogPath(kind, today, c) == LogPath(kind, e0.date, c) {
      LogPathDateInjective(kind, today, e0.date, c);
    }
  }

  // ---------------------------------------------------------------------
  // on_welcome: reopen each configured channel in turn

  /** The result of reopening the channels `cs` one after the other. */
  function ReopenAll(s: Store, cs: seq<string>, today: string): (r: Store)
    requires Valid(s)
    ensures Valid(r)
    decreases |cs|
  {
    if cs == [] then s
    else Reopen(ReopenAll(s, cs[..|cs| - 1], today), cs[|cs| - 1], today)
  }

  /** After reopening `cs`, the table holds exactly the old channels and
      `cs`, and every channel of `cs` has a fresh entry for today. */
  lemma {:induction false} ReopenAllOpensEach(s: Store, cs: seq<string>, today: string)
    requires Valid(s)
    ensures ReopenAll(s, cs, today).cdata.Keys == s.cdata.Keys + set c | c in cs
    ensures forall c :: c in cs ==> FreshEntry(ReopenAll(s, cs, today), c, today)
    decreases |cs|
  {
    if cs != [] {
      var init, c := cs[..|cs| - 1], cs[|cs| - 1];
      assert cs == init + [c];
      ReopenAllOpensEach(s, init, today);
      var s1 := ReopenAll(s, init, today);
      forall d | d in cs ensures FreshEntry(ReopenAll(s, cs, today), d, today) {
        if d != c {
          assert d in init;
          ReopenKeepsFresh(s1, c, today, d, today);
        }
      }
    }
  }

  /** Reopening `cs` leaves the entry of every other channel, and both of
      its handles, as they were. */
  lemma {:induction false} ReopenAllLeavesOthers(s: Store, cs: seq<string>, today: string, d: string)
    requires Valid(s) && d in s.cdata && d !in cs
    ensures var r := ReopenAll(s, cs, today);
      && d in r.cdata && r.cdata[d] == s.cdata[d]
      && r.handles[s.cdata[d].msgFh] == s.handles[s.cdata[d].msgFh]
      && r.handles[s.cdata[d].joinFh] == s.handles[s.cdata[d].joinFh]
    decreases |cs|
  {
    assert WellFormedEntry(s, d);
    if cs != [] {
      var init, c := cs[..|cs| - 1], cs[|cs| - 1];
      assert d !in init;
      ReopenAllLeavesOthers(s, init, today, d);
      var s1 := ReopenAll(s, init, today);
      assert WellFormedEntry(s1, d);
      if c in s1.cdata {
        assert Separate(s1, c, d);
      }
    }
  }

  lemma ReopenAllStep(s: Store, cs: seq<string>, c: string, today: string)
    requires Valid(s)
    ensures ReopenAll(s, cs + [c], today) == Reopen(ReopenAll(s, cs, today), c, today)
  {
    assert (cs + [c])[..|cs|] == cs;
  }

  // ---------------------------------------------------------------------
  // quit: close every handle the table holds

  function OwnedIds(m: map<string, Entry>, cs: set<string>): set<nat> {
    (set c | c in cs && c in m :: m[c].msgFh) + (set c | c in cs && c in m :: m[c].joinFh)
  }

  function CloseIds(hs: seq<FileHandle>, ids: set<nat>): (r: seq<FileHandle>)
    ensures |r| == |hs|
    ensures forall i :: 0 <= i < |hs| ==> r[i] == if i in ids then Closed(hs[i]) else hs[i]
  {
    seq(|hs|, i requires 0 <= i < |hs| => if i in ids then Closed(hs[i]) else hs[i])
  }

  /** Closing one more handle of a partly closed list. */
  lemma CloseIdsAdd(hs: seq<FileHandle>, ids: set<nat>, a: nat)
    requires a < |hs|
    ensures CloseIds(hs, ids)[a := Closed(CloseIds(hs, ids)[a])] == CloseIds(hs, ids + {a})
  {
    var l, r := CloseIds(hs, ids)[a := Closed(CloseIds(hs, ids)[a])], CloseIds(hs, ids + {a});
    forall i | 0 <= i < |hs| ensures l[i] == r[i] {
      if i == a && a in ids {
        assert Closed(Closed(hs[a])) == Closed(hs[a]);
      }
    }
  }

  /** The handles of one more entry. */
  lemma OwnedIdsAdd(m: map<string, Entry>, cs: set<string>, c: string)
    requires c in m
    ensures OwnedIds(m, cs + {c}) == OwnedIds(m, cs) + {m[c].msgFh} + {m[c].joinFh}
  {
  }

  /** Closes both handles of every entry; the table itself is kept. */
  function CloseAll(s: Store): (r: Store)
    requires Valid(s)
    ensures Valid(r) && r.cdata == s.cdata && |r.handles| == |s.handles|
  {
    var r := Store(s.cdata, CloseIds(s.handles, OwnedIds(s.cdata, s.cdata.Keys)));
    SameFilesValid(s, r);
    r
  }

  /** After closing everything, every handle in the table is closed with
      all it was given flushed, and nothing was lost. */
  lemma CloseAllClosesEverything(s: Store, c: string, kind: LogKind)
    requires Valid(s) && c in s.cdata
    ensures var h0, h := s.handles[s.cdata[c].Fh(kind)], CloseAll(s).handles[s.cdata[c].Fh(kind)];
      !h.isOpen && h.written == h0.written && h.flushed == |h.written|
  {
    assert WellFormedEntry(s, c);
    assert s.cdata[c].msgFh in OwnedIds(s.cdata, s.cdata.Keys);
    assert s.cdata[c].joinFh in OwnedIds(s.cdata, s.cdata.Keys);
  }

  /** Closing everything touches no handle the table does not hold, such
      as a join handle a rotation dropped. */
  lemma CloseAllLeavesDropped(s: Store, i: nat)
    requires Valid(s) && i < |s.handles|
    requires forall c :: c in s.cdata ==> s.cdata[c].msgFh != i && s.cdata[c].joinFh != i
    ensures CloseAll(s).handles[i] == s.handles[i]
  {
  }

  /** Quitting twice closes nothing more than quitting once. */
  lemma CloseAllIdempotent(s: Store)
    requires Valid(s)
    ensures CloseAll(CloseAll(s)) == CloseAll(s)
  {
    var r := CloseAll(s);
    var rr := CloseAll(r);
    assert OwnedIds(r.cdata, r.cdata.Keys) == OwnedIds(s.cdata, s.cdata.Keys);
    assert rr.handles == r.handles by {
      forall i | 0 <= i < |r.handles| ensures rr.handles[i] == r.handles[i] {
        if i in OwnedIds(s.cdata, s.cdata.Keys) {
          assert r.handles[i] == Closed(s.handles[i]);
        }
      }
    }
  }
}
