/** File names and line formats of the chat-log bot.

    Every channel has two append-only log files per UTC day: one for
    public messages and one for join/part events. Each event is one line
    stamped with the UTC time of day. */
module LogFormat {

  datatype Option<T> = None | Some(value: T)

  /** The two kinds of log file a channel has. */
  datatype LogKind = Messages | Joins

  function Other(kind: LogKind): LogKind {
    match kind
    case Messages => Joins
    case Joins => Messages
  }

  /** A UTC calendar date as `%Y-%m-%d` renders it. */
  predicate IsDate(d: string) {
    |d| == 10 &&
    forall i :: 0 <= i < 10 ==> if i == 4 || i == 7 then d[i] == '-' else '0' <= d[i] <= '9'
  }

  /** A UTC time of day as `%H:%M:%S` renders it. */
  predicate IsTime(t: string) {
    |t| == 8 &&
    forall i :: 0 <= i < 8 ==> if i == 2 || i == 5 then t[i] == ':' else '0' <= t[i] <= '9'
  }

  // ---------------------------------------------------------------------
  // File names

  function LogDir(kind: LogKind): string {
    match kind
    case Messages => "logs/"
    case Joins => "logs/joins/"
  }

  /** `logs/{date}-{channel}.log` or `logs/joins/{date}-{channel}.log`:
      the kind's directory, then the date, a dash, the channel name and
      the `.log` extension. */
  function LogPath(kind: LogKind, date: string, channel: string): (r: string)
    ensures |r| == |LogDir(kind)| + |date| + |channel| + 5
    ensures r[..|LogDir(kind)|] == LogDir(kind)
    ensures r[|LogDir(kind)|..|LogDir(kind)| + |date|] == date
    ensures r[|LogDir(kind)| + |date|] == '-'
    ensures r[|LogDir(kind)| + |date| + 1..|r| - 4] == channel
    ensures r[|r| - 4..] == ".log"
  {
    LogDir(kind) + date + "-" + channel + ".log"
  }

  /** What a log file name says about the file. */
  datatype LogFile = LogFile(kind: LogKind, date: string, channel: string)

  /** Reads a file name back into its kind, date and channel. */
  function ParseLogPath(p: string): Option<LogFile> {
    if |p| >= 20 && p[..5] == "logs/" && IsDate(p[5..15]) && p[15] == '-' && p[|p| - 4..] == ".log" then
      Some(LogFile(Messages, p[5..15], p[16..|p| - 4]))
    else if |p| >= 26 && p[..11] == "logs/joins/" && IsDate(p[11..21]) && p[21] == '-' && p[|p| - 4..] == ".log" then
      Some(LogFile(Joins, p[11..21], p[22..|p| - 4]))
    else
      None
  }

  /** A file name determines its kind, date and channel: the message log
      name can never be mistaken for a join log name, and no two days or
      channels share a file. */
  lemma ParseLogPathInverts(kind: LogKind, date: string, channel: string)
    requires IsDate(date)
    ensures ParseLogPath(LogPath(kind, date, channel)) == Some(LogFile(kind, date, channel))
  {
    var p := LogPath(kind, date, channel);
    match kind
    case Messages =>
      assert p == "logs/" + date + "-" + channel + ".log";
      assert p[..5] == "logs/";
      assert forall i :: 0 <= i < 10 ==> p[5..15][i] == date[i];
      assert p[5..15] == date;
      assert p[15] == '-';
      assert p[16..|p| - 4] == channel;
      assert p[|p| - 4..] == ".log";
    case Joins =>
      assert p == "logs/joins/" + date + "-" + channel + ".log";
      assert p[5..15][0] == 'j';
      assert !IsDate(p[5..15]);
      assert p[..11] == "logs/joins/";
      assert p[11..21] == date;
      assert p[21] == '-';
      assert p[22..|p| - 4] == channel;
      assert p[|p| - 4..] == ".log";
  }

  /** For one kind and channel, the file name determines the date,
      whatever the date strings are: a new day is always a new file. */
  lemma LogPathDateInjective(kind: LogKind, d1: string, d2: string, channel: string)
    requires LogPath(kind, d1, channel) == LogPath(kind, d2, channel)
    ensures d1 == d2
  {
    var n := |LogDir(kind)|;
    assert |d1| == |d2|;
    assert LogPath(kind, d1, channel)[n..n + |d1|] == d1;
    assert LogPath(kind, d2, channel)[n..n + |d2|] == d2;
  }

  lemma LogPathInjective(k1: LogKind, d1: string, c1: string, k2: LogKind, d2: string, c2: string)
    requires IsDate(d1) && IsDate(d2)
    requires LogPath(k1, d1, c1) == LogPath(k2, d2, c2)
    ensures k1 == k2 && d1 == d2 && c1 == c2
  {
    ParseLogPathInverts(k1, d1, c1);
    ParseLogPathInverts(k2, d2, c2);
  }

  // ---------------------------------------------------------------------
  // Log lines

  /** The events the bot writes to its logs. */
  datatype LogEvent = Said(user: string, text: string) | Joined(user: string) | Parted(user: string)

  datatype Stamped = Stamped(time: string, event: LogEvent)

  /** `{time} <{user}> {text}`, `{time} JOIN {user}` or `{time} PART {user}`:
      the time stamp and a space, then a tag that tells the events apart,
      and the line ends with the message text or the user name. */
  function Line(time: string, e: LogEvent): (r: string)
    ensures |r| >= |time| + 4 && r[..|time| + 1] == time + " "
    ensures e.Said? ==>
      && |r| == |time| + |e.user| + |e.text| + 4
      && r[|time| + 1] == '<'
      && r[|time| + 2..|time| + 2 + |e.user|] == e.user
      && r[|time| + 2 + |e.user|..|time| + 4 + |e.user|] == "> "
      && r[|r| - |e.text|..] == e.text
    ensures e.Joined? ==>
      |r| == |time| + |e.user| + 6 && r[|time| + 1..|time| + 6] == "JOIN " && r[|time| + 6..] == e.user
    ensures e.Parted? ==>
      |r| == |time| + |e.user| + 6 && r[|time| + 1..|time| + 6] == "PART " && r[|time| + 6..] == e.user
  {
    match e
    case Said(user, text) => time + " <" + user + "> " + text
    case Joined(user) => time + " JOIN " + user
    case Parted(user) => time + " PART " + user
  }

  /** The first position of `ch` in `s`, or `|s|` when there is none. */
  function Find(s: string, ch: char): (k: nat)
    ensures k <= |s|
    ensures k < |s| ==> s[k] == ch
    ensures forall j :: 0 <= j < k ==> s[j] != ch
  {
    if s == [] then 0
    else if s[0] == ch then 0
    else 1 + Find(s[1..], ch)
  }

  /** Reads a log line back into its time stamp and event. */
  function ParseLine(line: string): Option<Stamped> {
    if |line| < 9 || !IsTime(line[..8]) || line[8] != ' ' then None
    else
      var t, rest := line[..8], line[9..];
      if |rest| >= 5 && rest[..5] == "JOIN " then Some(Stamped(t, Joined(rest[5..])))
      else if |rest| >= 5 && rest[..5] == "PART " then Some(Stamped(t, Parted(rest[5..])))
      else if |rest| >= 1 && rest[0] == '<' then
        var body := rest[1..];
        var k := Find(body, '>');
        if k + 1 < |body| && body[k + 1] == ' ' then Some(Stamped(t, Said(body[..k], body[k + 2..])))
        else None
      else None
  }

  /** A message line can only be read back when the user name does not
      contain the `>` that closes it. */
  predicate Readable(e: LogEvent) {
    e.Said? ==> '>' !in e.user
  }

  lemma FindPrefix(u: string, ch: char, t: string)
    requires ch !in u
    ensures Find(u + [ch] + t, ch) == |u|
  {
    var s := u + [ch] + t;
    var k := Find(s, ch);
    assert s[|u|] == ch;
    assert forall j :: 0 <= j < |u| ==> s[j] == u[j];
  }

  /** A stamped line splits into its time stamp and the rest. */
  lemma SplitStamp(time: string, rest: string)
    requires IsTime(time)
    ensures var line := time + " " + rest;
      |line| >= 9 && line[..8] == time && IsTime(line[..8]) && line[8] == ' ' && line[9..] == rest
  {
    var line := time + " " + rest;
    assert line[..8] == time;
  }

  /** The part of a message line after `<` splits at the first `>`. */
  lemma SplitSaid(user: string, text: string)
    requires '>' !in user
    ensures var body := user + "> " + text;
      var k := Find(body, '>');
      k == |user| && k + 1 < |body| && body[k + 1] == ' ' && body[..k] == user && body[k + 2..] == text
  {
    var body := user + "> " + text;
    assert body == user + ['>'] + (" " + text);
    FindPrefix(user, '>', " " + text);
    assert body[..|user|] == user;
    assert body[|user| + 2..] == text;
  }

  lemma ParseSaidLine(time: string, user: string, text: string)
    requires IsTime(time) && '>' !in user
    ensures ParseLine(Line(time, Said(user, text))) == Some(Stamped(time, Said(user, text)))
  {
    var body := user + "> " + text;
    var rest := "<" + body;
    assert Line(time, Said(user, text)) == time + " " + rest;
    SplitStamp(time, rest);
    assert rest[0] == '<' && rest[1..] == body;
    assert !(|rest| >= 5 && rest[..5] == "JOIN ") && !(|rest| >= 5 && rest[..5] == "PART ");
    SplitSaid(user, text);
  }

  lemma ParseJoinLine(time: string, user: string)
    requires IsTime(time)
    ensures ParseLine(Line(time, Joined(user))) == Some(Stamped(time, Joined(user)))
  {
    var rest := "JOIN " + user;
    assert Line(time, Joined(user)) == time + " " + rest;
    SplitStamp(time, rest);
    assert rest[..5] == "JOIN " && rest[5..] == user;
  }

  lemma ParsePartLine(time: string, user: string)
    requires IsTime(time)
    ensures ParseLine(Line(time, Parted(user))) == Some(Stamped(time, Parted(user)))
  {
    var rest := "PART " + user;
    assert Line(time, Parted(user)) == time + " " + rest;
    SplitStamp(time, rest);
    assert rest[..5] == "PART " && rest[5..] == user;
    assert rest[..5] != "JOIN " by { assert rest[..5][0] == 'P' != 'J'; }
  }

  /** Every line the bot writes reads back as the event that produced it. */
  lemma ParseLineInverts(time: string, e: LogEvent)
    requires IsTime(time) && Readable(e)
    ensures ParseLine(Line(time, e)) == Some(Stamped(time, e))
  {
    match e
    case Said(user, text) => ParseSaidLine(time, user, text);
    case Joined(user) => ParseJoinLine(time, user);
    case Parted(user) => ParsePartLine(time, user);
  }

  // ---------------------------------------------------------------------
  // The administrative ping

  const Admin: string := "pajlada"
  const PingCommand: string := "!logping"
  const PongReply: string := "pajlada, PONG"
}
