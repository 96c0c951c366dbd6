/** The bot's reconnect rule.

    On a disconnect the bot schedules a check `ReconnectionInterval`
    seconds later. A check that finds the connection down schedules the
    next check and tries to connect; a check that finds it up does
    nothing, which ends the chain. The reactor that runs scheduled checks,
    and the clock that times them, belong to the chat library; here a
    check is simply "one scheduled check runs", and whether a connection
    attempt succeeds is an input. */
module Reconnect {

  /** Seconds between a disconnect, or a failed check, and the next check,
      as logbot.py:27 sets it. Checks are not timed in this model, so the
      delay is recorded here and used nowhere else. */
  const ReconnectionInterval: nat := 5

  /** Whether the connection is up, and how many checks are scheduled. */
  datatype Link = Link(connected: bool, armed: nat)

  /** The bot is connected, or a check is scheduled that will try again. */
  predicate Supervised(l: Link) {
    l.connected || l.armed > 0
  }

  /** A connection attempt; its failure is swallowed. */
  function Connect(l: Link, succeeds: bool): (r: Link)
    ensures r.connected == succeeds && r.armed == l.armed
  {
    l.(connected := succeeds)
  }

  /** The disconnect handler: the connection is down and one more check is
      scheduled. */
  function OnDisconnect(l: Link): (r: Link)
    ensures !r.connected && r.armed == l.armed + 1
    ensures Supervised(r)
  {
    Link(false, l.armed + 1)
  }

  /** The body of a check: while the connection is down, schedule the next
      check and try to connect; once it is up, do nothing. */
  function ConnectedChecker(l: Link, succeeds: bool): (r: Link)
    ensures l.connected ==> r == l
    ensures !l.connected ==> r.armed == l.armed + 1 && r.connected == succeeds
    ensures Supervised(r)
  {
    if !l.connected then Connect(l.(armed := l.armed + 1), succeeds) else l
  }

  /** The reactor runs one scheduled check. */
  function Fire(l: Link, succeeds: bool): (r: Link)
    requires l.armed > 0
    ensures Supervised(r)
    ensures r.armed == (if l.connected then l.armed - 1 else l.armed)
    ensures r.connected == (l.connected || succeeds)
  {
    ConnectedChecker(l.(armed := l.armed - 1), succeeds)
  }

  /** The link after some checks, and how many connection attempts they made. */
  datatype Trace = Trace(link: Link, attempts: nat)

  /** Runs scheduled checks one at a time while any is scheduled, taking
      the outcome of each connection attempt from `outcomes`. A supervised
      bot stays supervised, a connected bot makes no attempt, and nothing
      happens while no check is scheduled. */
  function Run(l: Link, outcomes: seq<bool>): (r: Trace)
    ensures r.attempts <= |outcomes|
    ensures Supervised(l) ==> Supervised(r.link)
    ensures l.connected ==> r.link.connected && r.attempts == 0
    ensures l.armed == 0 ==> r == Trace(l, 0)
    decreases |outcomes|
  {
    if l.armed == 0 || outcomes == [] then Trace(l, 0)
    else
      var t := Run(Fire(l, outcomes[0]), outcomes[1..]);
      Trace(t.link, t.attempts + if l.connected then 0 else 1)
  }

  /** The bot never gives up: while every attempt fails, each check makes
      one attempt and leaves one check scheduled. */
  lemma {:induction false} RetriesWhileDown(n: nat, outcomes: seq<bool>)
    requires n > 0
    requires forall i :: 0 <= i < |outcomes| ==> !outcomes[i]
    ensures Run(Link(false, n), outcomes) == Trace(Link(false, n), |outcomes|)
    decreases |outcomes|
  {
    if outcomes != [] {
      RetriesWhileDown(n, outcomes[1..]);
    }
  }

  /** Once an attempt succeeds the chain stops: after the first success at
      attempt `k`, the next check finds the bot connected and schedules
      nothing more, so exactly `k + 1` attempts were made. */
  lemma {:induction false} StopsOnceUp(outcomes: seq<bool>, k: nat)
    requires k + 1 < |outcomes| && outcomes[k]
    requires forall i :: 0 <= i < k ==> !outcomes[i]
    ensures Run(Link(false, 1), outcomes) == Trace(Link(true, 0), k + 1)
    decreases k
  {
    var rest := outcomes[1..];
    if k == 0 {
      assert Fire(Link(false, 1), outcomes[0]) == Link(true, 1);
      assert Fire(Link(true, 1), rest[0]) == Link(true, 0);
      assert Run(Link(true, 1), rest) == Run(Link(true, 0), rest[1..]);
    } else {
      StopsOnceUp(rest, k - 1);
    }
  }

  // ---------------------------------------------------------------------
  // Start-up

  /** Start-up as written: one connection attempt, and no check scheduled. */
  function StartAsWritten(succeeds: bool): (r: Link)
    ensures r == Link(succeeds, 0)
  {
    Connect(Link(false, 0), succeeds)
  }

  /** If the server cannot be reached at start-up, the bot stays
      disconnected for good: nothing is scheduled, so no check ever runs,
      whatever the network would later allow. */
  lemma StartAsWrittenStalls(outcomes: seq<bool>)
    ensures !Supervised(StartAsWritten(false))
    ensures Run(StartAsWritten(false), outcomes) == Trace(Link(false, 0), 0)
  {
  }

  /** Start-up supervised like a reconnect: run a check, which tries
      to connect and keeps checking until it succeeds. */
  function Start(succeeds: bool): (r: Link)
    ensures Supervised(r)
    ensures r.connected == succeeds
  {
    ConnectedChecker(Link(false, 0), succeeds)
  }

  /** With the intended start-up, a server that is down at first is
      reached as soon as an attempt succeeds. */
  lemma StartRecovers(outcomes: seq<bool>, k: nat)
    requires k + 1 < |outcomes| && outcomes[k]
    requires forall i :: 0 <= i < k ==> !outcomes[i]
    ensures Run(Start(false), outcomes) == Trace(Link(true, 0), k + 1)
  {
    StopsOnceUp(outcomes, k);
  }
}
