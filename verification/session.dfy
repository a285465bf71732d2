/** A session of the extension: the package started from the settings file, then
    a sequence of host callbacks (window switches, menu commands, menu status
    queries, close), each a step on the package state that emits client calls. */
module Session {
  import opened Wrappers
  import opened Configuration
  import opened DiscordRpc
  import opened RpcPackage
  import opened PresenceCommand

  datatype Event =
    | WindowActivated(document: Option<string>, solution: Option<string>, now: int)
    | CommandInvoked(command: Command)
    | StatusQueried(command: Command)
    | Closing

  /** One callback. Settings change only through commands, the timestamp state and
      the current presence only through window switches. */
  function Step(pkg: Package, e: Event): (r: (Package, seq<ClientCall>))
    ensures !e.CommandInvoked? ==> r.0.config == pkg.config && r.0.store == pkg.store
    ensures pkg.store == Some(pkg.config) ==> r.0.store == Some(r.0.config)
    ensures pkg.stamp.initialized ==> r.0.stamp == pkg.stamp
    ensures !e.WindowActivated? ==> r.0.stamp == pkg.stamp && r.0.presence == pkg.presence
    // The client is started and updated only while presence is enabled ...
    ensures (Init in r.1 || exists p :: Update(p) in r.1) ==> pkg.config.presenceEnabled
    // ... and shut down only by turning presence off, or by closing.
    ensures Shutdown in r.1 <==>
              e.Closing? || (e == CommandInvoked(TogglePresence) && !r.0.config.presenceEnabled)
  {
    match e
    case WindowActivated(document, solution, now) =>
      var s := OnWindowSwitch(pkg.config, document, solution, pkg.stamp, now);
      (pkg.(stamp := s.stamp, presence := s.presence), s.calls)
    case CommandInvoked(c) =>
      var x := Execute(pkg.config, c);
      (pkg.(config := x.config, store := x.store), x.calls)
    case StatusQueried(c) =>
      (pkg, QueryStatus(pkg.config, pkg.presence, c).calls)
    case Closing =>
      (pkg, QueryClose(pkg))
  }

  /** The events in order; the calls of each step follow those of the one before. */
  function Run(pkg: Package, events: seq<Event>): (Package, seq<ClientCall>)
    decreases |events|
  {
    if |events| == 0 then (pkg, [])
    else
      var (next, calls) := Step(pkg, events[0]);
      var (last, rest) := Run(next, events[1..]);
      (last, calls + rest)
  }

  /** The settings file always holds the settings in memory: Initialize saves,
      and every command saves after its toggle. */
  lemma {:induction false} RunKeepsStoreInSync(pkg: Package, events: seq<Event>)
    requires pkg.store == Some(pkg.config)
    ensures Run(pkg, events).0.store == Some(Run(pkg, events).0.config)
    decreases |events|
  {
    if |events| > 0 {
      RunKeepsStoreInSync(Step(pkg, events[0]).0, events[1..]);
    }
  }

  /** From any settings file, a whole session keeps file and memory in agreement. */
  lemma SessionKeepsStoreInSync(store: Store, largeDefault: bool, events: seq<Event>)
    ensures var pkg := Initialize(store, largeDefault).0;
      Run(pkg, events).0.store == Some(Run(pkg, events).0.config)
  {
    RunKeepsStoreInSync(Initialize(store, largeDefault).0, events);
  }

  /** Once captured, the initial instant never changes and is never released,
      whatever events follow. */
  lemma {:induction false} RunKeepsCapturedInstant(pkg: Package, events: seq<Event>)
    requires pkg.stamp.initialized
    ensures Run(pkg, events).0.stamp == pkg.stamp
    decreases |events|
  {
    if |events| > 0 {
      RunKeepsCapturedInstant(Step(pkg, events[0]).0, events[1..]);
    }
  }

  /** Without commands the settings stay as they were. */
  lemma {:induction false} RunWithoutCommandsKeepsConfig(pkg: Package, events: seq<Event>)
    requires forall i :: 0 <= i < |events| ==> !events[i].CommandInvoked?
    ensures Run(pkg, events).0.config == pkg.config
    decreases |events|
  {
    if |events| > 0 {
      assert forall i :: 0 <= i < |events[1..]| ==> events[1..][i] == events[i + 1];
      RunWithoutCommandsKeepsConfig(Step(pkg, events[0]).0, events[1..]);
    }
  }

  /** A first shown timestamp at t0 is the one every later switch shows while
      reset is off, however many switches, commands and queries came between. */
  lemma HeldAcrossSession(pkg: Package, first: Event, between: seq<Event>, document: Option<string>,
                          solution: Option<string>, later: int)
    requires first.WindowActivated? && pkg.config.displayTimestamp && !pkg.stamp.initialized
    ensures var mid := Run(Step(pkg, first).0, between).0;
      mid.config.displayTimestamp && !mid.config.resetTimestamp ==>
        Step(mid, WindowActivated(document, solution, later)).0.presence.startTimestamp == first.now
  {
    RunKeepsCapturedInstant(Step(pkg, first).0, between);
  }

  /** Each switch builds a brand-new presence: what was shown before has no
      influence on it, only the timestamp state carries over. */
  lemma SwitchIgnoresPreviousPresence(pkg: Package, earlier: RichPresence, document: Option<string>,
                                      solution: Option<string>, now: int)
    ensures var e := WindowActivated(document, solution, now);
      Step(pkg, e) == Step(pkg.(presence := earlier), e)
  {
  }

  /** Running the same command twice gives back the settings, saved. */
  lemma CommandTwiceRestores(pkg: Package, c: Command)
    ensures var r := Run(pkg, [CommandInvoked(c), CommandInvoked(c)]).0;
      r.config == pkg.config && r.store == Some(pkg.config)
  {
    var events := [CommandInvoked(c), CommandInvoked(c)];
    var once := Step(pkg, events[0]).0;
    assert events[1..] == [CommandInvoked(c)];
    assert Run(once, events[1..]).0 == Step(once, CommandInvoked(c)).0;
    ToggleTwice(pkg.config, c);
  }

  /** Turning presence off shuts the client down; switches made while it is off
      rebuild the presence but publish nothing; turning it back on publishes
      nothing until the presence command's status is queried, which starts the
      client and publishes the presence last built. */
  lemma PresenceOffAndOn(pkg: Package, document: Option<string>, solution: Option<string>, now: int)
    requires pkg.config.presenceEnabled
    ensures var (off, c1) := Step(pkg, CommandInvoked(TogglePresence));
      var (switched, c2) := Step(off, WindowActivated(document, solution, now));
      var (on, c3) := Step(switched, CommandInvoked(TogglePresence));
      var (_, c4) := Step(on, StatusQueried(TogglePresence));
      && c1 == [Shutdown] && c2 == [] && c3 == []
      && switched.presence == OnWindowSwitch(pkg.config.(presenceEnabled := false), document, solution,
                                             pkg.stamp, now).presence
      && c4 == [Init, Update(switched.presence)]
  {
    var off := Step(pkg, CommandInvoked(TogglePresence)).0;
    assert off.config == pkg.config.(presenceEnabled := false);
    var switched := Step(off, WindowActivated(document, solution, now)).0;
    assert switched.config == off.config;
    var on := Step(switched, CommandInvoked(TogglePresence)).0;
    assert on.config.presenceEnabled && on.presence == switched.presence;
  }
}
