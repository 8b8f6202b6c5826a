/**
 * The restart loop of pacz (main.go, lines 25-37, 53, 91 and 103-115).
 *
 * The program starts the configured command once, then reacts to each
 * filesystem notification: a qualifying one kills the current child, when
 * there is one with a live process reference, and starts a fresh child that
 * becomes current; any other notification changes nothing.
 *
 * Spawning and killing are operating-system calls and are not modelled:
 * starting yields a new handle recording what it runs, and a kill is recorded
 * in the ghost history `killed`. The counters `starts` and `kills` count
 * these calls; the program itself keeps no such counts.
 */
module Supervisor {
  import opened Wrappers
  import opened Cli
  import opened Events

  /** A started child: its identity, its program, arguments and working directory, and whether its process reference is set. */
  datatype Handle = Handle(id: nat, program: string, args: seq<string>, dir: string, hasProcess: bool)

  /** The number of qualifying notifications in `events`. */
  function CountQualifying<R>(matches: (R, string) -> bool, filter: R, events: seq<Event>): (n: nat)
    ensures n <= |events|
    ensures n == 0 <==> forall j :: 0 <= j < |events| ==> !Qualifies(matches, filter, events[j])
  {
    if events == [] then 0
    else
      var last := |events| - 1;
      assert forall j :: 0 <= j < last ==> events[..last][j] == events[j];
      CountQualifying(matches, filter, events[..last]) + (if Qualifies(matches, filter, events[last]) then 1 else 0)
  }

  /** The dispatcher's state: the configuration it runs with and the child it tracks as current. */
  class Dispatcher<R> {
    const matches: (R, string) -> bool
    const config: Config<R>
    var current: Option<Handle>
    var starts: nat
    var kills: nat
    ghost var started: seq<Handle>
    ghost var killed: seq<Handle>

    /** The child the `n`th start launches: the command's first word with the rest as arguments, in the configured directory. */
    function Launch(n: nat): Handle
      requires |config.command| > 0
    {
      Handle(n, config.command[0], config.command[1..], config.cwd, true)
    }

    /**
     * Exactly one child is current, every child started before it has been
     * killed exactly once, in the order they were started, and the counters
     * count the starts and the kills.
     */
    ghost predicate Valid()
      reads this
    {
      && |config.command| > 0
      && starts == |started| && kills == |killed|
      && current.Some?
      && started == killed + [current.value]
      && forall j :: 0 <= j < |started| ==> started[j] == Launch(j)
    }

    /** The program's start-up: no child yet, then the first start. */
    constructor (config: Config<R>, matches: (R, string) -> bool)
      requires |config.command| > 0
      ensures Valid()
      ensures this.config == config && this.matches == matches
      ensures current == Some(Launch(0)) && starts == 1 && kills == 0
    {
      this.config := config;
      this.matches := matches;
      current := None;
      starts := 0;
      kills := 0;
      started := [];
      killed := [];
      new;
      var h := RunCommand();
      current := Some(h);
    }

    /** Starting the command yields a new handle, the next one in start order. */
    method RunCommand() returns (h: Handle)
      requires |config.command| > 0
      modifies this
      ensures h == Launch(old(starts)) && h.id == old(starts)
      ensures starts == old(starts) + 1 && started == old(started) + [h]
      ensures current == old(current) && kills == old(kills) && killed == old(killed)
    {
      h := Handle(starts, config.command[0], config.command[1..], config.cwd, true);
      starts := starts + 1;
      started := started + [h];
    }

    /** The dispatcher's reaction to one filesystem notification. */
    method Step(e: Event)
      requires Valid()
      modifies this
      ensures Valid()
      ensures Qualifies(matches, config.filter, e) ==>
        && killed == old(killed) + [old(current).value] && kills == old(kills) + 1
        && current == Some(Launch(old(starts))) && starts == old(starts) + 1
      ensures !Qualifies(matches, config.filter, e) ==>
        && current == old(current) && starts == old(starts) && kills == old(kills)
        && started == old(started) && killed == old(killed)
    {
      if Qualifies(matches, config.filter, e) {
        assert current.value == started[|started| - 1] == Launch(|started| - 1);
        if current.Some? && current.value.hasProcess {
          killed := killed + [current.value];
          kills := kills + 1;
        }
        var h := RunCommand();
        current := Some(h);
        assert started == old(killed) + [old(current).value] + [h];
      }
    }

    /** The dispatcher's reaction to the notifications `events`, one at a time, in order. */
    method Feed(events: seq<Event>)
      requires Valid()
      modifies this
      ensures Valid()
      ensures starts == old(starts) + CountQualifying(matches, config.filter, events)
      ensures kills == old(kills) + CountQualifying(matches, config.filter, events)
      ensures CountQualifying(matches, config.filter, events) == 0 ==> current == old(current)
      ensures started[..old(starts)] == old(started)
    {
      var i := 0;
      while i < |events|
        invariant i <= |events|
        invariant Valid()
        invariant starts == old(starts) + CountQualifying(matches, config.filter, events[..i])
        invariant kills == old(kills) + CountQualifying(matches, config.filter, events[..i])
        invariant CountQualifying(matches, config.filter, events[..i]) == 0 ==> current == old(current)
        invariant old(starts) <= starts && started[..old(starts)] == old(started)
      {
        assert events[..i + 1][..i] == events[..i];
        Step(events[i]);
        i := i + 1;
      }
      assert events[..i] == events;
    }
  }

  /**
   * The whole run after a successful parse: one start, then one kill and one
   * start for each qualifying notification.
   */
  method Supervise<R>(config: Config<R>, matches: (R, string) -> bool, events: seq<Event>) returns (starts: nat, kills: nat)
    requires |config.command| > 0
    ensures starts == CountQualifying(matches, config.filter, events) + 1
    ensures kills == starts - 1
  {
    var d := new Dispatcher(config, matches);
    d.Feed(events);
    starts, kills := d.starts, d.kills;
  }
}
