/** The select loop of Run in pkg/trigger/controller.go: one thread, which handles a tick of the
    discovery or an item of the queue to its end before it selects again. This is what makes
    the trigger serial. */
module SelectLoop {
  import opened EndToEnd
  import opened ApiServer

  /** Where the thread is: at the select, or in one of its two handlers. */
  datatype Stage = AtSelect | InDiscovery | InQueue

  predicate OfDiscovery(e: Event) {
    || e.Discover? || e.Get? || e.GetFails? || e.Drop? || e.DropFails? || e.List? || e.Clean? || e.CleanFails?
    || e.Launch? || e.LaunchFails? || e.Create? || e.Update? || e.UpdateLost? || e.UpdateFails?
  }

  predicate OfQueue(e: Event) {
    e.Fetch? || e.Mark? || e.MarkLost? || e.MarkFails?
  }

  /** What the thread can do where it is; the other parties are free at any time. */
  predicate Obeys(stage: Stage, e: Event) {
    match stage
    case AtSelect => !(OfDiscovery(e) || OfQueue(e)) || e.Discover? || e.Fetch?
    case InDiscovery => !OfQueue(e) && !e.Discover?
    case InQueue => !OfDiscovery(e) && !e.Fetch?
  }

  /** The thread enters a handler with its first call, leaves it when that is done, and starts
      over when the process does. */
  function Goes(stage: Stage, e: Event, s: State, s': State): Stage {
    if e.Restart? then (if s'.discovery.Waiting? && s'.queue.Empty? then AtSelect else stage)
    else
      match stage
      case AtSelect => if e.Discover? && s' != s then InDiscovery else if e.Fetch? && s' != s then InQueue else AtSelect
      case InDiscovery => if s'.discovery.Waiting? then AtSelect else InDiscovery
      case InQueue => if s'.queue.Empty? then AtSelect else InQueue
  }

  /** The events are in an order in which the loop can make its calls. */
  predicate LoopOrder(mode: Mode, stage: Stage, s: State, es: seq<Event>)
    decreases |es|
  {
    es == [] ||
    (&& Obeys(stage, es[0])
     && var s' := Next(mode, s, es[0]);
        LoopOrder(mode, Goes(stage, es[0], s, s'), s', es[1..]))
  }

  predicate Matches(stage: Stage, s: State) {
    match stage
    case AtSelect => s.discovery.Waiting? && s.queue.Empty?
    case InDiscovery => !s.discovery.Waiting? && s.queue.Empty?
    case InQueue => s.discovery.Waiting? && s.queue.Holding?
  }

  /** Serial or not makes a difference only while the other routine is at work. */
  lemma SerialMattersOnlyInPart(mode: Mode, s: State, e: Event)
    requires (e.Discover? ==> s.queue.Empty?) && (e.Fetch? ==> s.discovery.Waiting?)
    ensures Next(mode.(serial := false), s, e) == Next(mode.(serial := true), s, e)
  {
    assert Possible(mode.(serial := false), s, e) == Possible(mode.(serial := true), s, e);
  }

  lemma OthersLeaveTheTrigger(mode: Mode, s: State, e: Event)
    requires !OfDiscovery(e) && !OfQueue(e) && !e.Restart?
    ensures Next(mode, s, e).discovery == s.discovery && Next(mode, s, e).queue == s.queue
  {
  }

  lemma RoutinesKeepApart(mode: Mode, s: State, e: Event)
    ensures OfDiscovery(e) ==> Next(mode, s, e).queue == s.queue
    ensures OfQueue(e) ==> Next(mode, s, e).discovery == s.discovery
  {
  }

  lemma LoopStepIsSerial(mode: Mode, stage: Stage, s: State, e: Event)
    requires Matches(stage, s) && Obeys(stage, e)
    ensures var s' := Next(mode.(serial := false), s, e);
            && s' == Next(mode.(serial := true), s, e)
            && Matches(Goes(stage, e, s, s'), s')
  {
    var mode' := mode.(serial := false);
    SerialMattersOnlyInPart(mode, s, e);
    if OfDiscovery(e) || OfQueue(e) {
      RoutinesKeepApart(mode', s, e);
    } else if !e.Restart? {
      OthersLeaveTheTrigger(mode', s, e);
    }
  }

  /** Every order in which the loop makes its calls is serial: requiring it changes nothing. */
  lemma {:induction false} LoopIsSerial(mode: Mode, stage: Stage, s: State, es: seq<Event>)
    requires Matches(stage, s) && LoopOrder(mode.(serial := false), stage, s, es)
    ensures Play(mode.(serial := false), s, es) == Play(mode.(serial := true), s, es)
    decreases |es|
  {
    if es != [] {
      var s' := Next(mode.(serial := false), s, es[0]);
      LoopStepIsSerial(mode, stage, s, es[0]);
      LoopIsSerial(mode, Goes(stage, es[0], s, s'), s', es[1..]);
    }
  }

  function StageOf(s: State): Stage {
    if !s.discovery.Waiting? then InDiscovery else if s.queue.Holding? then InQueue else AtSelect
  }

  /** The same order, told from where the trigger is. */
  predicate Admitted(mode: Mode, s: State, es: seq<Event>)
    decreases |es|
  {
    es == [] || (Obeys(StageOf(s), es[0]) && Admitted(mode, Next(mode, s, es[0]), es[1..]))
  }

  lemma {:induction false} AdmittedIsLoopOrder(mode: Mode, s: State, es: seq<Event>)
    requires !mode.serial && Matches(StageOf(s), s) && Admitted(mode, s, es)
    ensures LoopOrder(mode, StageOf(s), s, es)
    decreases |es|
  {
    if es != [] {
      assert mode.(serial := false) == mode;
      LoopStepIsSerial(mode, StageOf(s), s, es[0]);
      AdmittedIsLoopOrder(mode, Next(mode, s, es[0]), es[1..]);
    }
  }

  lemma {:induction false} AdmittedAppends(mode: Mode, s: State, es: seq<Event>, more: seq<Event>)
    requires Admitted(mode, s, es) && Admitted(mode, Play(mode, s, es), more)
    ensures Admitted(mode, s, es + more)
    decreases |es|
  {
    if es == [] {
      assert es + more == more;
    } else {
      assert (es + more)[0] == es[0] && (es + more)[1..] == es[1..] + more;
      AdmittedAppends(mode, Next(mode, s, es[0]), es[1..], more);
    }
  }

  /** So the claim holds of the loop without being told that it is serial. */
  lemma LoopIsTrue(mode: Mode, w: World, es: seq<Event>)
    requires Trusted(mode.(serial := true)) && w.Valid()
    requires LoopOrder(mode.(serial := false), AtSelect, Installed(w), es)
    ensures Truth(Play(mode.(serial := false), Installed(w), es))
  {
    LoopIsSerial(mode, AtSelect, Installed(w), es);
    TrustedRunsAreTrue(mode.(serial := true), w, es);
  }
}
