/** The flags around `syncFrom`: a notification that finds a sync running is made up for afterwards. */
module SyncGates {
  /** The flags, with what is on its way: `running` syncs, and `scheduled` catch-up syncs whose cursor is
      being read. */
  datatype Gate = Gate(inProgress: bool, requested: bool, running: set<nat>, scheduled: nat)

  /** Circumstances that suppress a sync: credentials are being updated, a profile switch is running, or the
      session is locked, logged out or waits for the user to resolve a dialog. */
  datatype Situation = Situation(paused: bool, switching: bool, held: bool)

  const CALM := Situation(false, false, false)

  datatype Event =
    | Call(at: Situation, task: nat, exclusive: bool)
    | Finish(at: Situation, task: nat)
    | CatchUp(at: Situation, task: nat)

  const IDLE := Gate(false, false, {}, 0)

  /** `syncFrom`: returns at once when paused, or when exclusive and something is running; else starts. */
  function OnCall(g: Gate, at: Situation, task: nat, exclusive: bool): Gate {
    if at.paused then g
    else if exclusive && (at.switching || g.inProgress) then (if !at.switching then g.(requested := true) else g)
    else g.(inProgress := true, running := g.running + {task})
  }

  /** The end of a sync: clears the flag, even when another sync is still running, and starts the requested
      catch-up unless it is suppressed. */
  function OnFinish(g: Gate, at: Situation, task: nat): Gate {
    var h := g.(inProgress := false, running := g.running - {task});
    if !g.requested then h
    else if at.paused || at.switching || at.held then h.(requested := false)
    else h.(requested := false, scheduled := g.scheduled + 1)
  }

  /** A scheduled catch-up has read the cursor and calls `syncFrom` exclusively. */
  function OnCatchUp(g: Gate, at: Situation, task: nat): Gate
    requires g.scheduled > 0
  {
    OnCall(g.(scheduled := g.scheduled - 1), at, task, true)
  }

  /** An unserviced skip is remembered by a running sync or by a scheduled catch-up. */
  ghost predicate Remembered(g: Gate) {
    (g.requested && g.running != {}) || g.scheduled > 0
  }

  /** The flag is set only while a sync runs, although it may be clear while one still does. */
  ghost predicate FlagOk(g: Gate) {
    g.inProgress ==> g.running != {}
  }

  class SyncGate {
    var inProgress: bool
    var requested: bool
    var running: set<nat>
    var scheduled: nat

    function Value(): Gate
      reads this
    {
      Gate(inProgress, requested, running, scheduled)
    }

    ghost predicate Valid()
      reads this
    {
      FlagOk(Value())
    }

    constructor ()
      ensures Valid() && Value() == IDLE
    {
      inProgress, requested, running, scheduled := false, false, {}, 0;
    }

    /** Starts, or returns without a pull. A reactive call that is skipped outside a pause and a switch leaves
        the need for a pull remembered, and no call forgets one except by starting. */
    method SyncFrom(at: Situation, task: nat, exclusive: bool) returns (started: bool)
      requires Valid() && task !in running
      modifies this
      ensures Valid() && Value() == OnCall(old(Value()), at, task, exclusive)
      ensures started == (running == old(running) + {task}) && (!started ==> running == old(running))
      ensures started <==> !at.paused && !(exclusive && (at.switching || old(inProgress)))
      ensures started ==> inProgress && requested == old(requested) && scheduled == old(scheduled)
      ensures !started && (at.paused || at.switching) ==> Value() == old(Value())
      ensures !started && !at.paused && !at.switching ==> requested && Remembered(Value())
      ensures !started && Remembered(old(Value())) ==> Remembered(Value())
    {
      if at.paused { return false; }
      if exclusive && (at.switching || inProgress) {
        if !at.switching { requested := true; }
        return false;
      }
      inProgress := true;
      running := running + {task};
      started := true;
    }

    /** The end of a sync hands a remembered need over to a scheduled catch-up, unless the situation
        suppresses it; nothing else is forgotten. */
    method Finished(at: Situation, task: nat)
      requires Valid() && task in running
      modifies this
      ensures Valid() && Value() == OnFinish(old(Value()), at, task)
      ensures at == CALM && Remembered(old(Value())) ==> Remembered(Value()) && scheduled > 0
      ensures scheduled >= old(scheduled) && !requested && !inProgress && running == old(running) - {task}
      ensures scheduled == old(scheduled)
        + if old(requested) && !at.paused && !at.switching && !at.held then 1 else 0
    {
      inProgress := false;
      running := running - {task};
      if requested {
        requested := false;
        RunCatchUpSync(at);
      }
    }

    method RunCatchUpSync(at: Situation)
      modifies this`scheduled
      ensures scheduled == old(scheduled) + if at.paused || at.switching || at.held then 0 else 1
    {
      if at.paused || at.switching || at.held { return; }
      scheduled := scheduled + 1;
    }

    /** A catch-up that is skipped in its turn is remembered again. */
    method CatchUpReady(at: Situation, task: nat) returns (started: bool)
      requires Valid() && scheduled > 0 && task !in running
      modifies this
      ensures Valid() && Value() == OnCatchUp(old(Value()), at, task)
      ensures started == (running == old(running) + {task}) && (!started ==> running == old(running))
      ensures !started && !at.paused && !at.switching ==> Remembered(Value())
    {
      scheduled := scheduled - 1;
      started := SyncFrom(at, task, true);
    }
  }

  // ---- Traces -----------------------------------------------------------------------------------------------

  predicate Possible(g: Gate, e: Event) {
    match e
    case Call(_, task, _) => task !in g.running
    case Finish(_, task) => task in g.running
    case CatchUp(_, task) => g.scheduled > 0 && task !in g.running
  }

  function Next(g: Gate, e: Event): Gate
    requires Possible(g, e)
  {
    match e
    case Call(at, task, exclusive) => OnCall(g, at, task, exclusive)
    case Finish(at, task) => OnFinish(g, at, task)
    case CatchUp(at, task) => OnCatchUp(g, at, task)
  }

  /** A trace of the gate; pauses, switches, locks and dialogs come and go. */
  ghost predicate Trace(gates: seq<Gate>, events: seq<Event>) {
    && |gates| == |events| + 1 && gates[0] == IDLE
    && forall i {:trigger events[i]} :: 0 <= i < |events| ==>
         Possible(gates[i], events[i]) && gates[i + 1] == Next(gates[i], events[i])
  }

  /** The event starts a pull. */
  predicate Starts(g: Gate, e: Event) {
    match e
    case Call(at, _, exclusive) => !at.paused && (!exclusive || (!at.switching && !g.inProgress))
    case CatchUp(at, _) => !at.paused && !at.switching && !g.inProgress
    case Finish(_, _) => false
  }

  /** A sync that is skipped because another one is running. */
  predicate Skips(g: Gate, e: Event) {
    !e.Finish? && !e.at.paused && !e.at.switching && !Starts(g, e)
  }

  /** A catch-up that is due is given up: for a pause or a switch, or for a lock or a dialog when it is scheduled. */
  predicate Drops(g: Gate, e: Event) {
    match e
    case Call(_, _, _) => false
    case Finish(at, _) => g.requested && (at.paused || at.switching || at.held)
    case CatchUp(at, _) => at.paused || at.switching
  }

  lemma FlagKept(g: Gate, e: Event)
    requires FlagOk(g) && Possible(g, e)
    ensures FlagOk(Next(g, e))
    ensures Starts(g, e) <==> Next(g, e).running > g.running
  {
    if !e.Finish? { assert e.task in g.running + {e.task}; }
  }

  lemma StillRemembered(g: Gate, e: Event)
    requires FlagOk(g) && Possible(g, e)
    requires Skips(g, e) || (Remembered(g) && !Starts(g, e) && !Drops(g, e))
    ensures Remembered(Next(g, e))
  {}

  lemma {:induction false} FlagAlways(gates: seq<Gate>, events: seq<Event>, i: nat)
    requires Trace(gates, events) && i < |gates|
    ensures FlagOk(gates[i])
  {
    if i > 0 {
      FlagAlways(gates, events, i - 1);
      assert Possible(gates[i - 1], events[i - 1]) && gates[i - 1 + 1] == Next(gates[i - 1], events[i - 1]);
      FlagKept(gates[i - 1], events[i - 1]);
    }
  }

  /** From a skip on, the need for a pull is remembered until one starts or is given up. */
  lemma {:induction false} SkipRemembered(gates: seq<Gate>, events: seq<Event>, i: nat, k: nat)
    requires Trace(gates, events) && i < k < |gates| && Skips(gates[i], events[i])
    requires forall j :: i < j < k ==> !Starts(gates[j], events[j]) && !Drops(gates[j], events[j])
    ensures Remembered(gates[k])
    decreases k
  {
    FlagAlways(gates, events, k - 1);
    assert Possible(gates[k - 1], events[k - 1]) && gates[k - 1 + 1] == Next(gates[k - 1], events[k - 1]);
    if k - 1 > i { SkipRemembered(gates, events, i, k - 1); }
    StillRemembered(gates[k - 1], events[k - 1]);
  }

  /** No lost wake-up: once every sync has finished and every catch-up has been made, each skipped sync has been
      followed by a pull that started after the skip, unless a pause, a switch, a lock or a dialog cancelled the
      catch-up. */
  lemma NoLostWakeUp(gates: seq<Gate>, events: seq<Event>, i: nat)
    requires Trace(gates, events) && i < |events| && Skips(gates[i], events[i])
    requires gates[|events|].running == {} && gates[|events|].scheduled == 0
    ensures exists j :: i < j < |events| && (Starts(gates[j], events[j]) || Drops(gates[j], events[j]))
  {
    if forall j :: i < j < |events| ==> !Starts(gates[j], events[j]) && !Drops(gates[j], events[j]) {
      SkipRemembered(gates, events, i, |events|);
      assert false;
    }
  }
}
