/** Runs of the app: a sequence of events and timer ticks replayed through
    `Observe` and `Scan`, and what stays true along every run. */
module Trace {
  import opened Levels
  import opened Configuration
  import opened Registry

  /** Something that happens to the app: an event with a rendered message,
      or a tick of the one-second timer, each at a clock reading. */
  datatype Step = Event(signature: string, at: int) | Tick(at: int)

  /** The switches after a run, and what each step logged. */
  datatype Run = Run(switches: Switches, log: seq<set<Notification>>)

  /** Replays `steps`, in order, from the switches `start`. */
  function Replay(start: Switches, steps: seq<Step>, cfg: Config): (r: Run)
    requires cfg.Ready()
    ensures |r.log| == |steps|
    decreases |steps|
  {
    if steps == [] then Run(start, [])
    else
      var before := Replay(start, steps[..|steps| - 1], cfg);
      match steps[|steps| - 1]
      case Event(signature, at) =>
        var o := Observe(before.switches, signature, at, cfg);
        Run(o.switches, before.log + [if o.note.Some? then {o.note.value} else {}])
      case Tick(at) =>
        var s := Scan(before.switches, at, cfg);
        Run(s.switches, before.log + [s.notes])
  }

  /** The signatures of the events among `steps`. */
  function Signatures(steps: seq<Step>): set<string>
  {
    set i | 0 <= i < |steps| && steps[i].Event? :: steps[i].signature
  }

  /** How many events among `steps` carry `signature`. */
  function Observations(steps: seq<Step>, signature: string): nat
    decreases |steps|
  {
    if steps == [] then 0
    else
      var last := steps[|steps| - 1];
      Observations(steps[..|steps| - 1], signature) + (if last.Event? && last.signature == signature then 1 else 0)
  }

  /** How many steps of a log logged `n`. */
  function Times(log: seq<set<Notification>>, n: Notification): nat
    decreases |log|
  {
    if log == [] then 0
    else Times(log[..|log| - 1], n) + (if n in log[|log| - 1] then 1 else 0)
  }

  /** 1 when `signature` has an armed switch, else 0. */
  function ArmedCount(switches: Switches, signature: string): nat
  {
    if signature in switches && switches[signature].armed then 1 else 0
  }

  /** Switches are only ever created by events and never removed: after a
      run the signatures with a switch are those there at the start plus
      those of the run's events. */
  lemma {:induction false} SwitchesAreNeverRemoved(start: Switches, steps: seq<Step>, cfg: Config)
    requires cfg.Ready()
    ensures Replay(start, steps, cfg).switches.Keys == start.Keys + Signatures(steps)
    decreases |steps|
  {
    if steps != [] {
      var prefix := steps[..|steps| - 1];
      SwitchesAreNeverRemoved(start, prefix, cfg);
      SignaturesStep(steps);
    }
  }

  /** The event signatures of a run are those of its prefix plus that of its last step. */
  lemma SignaturesStep(steps: seq<Step>)
    requires steps != []
    ensures var last := steps[|steps| - 1];
      Signatures(steps) == Signatures(steps[..|steps| - 1]) + (if last.Event? then {last.signature} else {})
  {
  }

  /** What one step logs never includes the blown message of a signature
      that step did not blow. */
  lemma StepLogsBlownOnlyWhenExpired(before: Switches, step: Step, signature: string, sev: Severity, cfg: Config)
    requires cfg.Ready()
    ensures step.Event? ==>
      var o := Observe(before, step.signature, step.at, cfg);
      Notification(sev, BlownMessage(signature)) !in (if o.note.Some? then {o.note.value} else {})
    ensures step.Tick? && Notification(sev, BlownMessage(signature)) in Scan(before, step.at, cfg).notes ==>
      signature in Expiring(before, step.at)
  {
    if step.Event? {
      ArmedIsNotBlown(true, step.signature, signature);
      ArmedIsNotBlown(false, step.signature, signature);
    } else if Notification(sev, BlownMessage(signature)) in Scan(before, step.at, cfg).notes {
      var k :| k in Expiring(before, step.at) && BlownMessage(signature) == BlownMessage(k);
      BlownMessageInjective(k, signature);
    }
  }

  /** Without Repeat a switch alerts at most once per silence: over any run
      a signature's blown message is logged no more often than events with
      that signature arrived, counting a switch armed at the start as one. */
  lemma {:induction false} BlownAtMostOncePerObservation(
    start: Switches, steps: seq<Step>, signature: string, sev: Severity, cfg: Config)
    requires cfg.Ready() && !cfg.repeat
    ensures var run := Replay(start, steps, cfg);
      Times(run.log, Notification(sev, BlownMessage(signature))) + ArmedCount(run.switches, signature)
      <= Observations(steps, signature) + ArmedCount(start, signature)
    decreases |steps|
  {
    if steps != [] {
      var prefix := steps[..|steps| - 1];
      var last := steps[|steps| - 1];
      var n := Notification(sev, BlownMessage(signature));
      BlownAtMostOncePerObservation(start, prefix, signature, sev, cfg);
      var before := Replay(start, prefix, cfg);
      var run := Replay(start, steps, cfg);
      assert run.log[..|run.log| - 1] == before.log;
      StepLogsBlownOnlyWhenExpired(before.switches, last, signature, sev, cfg);
    }
  }

  /** From a fresh start, without Repeat, a signature is reported blown at
      most as many times as it was observed. */
  lemma FromFreshStartBlownAtMostObserved(steps: seq<Step>, signature: string, sev: Severity, cfg: Config)
    requires cfg.Ready() && !cfg.repeat
    ensures Times(Replay(map[], steps, cfg).log, Notification(sev, BlownMessage(signature))) <= Observations(steps, signature)
  {
    BlownAtMostOncePerObservation(map[], steps, signature, sev, cfg);
  }

}
