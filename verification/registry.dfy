/** The per-signature switches and the two transitions that change them:
    `Observe` (the event handler `On`) and `Scan` (the one-second timer
    callback `TimerOnElapsed`). Time is a count of clock ticks, the unit of
    the .NET `DateTime` the program reads. */
module Registry {
  import opened Wrappers
  import opened Levels
  import opened Configuration

  /** `DateTime.AddSeconds` with a whole number of seconds adds this many ticks. */
  const TicksPerSecond: int := 10_000_000

  /** `EventSwitch`: `deadline` is its `Trigger` time. */
  datatype Switch = Switch(armed: bool, deadline: int)

  /** `new EventSwitch()`: disarmed (its trigger, `DateTime.MinValue`, is
      overwritten before it is ever compared), so it never blows. */
  function FreshSwitch(): (r: Switch)
    ensures !r.armed
    ensures forall now :: !Expired(r, now)
  {
    Switch(false, 0)
  }

  /** The switches, keyed by the rendered message of the event that made them. */
  type Switches = map<string, Switch>

  /** `now.AddSeconds(Timeout)`. */
  function Deadline(now: int, cfg: Config): (r: int)
    ensures r > now <==> cfg.timeout > 0
    ensures r == now <==> cfg.timeout == 0
  {
    now + cfg.timeout * TicksPerSecond
  }

  /** A switch the timer blows at `now`: armed, with its deadline strictly before `now`. */
  predicate Expired(s: Switch, now: int)
  {
    s.deadline < now && s.armed
  }

  /** The signatures whose switches are expired at `now`. */
  function Expiring(switches: Switches, now: int): set<string>
  {
    set k | k in switches && Expired(switches[k], now)
  }

  /** The message logged when a switch is armed. */
  function ArmedMessage(isNew: bool, signature: string): string
  {
    (if isNew then "New switch" else "Switch") + " armed: " + signature + "."
  }

  /** The message logged when a switch blows. */
  function BlownMessage(signature: string): string
  {
    "Switch blown: '" + signature + "'"
  }

  /** Different signatures are blown with different messages. */
  lemma BlownMessageInjective(a: string, b: string)
    ensures BlownMessage(a) == BlownMessage(b) ==> a == b
  {
    if BlownMessage(a) == BlownMessage(b) {
      assert a == BlownMessage(a)[15..|BlownMessage(a)| - 1];
    }
  }

  /** No arming message reads like a blown message. */
  lemma ArmedIsNotBlown(isNew: bool, a: string, b: string)
    ensures ArmedMessage(isNew, a) != BlownMessage(b)
    ensures isNew ==> "New switch armed: " + a + "." != BlownMessage(b)
    ensures !isNew ==> "Switch armed: " + a + "." != BlownMessage(b)
  {
    assert ArmedMessage(isNew, a) == (if isNew then "New switch armed: " else "Switch armed: ") + a + ".";
    if isNew {
      assert ArmedMessage(isNew, a)[0] == 'N' != BlownMessage(b)[0];
    } else {
      assert ArmedMessage(isNew, a)[7] == 'a' != BlownMessage(b)[7];
    }
  }

  datatype Observed = Observed(switches: Switches, note: Option<Notification>)

  /** `On`: an event with rendered message `signature` arrives at `now`. The
      switch is created if the signature is new, armed, and its deadline
      moved to a full timeout from now; arming a switch that was not armed
      is logged unless that is disabled. */
  function Observe(switches: Switches, signature: string, now: int, cfg: Config): (r: Observed)
    requires cfg.Ready()
    ensures r.switches.Keys == switches.Keys + {signature}
    ensures r.switches[signature] == Switch(true, Deadline(now, cfg))
    ensures forall k :: k in switches && k != signature ==> r.switches[k] == switches[k]
    ensures r.note.Some? <==>
      && (signature !in switches || !switches[signature].armed)
      && !cfg.disableArmLogging
      && SeverityOf(cfg.armedLevel).Some?
    ensures r.note.Some? ==> Some(r.note.value.severity) == SeverityOf(cfg.armedLevel)
    ensures r.note.Some? && signature !in switches ==> r.note.value.message == "New switch armed: " + signature + "."
    ensures r.note.Some? && signature in switches ==> r.note.value.message == "Switch armed: " + signature + "."
  {
    var isNew := signature !in switches;
    var current := if isNew then FreshSwitch() else switches[signature];
    var note :=
      if !current.armed && !cfg.disableArmLogging
      then LogMessage(ArmedMessage(isNew, signature), cfg.armedLevel)
      else None;
    Observed(switches[signature := current.(armed := true, deadline := Deadline(now, cfg))], note)
  }

  /** What one pass of the timer loop does to one switch. A switch that is
      not expired is left alone. A blown switch without
      Repeat never expires again until an event re-arms it; with Repeat it
      expires again at exactly the instants after a full timeout from `now`. */
  function Blow(s: Switch, now: int, cfg: Config): (r: Switch)
    ensures !Expired(s, now) ==> r == s
    ensures Expired(s, now) && !cfg.repeat ==> forall later :: !Expired(r, later)
    ensures Expired(s, now) && cfg.repeat ==> forall later :: Expired(r, later) <==> later > Deadline(now, cfg)
  {
    if !Expired(s, now) then s
    else if cfg.repeat then s.(deadline := Deadline(now, cfg))
    else s.(armed := false)
  }

  /** The notifications logged for those of `keys` that are expired at `now`. */
  function Reports(switches: Switches, keys: set<string>, now: int, cfg: Config): set<Notification>
    requires cfg.Ready()
  {
    set k | k in keys && k in switches && Expired(switches[k], now) && LogMessage(BlownMessage(k), cfg.blownLevel).Some?
      :: LogMessage(BlownMessage(k), cfg.blownLevel).value
  }

  datatype Scanned = Scanned(switches: Switches, notes: set<Notification>)

  /** `TimerOnElapsed` at `now`: every expired switch is reported and then
      either given a fresh deadline (repeat) or disarmed (once); no other
      switch changes and no switch is added or removed. */
  function Scan(switches: Switches, now: int, cfg: Config): (r: Scanned)
    requires cfg.Ready()
    ensures r.switches.Keys == switches.Keys
    ensures forall k :: k in switches && !Expired(switches[k], now) ==> r.switches[k] == switches[k]
    ensures forall k :: k in switches && Expired(switches[k], now) && cfg.repeat ==>
      r.switches[k] == Switch(true, Deadline(now, cfg))
    ensures forall k :: k in switches && Expired(switches[k], now) && !cfg.repeat ==>
      r.switches[k] == Switch(false, switches[k].deadline)
    ensures SeverityOf(cfg.blownLevel).None? ==> r.notes == {}
    ensures forall n :: n in r.notes ==> Some(n.severity) == SeverityOf(cfg.blownLevel)
    ensures forall n :: n in r.notes ==> exists k :: k in Expiring(switches, now) && n.message == BlownMessage(k)
    ensures forall k, sev :: k in switches && SeverityOf(cfg.blownLevel) == Some(sev) ==>
      (Notification(sev, BlownMessage(k)) in r.notes <==> Expired(switches[k], now))
    ensures SeverityOf(cfg.blownLevel).Some? ==> |r.notes| == |Expiring(switches, now)|
  {
    var r := Scanned(map k | k in switches :: Blow(switches[k], now, cfg), Reports(switches, switches.Keys, now, cfg));
    forall k, sev | k in switches && SeverityOf(cfg.blownLevel) == Some(sev) && Notification(sev, BlownMessage(k)) in r.notes
      ensures Expired(switches[k], now)
    {
      var j :| j in switches && Expired(switches[j], now) && LogMessage(BlownMessage(j), cfg.blownLevel).Some?
        && LogMessage(BlownMessage(j), cfg.blownLevel).value == Notification(sev, BlownMessage(k));
      BlownMessageInjective(j, k);
    }
    ReportsCount(switches, switches.Keys, now, cfg);
    assert Expiring(switches, now) * switches.Keys == Expiring(switches, now);
    r
  }

  /** Visiting one more key adds its report, if it has one, to the reports so far. */
  lemma ReportsStep(switches: Switches, visited: set<string>, k: string, now: int, cfg: Config)
    requires cfg.Ready() && k in switches && k !in visited
    ensures var logged := LogMessage(BlownMessage(k), cfg.blownLevel);
      Reports(switches, visited + {k}, now, cfg) ==
      Reports(switches, visited, now, cfg) + (if Expired(switches[k], now) && logged.Some? then {logged.value} else {})
    ensures LogMessage(BlownMessage(k), cfg.blownLevel).Some? ==>
      LogMessage(BlownMessage(k), cfg.blownLevel).value !in Reports(switches, visited, now, cfg)
  {
    var logged := LogMessage(BlownMessage(k), cfg.blownLevel);
    if logged.Some? {
      forall j | j in visited && j in switches && Expired(switches[j], now) && LogMessage(BlownMessage(j), cfg.blownLevel).Some?
        ensures LogMessage(BlownMessage(j), cfg.blownLevel).value != logged.value
      {
        BlownMessageInjective(j, k);
      }
    }
  }

  /** With a recognised level, visiting one more key adds one report exactly when it is expired. */
  lemma ReportsCountStep(switches: Switches, visited: set<string>, k: string, now: int, cfg: Config)
    requires cfg.Ready() && k in switches && k !in visited && SeverityOf(cfg.blownLevel).Some?
    ensures |Reports(switches, visited + {k}, now, cfg)| ==
      |Reports(switches, visited, now, cfg)| + (if k in Expiring(switches, now) then 1 else 0)
  {
    ReportsStep(switches, visited, k, now, cfg);
  }

  /** Adding a key to the visited set adds one to its overlap with `a` exactly when the key is in `a`. */
  lemma IntersectStep<T>(a: set<T>, visited: set<T>, k: T)
    requires k !in visited
    ensures |a * (visited + {k})| == |a * visited| + (if k in a then 1 else 0)
  {
    if k in a {
      assert a * (visited + {k}) == a * visited + {k};
    } else {
      assert a * (visited + {k}) == a * visited;
    }
  }

  /** With a recognised level, the reports for `keys` are one per expired key among them. */
  lemma {:induction false} ReportsCount(switches: Switches, keys: set<string>, now: int, cfg: Config)
    requires cfg.Ready() && keys <= switches.Keys
    ensures SeverityOf(cfg.blownLevel).Some? ==> |Reports(switches, keys, now, cfg)| == |Expiring(switches, now) * keys|
    decreases keys
  {
    if keys != {} && SeverityOf(cfg.blownLevel).Some? {
      var k :| k in keys;
      var rest := keys - {k};
      ReportsCount(switches, rest, now, cfg);
      ReportsCountStep(switches, rest, k, now, cfg);
      IntersectStep(Expiring(switches, now), rest, k);
      assert rest + {k} == keys;
    }
  }

  /** The timer callback as the program runs it: the expired switches are
      visited one at a time, in whatever order the dictionary yields them.
      Every order gives the result of `Scan`. */
  method ScanLoop(switches: Switches, now: int, cfg: Config) returns (r: Scanned)
    requires cfg.Ready()
    ensures r == Scan(switches, now, cfg)
  {
    var current := switches;
    var notes: set<Notification> := {};
    var pending := switches.Keys;
    var visited: set<string> := {};
    while pending != {}
      invariant visited + pending == switches.Keys && visited !! pending
      invariant current.Keys == switches.Keys
      invariant forall k :: k in pending ==> current[k] == switches[k]
      invariant forall k :: k in visited ==> current[k] == Blow(switches[k], now, cfg)
      invariant notes == Reports(switches, visited, now, cfg)
      decreases pending
    {
      var k :| k in pending;
      var s := current[k];
      ReportsStep(switches, visited, k, now, cfg);
      if s.deadline < now && s.armed {
        var logged := LogMessage(BlownMessage(k), cfg.blownLevel);
        if logged.Some? {
          notes := notes + {logged.value};
        }
        if cfg.repeat {
          current := current[k := s.(deadline := Deadline(now, cfg))];
        } else {
          current := current[k := s.(armed := false)];
        }
      }
      pending := pending - {k};
      visited := visited + {k};
    }
    r := Scanned(current, notes);
  }

}
