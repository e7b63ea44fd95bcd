/** How `Observe` and `Scan` behave in sequence: the timing rules the
    program promises to the people who configure it. */
module SwitchProperties {
  import opened Wrappers
  import opened Levels
  import opened Configuration
  import opened Registry

  /** An event for an already armed switch only extends its deadline: it is
      not logged, and the switches end as if only the later event had arrived. */
  lemma ObserveAgainIsSilent(switches: Switches, signature: string, t1: int, t2: int, cfg: Config)
    requires cfg.Ready()
    ensures var again := Observe(Observe(switches, signature, t1, cfg).switches, signature, t2, cfg);
      again.note == None && again.switches == Observe(switches, signature, t2, cfg).switches
  {
  }

  /** A switch armed at `t` blows at the first scan strictly after its full
      timeout, and not at or before it: at `now == t + Timeout` it survives. */
  lemma BlowsOnlyAfterFullTimeout(switches: Switches, signature: string, t: int, now: int, cfg: Config)
    requires cfg.Ready()
    ensures var armed := Observe(switches, signature, t, cfg).switches;
      signature in Expiring(armed, now) <==> now > t + cfg.timeout * TicksPerSecond
  {
  }

  /** Without Repeat a blown switch is disarmed: no later scan, at any time,
      blows or reports it again until an event re-arms it. */
  lemma OnceThenSilent(switches: Switches, signature: string, now: int, later: int, cfg: Config)
    requires cfg.Ready() && !cfg.repeat
    requires signature in Expiring(switches, now)
    ensures var after := Scan(switches, now, cfg).switches;
      signature !in Expiring(after, later) &&
      forall n :: n in Scan(after, later, cfg).notes ==> n.message != BlownMessage(signature)
  {
  }

  /** With Repeat a blown switch stays armed with a fresh timeout, so it
      blows again at exactly the scans strictly after `now + Timeout`. */
  lemma RepeatBlowsAgain(switches: Switches, signature: string, now: int, later: int, cfg: Config)
    requires cfg.Ready() && cfg.repeat
    requires signature in Expiring(switches, now)
    ensures var after := Scan(switches, now, cfg).switches;
      signature in Expiring(after, later) <==> later > now + cfg.timeout * TicksPerSecond
  {
  }

  /** A second scan at the same instant finds nothing to do, unless switches
      repeat with a negative timeout. */
  lemma ScanSettles(switches: Switches, now: int, cfg: Config)
    requires cfg.Ready() && (!cfg.repeat || cfg.timeout >= 0)
    ensures var once := Scan(switches, now, cfg);
      Scan(once.switches, now, cfg) == Scanned(once.switches, {})
  {
  }

  /** The timeout is not validated: with Repeat and a negative timeout, every
      switch that blows is still expired after the scan, so it blows again at
      every scan, at the same instant or later. */
  lemma NegativeTimeoutBlowsEveryScan(switches: Switches, now: int, later: int, cfg: Config)
    requires cfg.Ready() && cfg.repeat && cfg.timeout < 0
    requires later >= now
    ensures Expiring(Scan(switches, now, cfg).switches, now) == Expiring(switches, now)
    ensures Expiring(switches, now) <= Expiring(Scan(switches, now, cfg).switches, later)
  {
  }

  /** A switch that blew once and is then seen again is re-armed with the
      "Switch armed" wording, never "New switch armed". */
  lemma RearmAfterBlowSaysSwitchArmed(
    switches: Switches, signature: string, t0: int, now: int, t2: int, cfg: Config)
    requires cfg.Ready() && !cfg.repeat && !cfg.disableArmLogging
    requires SeverityOf(cfg.armedLevel).Some?
    requires now > t0 + cfg.timeout * TicksPerSecond
    ensures var armed := Observe(switches, signature, t0, cfg).switches;
      var blown := Scan(armed, now, cfg).switches;
      Observe(blown, signature, t2, cfg).note ==
        Some(Notification(SeverityOf(cfg.armedLevel).value, "Switch armed: " + signature + "."))
  {
  }

  /** A switch blowing changes nothing about any other switch. */
  lemma ScanIsolatesSwitches(a: Switches, b: Switches, signature: string, now: int, cfg: Config)
    requires cfg.Ready()
    requires signature in a && signature in b && a[signature] == b[signature]
    ensures Scan(a, now, cfg).switches[signature] == Scan(b, now, cfg).switches[signature]
    ensures forall sev :: Notification(sev, BlownMessage(signature)) in Scan(a, now, cfg).notes
                     <==> Notification(sev, BlownMessage(signature)) in Scan(b, now, cfg).notes
  {
  }

}
