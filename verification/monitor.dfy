/**
 * The health monitor (automation-service/monitor.py): one iteration of the
 * `_monitor_blitz` loop over the consecutive-failure counter, and one iteration of
 * the `_monitor_automation` heartbeat. The HTTP probe's outcome and whether
 * `notify_admins` and the heartbeat write succeed are parameters; the sleeps are
 * not modelled.
 */
module Monitor {
  import opened Common
  import opened Store
  import opened Blitz

  /** What `client.get(f"{base}/")` produced: a status code, or an exception's text. */
  datatype Probe = Responded(status: int) | Unreachable(error: string)

  predicate IsFailure(p: Probe) {
    !(p.Responded? && p.status == 200)
  }

  /** Failures in a row after which admins are alerted. */
  const AlertThreshold: nat := 3

  /** The counter after the probe's own branch (lines 30-39). */
  function CountAfterProbe(count: nat, probe: Probe): nat {
    if IsFailure(probe) then count + 1 else 0
  }

  /** Whether this iteration calls `notify_admins` (line 42). */
  predicate Alerts(count: nat, probe: Probe) {
    CountAfterProbe(count, probe) >= AlertThreshold
  }

  /** The counter at the end of the iteration: reset only when the alert went out. */
  function NextCount(count: nat, probe: Probe, notifySucceeds: bool): nat {
    if Alerts(count, probe) && notifySucceeds then 0 else CountAfterProbe(count, probe)
  }

  /** The `monitor_events` rows one iteration appends. */
  function ProbeEvents(count: nat, probe: Probe, now: int): (evs: seq<MonitorEvent>)
    ensures |evs| <= 1
    ensures IsFailure(probe) ==> |evs| == 1
    ensures !IsFailure(probe) ==> (|evs| == 1 <==> count > 0)
  {
    match probe
    case Responded(status) =>
      if status == 200 then
        if count != 0 then [MonitorEvent("blitz", "INFO", "Recovered", "status 200", now)] else []
      else [MonitorEvent("blitz", "WARN", "Status " + IntToString(status), "", now)]
    case Unreachable(error) => [MonitorEvent("blitz", "ERROR", "Unreachable", error, now)]
  }

  /**
   * One pass of the `try` block of lines 28-39 when the `log_monitor_event` calls
   * may fail: the counter after it, the events written, and whether the exception
   * escaped the loop and ended the task.
   */
  datatype Round = Round(count: nat, events: seq<MonitorEvent>, escaped: bool)

  /**
   * `writeOk` is the outcome of the branch's own write, `fallbackOk` that of the
   * `except` branch's ERROR write and `writeError` the text of the store's exception.
   * A failed INFO or WARN write is caught at line 37 and counted as one more failure;
   * a failed write inside the `except` branch escapes the loop.
   */
  function TryRound(count: nat, probe: Probe, writeOk: bool, fallbackOk: bool, writeError: string, now: int): Round {
    var c := CountAfterProbe(count, probe);
    if writeOk || ProbeEvents(count, probe, now) == [] then Round(c, ProbeEvents(count, probe, now), false)
    else if probe.Unreachable? then Round(c, [], true)
    else if fallbackOk then Round(c + 1, [MonitorEvent("blitz", "ERROR", "Unreachable", writeError, now)], false)
    else Round(c + 1, [], true)
  }

  /** When every write succeeds a round is the probe's own branch, as `ProbeEvents` and `CountAfterProbe` say. */
  lemma WritesSucceedRound(count: nat, probe: Probe, fallbackOk: bool, writeError: string, now: int)
    ensures TryRound(count, probe, true, fallbackOk, writeError, now) ==
      Round(CountAfterProbe(count, probe), ProbeEvents(count, probe, now), false)
    ensures TryRound(count, probe, true, fallbackOk, writeError, now).count >= AlertThreshold <==> Alerts(count, probe)
  {
  }

  /**
   * A failed write turns the round into a failure: a 200 whose "Recovered" write fails
   * leaves the counter at 1, a status whose WARN write fails counts the probe twice,
   * and the loop ends only when the write in the `except` branch fails.
   */
  lemma FailedWriteCountsAsFailure(count: nat, probe: Probe, fallbackOk: bool, writeError: string, now: int)
    requires ProbeEvents(count, probe, now) != []
    ensures var r := TryRound(count, probe, false, fallbackOk, writeError, now);
      && (r.escaped <==> probe.Unreachable? || !fallbackOk)
      && (probe == Responded(200) ==> r.count == 1)
      && (probe.Responded? && probe.status != 200 ==> r.count == count + 2)
      && (probe.Unreachable? ==> r.count == count + 1)
      && (!r.escaped ==> r.events == [MonitorEvent("blitz", "ERROR", "Unreachable", writeError, now)])
      && (r.escaped ==> r.events == [])
  {
  }

  /** The URL probed: `BLITZ_API_URL` without trailing slashes or a final `/api`, plus `/`. */
  function ProbeUrl(apiUrl: string): string {
    var base := RStrip(apiUrl, '/');
    (if EndsWith(base, ApiSuffix) then base[..|base| - 4] else base) + "/"
  }

  /** The monitor probes the same public base the panel client serves subscriptions from. */
  lemma ProbeUrlIsPublicBase(apiUrl: string, token: string)
    ensures ProbeUrl(apiUrl) == PublicBaseUrl(NewClient(apiUrl, token)) + "/"
  {
  }

  class HealthMonitor {
    const db: Database
    var failCount: nat

    ghost predicate Valid()
      reads this, db
    {
      db.Valid()
    }

    constructor (db: Database)
      requires db.Valid()
      ensures Valid() && this.db == db && failCount == 0
    {
      this.db := db;
      failCount := 0;
    }

    /**
     * One pass of the `_monitor_blitz` loop; `alerted` says whether `notify_admins`
     * was called and `escaped` whether an exception ended the loop before that check.
     */
    method MonitorBlitzStep(probe: Probe, writeOk: bool, fallbackOk: bool, writeError: string,
                            notifySucceeds: bool, now: int) returns (alerted: bool, escaped: bool)
      requires Valid()
      modifies this, db
      ensures Valid()
      ensures var r := TryRound(old(failCount), probe, writeOk, fallbackOk, writeError, now);
        && escaped == r.escaped
        && alerted == (!r.escaped && r.count >= AlertThreshold)
        && failCount == (if alerted && notifySucceeds then 0 else r.count)
        && db.monitorEvents == old(db.monitorEvents) + r.events
      ensures db.users == old(db.users) && db.registry == old(db.registry) && db.idAudit == old(db.idAudit)
      ensures db.authLogs == old(db.authLogs) && db.trafficStats == old(db.trafficStats) && db.webhookEvents == old(db.webhookEvents)
    {
      escaped := false;
      match probe {
        case Responded(status) =>
          var written := true;
          if status == 200 {
            if failCount != 0 {
              failCount := 0;
              written := writeOk;
              if written {
                db.LogMonitorEvent("blitz", "INFO", "Recovered", "status 200", now);
              }
            }
          } else {
            failCount := failCount + 1;
            written := writeOk;
            if written {
              db.LogMonitorEvent("blitz", "WARN", "Status " + IntToString(status), "", now);
            }
          }
          if !written {
            // the `except` branch of line 37, reached through the failed write
            failCount := failCount + 1;
            if fallbackOk {
              db.LogMonitorEvent("blitz", "ERROR", "Unreachable", writeError, now);
            } else {
              escaped := true;
            }
          }
        case Unreachable(error) =>
          failCount := failCount + 1;
          if writeOk {
            db.LogMonitorEvent("blitz", "ERROR", "Unreachable", error, now);
          } else {
            escaped := true;
          }
      }
      if escaped {
        return false, true;
      }
      alerted := failCount >= AlertThreshold;
      if alerted && notifySucceeds {
        failCount := 0;
      }
    }

    /** One pass of `_monitor_automation`: a failed write is swallowed. */
    method MonitorAutomationStep(writeSucceeds: bool, now: int)
      requires Valid()
      modifies db
      ensures Valid()
      ensures writeSucceeds ==> db.monitorEvents == old(db.monitorEvents) + [MonitorEvent("automation", "INFO", "alive", "", now)]
      ensures !writeSucceeds ==> db.monitorEvents == old(db.monitorEvents)
      ensures db.users == old(db.users) && db.registry == old(db.registry) && db.idAudit == old(db.idAudit)
      ensures db.authLogs == old(db.authLogs) && db.trafficStats == old(db.trafficStats) && db.webhookEvents == old(db.webhookEvents)
    {
      if writeSucceeds {
        db.LogMonitorEvent("automation", "INFO", "alive", "", now);
      }
    }
  }

  // ----- runs in which every alert is delivered

  /** The counter after a run of probes from a fresh monitor, every alert delivered. */
  function CountAfter(probes: seq<Probe>): nat {
    if probes == [] then 0 else NextCount(CountAfter(probes[..|probes| - 1]), probes[|probes| - 1], true)
  }

  /** How many failures end the run. */
  function TrailingFailures(probes: seq<Probe>): nat {
    if probes == [] || !IsFailure(probes[|probes| - 1]) then 0
    else TrailingFailures(probes[..|probes| - 1]) + 1
  }

  /** The counter is the length of the current failure streak, modulo the threshold. */
  lemma {:induction false} CountIsStreakModThreshold(probes: seq<Probe>)
    ensures CountAfter(probes) == TrailingFailures(probes) % AlertThreshold
    ensures CountAfter(probes) < AlertThreshold
  {
    if probes != [] {
      CountIsStreakModThreshold(probes[..|probes| - 1]);
    }
  }

  /**
   * After any run, the next probe raises an alert exactly when it is a failure that
   * completes a multiple of three failures in a row.
   */
  lemma AlertOnEveryThirdFailure(probes: seq<Probe>, next: Probe)
    ensures Alerts(CountAfter(probes), next) <==>
      IsFailure(next) && TrailingFailures(probes + [next]) % AlertThreshold == 0
  {
    CountIsStreakModThreshold(probes);
    assert (probes + [next])[..|probes|] == probes;
  }

  /** With alerts delivered the counter stays below the threshold between iterations. */
  lemma DeliveredAlertKeepsCountLow(count: nat, probe: Probe)
    requires count < AlertThreshold
    ensures NextCount(count, probe, true) < AlertThreshold
    ensures Alerts(count, probe) <==> IsFailure(probe) && count == AlertThreshold - 1
  {
  }

  /** An undelivered alert keeps the counter, so every further failure alerts again. */
  lemma UndeliveredAlertRepeats(count: nat, probe: Probe, next: Probe)
    requires Alerts(count, probe) && IsFailure(next)
    ensures NextCount(count, probe, false) == count + 1
    ensures Alerts(NextCount(count, probe, false), next)
  {
  }

  /** A success right after an alert finds the counter at 0, so it logs no recovery. */
  lemma NoRecoveryRightAfterAlert(probes: seq<Probe>, next: Probe, now: int)
    requires probes != [] && Alerts(CountAfter(probes[..|probes| - 1]), probes[|probes| - 1])
    requires !IsFailure(next)
    ensures ProbeEvents(CountAfter(probes), next, now) == []
  {
  }
}
