/**
 * One running script: the module-level globals it updates in place, and
 * the handlers that update them. The file system, the clock, the size
 * polls, the decoder, the line detector and the broker are outside the
 * program; their answers arrive as parameters.
 */
module App {
  import opened Common
  import opened PosixPath
  import opened Files
  import opened Needle
  import opened GaugeRead
  import opened Archive
  import opened Watcher
  import opened Alerting
  import opened Scripts

  /** How one watcher invocation ended. */
  datatype Handled = Ignored | Debounced | Moved(stable: bool, attempt: nat) | Abandoned(stable: bool)

  /** What a completed processing cycle hands to the display and the alert step. */
  datatype Cycle = Cycle(reading: Reading, displayKernel: Option<int>)

  class GaugeApp {
    const cfg: Config
    /** The angle of the vector from the centre to a tip (the `atan2` step). */
    const angleOf: Point -> real
    /** `str(round(v, 2))`. */
    const format: real -> string

    var fs: FileSystem
    /** `_processed_recent`: path -> time (ms) of its last handling. */
    var recent: map<Path, int>
    /** `new_image_ready`. */
    var ready: bool
    /** The content of value.txt, last write wins. */
    var valueFile: Option<string>
    /** `last_archived_file`, as the program spells it (relative to the working directory). */
    var lastArchived: Option<Path>
    /** `workorder_sent`. */
    var workorderSent: bool
    /** `safe_threshold` (fixed at 25 where it cannot be set). */
    var threshold: real

    /** The configuration is valid, and a script without a threshold entry keeps 25. */
    ghost predicate Valid()
      reads this`threshold
    {
      ValidConfig(cfg) && (!cfg.thresholdSettable ==> threshold == DefaultThreshold)
    }

    constructor (cfg: Config, angleOf: Point -> real, format: real -> string, fs: FileSystem)
      requires ValidConfig(cfg)
      ensures Valid()
      ensures this.cfg == cfg && this.angleOf == angleOf && this.format == format && this.fs == fs
      ensures recent == map[] && !ready && valueFile.None? && lastArchived.None?
      ensures !workorderSent && threshold == DefaultThreshold
    {
      this.cfg := cfg;
      this.angleOf := angleOf;
      this.format := format;
      this.fs := fs;
      recent := map[];
      ready := false;
      valueFile := None;
      lastArchived := None;
      workorderSent := false;
      threshold := DefaultThreshold;
    }

    /**
     * The watcher's handler for one notification about `src` at time `now`:
     * filter, debounce, stability wait over `polls`, then relocation onto
     * the canonical slot with one entry of `attempts` per try.
     */
    method HandleNewFile(src: Path, now: int, polls: seq<Option<nat>>, attempts: seq<Attempt>)
      returns (outcome: Handled)
      requires cfg.watcher.Some?
      requires |polls| >= PollLimit && |attempts| >= cfg.watcher.value.retries
      modifies this`fs, this`recent, this`ready
      ensures outcome == Ignored <==> !IsCandidate(src, cfg.cwd)
      ensures outcome == Debounced <==>
                IsCandidate(src, cfg.cwd) && IsRecent(old(recent), src, now, cfg.watcher.value.debounceMs)
      ensures outcome == Ignored || outcome == Debounced ==>
                fs == old(fs) && recent == old(recent) && ready == old(ready)
      ensures outcome.Moved? <==>
                outcome != Ignored && outcome != Debounced && src in old(fs) &&
                exists k :: 0 <= k < cfg.watcher.value.retries && attempts[k].moveOk
      ensures outcome.Moved? ==>
                outcome.attempt < cfg.watcher.value.retries && attempts[outcome.attempt].moveOk &&
                forall k :: 0 <= k < outcome.attempt ==> !attempts[k].moveOk
      ensures outcome.Moved? ==>
                src in old(fs) && fs == Move(old(fs), src, Canonical(cfg.cwd)) &&
                recent == old(recent)[src := attempts[outcome.attempt].clock] &&
                ready == (cfg.readyFlag || old(ready))
      ensures outcome.Abandoned? ==>
                fs == AfterFailures(old(fs), Canonical(cfg.cwd), attempts, cfg.watcher.value.retries) &&
                recent == old(recent)[src := now] && ready == old(ready)
      ensures outcome.Moved? || outcome.Abandoned? ==>
                (outcome.stable <==> exists i :: 1 <= i < PollLimit && SettledAt(polls, i))
    {
      var candidate := IsCandidate(src, cfg.cwd);
      if !candidate {
        return Ignored;
      }
      if IsRecent(recent, src, now, cfg.watcher.value.debounceMs) {
        return Debounced;
      }
      CandidateIsNotCanonical(src, cfg.cwd);
      outcome := Place(src, now, polls, attempts);
    }

    /**
     * The part of the handler after the filter and the debounce test: record
     * the handling time, wait for the size to settle, then relocate.
     */
    method Place(src: Path, now: int, polls: seq<Option<nat>>, attempts: seq<Attempt>)
      returns (outcome: Handled)
      requires cfg.watcher.Some? && src != Canonical(cfg.cwd)
      requires |polls| >= PollLimit && |attempts| >= cfg.watcher.value.retries
      modifies this`fs, this`recent, this`ready
      ensures outcome.Moved? || outcome.Abandoned?
      ensures outcome.Moved? <==>
                src in old(fs) && exists k :: 0 <= k < cfg.watcher.value.retries && attempts[k].moveOk
      ensures outcome.Moved? ==>
                outcome.attempt < cfg.watcher.value.retries && attempts[outcome.attempt].moveOk &&
                forall k :: 0 <= k < outcome.attempt ==> !attempts[k].moveOk
      ensures outcome.Moved? ==>
                src in old(fs) && fs == Move(old(fs), src, Canonical(cfg.cwd)) &&
                recent == old(recent)[src := attempts[outcome.attempt].clock] &&
                ready == (cfg.readyFlag || old(ready))
      ensures outcome.Abandoned? ==>
                fs == AfterFailures(old(fs), Canonical(cfg.cwd), attempts, cfg.watcher.value.retries) &&
                recent == old(recent)[src := now] && ready == old(ready)
      ensures outcome.stable <==> exists i :: 1 <= i < PollLimit && SettledAt(polls, i)
    {
      var before := recent;
      recent := before[src := now];
      var stable, _ := WaitForStable(polls);
      var result, moved := Relocate(fs, src, Canonical(cfg.cwd), attempts, cfg.watcher.value.retries);
      fs := result;
      if moved.Some? {
        if cfg.readyFlag {
          ready := true;
        }
        recent := before[src := attempts[moved.value].clock];
        outcome := Moved(stable, moved.value);
      } else {
        outcome := Abandoned(stable);
      }
    }

    /**
     * `process_image`: the ready-flag gate (where the script has one), the
     * existence and decode guard, the reading, value.txt, the archive move
     * and the flag clear. `decodes` is whether `imread` returns an image,
     * `segs` the line detector's output, `timestamp` the formatted clock and
     * `archiveOk` whether the archive move succeeds.
     */
    method ProcessImage(decodes: bool, segs: seq<Segment>, timestamp: string, archiveOk: bool)
      returns (cycle: Option<Cycle>)
      requires Valid()
      modifies this`fs, this`ready, this`valueFile, this`lastArchived
      ensures cycle.Some? <==> (!cfg.readyFlag || old(ready)) && Canonical(cfg.cwd) in old(fs) && decodes
      ensures cycle.None? ==>
                fs == old(fs) && ready == old(ready) && valueFile == old(valueFile) &&
                lastArchived == old(lastArchived)
      ensures cycle.Some? ==> cycle.value == Cycle(ReadGauge(cfg.calib, segs, angleOf), DisplayKernel(cfg))
      ensures cycle.Some? ==> valueFile == Some(ValueText(cycle.value.reading, format))
      ensures cycle.Some? ==>
                lastArchived == Some(ArchivePath(ValueText(cycle.value.reading, format), timestamp))
      ensures cycle.Some? ==>
                fs == (if archiveOk then Move(old(fs), Canonical(cfg.cwd), Join(cfg.cwd, lastArchived.value))
                       else old(fs))
      ensures cycle.Some? ==> ready == (old(ready) && !cfg.readyFlag)
    {
      if cfg.readyFlag && !ready {
        return None;
      }
      var target := Canonical(cfg.cwd);
      if target !in fs || !decodes {
        return None;
      }
      var reading := ReadGauge(cfg.calib, segs, angleOf);
      var text := ValueText(reading, format);
      valueFile := Some(text);
      var archivePath := ArchivePath(text, timestamp);
      lastArchived := Some(archivePath);
      if archiveOk {
        fs := Move(fs, target, Join(cfg.cwd, archivePath));
      }
      if cfg.readyFlag {
        ready := false;
      }
      cycle := Some(Cycle(reading, DisplayKernel(cfg)));
    }

    /** The classification part of `update_gui` for a value that arrived. */
    method Alert(v: real, connected: bool, publishOk: bool) returns (r: AlertOutcome)
      requires Valid()
      modifies this`workorderSent
      ensures Valid()
      ensures r == AlertStep(old(workorderSent), v, threshold, connected, publishOk, cfg.payload)
      ensures !cfg.thresholdSettable ==>
                r == AlertStep(old(workorderSent), v, DefaultThreshold, connected, publishOk, cfg.payload)
      ensures workorderSent == r.workorderSent
    {
      r := AlertStep(workorderSent, v, threshold, connected, publishOk, cfg.payload);
      workorderSent := r.workorderSent;
    }

    /** `update_gui`: process an image and, when a value came out, run the alert step on it. */
    method UpdateGui(decodes: bool, segs: seq<Segment>, timestamp: string, archiveOk: bool,
                     connected: bool, publishOk: bool)
      returns (cycle: Option<Cycle>, alert: Option<AlertOutcome>)
      requires Valid()
      modifies this`fs, this`ready, this`valueFile, this`lastArchived, this`workorderSent
      ensures Valid()
      ensures cycle.Some? <==> (!cfg.readyFlag || old(ready)) && Canonical(cfg.cwd) in old(fs) && decodes
      ensures alert.Some? <==> cycle.Some?
      ensures cycle.None? ==>
                fs == old(fs) && ready == old(ready) && valueFile == old(valueFile) &&
                lastArchived == old(lastArchived) && workorderSent == old(workorderSent)
      ensures cycle.Some? ==> cycle.value.reading == ReadGauge(cfg.calib, segs, angleOf)
      ensures cycle.Some? ==>
                alert.value == AlertStep(old(workorderSent), NumericValue(cycle.value.reading), threshold,
                                         connected, publishOk, cfg.payload) &&
                workorderSent == alert.value.workorderSent
      ensures cycle.Some? && !cfg.thresholdSettable ==>
                alert.value == AlertStep(old(workorderSent), NumericValue(cycle.value.reading), DefaultThreshold,
                                         connected, publishOk, cfg.payload)
      ensures cycle.Some? ==> valueFile == Some(ValueText(cycle.value.reading, format))
      ensures cycle.Some? ==>
                lastArchived == Some(ArchivePath(ValueText(cycle.value.reading, format), timestamp)) &&
                ready == (old(ready) && !cfg.readyFlag)
      ensures cycle.Some? ==>
                fs == (if archiveOk then Move(old(fs), Canonical(cfg.cwd), Join(cfg.cwd, lastArchived.value))
                       else old(fs))
    {
      cycle := ProcessImage(decodes, segs, timestamp, archiveOk);
      if cycle.Some? {
        var r := Alert(NumericValue(cycle.value.reading), connected, publishOk);
        alert := Some(r);
      } else {
        alert := None;
      }
    }

    /** `clear_alert`: re-arm the work order; nothing else in the model changes. */
    method ClearAlert()
      modifies this`workorderSent
      ensures !workorderSent
    {
      workorderSent := false;
    }

    /**
     * `set_threshold`: `parsed` is `float(entry)`, None when it raises
     * ValueError; only a parsed number replaces the threshold.
     */
    method SetThreshold(parsed: Option<real>) returns (accepted: bool)
      requires Valid() && cfg.thresholdSettable
      modifies this`threshold
      ensures Valid()
      ensures accepted <==> parsed.Some?
      ensures threshold == (if parsed.Some? then parsed.value else old(threshold))
    {
      accepted := parsed.Some?;
      if accepted {
        threshold := parsed.value;
      }
    }

    /**
     * The body shared by `conversion_good` and `conversion_bad`: when the
     * pointer names a file that exists, rename it with `tag` inserted before
     * its extension and move the pointer; `renameOk` is whether `os.rename`
     * returns rather than raising.
     */
    method Relabel(tag: string, renameOk: bool) returns (done: bool)
      modifies this`fs, this`lastArchived
      ensures done <==>
                old(lastArchived).Some? && old(lastArchived).value != [] &&
                Join(cfg.cwd, old(lastArchived).value) in old(fs) && renameOk
      ensures done ==>
                lastArchived == Some(Relabelled(old(lastArchived).value, tag)) &&
                fs == Move(old(fs), Join(cfg.cwd, old(lastArchived).value), Join(cfg.cwd, lastArchived.value))
      ensures !done ==> fs == old(fs) && lastArchived == old(lastArchived)
    {
      done := false;
      if lastArchived.Some? && lastArchived.value != [] && Join(cfg.cwd, lastArchived.value) in fs {
        if renameOk {
          var newName := Relabelled(lastArchived.value, tag);
          fs := Move(fs, Join(cfg.cwd, lastArchived.value), Join(cfg.cwd, newName));
          lastArchived := Some(newName);
          done := true;
        }
      }
    }

    /** `conversion_good`. */
    method ConversionGood(renameOk: bool) returns (done: bool)
      modifies this`fs, this`lastArchived
      ensures done <==>
                old(lastArchived).Some? && old(lastArchived).value != [] &&
                Join(cfg.cwd, old(lastArchived).value) in old(fs) && renameOk
      ensures done ==>
                lastArchived == Some(Relabelled(old(lastArchived).value, cfg.goodTag)) &&
                fs == Move(old(fs), Join(cfg.cwd, old(lastArchived).value), Join(cfg.cwd, lastArchived.value))
      ensures !done ==> fs == old(fs) && lastArchived == old(lastArchived)
    {
      done := Relabel(cfg.goodTag, renameOk);
    }

    /** `conversion_bad`. */
    method ConversionBad(renameOk: bool) returns (done: bool)
      modifies this`fs, this`lastArchived
      ensures done <==>
                old(lastArchived).Some? && old(lastArchived).value != [] &&
                Join(cfg.cwd, old(lastArchived).value) in old(fs) && renameOk
      ensures done ==>
                lastArchived == Some(Relabelled(old(lastArchived).value, cfg.badTag)) &&
                fs == Move(old(fs), Join(cfg.cwd, old(lastArchived).value), Join(cfg.cwd, lastArchived.value))
      ensures !done ==> fs == old(fs) && lastArchived == old(lastArchived)
    {
      done := Relabel(cfg.badTag, renameOk);
    }
  }

  /**
   * Two notifications for one candidate: once the first is handled, a second
   * one within the debounce window is dropped before any poll or move.
   */
  method NotifiedTwice(app: GaugeApp, src: Path, t1: int, t2: int,
                       polls: seq<Option<nat>>, attempts: seq<Attempt>)
    returns (first: Handled, second: Handled)
    requires app.cfg.watcher.Some?
    requires |polls| >= PollLimit && |attempts| >= app.cfg.watcher.value.retries
    requires IsCandidate(src, app.cfg.cwd) && !IsRecent(app.recent, src, t1, app.cfg.watcher.value.debounceMs)
    requires 0 < t1 <= t2 < t1 + app.cfg.watcher.value.debounceMs
    requires forall k :: 0 <= k < |attempts| ==> t1 <= attempts[k].clock
    modifies app`fs, app`recent, app`ready
    ensures first.Moved? || first.Abandoned?
    ensures second == Debounced
  {
    first := app.HandleNewFile(src, t1, polls, attempts);
    second := app.HandleNewFile(src, t2, polls, attempts);
  }

  /**
   * A late notification for a candidate that has already vanished, while an
   * image waits in the slot: the handler gives up, the waiting image is
   * deleted, and the ready flag keeps its old value.
   */
  method LateNotificationLosesImage(app: GaugeApp, src: Path, now: int,
                                    polls: seq<Option<nat>>, attempts: seq<Attempt>)
    returns (outcome: Handled)
    requires app.cfg.watcher.Some? && app.cfg.watcher.value.retries > 0
    requires |polls| >= PollLimit && |attempts| >= app.cfg.watcher.value.retries
    requires IsCandidate(src, app.cfg.cwd) && !IsRecent(app.recent, src, now, app.cfg.watcher.value.debounceMs)
    requires src !in app.fs && Canonical(app.cfg.cwd) in app.fs && attempts[0].removeOk
    modifies app`fs, app`recent, app`ready
    ensures outcome.Abandoned?
    ensures Canonical(app.cfg.cwd) !in app.fs && app.ready == old(app.ready)
  {
    outcome := app.HandleNewFile(src, now, polls, attempts);
    MissingSourceEmptiesSlot(old(app.fs), src, Canonical(app.cfg.cwd), attempts, app.cfg.watcher.value.retries, 0);
  }

  /**
   * An archived reading marked good twice: the pointer ends on the archive
   * path with the good tag inserted twice before ".jpg".
   */
  method ArchiveThenMarkGoodTwice(app: GaugeApp, segs: seq<Segment>, timestamp: string)
    returns (cycle: Option<Cycle>)
    requires app.Valid() && (!app.cfg.readyFlag || app.ready) && Canonical(app.cfg.cwd) in app.fs
    requires PlainEnd(timestamp) && PlainEnd(app.cfg.goodTag)
    modifies app`fs, app`ready, app`valueFile, app`lastArchived
    ensures cycle.Some?
    ensures app.lastArchived ==
              Some(ArchiveStem(ValueText(cycle.value.reading, app.format), timestamp)
                   + app.cfg.goodTag + app.cfg.goodTag + ".jpg")
  {
    cycle := app.ProcessImage(true, segs, timestamp, true);
    var text := ValueText(cycle.value.reading, app.format);
    var tag := app.cfg.goodTag;
    var stem := ArchiveStem(text, timestamp);
    assert app.lastArchived == Some(stem + ".jpg");
    assert Join(app.cfg.cwd, stem + ".jpg") in app.fs;
    var once := app.ConversionGood(true);
    RelabelArchivePath(text, timestamp, tag);
    assert app.lastArchived == Some(stem + tag + ".jpg");
    assert Join(app.cfg.cwd, stem + tag + ".jpg") in app.fs;
    var twice := app.ConversionGood(true);
    RelabelTwice(text, timestamp, app.cfg.goodTag);
  }
}
