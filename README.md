# Analogue gauge reader — verified model

Three successive versions of one Python pipeline read an analogue dial
gauge from still images. A watcher picks up new `.jpg` files in the working
directory, waits for each to finish being written, and moves it into the
canonical slot `latest.jpg`. A once-a-second tick reads the slot and finds
the needle: the longest detected line segment, with its tip the endpoint
farther from the centre. It turns the needle angle into a value on the
meter's 0–120 scale, writes `value.txt`, archives the image under
`archive/latest_<value>_<timestamp>.jpg`, and passes the value to an alert
controller. The controller classifies the value (inaccurate outside
[15, 66], OK up to the threshold, warning above it). It publishes one
work order per warning episode. The operator can clear the alert, change
the threshold and mark the latest archive GOOD or BAD.

The model has one parameterised pipeline (`Scripts.Config`) with one
instance per script:

| script | instance | debounce | move attempts | ready flag | threshold | payload | tags |
|---|---|---|---|---|---|---|---|
| A2DGaugeReader1Image.py | `Scripts.ImageOne` | 1.5 s | 10 | yes | settable, 25 | the value | `_GOOD` / `_BAD` |
| A2DGaugeReader.py | `Scripts.Reader` | 2.0 s | 6 | no | fixed 25 | the value | `_GOOD` / `_BAD` |
| A2D_RMCK_V1.py | `Scripts.Rmck` | (no watcher) | — | no | fixed 25 | `"generate_workorder"` | `_GOOD_` / `_BAD_` |

The files, by component:

- `paths.dfy` (`PosixPath`): the parts of `os.path` and `str` the scripts use
  (`rfind`, `basename`, `dirname`, `join`, `splitext`, `lower`, `endswith`),
  POSIX flavour.
- `files.dfy` (`Files`): the file system as a map from resolved paths to
  contents, and a successful move.
- `angle_map.dfy` (`AngleMap`): the two-branch angle→value map over the arc
  that wraps through 0°, and the clip.
- `needle.dfy` (`Needle`): choosing the longest segment and the tip. Squared
  lengths and distances are compared; the square root is monotone, so the
  choices match.
- `gauge_read.dfy` (`GaugeRead`): the reading of one cycle (the −1 sentinel or
  a clipped value), its text, and the odd blur kernel.
- `archive.dfy` (`Archive`): archive names and the GOOD/BAD relabelling.
- `watcher.dfy` (`Watcher`): the candidate filter, the debounce test, the
  stability wait and the bounded-retry relocation. The last two are loops
  over values.
- `alerting.dfy` (`Alerting`): classification, the per-tick alert step and
  runs of ticks and clears.
- `scripts.dfy` (`Scripts`): the configuration and the three instances.
- `app.dfy` (`App`): class `GaugeApp`, which holds the globals each script
  updates in place: the file system, `_processed_recent`, `new_image_ready`,
  value.txt, `last_archived_file`, `workorder_sent`, `safe_threshold`. Its
  methods are the handlers.

Things the outside world decides arrive as parameters:

- each size poll's answer (`Option<nat>`; None when `getsize` raises);
- each move attempt's outcome (removal ok, move ok, clock after the move);
- whether `imread` decodes the image;
- the detector's segments;
- the timestamp string;
- whether the archive move, the publish and the rename succeed;
- the broker connection.

Times are integer milliseconds. `atan2` and the float-to-text step are fixed
functions of the class (`angleOf`, `format`).

Behaviours a reader might not expect, all as the scripts are written:

- The no-needle value −1 is fed to the classifier and lands in the
  inaccurate branch. It is not a "no change" tick.
- The work-order latch only re-arms when `workorder_sent` is cleared, by an OK tick or
  by `clear_alert`. An inaccurate tick between two warnings does not re-arm.
- A degenerate segment (both endpoints equal) is not special-cased; its
  endpoint 2 is the tip.
- A2DGaugeReader.py's `process_image` has no ready-flag gate; only
  A2DGaugeReader1Image.py's does.
- The debounce test is `if last and ...`, so a recorded time of 0 counts as
  no record. The model keeps that.
- The value formula has no `minValue` offset. With `minValue = 0`, as
  configured, this makes no difference. The lemmas state it as written:
  minAngle reads 0 and maxAngle reads `maxValue − minValue`.
- Every move attempt first deletes an existing latest.jpg, even when the
  source file has already vanished. A late notification for such a file
  therefore deletes the image that is waiting in the slot. That image is
  never read, and in A2DGaugeReader1Image.py `new_image_ready` stays set.
  `Watcher.MissingSourceEmptiesSlot` and `App.LateNotificationLosesImage`
  state this.
- The two scripts without a threshold entry compare against the literal 25.
  `GaugeApp.Valid` keeps their threshold at 25.

## Model

| member | source | states |
|---|---|---|
| `AngleMap.ArcSpan` | A2DGaugeReader1Image.py:232 | for a valid calibration (sweep wraps through 0°) the span is positive and less than 360 |
| `AngleMap.Clip` | A2DGaugeReader1Image.py:237 | `np.clip`: the result lies in [lo, hi], equals v inside, lo below and hi above |
| `AngleMap.GaugeValue` | A2DGaugeReader1Image.py:232-237 | for every angle, the reading lies in [minValue, maxValue] |
| `AngleMap.RawIsScaledSweep` | A2DGaugeReader.py:194-198 | the two branches together equal the clockwise distance from minAngle (in [0,360)) times range/span |
| `AngleMap.RawMonotone` | A2DGaugeReader.py:194-198 | an angle further clockwise from minAngle never reads less before the clip |
| `AngleMap.MonotoneAlongSweep` | A2DGaugeReader.py:194-199 | an angle further clockwise from minAngle never reads less, before and after the clip |
| `AngleMap.MonotoneWithinBranch` | A2DGaugeReader.py:194-199 | within each branch the value, raw and clipped, is nondecreasing in the angle |
| `AngleMap.ContinuousAtWrap` | A2DGaugeReader.py:194-198 | both formulas give (360 − minAngle)·range/span at the 0°/360° seam; an angle d short of 360 reads exactly d·range/span below angle 0 |
| `AngleMap.SweepEnds` | A2D_RMCK_V1.py:71-75 | minAngle reads 0, maxAngle reads maxValue − minValue, and a dead-zone angle reads more than that before clipping |
| `AngleMap.DeadZoneReadsMaximum` | A2D_RMCK_V1.py:71-76 | with calibration 225/137/0/120, a needle in the dead zone reads 120 |
| `AngleMap.MeterExamples` | A2D_RMCK_V1.py:71-76 | with 225/137/0/120: span 272; 225° → 0; 0° → 135·120/272; 180° → 315·120/272 before the clip and 120 after |
| `Needle.Longest` | A2DGaugeReader1Image.py:218-221 | the chosen segment is at least as long as every detected one and strictly longer than every one before it (ties go to the first, as with Python's `max`) |
| `Needle.Tip` | A2DGaugeReader1Image.py:225-228 | the tip is an endpoint at least as far from (250,250) as the other; endpoint 1 only when strictly farther, so ties give endpoint 2 |
| `GaugeRead.NumericValue` | A2D_RMCK_V1.py:58 | the no-needle reading is the value −1 |
| `GaugeRead.ReadGauge` | A2DGaugeReader1Image.py:216-237 | no needle exactly when no segment is found; otherwise the value lies in [minValue, maxValue] and is the mapped angle of the longest segment's tip |
| `GaugeRead.OddKernel` | A2DGaugeReader.py:219 | the kernel is odd, equals blur_kernel or blur_kernel + 1, and is blur_kernel when that is odd |
| `Scripts.DisplayKernel` | A2DGaugeReader.py:219-220 | the display blur kernel, when used, is odd and at most one above blur_kernel |
| `Scripts.ScriptsAreValid` | A2DGaugeReader.py:19-31 | each script's calibration is valid; the two composite displays blur with kernel 21; the first script has no composite |
| `Files.Move` | A2DGaugeReader1Image.py:125 | a successful move gives the target the source's content, drops the source name and changes no other file |
| `PosixPath.Basename` | A2DGaugeReader1Image.py:88 | the basename is the longest '/'-free suffix of the path |
| `PosixPath.Dirname` | A2DGaugeReader1Image.py:83 | the dirname is a prefix of the path, separated from the basename by slashes only |
| `PosixPath.Join` | A2DGaugeReader1Image.py:115 | the join ends with the second part and, for a relative second part, starts with the first |
| `PosixPath.JoinSplits` | A2DGaugeReader.py:77-88 | for a normal directory and a plain name, dirname and basename undo the join |
| `PosixPath.JpgSuffixOfJoin` | A2DGaugeReader1Image.py:86 | a path in a directory has the case-insensitive ".jpg" suffix exactly when its file name has |
| `PosixPath.SplitExt` | A2DGaugeReader1Image.py:314 | `splitext`: base + ext is the path, and ext is empty or a dot followed by no dot and no '/' |
| `PosixPath.SplitExtOfStem` | A2D_RMCK_V1.py:151 | `splitext` of a stem ending in neither '.' nor '/' plus an extension returns exactly that stem and extension |
| `Watcher.CandidateByName` | A2DGaugeReader1Image.py:83-89 | a file in the watched directory is handled exactly when its lower-cased name ends ".jpg" and it is not latest.jpg |
| `Watcher.CandidateIsNotCanonical` | A2DGaugeReader.py:87-88 | no candidate is the canonical slot, so relocation never moves a file onto itself |
| `Watcher.WaitForStable` | A2DGaugeReader1Image.py:99-113 | at most 40 polls; stable exactly when some poll sees a positive size equal to the previous poll; the first poll never settles; polls stop at the first settling one |
| `Watcher.Relocate` | A2DGaugeReader1Image.py:115-134 | at most `limit` attempts; succeeds exactly when the source exists and some attempt's move succeeds, stopping at the first one, with the source's content in the slot; on exhaustion the only change is an old slot file removed by some attempt |
| `Watcher.MissingSourceNeverFillsSlot` | A2DGaugeReader.py:119-142 | relocating a missing source never puts other content into the slot and never creates the source |
| `Watcher.MissingSourceEmptiesSlot` | A2DGaugeReader.py:122-131 | with the source missing, one attempt whose removal succeeds is enough to leave the slot empty |
| `Watcher.LateNotificationExample` | A2DGaugeReader1Image.py:117-125 | a slot holding content 7, no source and one attempt whose removal succeeds: the file system ends empty |
| `Alerting.Classify` | A2DGaugeReader.py:239-249 | inaccurate exactly outside [15,66]; OK exactly inside it and at or below the threshold; warning exactly inside it and above the threshold |
| `Alerting.AlertStep` | A2DGaugeReader.py:239-263 | a publish is attempted exactly on warning while connected and no work order is sent; it succeeds with the configured payload when publish returns; OK clears the flag, inaccurate keeps it, warning sets it only on success |
| `Alerting.AtMostOncePerEpisode` | A2DGaugeReader1Image.py:275-298 | over any run with no OK tick and no clear, inaccurate ticks included, at most one work order is published, and none if one was already sent |
| `Alerting.DisconnectedNeverPublishes` | A2D_RMCK_V1.py:128-133 | without a broker connection no work order is ever published and no tick sets the flag |
| `Alerting.TwoEpisodesTwoPublishes` | A2DGaugeReader.py:239-263 | with threshold 25 and a working broker, values 20, 40, 40, 20, 40 publish exactly twice |
| `Alerting.InaccurateDoesNotRearm` | A2DGaugeReader1Image.py:275-280 | warning, no-needle (−1), warning publishes once |
| `Alerting.FailedPublishIsRetried` | A2DGaugeReader.py:252-261 | a publish that raises leaves the flag clear, so the next warning publishes and sets it |
| `Alerting.ClearRearms` | A2DGaugeReader.py:268-272 | warning, clear, warning publishes twice |
| `Archive.ArchivePath` | A2DGaugeReader.py:204-206 | the archive path is "archive/latest_" + value text + "_" + timestamp + ".jpg" |
| `Archive.Relabelled` | A2DGaugeReader.py:278-279 | the relabelled name is the old name lengthened by exactly the tag |
| `Archive.RelabelStem` | A2D_RMCK_V1.py:151-152 | relabelling inserts the tag just before the extension |
| `Archive.RelabelArchivePath` | A2D_RMCK_V1.py:148-154 | relabelling an archive path puts the tag between the timestamp and ".jpg" |
| `Archive.RelabelTwice` | A2DGaugeReader.py:275-281 | a second relabel with the same tag appends it again ("..._GOOD_GOOD.jpg") |
| `App.GaugeApp.constructor` | A2DGaugeReader1Image.py:51-60 | start state: empty debounce map, flag false, no archive pointer, no work order sent, threshold 25 |
| `App.GaugeApp.HandleNewFile` | A2DGaugeReader1Image.py:75-136 | a non-candidate or debounced path changes nothing. Otherwise the path's debounce entry is set; the stability result is reported; the relocation outcome determines the new file system. A successful move refreshes the entry with the move's clock and, where the script has the flag, sets it. |
| `App.GaugeApp.Place` | A2DGaugeReader1Image.py:95-134 | after the filter and debounce: the entry is set to now, the stability result is reported, and a move succeeds exactly when the source exists and some attempt's move works, leaving the source's content in the slot; otherwise only an old slot file may be gone |
| `App.GaugeApp.ProcessImage` | A2DGaugeReader1Image.py:193-263 | the flag gate (where present) and a missing or undecodable slot return None with nothing changed. A completed cycle: writes value.txt, points `last_archived_file` at the archive path whether or not the move succeeds, moves the slot there on success, and clears the flag. |
| `App.GaugeApp.Alert` | A2D_RMCK_V1.py:115-138 | the tick's phase, publication and new `workorder_sent` are those of the alert step with the script's threshold and payload; a script without a threshold entry classifies against 25 |
| `App.GaugeApp.UpdateGui` | A2DGaugeReader.py:231-265 | the alert step runs exactly when processing yields a value, on that value (−1 for no needle), against 25 where the threshold is fixed. A completed cycle writes the value text to value.txt, points `last_archived_file` at the archive path and moves the slot there when the archive move succeeds. A tick without a value changes nothing. |
| `App.GaugeApp.ClearAlert` | A2D_RMCK_V1.py:142-146 | `workorder_sent` becomes false; no other modelled state changes |
| `App.GaugeApp.SetThreshold` | A2DGaugeReader1Image.py:335-341 | the threshold is replaced exactly when the entry parses as a number; otherwise the old value stays |
| `App.GaugeApp.Relabel` | A2D_RMCK_V1.py:148-164 | no-op when the pointer is None or empty, the file is missing or the rename raises; otherwise the file is renamed to the tagged name and the pointer follows |
| `App.GaugeApp.ConversionGood` | A2DGaugeReader.py:275-282 | relabel with the script's GOOD tag |
| `App.GaugeApp.ConversionBad` | A2DGaugeReader.py:285-292 | relabel with the script's BAD tag |
| `App.NotifiedTwice` | A2DGaugeReader.py:90-96 | after a candidate is handled, a second notification within the debounce window is dropped before any poll or move |
| `App.ArchiveThenMarkGoodTwice` | A2DGaugeReader1Image.py:311-317 | in every script, when the ready flag (where there is one) is set, an archived reading marked good twice ends with the pointer on the archive path carrying the tag twice before ".jpg" |
| `App.LateNotificationLosesImage` | A2DGaugeReader1Image.py:115-134 | a notification for a vanished candidate while an image waits in the slot gives up, deletes that image and leaves the ready flag as it was |

## Left out

- The OpenCV pipeline (`imread`, `resize`, `cvtColor`, `GaussianBlur`, `Canny`, `HoughLinesP`, drawing, `imwrite`, the side-by-side composite): foreign library calls. The decode result is a boolean and the detector's output a sequence of integer segments.
- `np.arctan2` / `np.degrees` and the `% 360` on floats: floating point. The angle of a tip is the class constant `angleOf`.
- `round(val, 2)` and `str` of a float: floating point. `format` stands for both. The model's value is unrounded, so a value within 0.005 of 15, 66 or the threshold may classify differently from the rounded one.
- Tkinter (labels, colours, button states, `PhotoImage`, `root.after` scheduling, `on_exit`): UI. The alert step returns the phase.
- MQTT `connect` and `publish`: network I/O. They appear as `connected` and a per-tick publish outcome.
- Threads, `_move_lock`, `_processed_lock`, the watchdog `Observer`, the event dispatch (`on_created`, `on_moved`, `on_modified`) and the loops in `start_watchdog`, `start_poller` and `start_watcher`: concurrency. Handler calls are modelled one at a time.
- `time.sleep`, `time.time` and `datetime.now().strftime`: clocks. Times are integer milliseconds passed in; sub-millisecond differences are not modelled.
- `os.makedirs`, and failures when writing value.txt: plain I/O. The first script logs a failed write; the other two let it escape `update_gui`, which stops the tick loop. The model's write always succeeds.
- The blur-before-archive branch (`blur_archive`): the constant is False in both scripts that have it.
- `os.path.abspath` normalisation and Windows path rules: the handler is given an absolute, normalised POSIX path. `lower()` is modelled for ASCII letters only.
- The copy-and-delete fallback of `shutil.move` across devices and the platform rules for renaming onto an existing file: each attempt's outcome stands for them.
- `float()` accepting "nan" and "inf" in `set_threshold`: the parse result is an `Option<real>`.
- Logging (`log_status`, `print`) and the handler's outer `try`/`except`, which only logs.
