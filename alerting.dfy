/**
 * The alert controller's per-tick decision: classify the value against
 * the sanity band and the threshold, and publish a work order at most once
 * per warning episode.
 */
module Alerting {

  /** What the banner shows: reading outside the sanity band, OK, or warning. */
  datatype Phase = Inaccurate | Normal | Warning

  /** Which payload a script publishes: the value itself or a fixed text. */
  datatype PayloadKind = SendValue | SendText(text: string)

  datatype Payload = ValuePayload(value: real) | TextPayload(text: string)

  /** What happened to the work-order publish on one tick. */
  datatype Publication = NotAttempted | Published(payload: Payload) | PublishFailed

  datatype AlertOutcome = AlertOutcome(phase: Phase, publication: Publication, workorderSent: bool)

  /** Readings outside [15, 66] are taken for camera or lighting artifacts. */
  const SanityLow: real := 15.0
  const SanityHigh: real := 66.0

  /** The default (and in two scripts fixed) warning threshold. */
  const DefaultThreshold: real := 25.0

  function Classify(v: real, threshold: real): (p: Phase)
    ensures p == Inaccurate <==> v < SanityLow || v > SanityHigh
    ensures p == Normal <==> SanityLow <= v <= SanityHigh && v <= threshold
    ensures p == Warning <==> SanityLow <= v <= SanityHigh && v > threshold
  {
    if v < SanityLow || v > SanityHigh then Inaccurate
    else if v <= threshold then Normal
    else Warning
  }

  function PayloadFor(kind: PayloadKind, v: real): Payload
  {
    match kind
    case SendValue => ValuePayload(v)
    case SendText(t) => TextPayload(t)
  }

  /**
   * One tick of `update_gui` after a value arrived. `sent` is `workorder_sent`
   * before the tick, `connected` whether the broker connection was made at
   * start-up, `publishOk` whether `publish` returns rather than raising.
   */
  function AlertStep(sent: bool, v: real, threshold: real, connected: bool, publishOk: bool,
                     kind: PayloadKind): (r: AlertOutcome)
    ensures r.phase == Classify(v, threshold)
    ensures r.publication != NotAttempted <==> r.phase == Warning && connected && !sent
    ensures r.publication.Published? <==> r.phase == Warning && connected && !sent && publishOk
    ensures r.publication.Published? ==> r.publication.payload == PayloadFor(kind, v)
    ensures r.phase == Inaccurate ==> r.workorderSent == sent
    ensures r.phase == Normal ==> !r.workorderSent
    ensures r.phase == Warning ==> r.workorderSent == (sent || r.publication.Published?)
  {
    match Classify(v, threshold)
    case Inaccurate => AlertOutcome(Inaccurate, NotAttempted, sent)
    case Normal => AlertOutcome(Normal, NotAttempted, false)
    case Warning =>
      if connected && !sent then
        if publishOk then AlertOutcome(Warning, Published(PayloadFor(kind, v)), true)
        else AlertOutcome(Warning, PublishFailed, sent)
      else AlertOutcome(Warning, NotAttempted, sent)
  }

  /** What reaches the controller over time: a tick's value with its broker outcome, or the operator's clear. */
  datatype Event = Tick(value: real, connected: bool, publishOk: bool) | Clear

  datatype RunResult = RunResult(published: nat, sent: bool)

  /** The number of work orders published over a run of events, and the final `workorder_sent`. */
  function Run(sent: bool, threshold: real, kind: PayloadKind, events: seq<Event>): RunResult
    decreases |events|
  {
    if events == [] then RunResult(0, sent)
    else
      match events[0]
      case Clear => Run(false, threshold, kind, events[1..])
      case Tick(v, connected, ok) =>
        var step := AlertStep(sent, v, threshold, connected, ok, kind);
        var rest := Run(step.workorderSent, threshold, kind, events[1..]);
        RunResult(rest.published + (if step.publication.Published? then 1 else 0), rest.sent)
  }

  /** No tick that reads OK and no clear: the episode never re-arms. */
  predicate NoRearm(threshold: real, events: seq<Event>)
  {
    forall i :: 0 <= i < |events| ==> events[i].Tick? && Classify(events[i].value, threshold) != Normal
  }

  /**
   * At most one work order per warning episode: over a run with no OK tick
   * and no clear (inaccurate ticks included), at most one publish happens,
   * and none if a work order was already sent.
   */
  lemma {:induction false} AtMostOncePerEpisode(sent: bool, threshold: real, kind: PayloadKind, events: seq<Event>)
    requires NoRearm(threshold, events)
    ensures Run(sent, threshold, kind, events).published <= (if sent then 0 else 1)
    ensures sent ==> Run(sent, threshold, kind, events).sent
    decreases |events|
  {
    if events != [] {
      var e := events[0];
      var step := AlertStep(sent, e.value, threshold, e.connected, e.publishOk, kind);
      assert NoRearm(threshold, events[1..]) by {
        forall i | 0 <= i < |events[1..]|
          ensures events[1..][i].Tick? && Classify(events[1..][i].value, threshold) != Normal
        {
          assert events[1..][i] == events[i + 1];
        }
      }
      AtMostOncePerEpisode(step.workorderSent, threshold, kind, events[1..]);
    }
  }

  /** Without a broker connection nothing is ever published and the flag is never set by a tick. */
  lemma {:induction false} DisconnectedNeverPublishes(sent: bool, threshold: real, kind: PayloadKind, events: seq<Event>)
    requires forall i :: 0 <= i < |events| ==> events[i].Tick? ==> !events[i].connected
    ensures Run(sent, threshold, kind, events).published == 0
    ensures Run(sent, threshold, kind, events).sent ==> sent
    decreases |events|
  {
    if events != [] {
      assert forall i :: 0 <= i < |events[1..]| ==> events[1..][i] == events[i + 1];
      match events[0]
      case Clear => DisconnectedNeverPublishes(false, threshold, kind, events[1..]);
      case Tick(v, c, ok) =>
        DisconnectedNeverPublishes(AlertStep(sent, v, threshold, c, ok, kind).workorderSent, threshold, kind, events[1..]);
    }
  }

  /** A tick whose broker is up and accepts the publish. */
  function Good(v: real): Event
  {
    Tick(v, true, true)
  }

  /** Values 20, 40, 40, 20, 40 against threshold 25 publish exactly twice. */
  lemma TwoEpisodesTwoPublishes(kind: PayloadKind)
    ensures Run(false, DefaultThreshold, kind, [Good(20.0), Good(40.0), Good(40.0), Good(20.0), Good(40.0)]).published == 2
  {
    var evs := [Good(20.0), Good(40.0), Good(40.0), Good(20.0), Good(40.0)];
    assert evs[1..] == [Good(40.0), Good(40.0), Good(20.0), Good(40.0)];
    assert evs[2..] == [Good(40.0), Good(20.0), Good(40.0)];
    assert evs[3..] == [Good(20.0), Good(40.0)];
    assert evs[4..] == [Good(40.0)];
    assert Run(true, DefaultThreshold, kind, evs[4..]).published == 0;
    assert Run(false, DefaultThreshold, kind, evs[4..]).published == 1;
    assert Run(true, DefaultThreshold, kind, evs[3..]).published == 1;
    assert Run(true, DefaultThreshold, kind, evs[2..]).published == 1;
    assert Run(false, DefaultThreshold, kind, evs[1..]).published == 2;
  }

  /** An inaccurate reading (here the no-needle value -1) between two warnings does not re-arm. */
  lemma InaccurateDoesNotRearm(kind: PayloadKind)
    ensures Run(false, DefaultThreshold, kind, [Good(40.0), Good(-1.0), Good(40.0)]).published == 1
  {
    var evs := [Good(40.0), Good(-1.0), Good(40.0)];
    AtMostOncePerEpisode(false, DefaultThreshold, kind, evs);
    assert evs[1..] == [Good(-1.0), Good(40.0)];
    assert evs[2..] == [Good(40.0)];
    assert Run(true, DefaultThreshold, kind, evs[2..]).published == 0;
    assert Run(true, DefaultThreshold, kind, evs[1..]).published == 0;
  }

  /** A publish that raises leaves the flag clear, so the next warning tick publishes. */
  lemma FailedPublishIsRetried(kind: PayloadKind)
    ensures Run(false, DefaultThreshold, kind, [Tick(40.0, true, false), Good(40.0)]) == RunResult(1, true)
  {
    var evs := [Tick(40.0, true, false), Good(40.0)];
    assert evs[1..] == [Good(40.0)];
    assert Run(false, DefaultThreshold, kind, evs[1..]) == RunResult(1, true);
  }

  /** The operator's clear re-arms: warning, clear, warning publishes twice. */
  lemma ClearRearms(kind: PayloadKind)
    ensures Run(false, DefaultThreshold, kind, [Good(40.0), Clear, Good(40.0)]).published == 2
  {
    var evs := [Good(40.0), Clear, Good(40.0)];
    assert evs[1..] == [Clear, Good(40.0)];
    assert evs[2..] == [Good(40.0)];
    assert Run(false, DefaultThreshold, kind, evs[2..]).published == 1;
    assert Run(true, DefaultThreshold, kind, evs[1..]).published == 1;
  }
}
