/** Detection of the alphaTab music font (Environment.CheckFontLoad and its
    `checkFont` closure) as a state machine.

    Timers, the `DOMContentLoaded` event and the `document.fonts.load` promise
    are not run: each callback the source registers becomes a pending item in
    the state, and the host's event loop is a sequence of `Event`s delivered
    one at a time. The probe element `alphaTabFontChecker` is abstracted to
    whether it exists; its measured `offsetWidth` (an integer) comes with the
    event that triggers the measurement. */
module FontCheck {

  datatype FontState = FontState(
    /** Environment.IsFontLoaded */
    loaded: bool,
    /** an element with id `alphaTabFontChecker` is attached to the document */
    probe: bool,
    /** how many probe elements the detector has created so far */
    probesCreated: nat,
    /** re-checks scheduled with `setTimeout(..., 1000)` and not yet run */
    timers: nat,
    /** the `DOMContentLoaded` listener is registered and has not fired */
    listening: bool,
    /** `document.fonts.load('1em alphaTab')` was requested and has not completed */
    awaiting: bool)

  /** The process starts with the flag cleared and nothing scheduled. */
  const Initial := FontState(false, false, 0, 0, false, false)

  /** Nothing is pending: no event can ever change the state. */
  predicate Quiescent(s: FontState)
  {
    s.timers == 0 && !s.listening && !s.awaiting
  }

  /** The width of the G clef at 100px, in pixels, once the font is in use. */
  predicate InRange(width: int)
  {
    30 < width && width < 100
  }

  /** CheckFontLoad (Environment.cs:120-185): picks one of three strategies. */
  function CheckFontLoad(s: FontState, isWorker: bool, fontsApi: bool): (r: FontState)
    ensures isWorker ==> !r.loaded && r.(loaded := s.loaded) == s
    ensures !isWorker ==> r.loaded == s.loaded && r.probe == s.probe && r.timers == s.timers
    ensures !isWorker && fontsApi ==> r.awaiting && r.listening == s.listening
    ensures !isWorker && !fontsApi ==> r.listening && r.awaiting == s.awaiting
  {
    if isWorker then s.(loaded := false)
    else if fontsApi then s.(awaiting := true)
    else s.(listening := true)
  }

  /** The `checkFont` closure (Environment.cs:145-179): find or create the probe,
      then either accept the measured width or schedule exactly one re-check. */
  function CheckFont(s: FontState, width: int): (r: FontState)
    ensures r.probesCreated == s.probesCreated + (if s.probe then 0 else 1)
    ensures r.listening == s.listening && r.awaiting == s.awaiting
    ensures InRange(width) ==> r.loaded && !r.probe && r.timers == s.timers
    ensures !InRange(width) ==> r.loaded == s.loaded && r.probe && r.timers == s.timers + 1
  {
    var found := if s.probe then s else s.(probe := true, probesCreated := s.probesCreated + 1);
    if width > 30 && width < 100 then found.(loaded := true, probe := false)
    else found.(timers := found.timers + 1)
  }

  /** What the host's event loop can deliver to the detector. */
  datatype Event =
      /** the promise of `document.fonts.load` resolves (line 140) */
    | FontsLoaded
      /** `DOMContentLoaded` fires and `checkFont` measures `width` (lines 180-183) */
    | DomReady(width: int)
      /** a re-check timer fires and `checkFont` measures `width` (lines 174-177) */
    | Timer(width: int)

  /** An event can happen only when its callback is registered. */
  predicate Enabled(s: FontState, ev: Event)
  {
    match ev
    case FontsLoaded => s.awaiting
    case DomReady(_) => s.listening
    case Timer(_) => s.timers > 0
  }

  /** One callback runs. No callback clears the flag or registers a listener
      or a font request again, and the completion event always sets the flag. */
  function Deliver(s: FontState, ev: Event): (r: FontState)
    requires Enabled(s, ev)
    ensures s.loaded ==> r.loaded
    ensures ev.FontsLoaded? ==> r.loaded
    ensures !s.listening ==> !r.listening
    ensures !s.awaiting ==> !r.awaiting
    ensures r.probesCreated >= s.probesCreated
  {
    match ev
    case FontsLoaded => s.(awaiting := false, loaded := true)
    case DomReady(width) => CheckFont(s.(listening := false), width)
    case Timer(width) => CheckFont(s.(timers := s.timers - 1), width)
  }

  /** The state after the host delivers `events` in order; an event whose
      callback is not registered cannot happen and changes nothing. */
  function Run(s: FontState, events: seq<Event>): (r: FontState)
    ensures !s.awaiting ==> !r.awaiting
    ensures !s.awaiting && !s.listening ==> !r.listening
    ensures r.probesCreated >= s.probesCreated
    decreases |events|
  {
    if events == [] then s
    else if Enabled(s, events[0]) then Run(Deliver(s, events[0]), events[1..])
    else Run(s, events[1..])
  }

  lemma {:induction false} RunAppend(s: FontState, events: seq<Event>, ev: Event)
    ensures Run(s, events + [ev]) ==
            (var t := Run(s, events); if Enabled(t, ev) then Deliver(t, ev) else t)
    decreases |events|
  {
    if events == [] {
      assert events + [ev] == [ev];
    } else {
      assert (events + [ev])[1..] == events[1..] + [ev];
      if Enabled(s, events[0]) {
        RunAppend(Deliver(s, events[0]), events[1..], ev);
      } else {
        RunAppend(s, events[1..], ev);
      }
    }
  }

  // ---------------------------------------------------------------------------
  // Properties

  /** Once the font is flagged as loaded, no event clears the flag. */
  lemma {:induction false} LoadedIsMonotone(s: FontState, events: seq<Event>)
    requires s.loaded
    ensures Run(s, events).loaded
    decreases |events|
  {
    if events != [] {
      if Enabled(s, events[0]) {
        LoadedIsMonotone(Deliver(s, events[0]), events[1..]);
      } else {
        LoadedIsMonotone(s, events[1..]);
      }
    }
  }

  /** Inside a worker the flag is cleared and nothing is ever scheduled: no
      font request, no listener, no probe and no timer, whatever happens later. */
  lemma {:induction false} WorkerStaysUnloaded(s: FontState, fontsApi: bool, events: seq<Event>)
    requires Quiescent(s)
    ensures var t := CheckFontLoad(s, true, fontsApi);
            Run(t, events) == t && !t.loaded && t.probe == s.probe &&
            t.probesCreated == s.probesCreated && Quiescent(t)
    decreases |events|
  {
    if events != [] {
      WorkerStaysUnloaded(s, fontsApi, events[1..]);
    }
  }

  /** The polling protocol keeps at most one callback outstanding, and the
      probe exists exactly while a measurement has failed and not yet succeeded. */
  predicate PollingInvariant(s: FontState)
  {
    !s.awaiting &&
    (if s.listening then 1 else 0) + s.timers <= 1 &&
    s.probesCreated <= 1 &&
    (s.listening ==> s.probesCreated == 0 && !s.probe && !s.loaded) &&
    (s.timers == 1 ==> s.probe && !s.loaded) &&
    (s.probe ==> s.timers == 1) &&
    (s.probesCreated == 1 <==> !s.listening)
  }

  lemma PollingStartsInInvariant()
    ensures PollingInvariant(CheckFontLoad(Initial, false, false))
  {
  }

  lemma {:induction false} PollingInvariantHolds(s: FontState, events: seq<Event>)
    requires PollingInvariant(s)
    ensures PollingInvariant(Run(s, events))
    decreases |events|
  {
    if events != [] {
      if Enabled(s, events[0]) {
        PollingInvariantHolds(Deliver(s, events[0]), events[1..]);
      } else {
        PollingInvariantHolds(s, events[1..]);
      }
    }
  }

  /** The events of one polling run: the document becomes ready, then each
      pending re-check fires, each with the width measured at that moment. */
  function PollingEvents(widths: seq<int>): (events: seq<Event>)
    requires |widths| > 0
    ensures |events| == |widths|
    ensures events[0] == DomReady(widths[0])
    ensures forall i :: 0 < i < |widths| ==> events[i] == Timer(widths[i])
  {
    [DomReady(widths[0])] + Rechecks(widths[1..])
  }

  function Rechecks(widths: seq<int>): (events: seq<Event>)
    ensures |events| == |widths|
    ensures forall i :: 0 <= i < |widths| ==> events[i] == Timer(widths[i])
  {
    if widths == [] then [] else [Timer(widths[0])] + Rechecks(widths[1..])
  }

  /** Outcome of polling after the measurements `widths` (Environment.cs:147-178):
      the font is flagged exactly when some measured width was in (30, 100);
      one probe was created; while not loaded the probe stays and exactly one
      re-check is pending, and once loaded the probe is gone and nothing is pending. */
  lemma {:induction false} PollingOutcome(widths: seq<int>)
    requires |widths| > 0
    ensures var t := Run(CheckFontLoad(Initial, false, false), PollingEvents(widths));
            (t.loaded <==> exists i :: 0 <= i < |widths| && InRange(widths[i])) &&
            t.probesCreated == 1 &&
            (!t.loaded ==> t.probe && t.timers == 1) &&
            (t.loaded ==> !t.probe && t.timers == 0)
  {
    var s0 := CheckFontLoad(Initial, false, false);
    var s1 := Deliver(s0, DomReady(widths[0]));
    assert Run(s0, PollingEvents(widths)) == Run(s1, Rechecks(widths[1..]));
    RechecksOutcome(s1, widths[1..]);
    if InRange(widths[0]) {
      assert s1.loaded;
    } else {
      assert !s1.loaded;
      forall i | 0 <= i < |widths| && InRange(widths[i]) ensures 0 < i {
      }
      forall i | 0 < i < |widths| ensures widths[i] == widths[1..][i - 1] {
      }
    }
  }

  lemma {:induction false} RechecksOutcome(s: FontState, widths: seq<int>)
    requires PollingInvariant(s) && !s.listening && s.probesCreated == 1
    requires s.loaded || s.timers == 1
    ensures var t := Run(s, Rechecks(widths));
            (t.loaded <==> s.loaded || exists i :: 0 <= i < |widths| && InRange(widths[i])) &&
            t.probesCreated == 1 &&
            (!t.loaded ==> t.probe && t.timers == 1) &&
            (t.loaded ==> !t.probe && t.timers == 0)
    decreases |widths|
  {
    if widths != [] {
      var events := Rechecks(widths);
      assert events[0] == Timer(widths[0]);
      assert events[1..] == Rechecks(widths[1..]);
      if Enabled(s, events[0]) {
        var s1 := Deliver(s, events[0]);
        RechecksOutcome(s1, widths[1..]);
        if !InRange(widths[0]) {
          forall i | 0 <= i < |widths| && InRange(widths[i]) ensures 0 < i && InRange(widths[1..][i - 1]) {
          }
        }
      } else {
        RechecksOutcome(s, widths[1..]);
        assert s.loaded;
      }
    }
  }

  /** With the CSS Font Loading API there is no polling: the flag is set by the
      one completion event and no probe or timer ever exists. */
  lemma {:induction false} FontApiPathOutcome(events: seq<Event>)
    ensures var t := Run(CheckFontLoad(Initial, false, true), events);
            (t.loaded <==> FontsLoaded in events) &&
            t.probesCreated == 0 && !t.probe && t.timers == 0 && !t.listening
  {
    ApiRun(CheckFontLoad(Initial, false, true), events);
  }

  lemma {:induction false} ApiRun(s: FontState, events: seq<Event>)
    requires s.probesCreated == 0 && !s.probe && s.timers == 0 && !s.listening
    requires s.loaded != s.awaiting
    ensures var t := Run(s, events);
            (t.loaded <==> s.loaded || FontsLoaded in events) &&
            t.probesCreated == 0 && !t.probe && t.timers == 0 && !t.listening
    decreases |events|
  {
    if events != [] {
      assert events == [events[0]] + events[1..];
      if Enabled(s, events[0]) {
        ApiRun(Deliver(s, events[0]), events[1..]);
      } else {
        ApiRun(s, events[1..]);
      }
    }
  }

  /** The bounds of the width test are exclusive. */
  lemma WidthBoundaries()
    ensures !InRange(20) && !InRange(30) && InRange(31) && InRange(50) && InRange(99) && !InRange(100)
  {
  }
}
