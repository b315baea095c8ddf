/** Whole histories of a player: any interleaving of calls of its public
    methods, media events and scheduled ticks. The load handlers take effect
    at most once over any history, and the player stays consistent. */
module Lifecycle {
  import opened Js
  import opened Utils
  import opened Playback

  /** One thing that can happen to a player. */
  datatype Event =
    | PlayCall(tStart: real, tLast: real, tTick: real, tLoop: real)
    | PauseCall
    | ToggleCall(tStart: real, tLast: real, tTick: real, tLoop: real)
    | Tick(now: real, loopNow: real)
    | Metadata(width: nat, height: nat, duration: real)
    | Load
    | TimeUpdate

  /** The state after one event. The scheduler runs a tick only when one is
      pending; a `Tick` with none pending is no event at all. */
  function Apply(o: Options, s: State, e: Event): State {
    match e
    case PlayCall(a, b, c, d) => PlayStep(o, s, a, b, c, d)
    case PauseCall => PauseStep(o, s)
    case ToggleCall(a, b, c, d) => ToggleStep(o, s, a, b, c, d)
    case Tick(t, u) => if s.pendingTicks > 0 then TickStep(o, s, t, u) else s
    case Metadata(w, h, d) => MetadataEvent(o, s, w, h, d)
    case Load => LoadEvent(o, s)
    case TimeUpdate => TimeUpdateEvent(o, s)
  }

  /** The state after the events, in order. */
  function Replay(o: Options, s: State, events: seq<Event>): State
    decreases |events|
  {
    if events == [] then s else Replay(o, Apply(o, s, events[0]), events[1..])
  }

  /** The first metadata report of a history, if any. */
  function FirstReport(events: seq<Event>): (r: Option<Event>)
    ensures r.Some? ==> r.value.Metadata? && r.value in events
    ensures r.Some? ==> exists i :: 0 <= i < |events| && events[i] == r.value
                          && forall j :: 0 <= j < i ==> !events[j].Metadata?
    ensures r.None? <==> forall i :: 0 <= i < |events| ==> !events[i].Metadata?
    decreases |events|
  {
    if events == [] then None
    else if events[0].Metadata? then Some(events[0])
    else FirstReport(events[1..])
  }

  lemma ApplyKeepsConsistent(o: Options, s: State, e: Event)
    requires Consistent(o, s)
    ensures Consistent(o, Apply(o, s, e))
  {
    match e
    case PlayCall(a, b, c, d) => StepsPreserveConsistent(o, s, a, b, c, d, 0, 0, 0.0);
    case PauseCall => StepsPreserveConsistent(o, s, 0.0, 0.0, 0.0, 0.0, 0, 0, 0.0);
    case ToggleCall(a, b, c, d) => StepsPreserveConsistent(o, s, a, b, c, d, 0, 0, 0.0);
    case Tick(t, u) => StepsPreserveConsistent(o, s, t, u, 0.0, 0.0, 0, 0, 0.0);
    case Metadata(w, h, d) => StepsPreserveConsistent(o, s, 0.0, 0.0, 0.0, 0.0, w, h, d);
    case Load => StepsPreserveConsistent(o, s, 0.0, 0.0, 0.0, 0.0, 0, 0, 0.0);
    case TimeUpdate => StepsPreserveConsistent(o, s, 0.0, 0.0, 0.0, 0.0, 0, 0, 0.0);
  }

  /** Every history keeps the player consistent. */
  lemma {:induction false} ReplayKeepsConsistent(o: Options, s: State, events: seq<Event>)
    requires Consistent(o, s)
    ensures Consistent(o, Replay(o, s, events))
    decreases |events|
  {
    if events != [] {
      ApplyKeepsConsistent(o, s, events[0]);
      ReplayKeepsConsistent(o, Apply(o, s, events[0]), events[1..]);
    }
  }

  /** Only the load event unregisters the load handler. */
  lemma ApplyLoadListener(o: Options, s: State, e: Event)
    ensures Apply(o, s, e).loadListener == (s.loadListener && !e.Load?)
  {
    match e
    case PlayCall(a, b, c, d) =>
      if !s.playing && o.canvas {
        assert SameSetup(Started(o, s, a, b), PlayStep(o, s, a, b, c, d));
      }
    case ToggleCall(a, b, c, d) =>
      if !s.playing && o.canvas {
        assert SameSetup(Started(o, s, a, b), PlayStep(o, s, a, b, c, d));
      }
    case _ =>
  }

  /** The load handler is registered until the first load event and never again. */
  lemma {:induction false} ReplayLoadListener(o: Options, s: State, events: seq<Event>)
    ensures Replay(o, s, events).loadListener <==> s.loadListener && Load !in events
    decreases |events|
  {
    if events != [] {
      ApplyLoadListener(o, s, events[0]);
      ReplayLoadListener(o, Apply(o, s, events[0]), events[1..]);
      assert events == [events[0]] + events[1..];
    }
  }

  /** `onLoad` runs at most once in any history of a new player: exactly once
      if a load event came and `onLoad` is a function, and never otherwise. */
  lemma OnLoadAtMostOnce(o: Options, video: Video, events: seq<Event>)
    ensures var r := Replay(o, Initial(o, video), events);
      && r.onLoadCalls <= 1
      && (r.onLoadCalls == 1 <==> o.onLoad && Load in events)
  {
    ReplayKeepsConsistent(o, Initial(o, video), events);
    ReplayLoadListener(o, Initial(o, video), events);
  }

  /** One event leaves the metadata fields alone, unless it is a report that
      reaches the registered handler. */
  lemma ApplyMetadata(o: Options, s: State, e: Event)
    ensures var r := Apply(o, s, e);
      if e.Metadata? && s.metadataListener then
        && !r.metadataListener
        && r.width == Some(e.width) && r.height == Some(e.height) && r.duration == Some(e.duration)
      else
        && r.metadataListener == s.metadataListener
        && r.width == s.width && r.height == s.height && r.duration == s.duration
  {
    match e
    case PlayCall(a, b, c, d) =>
      if !s.playing && o.canvas {
        assert SameSetup(Started(o, s, a, b), PlayStep(o, s, a, b, c, d));
      }
    case ToggleCall(a, b, c, d) =>
      if !s.playing && o.canvas {
        assert SameSetup(Started(o, s, a, b), PlayStep(o, s, a, b, c, d));
      }
    case _ =>
  }

  /** The metadata handler takes effect once, on the first report: after any
      history, the recorded dimensions and duration are those of the first
      report, and while no report has come they are unchanged. */
  lemma {:induction false} ReplayMetadata(o: Options, s: State, events: seq<Event>)
    ensures var r := Replay(o, s, events);
      var first := FirstReport(events);
      && (!s.metadataListener || first.None? ==>
            && r.metadataListener == s.metadataListener
            && r.width == s.width && r.height == s.height && r.duration == s.duration)
      && (s.metadataListener && first.Some? ==>
            && !r.metadataListener
            && r.width == Some(first.value.width) && r.height == Some(first.value.height)
            && r.duration == Some(first.value.duration))
    decreases |events|
  {
    if events != [] {
      ApplyMetadata(o, s, events[0]);
      ReplayMetadata(o, Apply(o, s, events[0]), events[1..]);
    }
  }

  /** For a new player: the dimensions are unknown until the first report, and
      from then on they are the first report's; later reports do not change
      them. In canvas mode the canvas has them. */
  lemma MetadataOnce(o: Options, video: Video, events: seq<Event>)
    ensures var r := Replay(o, Initial(o, video), events);
      var first := FirstReport(events);
      && (first.None? ==> r.metadataListener && r.width == None && r.height == None)
      && (first.Some? ==>
            && !r.metadataListener
            && r.width == Some(first.value.width) && r.height == Some(first.value.height)
            && r.duration == Some(first.value.duration)
            && (o.canvas ==> r.canvas == Some(Canvas(first.value.width, first.value.height))))
  {
    ReplayKeepsConsistent(o, Initial(o, video), events);
    ReplayMetadata(o, Initial(o, video), events);
  }
}
