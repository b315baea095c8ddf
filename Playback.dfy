/** The behaviour of `CanvasVideoPlayer` as values: the options, a snapshot of
    every field the player changes, and one function per operation giving the
    snapshot after it. The class in module Player runs these operations in
    place and is proved to agree with them.

    Time is exact: wall-clock readings are milliseconds as `real`, positions
    and durations seconds. Every reading of the clock is a parameter of its
    own, since the code calls `now()` afresh each time. */
module Playback {
  import opened Js
  import opened Utils

  /** The player's options after `{ ...defaults, ...options }`. `onLoad` and
      `onUpdate` say whether that option is a function (only then is it
      called); `id` is undefined unless the caller gave one. */
  datatype Options = Options(
    fPS: real,
    canvas: bool,
    resume: bool,
    loop: bool,
    loadEvent: string,
    onLoad: bool,
    onUpdate: bool,
    id: Value)

  /** The options a caller passes; None is a key the caller left out. */
  datatype UserOptions = UserOptions(
    fPS: Option<real>,
    canvas: Option<bool>,
    resume: Option<bool>,
    loop: Option<bool>,
    loadEvent: Option<string>,
    onLoad: Option<bool>,
    onUpdate: Option<bool>,
    id: Option<Value>)

  const NoOptions: UserOptions := UserOptions(None, None, None, None, None, None, None, None)

  /** The defaults: 25 frames per second, no canvas, no resume, no loop, wait
      for "canplaythrough", and callbacks that do nothing (but are functions). */
  function Defaults(): Options {
    Options(25.0, false, false, false, "canplaythrough", true, true, Undefined)
  }

  function Or<T>(given: Option<T>, default: T): T {
    match given
    case Some(v) => v
    case None => default
  }

  /** `{ ...defaults, ...options }`: every key the caller gives wins. */
  function Merge(user: UserOptions): (o: Options)
    ensures user.fPS.Some? ==> o.fPS == user.fPS.value
    ensures user.canvas.Some? ==> o.canvas == user.canvas.value
    ensures user.resume.Some? ==> o.resume == user.resume.value
    ensures user.loop.Some? ==> o.loop == user.loop.value
    ensures user.loadEvent.Some? ==> o.loadEvent == user.loadEvent.value
    ensures user.onLoad.Some? ==> o.onLoad == user.onLoad.value
    ensures user.onUpdate.Some? ==> o.onUpdate == user.onUpdate.value
    ensures user.id.Some? ==> o.id == user.id.value
    // every key the caller leaves out keeps its default
    ensures user.fPS.None? ==> o.fPS == Defaults().fPS
    ensures user.canvas.None? ==> o.canvas == Defaults().canvas
    ensures user.resume.None? ==> o.resume == Defaults().resume
    ensures user.loop.None? ==> o.loop == Defaults().loop
    ensures user.loadEvent.None? ==> o.loadEvent == Defaults().loadEvent
    ensures user.onLoad.None? ==> o.onLoad == Defaults().onLoad
    ensures user.onUpdate.None? ==> o.onUpdate == Defaults().onUpdate
    ensures user.id.None? ==> o.id == Undefined
  {
    var d := Defaults();
    Options(
      Or(user.fPS, d.fPS), Or(user.canvas, d.canvas), Or(user.resume, d.resume),
      Or(user.loop, d.loop), Or(user.loadEvent, d.loadEvent), Or(user.onLoad, d.onLoad),
      Or(user.onUpdate, d.onUpdate), Or(user.id, d.id))
  }

  /** `1 / fPS`: the least time in seconds between two seeks. A rate of 0
      gives Infinity, which no interval reaches. */
  datatype Period = Every(seconds: real) | Never

  function FrameRate(fPS: real): (p: Period)
    ensures fPS != 0.0 ==> p.Every? && p.seconds * fPS == 1.0
    ensures fPS > 0.0 ==> p.seconds > 0.0
    ensures fPS == 0.0 ==> p == Never
  {
    if fPS == 0.0 then Never else Every(1.0 / fPS)
  }

  /** `interval >= this.frameRate`. */
  predicate Reached(interval: real, p: Period) {
    match p
    case Every(f) => interval >= f
    case Never => false
  }

  lemma DefaultOptions()
    ensures Merge(NoOptions) == Defaults()
    ensures Defaults().fPS == 25.0 && !Defaults().canvas && !Defaults().resume && !Defaults().loop
    ensures FrameRate(Merge(NoOptions).fPS) == Every(0.04)
  {
  }

  /** A canvas element's size; a new canvas is 300 by 150. */
  datatype Canvas = Canvas(width: nat, height: nat)

  const NewCanvas: Canvas := Canvas(300, 150)

  /** Every field of the player that changes after construction.
      `startTime`/`lastUpdate` are null until a canvas-mode play,
      `width`/`height`/`duration` undefined until the metadata arrives,
      `pendingTicks` counts the `raf(this.update)` callbacks scheduled and not
      yet run, and the two counters count calls of `onLoad` and `onUpdate`. */
  datatype State = State(
    playing: bool,
    startTime: Option<real>,
    lastUpdate: Option<real>,
    elapsed: real,
    width: Option<nat>,
    height: Option<nat>,
    duration: Option<real>,
    video: Video,
    canvas: Option<Canvas>,
    metadataListener: bool,
    loadListener: bool,
    pendingTicks: nat,
    onLoadCalls: nat,
    onUpdateCalls: nat)

  /** The state right after the constructor: stopped, nothing elapsed, no
      clock readings, both load listeners registered, a canvas in canvas mode. */
  function Initial(o: Options, video: Video): (s: State)
    ensures !s.playing && s.elapsed == 0.0 && s.startTime == None && s.lastUpdate == None
    ensures s.canvas.Some? <==> o.canvas
    ensures s.metadataListener && s.loadListener && s.pendingTicks == 0
    ensures s.video == video
  {
    State(false, None, None, 0.0, None, None, None, video,
          if o.canvas then Some(NewCanvas) else None,
          true, true, 0, 0, 0)
  }

  /** What the player keeps true between operations: the canvas exists exactly
      in canvas mode, playing in canvas mode has both clock readings, the
      dimensions are unknown until the metadata handler has run and known
      (and the canvas has them) after, and `onLoad` has been called once if
      the load handler has run and it is a function, and never otherwise. */
  ghost predicate Consistent(o: Options, s: State) {
    && (s.canvas.Some? <==> o.canvas)
    && (o.canvas && s.playing ==> s.startTime.Some? && s.lastUpdate.Some?)
    && (s.metadataListener ==> s.width.None? && s.height.None? && s.duration.None?)
    && (!s.metadataListener ==> s.width.Some? && s.height.Some?)
    && (o.canvas && !s.metadataListener ==> s.canvas == Some(Canvas(s.width.value, s.height.value)))
    && s.onLoadCalls == (if s.loadListener || !o.onLoad then 0 else 1)
  }

  /** `null` in arithmetic is 0. */
  function AsNumber(t: Option<real>): real {
    match t
    case Some(v) => v
    case None => 0.0
  }

  /** `(time - this.startTime) * 0.001`: seconds since playback started. */
  function ElapsedAt(s: State, t: real): real {
    (t - AsNumber(s.startTime)) * 0.001
  }

  /** Whether a tick at time `t` seeks: a whole frame period has passed since
      the last seek. */
  predicate SeekDue(o: Options, s: State, t: real) {
    Reached((t - AsNumber(s.lastUpdate)) * 0.001, FrameRate(o.fPS))
  }

  /** The video position after the tick's seek step. */
  function PositionAfterSeek(o: Options, s: State, t: real): real {
    if SeekDue(o, s, t) then ElapsedAt(s, t) else s.video.currentTime
  }

  /** Whether the video is at its end after the tick's seek step. */
  predicate Ended(o: Options, s: State, t: real) {
    AtEnd(s.video.(currentTime := PositionAfterSeek(o, s, t)))
  }

  /** Everything but the playback fields is the same in both states: the load
      bookkeeping, the callback counts, and the video's attributes other than
      its position and paused flag. */
  predicate SameSetup(s: State, r: State) {
    && r.width == s.width && r.height == s.height && r.duration == s.duration
    && r.canvas == s.canvas
    && r.metadataListener == s.metadataListener && r.loadListener == s.loadListener
    && r.onLoadCalls == s.onLoadCalls && r.onUpdateCalls == s.onUpdateCalls
    && SameMedia(s.video, r.video)
  }

  /** The two videos differ at most in position and paused flag. */
  predicate SameMedia(v: Video, w: Video) {
    && w.autoplay == v.autoplay && w.preload == v.preload && w.loop == v.loop && w.muted == v.muted
    && w.children == v.children && w.loadRequested == v.loadRequested
    && w.duration == v.duration && w.videoWidth == v.videoWidth && w.videoHeight == v.videoHeight
  }

  /** `pause`. */
  function PauseStep(o: Options, s: State): (r: State)
    // pausing a stopped player changes nothing
    ensures !s.playing ==> r == s
    // otherwise it stops, keeps `elapsed`, and changes nothing but the video
    ensures s.playing ==> r == s.(playing := false, video := r.video)
    // canvas mode parks the video where a resumed play will continue, or at 0
    ensures s.playing && o.canvas ==>
      r.video == s.video.(currentTime := if o.resume then s.elapsed else 0.0)
    // direct mode only pauses the element
    ensures s.playing && !o.canvas ==> r.video == s.video.(paused := true)
  {
    if !s.playing then s
    else if o.canvas then
      s.(playing := false, video := s.video.(currentTime := if o.resume then s.elapsed else 0.0))
    else
      s.(playing := false, video := s.video.(paused := true))
  }

  /** The seconds a resumed play counts as already played:
      `floor(this.elapsed * 1000)` milliseconds. */
  function ResumeOffset(o: Options, elapsed: real): real {
    if o.resume then (elapsed * 1000.0).Floor as real * 0.001 else 0.0
  }

  /** Lines 158-162 of `play` in canvas mode: playing, with `startTime` put
      back by the time already played when resuming, and `lastUpdate` read
      from the clock. */
  function Started(o: Options, s: State, tStart: real, tLast: real): (r: State)
    ensures r.playing && r.lastUpdate == Some(tLast)
    ensures r.startTime == Some(tStart - ResumeOffset(o, s.elapsed) * 1000.0)
    ensures r == s.(playing := true, startTime := r.startTime, lastUpdate := r.lastUpdate)
  {
    s.(playing := true,
       startTime := Some(if o.resume then tStart - (s.elapsed * 1000.0).Floor as real else tStart),
       lastUpdate := Some(tLast))
  }

  /** `update`, the tick: the elapsed time from the clock, a seek when a frame
      period has passed since the last one, the end-of-media check, and the
      rescheduling. `t` is the reading of line 195, `tLoop` that of line 207. */
  function UpdateStep(o: Options, s: State, t: real, tLoop: real): (r: State)
    // a tick while stopped returns at once: nothing changes, nothing is rescheduled
    ensures !s.playing ==> r == s
    // a tick while playing always recomputes `elapsed` and always reschedules
    ensures s.playing ==> r.elapsed == ElapsedAt(s, t) && r.pendingTicks == s.pendingTicks + 1
    ensures s.playing ==> SameSetup(s, r)
    // the throttle: the video is sought, and `lastUpdate` moved, only when a period has passed
    ensures s.playing && !Ended(o, s, t) ==>
      && r.playing && r.startTime == s.startTime
      && (SeekDue(o, s, t) ==> r.video == s.video.(currentTime := r.elapsed) && r.lastUpdate == Some(t))
      && (!SeekDue(o, s, t) ==> r.video == s.video && r.lastUpdate == s.lastUpdate)
    // end of media with loop: back to 0, the clock restarted, still playing
    ensures s.playing && Ended(o, s, t) && o.loop ==>
      && r.playing && r.video.currentTime == 0.0 && r.video.paused == s.video.paused
      && r.startTime == Some(tLoop) && r.lastUpdate == Some(tLoop)
    // end of media without loop: paused as `pause` does it (and still rescheduled)
    ensures s.playing && Ended(o, s, t) && !o.loop ==>
      && !r.playing && r.startTime == s.startTime
      && r.lastUpdate == (if SeekDue(o, s, t) then Some(t) else s.lastUpdate)
      && (o.canvas ==> r.video.currentTime == (if o.resume then r.elapsed else 0.0)
                       && r.video.paused == s.video.paused)
      && (!o.canvas ==> r.video.paused && r.video.currentTime == PositionAfterSeek(o, s, t))
  {
    if !s.playing then s
    else
      TickKeepsSetup(o, s, t, tLoop);
      if !Ended(o, s, t) then
        TickBelowEnd(o, s, t, tLoop);
        Ticked(o, s, t, tLoop)
      else if o.loop then
        TickLoops(o, s, t, tLoop);
        Ticked(o, s, t, tLoop)
      else
        TickEnds(o, s, t, tLoop);
        Ticked(o, s, t, tLoop)
  }

  /** Lines 195-213 of `update` for a playing player: seek, end check,
      reschedule. */
  function Ticked(o: Options, s: State, t: real, tLoop: real): State {
    var next := EndStep(o, SeekStep(o, s, t), tLoop);
    next.(pendingTicks := next.pendingTicks + 1)
  }

  lemma TickKeepsSetup(o: Options, s: State, t: real, tLoop: real)
    ensures var r := Ticked(o, s, t, tLoop);
      r.elapsed == ElapsedAt(s, t) && r.pendingTicks == s.pendingTicks + 1 && SameSetup(s, r)
  {
    var sought := SeekStep(o, s, t);
    assert SameSetup(s, sought);
  }

  lemma TickBelowEnd(o: Options, s: State, t: real, tLoop: real)
    requires !Ended(o, s, t)
    ensures var r := Ticked(o, s, t, tLoop);
      && r.playing == s.playing && r.startTime == s.startTime
      && (SeekDue(o, s, t) ==> r.video == s.video.(currentTime := r.elapsed) && r.lastUpdate == Some(t))
      && (!SeekDue(o, s, t) ==> r.video == s.video && r.lastUpdate == s.lastUpdate)
  {
    var sought := SeekStep(o, s, t);
    assert !AtEnd(sought.video);
  }

  lemma TickLoops(o: Options, s: State, t: real, tLoop: real)
    requires s.playing && Ended(o, s, t) && o.loop
    ensures var r := Ticked(o, s, t, tLoop);
      && r.playing && r.video.currentTime == 0.0 && r.video.paused == s.video.paused
      && r.startTime == Some(tLoop) && r.lastUpdate == Some(tLoop)
  {
    var sought := SeekStep(o, s, t);
    assert AtEnd(sought.video);
  }

  lemma TickEnds(o: Options, s: State, t: real, tLoop: real)
    requires s.playing && Ended(o, s, t) && !o.loop
    ensures var r := Ticked(o, s, t, tLoop);
      && !r.playing && r.startTime == s.startTime
      && r.lastUpdate == (if SeekDue(o, s, t) then Some(t) else s.lastUpdate)
      && (o.canvas ==> r.video.currentTime == (if o.resume then r.elapsed else 0.0)
                       && r.video.paused == s.video.paused)
      && (!o.canvas ==> r.video.paused && r.video.currentTime == PositionAfterSeek(o, s, t))
  {
    var sought := SeekStep(o, s, t);
    assert AtEnd(sought.video);
    assert EndStep(o, sought, tLoop) == PauseStep(o, sought);
  }

  /** Lines 195-202 of `update`: the elapsed time, and the throttled seek. */
  function SeekStep(o: Options, s: State, t: real): (r: State)
    ensures r.video == s.video.(currentTime := PositionAfterSeek(o, s, t))
    ensures SeekDue(o, s, t) ==> r == s.(elapsed := ElapsedAt(s, t), video := r.video, lastUpdate := Some(t))
    ensures !SeekDue(o, s, t) ==> r == s.(elapsed := ElapsedAt(s, t))
  {
    var e := ElapsedAt(s, t);
    if SeekDue(o, s, t) then s.(elapsed := e, video := s.video.(currentTime := e), lastUpdate := Some(t))
    else s.(elapsed := e)
  }

  /** `this.video.currentTime >= this.video.duration`; a NaN duration (no
      metadata) is never reached. */
  predicate AtEnd(v: Video) {
    match v.duration
    case Some(d) => v.currentTime >= d
    case None => false
  }

  /** Lines 204-211 of `update`: at the end of the media, loop back to 0 with
      the clock restarted, or pause. `tLoop` is the reading of line 207. */
  function EndStep(o: Options, s: State, tLoop: real): (r: State)
    ensures !AtEnd(s.video) ==> r == s
    ensures AtEnd(s.video) && o.loop ==>
      r == s.(video := s.video.(currentTime := 0.0), startTime := Some(tLoop), lastUpdate := Some(tLoop))
    ensures AtEnd(s.video) && !o.loop ==> r == PauseStep(o, s)
  {
    if !AtEnd(s.video) then s
    else if o.loop then
      s.(video := s.video.(currentTime := 0.0), startTime := Some(tLoop), lastUpdate := Some(tLoop))
    else PauseStep(o, s)
  }

  /** `play`: a no-op while playing; in direct mode it only plays the element;
      in canvas mode it sets the clock readings and runs the first tick at
      once. The readings are those of lines 161, 162, 195 and 207. */
  function PlayStep(o: Options, s: State, tStart: real, tLast: real, tTick: real, tLoop: real): (r: State)
    ensures s.playing ==> r == s
    // direct mode: the element plays natively and no tick is scheduled
    ensures !s.playing && !o.canvas ==> r == s.(playing := true, video := s.video.(paused := false))
    // canvas mode: the first tick runs on the started state
    ensures !s.playing && o.canvas ==> r == UpdateStep(o, Started(o, s, tStart, tLast), tTick, tLoop)
    ensures !s.playing && o.canvas ==> r.pendingTicks == s.pendingTicks + 1
    // resume continues from the whole milliseconds already played; otherwise from 0
    ensures !s.playing && o.canvas ==> r.elapsed == ResumeOffset(o, s.elapsed) + (tTick - tStart) * 0.001
  {
    if s.playing then s
    else if o.canvas then
      UpdateStep(o, Started(o, s, tStart, tLast), tTick, tLoop)
    else
      s.(playing := true, video := s.video.(paused := false))
  }

  /** `togglePlayPause`: pause when playing, play otherwise. */
  function ToggleStep(o: Options, s: State, tStart: real, tLast: real, tTick: real, tLoop: real): (r: State)
    ensures s.playing ==> r == PauseStep(o, s) && !r.playing
    ensures !s.playing ==> r == PlayStep(o, s, tStart, tLast, tTick, tLoop)
    // from rest it starts playing, unless a canvas-mode first tick already hit the end without loop
    ensures !s.playing ==>
      (r.playing <==> !o.canvas || o.loop || !Ended(o, Started(o, s, tStart, tLast), tTick))
  {
    if s.playing then PauseStep(o, s) else PlayStep(o, s, tStart, tLast, tTick, tLoop)
  }

  /** A scheduled `raf` callback runs: one pending tick is consumed and
      `update` runs. */
  function TickStep(o: Options, s: State, t: real, tLoop: real): (r: State)
    requires s.pendingTicks > 0
    // a stopped player's pending tick just goes away
    ensures !s.playing ==> r == s.(pendingTicks := s.pendingTicks - 1)
    // a playing player's tick replaces itself, and leaves the load bookkeeping alone
    ensures s.playing ==> r.pendingTicks == s.pendingTicks && SameSetup(s, r)
  {
    UpdateStep(o, s.(pendingTicks := s.pendingTicks - 1), t, tLoop)
  }

  /** `drawFrame`: the pixels are not modelled, only the `onUpdate` call. */
  function DrawFrame(o: Options, s: State): (r: State)
    ensures r.onUpdateCalls == s.onUpdateCalls + (if o.onUpdate then 1 else 0)
    ensures r == s.(onUpdateCalls := r.onUpdateCalls)
  {
    if o.onUpdate then s.(onUpdateCalls := s.onUpdateCalls + 1) else s
  }

  /** `onVideoMetaDataLoaded`: unregister, record the video's dimensions and
      duration, and in canvas mode size the canvas to them. */
  function MetadataHandler(o: Options, s: State): (r: State)
    ensures !r.metadataListener
    ensures r.width == Some(s.video.videoWidth) && r.height == Some(s.video.videoHeight)
    ensures r.duration == s.video.duration
    ensures o.canvas ==> r.canvas == Some(Canvas(s.video.videoWidth, s.video.videoHeight))
    ensures !o.canvas ==> r.canvas == s.canvas
    // and nothing else: the playback fields, the pending ticks and the call counts stay
    ensures r == s.(metadataListener := false, width := r.width, height := r.height,
                    duration := r.duration, canvas := r.canvas)
  {
    var s1 := s.(metadataListener := false,
                 width := Some(s.video.videoWidth), height := Some(s.video.videoHeight),
                 duration := s.video.duration);
    if o.canvas then s1.(canvas := Some(Canvas(s1.width.value, s1.height.value))) else s1
  }

  /** The element reports its metadata ("loadedmetadata"), and the handler
      runs if it is still registered. */
  function MetadataEvent(o: Options, s: State, width: nat, height: nat, duration: real): (r: State)
    ensures r.video == s.video.(videoWidth := width, videoHeight := height, duration := Some(duration))
    ensures s.metadataListener ==>
      && !r.metadataListener
      && r.width == Some(width) && r.height == Some(height) && r.duration == Some(duration)
      && (o.canvas ==> r.canvas == Some(Canvas(width, height)))
      && (!o.canvas ==> r.canvas == s.canvas)
      && r == s.(video := r.video, metadataListener := false, width := r.width, height := r.height,
                 duration := r.duration, canvas := r.canvas)
    // the handler took itself off: a later report reaches only the element
    ensures !s.metadataListener ==> r == s.(video := r.video)
  {
    var s1 := s.(video := s.video.(videoWidth := width, videoHeight := height, duration := Some(duration)));
    if s.metadataListener then MetadataHandler(o, s1) else s1
  }

  /** `onVideoCanPlay`: unregister, draw one frame in canvas mode, pause the
      element, call `onLoad`. */
  function CanPlayHandler(o: Options, s: State): (r: State)
    ensures !r.loadListener && r.video == s.video.(paused := true)
    ensures r.onLoadCalls == s.onLoadCalls + (if o.onLoad then 1 else 0)
    ensures r.onUpdateCalls == s.onUpdateCalls + (if o.canvas && o.onUpdate then 1 else 0)
    // and nothing else: playback, the dimensions and the pending ticks stay
    ensures r == s.(loadListener := false, video := r.video,
                    onLoadCalls := r.onLoadCalls, onUpdateCalls := r.onUpdateCalls)
  {
    var s1 := s.(loadListener := false);
    var s2 := if o.canvas then DrawFrame(o, s1) else s1;
    var s3 := s2.(video := s2.video.(paused := true));
    if o.onLoad then s3.(onLoadCalls := s3.onLoadCalls + 1) else s3
  }

  /** The configured load event ("canplaythrough" by default) fires. */
  function LoadEvent(o: Options, s: State): (r: State)
    // the first time: the element is paused and onLoad runs once
    ensures s.loadListener ==> r == CanPlayHandler(o, s)
    // afterwards nothing happens
    ensures !s.loadListener ==> r == s
  {
    if s.loadListener then CanPlayHandler(o, s) else s
  }

  /** The element fires "timeupdate"; only canvas mode listens (to draw). */
  function TimeUpdateEvent(o: Options, s: State): (r: State)
    ensures r == s.(onUpdateCalls := r.onUpdateCalls)
    ensures r.onUpdateCalls == s.onUpdateCalls + (if o.canvas && o.onUpdate then 1 else 0)
  {
    if o.canvas then DrawFrame(o, s) else s
  }

  // ---------------------------------------------------------------------
  // Properties of the operations

  /** Every operation keeps the player consistent. */
  lemma StepsPreserveConsistent(o: Options, s: State, t1: real, t2: real, t3: real, t4: real,
                                w: nat, h: nat, d: real)
    requires Consistent(o, s)
    ensures Consistent(o, PauseStep(o, s))
    ensures Consistent(o, UpdateStep(o, s, t1, t2))
    ensures Consistent(o, PlayStep(o, s, t1, t2, t3, t4))
    ensures Consistent(o, ToggleStep(o, s, t1, t2, t3, t4))
    ensures s.pendingTicks > 0 ==> Consistent(o, TickStep(o, s, t1, t2))
    ensures Consistent(o, MetadataEvent(o, s, w, h, d))
    ensures Consistent(o, LoadEvent(o, s))
    ensures Consistent(o, TimeUpdateEvent(o, s))
  {
    UpdateKeepsConsistent(o, s, t1, t2);
    PlayKeepsConsistent(o, s, t1, t2, t3, t4);
    if s.pendingTicks > 0 {
      UpdateKeepsConsistent(o, s.(pendingTicks := s.pendingTicks - 1), t1, t2);
    }
    HandlersKeepConsistent(o, s, w, h, d);
  }

  /** The tick keeps the player consistent. */
  lemma UpdateKeepsConsistent(o: Options, s: State, t: real, tLoop: real)
    requires Consistent(o, s)
    ensures Consistent(o, UpdateStep(o, s, t, tLoop))
  {
  }

  lemma PlayKeepsConsistent(o: Options, s: State, t1: real, t2: real, t3: real, t4: real)
    requires Consistent(o, s)
    ensures Consistent(o, PauseStep(o, s))
    ensures Consistent(o, PlayStep(o, s, t1, t2, t3, t4))
    ensures Consistent(o, ToggleStep(o, s, t1, t2, t3, t4))
  {
    if !s.playing && o.canvas {
      UpdateKeepsConsistent(o, Started(o, s, t1, t2), t3, t4);
    }
  }

  lemma HandlersKeepConsistent(o: Options, s: State, w: nat, h: nat, d: real)
    requires Consistent(o, s)
    ensures Consistent(o, MetadataEvent(o, s, w, h, d))
    ensures Consistent(o, LoadEvent(o, s))
    ensures Consistent(o, TimeUpdateEvent(o, s))
  {
  }

  /** Two toggles from rest: when the first one leaves the player playing, the
      second stops it; in canvas mode the video is then at the elapsed
      position (resume) or at 0, and `elapsed` is what the first tick set. */
  lemma ToggleTwiceFromRest(o: Options, s: State, tStart: real, tLast: real, tTick: real, tLoop: real,
                            uStart: real, uLast: real, uTick: real, uLoop: real)
    requires !s.playing
    requires ToggleStep(o, s, tStart, tLast, tTick, tLoop).playing
    ensures var r := ToggleStep(o, ToggleStep(o, s, tStart, tLast, tTick, tLoop), uStart, uLast, uTick, uLoop);
      && !r.playing
      && (o.canvas ==> r.elapsed == ResumeOffset(o, s.elapsed) + (tTick - tStart) * 0.001)
      && (o.canvas ==> r.video.currentTime == if o.resume then r.elapsed else 0.0)
      && (!o.canvas ==> r.video == s.video.(paused := true))
  {
  }

  /** A loop restart rewinds the video but leaves `elapsed` as the tick
      computed it. With resume, a pause before the next tick parks the video
      at that `elapsed` again, so the rewind is undone; when the restart was
      caused by the tick's own seek, the video is parked at or past the end. */
  lemma LoopRestartThenResumedPause(o: Options, s: State, t: real, tLoop: real)
    requires s.playing && o.canvas && o.loop && o.resume && Ended(o, s, t)
    ensures var r := PauseStep(o, UpdateStep(o, s, t, tLoop));
      && UpdateStep(o, s, t, tLoop).video.currentTime == 0.0
      && r.video.currentTime == ElapsedAt(s, t)
      && (SeekDue(o, s, t) ==> AtEnd(r.video))
  {
  }

  /** With resume on and loop off in canvas mode, a stopped player whose
      video sits at or past the end, and whose resumed offset is too, pauses
      again in the first tick of `play`. The state it leaves satisfies the
      same conditions, so no later `play` gets it going. */
  lemma ResumedPlayAfterEndPausesAtOnce(o: Options, s: State, tStart: real, tLast: real,
                                        tTick: real, tLoop: real, d: real)
    requires o.canvas && o.resume && !o.loop && !s.playing && tStart <= tTick
    requires s.video.duration == Some(d) && s.video.currentTime >= d && ResumeOffset(o, s.elapsed) >= d
    ensures var r := PlayStep(o, s, tStart, tLast, tTick, tLoop);
      && !r.playing
      && r.video.duration == Some(d) && r.video.currentTime >= d && ResumeOffset(o, r.elapsed) >= d
  {
    var k := (s.elapsed * 1000.0).Floor;
    var r := PlayStep(o, s, tStart, tLast, tTick, tLoop);
    assert r.elapsed * 1000.0 == k as real + (tTick - tStart);
    var m := (r.elapsed * 1000.0).Floor;
    assert k <= m;
  }

  /** Pausing and then resuming: the first tick after a resumed play is at the
      paused position, less at most one millisecond of rounding, plus the time
      since the play; without resume it is just the time since the play. */
  lemma PauseThenPlayPosition(o: Options, s: State, tStart: real, tLast: real, tTick: real, tLoop: real)
    requires s.playing && o.canvas
    ensures var r := PlayStep(o, PauseStep(o, s), tStart, tLast, tTick, tLoop);
      var since := (tTick - tStart) * 0.001;
      && (o.resume ==> s.elapsed - 0.001 < r.elapsed - since <= s.elapsed)
      && (!o.resume ==> r.elapsed == since)
  {
    var e := s.elapsed * 1000.0;
    assert e.Floor as real <= e < e.Floor as real + 1.0;
  }

  /** A pause followed by a play before the pending tick has run leaves two
      tick chains scheduled: `pause` cancels nothing, and the old tick finds
      the player playing again. */
  lemma PauseThenPlayDoublesTicks(o: Options, s: State, tStart: real, tLast: real, tTick: real, tLoop: real)
    requires s.playing && o.canvas && s.pendingTicks == 1
    ensures PlayStep(o, PauseStep(o, s), tStart, tLast, tTick, tLoop).pendingTicks == 2
  {
  }

  /** Without loop, the tick that reaches the end pauses the player but still
      reschedules; that next tick does nothing but disappear, so the chain
      ends one tick later with no state change. */
  lemma EndWithoutLoopEndsChain(o: Options, s: State, t: real, tLoop: real, u: real, uLoop: real)
    requires s.playing && !o.loop && s.pendingTicks > 0
    requires Ended(o, s.(pendingTicks := s.pendingTicks - 1), t)
    ensures var r := TickStep(o, s, t, tLoop);
      && !r.playing && r.pendingTicks == s.pendingTicks
      && TickStep(o, r, u, uLoop) == r.(pendingTicks := s.pendingTicks - 1)
  {
  }
}
