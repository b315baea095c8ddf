/** `CanvasVideoPlayer` itself: an object whose methods update its fields in
    place, each proved to leave the fields as the matching function of module
    Playback says. The module-level id counter is owned by a factory. */
module Player {
  import opened Js
  import opened Utils
  import opened Playback

  /** The constructor's `src`: a ready `<video>` element, or a descriptor for
      `prepareSources`. */
  datatype Src = Element(element: Video) | Descriptor(media: Value)

  /** `!src` is false. */
  predicate Defined(src: Src) {
    match src
    case Element(_) => true
    case Descriptor(media) => Truthy(media)
  }

  class CanvasVideoPlayer {
    const opts: Options
    const id: Value
    const frameRate: Period
    /** The `<source>` elements the player built, when it built its own video. */
    const sources: Option<seq<SourceElement>>

    var playing: bool
    var startTime: Option<real>
    var lastUpdate: Option<real>
    var elapsed: real
    var width: Option<nat>
    var height: Option<nat>
    var duration: Option<real>
    var video: Video
    var canvas: Option<Canvas>
    /** Whether the "loadedmetadata" and the load-event handlers are still registered. */
    var metadataListener: bool
    var loadListener: bool
    /** `raf(this.update)` callbacks scheduled and not yet run. */
    var pendingTicks: nat
    var onLoadCalls: nat
    var onUpdateCalls: nat

    /** The fields as a value. */
    function Snapshot(): Playback.State
      reads this
    {
      Playback.State(playing, startTime, lastUpdate, elapsed, width, height, duration, video, canvas,
                     metadataListener, loadListener, pendingTicks, onLoadCalls, onUpdateCalls)
    }

    ghost predicate Valid()
      reads this
    {
      frameRate == FrameRate(opts.fPS) && Consistent(opts, Snapshot())
    }

    /** Lines 42-78 once the source is resolved: the options, the id, the frame
        period, the stopped playback state, a canvas in canvas mode, and the
        load listeners bound. */
    constructor (options: Options, id: Value, video: Video, sources: Option<seq<SourceElement>>)
      ensures Valid()
      ensures opts == options && this.id == id && this.sources == sources
      ensures Snapshot() == Initial(options, video)
    {
      opts := options;
      this.id := id;
      frameRate := FrameRate(options.fPS);
      this.sources := sources;
      playing := false;
      startTime := None;
      lastUpdate := None;
      elapsed := 0.0;
      width, height, duration := None, None, None;
      this.video := video;
      canvas := if options.canvas then Some(NewCanvas) else None;
      metadataListener, loadListener := true, true;
      pendingTicks, onLoadCalls, onUpdateCalls := 0, 0, 0;
    }

    method OnVideoMetaDataLoaded()
      requires Valid()
      modifies this
      ensures Valid()
      ensures Snapshot() == MetadataHandler(opts, old(Snapshot()))
    {
      metadataListener := false;
      width := Some(video.videoWidth);
      height := Some(video.videoHeight);
      duration := video.duration;
      if opts.canvas {
        SetCanvasSize();
      }
    }

    /** `setCanvasSize`: the canvas takes the recorded dimensions. */
    method SetCanvasSize()
      requires opts.canvas && width.Some? && height.Some?
      modifies this
      ensures Snapshot() == old(Snapshot()).(canvas := canvas)
      ensures canvas == Some(Canvas(width.value, height.value))
    {
      canvas := Some(Canvas(width.value, height.value));
    }

    /** Runs only as the registered load-event listener, which it removes. */
    method OnVideoCanPlay()
      requires Valid() && loadListener
      modifies this
      ensures Valid()
      ensures Snapshot() == CanPlayHandler(opts, old(Snapshot()))
    {
      loadListener := false;
      if opts.canvas {
        DrawFrame();
      }
      video := video.(paused := true);
      if opts.onLoad {
        onLoadCalls := onLoadCalls + 1;
      }
    }

    method TogglePlayPause(tStart: real, tLast: real, tTick: real, tLoop: real)
      requires Valid()
      modifies this
      ensures Valid()
      ensures Snapshot() == ToggleStep(opts, old(Snapshot()), tStart, tLast, tTick, tLoop)
    {
      if playing {
        Pause();
      } else {
        Play(tStart, tLast, tTick, tLoop);
      }
    }

    method Play(tStart: real, tLast: real, tTick: real, tLoop: real)
      requires Valid()
      modifies this
      ensures Valid()
      ensures Snapshot() == PlayStep(opts, old(Snapshot()), tStart, tLast, tTick, tLoop)
    {
      if playing {
        return;
      }
      playing := true;
      if opts.canvas {
        startTime := Some(if opts.resume then tStart - (elapsed * 1000.0).Floor as real else tStart);
        lastUpdate := Some(tLast);
        Update(tTick, tLoop);
      } else {
        video := video.(paused := false);
      }
    }

    method Pause()
      requires Valid()
      modifies this
      ensures Valid()
      ensures Snapshot() == PauseStep(opts, old(Snapshot()))
    {
      if !playing {
        return;
      }
      playing := false;
      if opts.canvas {
        video := video.(currentTime := if opts.resume then elapsed else 0.0);
      } else {
        video := video.(paused := true);
      }
    }

    method Update(t: real, tLoop: real)
      requires Valid()
      modifies this
      ensures Valid()
      ensures Snapshot() == UpdateStep(opts, old(Snapshot()), t, tLoop)
    {
      if !playing {
        return;
      }
      ghost var before := Snapshot();
      var time := t;
      elapsed := (time - AsNumber(startTime)) * 0.001;
      var interval := (time - AsNumber(lastUpdate)) * 0.001;
      if Reached(interval, frameRate) {
        video := video.(currentTime := elapsed);
        lastUpdate := Some(time);
      }
      ghost var sought := Snapshot();
      assert sought == SeekStep(opts, before, t);
      if AtEnd(video) {
        if opts.loop {
          video := video.(currentTime := 0.0);
          startTime := Some(tLoop);
          lastUpdate := Some(tLoop);
        } else {
          Pause();
        }
      }
      assert Snapshot() == EndStep(opts, sought, tLoop);
      pendingTicks := pendingTicks + 1;
    }

    /** `drawFrame`, which only canvas mode binds: the pixels are not modelled,
        only the `onUpdate` call. */
    method DrawFrame()
      requires opts.canvas
      modifies this
      ensures Snapshot() == Playback.DrawFrame(opts, old(Snapshot()))
    {
      if opts.onUpdate {
        onUpdateCalls := onUpdateCalls + 1;
      }
    }

    /** The element reports its metadata; the handler runs while registered. */
    method LoadedMetadata(videoWidth: nat, videoHeight: nat, mediaDuration: real)
      requires Valid()
      modifies this
      ensures Valid()
      ensures Snapshot() == MetadataEvent(opts, old(Snapshot()), videoWidth, videoHeight, mediaDuration)
    {
      video := video.(videoWidth := videoWidth, videoHeight := videoHeight, duration := Some(mediaDuration));
      if metadataListener {
        OnVideoMetaDataLoaded();
      }
    }

    /** The configured load event fires; the handler runs while registered. */
    method LoadEventFired()
      requires Valid()
      modifies this
      ensures Valid()
      ensures Snapshot() == LoadEvent(opts, old(Snapshot()))
    {
      if loadListener {
        OnVideoCanPlay();
      }
    }

    /** The element fires "timeupdate"; canvas mode draws a frame. */
    method TimeUpdated()
      requires Valid()
      modifies this
      ensures Valid()
      ensures Snapshot() == TimeUpdateEvent(opts, old(Snapshot()))
    {
      if opts.canvas {
        DrawFrame();
      }
    }

    /** The scheduler runs one pending `raf(this.update)` callback. */
    method FireTick(t: real, tLoop: real)
      requires Valid() && pendingTicks > 0
      modifies this
      ensures Valid()
      ensures Snapshot() == TickStep(opts, old(Snapshot()), t, tLoop)
    {
      pendingTicks := pendingTicks - 1;
      Update(t, tLoop);
    }
  }

  /** Owner of the id counter that the constructor draws from when no `id`
      option is given. */
  class PlayerFactory {
    var counter: nat

    constructor ()
      ensures counter == 0
    {
      counter := 0;
    }

    /** `new CanvasVideoPlayer(src, options)`: a falsy source throws before
        anything happens; otherwise the id is taken (the counter advances only
        when no truthy `id` option is given), and then a descriptor that
        `prepareSources` rejects throws. */
    method Create(src: Src, options: UserOptions) returns (r: Result<CanvasVideoPlayer, Error>)
      modifies this
      ensures !Defined(src) ==> r == Err(Thrown(SourceMustBeDefined)) && counter == old(counter)
      ensures Defined(src) ==> counter == old(counter) + (if Truthy(Merge(options).id) then 0 else 1)
      ensures Defined(src) && src.Descriptor? && PreparedSources(src.media).Err? ==>
        r == Err(PreparedSources(src.media).error)
      ensures Defined(src) && (src.Element? || PreparedSources(src.media).Ok?) ==> r.Ok?
      ensures r.Ok? ==>
        var p := r.value;
        && fresh(p) && p.Valid() && p.opts == Merge(options)
        && p.id == (if Truthy(Merge(options).id) then Merge(options).id else Number(old(counter) as real))
        && p.Snapshot() == Initial(p.opts, p.video)
        && p.video.loop == p.opts.loop
        && (src.Element? ==> p.sources == None && p.video == src.element.(loop := p.opts.loop))
        && (src.Descriptor? ==>
              && p.sources == Some(PreparedSources(src.media).value)
              && p.video.children == p.sources.value
              && !p.video.autoplay && p.video.preload == "auto" && p.video.muted
              && p.video.paused && p.video.loadRequested)
    {
      if !Defined(src) {
        return Err(Thrown(SourceMustBeDefined));
      }
      var opts := Merge(options);
      var id: Value;
      if Truthy(opts.id) {
        id := opts.id;
      } else {
        id := Number(counter as real);
        counter := counter + 1;
      }
      var video: Video;
      var sources: Option<seq<SourceElement>>;
      if src.Element? {
        video := src.element.(loop := opts.loop);
        sources := None;
      } else {
        var prepared := PrepareSources(src.media);
        if prepared.Err? {
          return Err(prepared.error);
        }
        sources := Some(prepared.value);
        video := CreateVideo(prepared.value, opts.loop);
      }
      var p := new CanvasVideoPlayer(opts, id, video, sources);
      r := Ok(p);
    }
  }
}
