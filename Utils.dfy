/** The helpers of `utils/utils.js`: turning a source descriptor into
    `<source>` elements and building the `<video>` element that holds them. */
module Utils {
  import opened Js

  /** A `<source>` element with the two properties `createSource` assigns
      (`mediaType` is the element's `type`). */
  datatype SourceElement = SourceElement(src: Value, mediaType: Value)

  /** A `<video>` element: the attributes `createVideo` sets, its children, and
      the playback state the player reads and seeks. `duration` is None while
      the element reports NaN (no metadata yet). */
  datatype Video = Video(
    autoplay: bool,
    preload: string,
    loop: bool,
    muted: bool,
    children: seq<SourceElement>,
    loadRequested: bool,
    paused: bool,
    currentTime: real,
    duration: Option<real>,
    videoWidth: nat,
    videoHeight: nat)

  /** What `document.createElement('video')` gives: no attributes set, paused
      at position 0, no metadata. */
  function BlankVideo(): (v: Video)
    ensures v.children == [] && v.paused && v.currentTime == 0.0 && v.duration == None
  {
    Video(false, "", false, false, [], false, true, 0.0, None, 0, 0)
  }

  /** `createSource`: a new `<source>` whose `src` is `media.src` and whose
      `type` is `media.mime`; reading them off null or undefined throws. */
  function CreateSource(media: Value): (r: Result<SourceElement, Error>)
    ensures r.Err? <==> Nullish(media)
    ensures r.Err? ==> r.error == TypeError
    ensures media.Record? ==> r == Ok(SourceElement(
      if "src" in media.fields then media.fields["src"] else Undefined,
      if "mime" in media.fields then media.fields["mime"] else Undefined))
    ensures !Nullish(media) && !media.Record? ==> r == Ok(SourceElement(Undefined, Undefined))
  {
    match GetProperty(media, "src")
    case Err(e) => Err(e)
    case Ok(src) =>
      match GetProperty(media, "mime")
      case Err(e) => Err(e)
      case Ok(mime) => Ok(SourceElement(src, mime))
  }

  /** The elements `parts.forEach(part => sources.push(createSource(part)))`
      pushes, or the exception it stops at. */
  function SourcesOf(parts: seq<Value>): (r: Result<seq<SourceElement>, Error>)
    ensures r.Ok? <==> forall i :: 0 <= i < |parts| ==> !Nullish(parts[i])
    ensures r.Err? ==> r.error == TypeError
    ensures r.Ok? ==> |r.value| == |parts|
    ensures r.Ok? ==> forall i :: 0 <= i < |parts| ==> CreateSource(parts[i]) == Ok(r.value[i])
  {
    if parts == [] then Ok([])
    else
      match SourcesOf(parts[..|parts| - 1])
      case Err(e) => Err(e)
      case Ok(prefix) =>
        match CreateSource(parts[|parts| - 1])
        case Err(e) => Err(e)
        case Ok(el) => Ok(prefix + [el])
  }

  function Singleton(r: Result<SourceElement, Error>): Result<seq<SourceElement>, Error> {
    match r
    case Ok(el) => Ok([el])
    case Err(e) => Err(e)
  }

  /** `prepareSources`: a string gives one source built from `{ media }`; an
      object gives one source per element when its `length` is truthy (an
      array) and one source built from itself otherwise; anything else throws
      "Could not parse source.". */
  function PreparedSources(media: Value): (r: Result<seq<SourceElement>, Error>)
    // a string is wrapped as { media }, which has no src and no mime
    ensures media.Text? ==> r == Ok([SourceElement(Undefined, Undefined)])
    // a non-empty array: one source per element, in order
    ensures media.List? && |media.items| > 0 ==>
      && (r.Ok? <==> forall i :: 0 <= i < |media.items| ==> !Nullish(media.items[i]))
      && (r.Ok? ==> |r.value| == |media.items|
                    && forall i :: 0 <= i < |media.items| ==> CreateSource(media.items[i]) == Ok(r.value[i]))
    // an empty array has a falsy length and is itself the one descriptor
    ensures media.List? && |media.items| == 0 ==> r == Ok([SourceElement(Undefined, Undefined)])
    // a plain object: one source from its own src and mime, unless its length is truthy
    ensures media.Record? && ("length" !in media.fields || !Truthy(media.fields["length"])) ==>
      r == Ok([CreateSource(media).value])
    ensures media.Record? && "length" in media.fields && Truthy(media.fields["length"]) ==> r == Err(TypeError)
    ensures media.Null? ==> r == Err(TypeError)
    ensures media.Undefined? || media.Boolean? || media.Number? ==> r == Err(Thrown(CouldNotParseSource))
  {
    if TypeOf(media) == "string" then
      Singleton(CreateSource(Record(map["media" := media])))
    else if TypeOf(media) == "object" then
      match GetProperty(media, "length")
      case Err(e) => Err(e)
      case Ok(length) =>
        if Truthy(length) then
          // only an array has the forEach the code calls next
          if media.List? then SourcesOf(media.items) else Err(TypeError)
        else
          Singleton(CreateSource(media))
    else
      Err(Thrown(CouldNotParseSource))
  }

  /** `prepareSources` as the code runs it: a loop pushing onto `sources`. */
  method PrepareSources(media: Value) returns (r: Result<seq<SourceElement>, Error>)
    ensures r == PreparedSources(media)
  {
    var sources: seq<SourceElement> := [];
    if TypeOf(media) == "string" {
      var wrapped := map["media" := media];
      assert "src" !in wrapped && "mime" !in wrapped;
      var el := CreateSource(Record(wrapped));
      sources := sources + [el.value];
      assert sources == [SourceElement(Undefined, Undefined)];
    } else if TypeOf(media) == "object" {
      var length := GetProperty(media, "length");
      if length.Err? {
        return Err(length.error);
      }
      if Truthy(length.value) {
        if !media.List? {
          return Err(TypeError);
        }
        var parts := media.items;
        var i := 0;
        while i < |parts|
          invariant 0 <= i <= |parts|
          invariant SourcesOf(parts[..i]) == Ok(sources)
        {
          var el := CreateSource(parts[i]);
          if el.Err? {
            assert Nullish(parts[i]);
            return Err(el.error);
          }
          ghost var done := parts[..i + 1];
          assert done[..|done| - 1] == parts[..i] && done[|done| - 1] == parts[i];
          sources := sources + [el.value];
          i := i + 1;
        }
        assert parts[..i] == parts;
      } else {
        var el := CreateSource(media);
        sources := sources + [el.value];
        assert sources == [el.value];
        assert PreparedSources(media) == Singleton(el) == Ok(sources);
      }
    } else {
      return Err(Thrown(CouldNotParseSource));
    }
    r := Ok(sources);
  }

  /** `createVideo`: a new `<video>` that does not autoplay, preloads, is muted,
      loops as the options say, holds exactly the given sources in order, and
      has been asked to load. */
  method CreateVideo(sources: seq<SourceElement>, loop: bool) returns (video: Video)
    ensures !video.autoplay && video.preload == "auto" && video.muted && video.loop == loop
    ensures video.children == sources
    ensures video.loadRequested
    ensures video.paused && video.currentTime == 0.0 && video.duration == None
  {
    video := BlankVideo();
    video := video.(autoplay := false, preload := "auto", loop := loop, muted := true);
    var i := 0;
    while i < |sources|
      invariant 0 <= i <= |sources|
      invariant video.children == sources[..i]
      invariant !video.autoplay && video.preload == "auto" && video.muted && video.loop == loop
      invariant !video.loadRequested && video.paused && video.currentTime == 0.0 && video.duration == None
    {
      video := video.(children := video.children + [sources[i]]);
      i := i + 1;
    }
    video := video.(loadRequested := true);
  }
}
