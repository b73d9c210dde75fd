/** The Photographer controller: a webcam preview attached to a container
    element, and an ordered collection of still photos taken from it.

    The browser is outside the model. What the source reads from it comes in
    as parameters: whether a `getUserMedia` entry point exists (`capable`),
    the container's `clientWidth`/`clientHeight`, the string the canvas
    encodes a frame to (`src`) and the stream a granted request delivers.
    What the source asks of it is recorded, in order, in the ghost log
    `events`. */
module Photographers {
  import opened Wrappers
  import opened JsValues
  import opened DataUrls
  import opened ArraySplice

  /** Exceptions the source raises on the caller's stack. */
  datatype Error =
    | MissingContainer     // the explicit `Error` when no container is configured
    | ContainerNotElement  // the `TypeError` of `appendChild` on a container that is no element
    | FlashNotCallable     // the `TypeError` of calling a `flash` that is no function
    | NoImageFormat        // the `TypeError` of indexing the `null` match of a src with no format

  /** A photo record: the encoded image, the format read back out of it, and
      the configured capture dimensions. */
  datatype Photo = Photo(src: string, format: string, width: Value, height: Value)

  /** The width and height given to the `<video>` or `<canvas>` element. */
  datatype Surface = Surface(width: Value, height: Value)

  type StreamId = nat

  /** Requests the controller makes of the browser and of the configured
      callback. */
  datatype Event =
    | VideoRequested                                    // `getUserMedia({ video: true }, …)`
    | StreamStopped(stream: StreamId)                   // `stream.stop()`
    | FlashInvoked(callback: Value, container: Value)   // `flash(container)`
    | FrameDrawn(width: Value, height: Value)           // `drawImage(video, 0, 0, width, height)`
    | EncodeRequested(imgFormat: Value)                 // `toDataURL('image/' + imgFormat)`

  /** What `takePhoto` gives back: the photo, the `false` of a controller
      without capture capability, or the exception it throws. */
  datatype Capture = Taken(photo: Photo) | Declined | Threw(error: Error)

  /** The default configuration; `container` must be overridden. */
  const Defaults: JsObject := map[
    "flash" := Null,
    "container" := Null,
    "imgFormat" := Str("png"),
    "imgWidth" := Null,
    "imgHeight" := Null
  ]

  /** The configuration the constructor settles on for a user configuration
      and a container of the given size, or the exception it throws. */
  function Configure(userConfig: JsObject, clientWidth: nat, clientHeight: nat): (r: Result<JsObject, Error>)
    ensures r.Failure? ==> r.error == MissingContainer || r.error == ContainerNotElement
    ensures r.Success? ==> Lookup(r.value, "container").Element?
    ensures r.Success? ==> r.value.Keys == (Defaults.Keys + userConfig.Keys) - {ProtoKey}
  {
    var merged := Merge(Defaults, userConfig);
    var container := Lookup(merged, "container");
    if !Truthy(container) then Failure(MissingContainer)
    else
      var sized :=
        if Truthy(Lookup(merged, "imgWidth")) then merged
        else merged["imgWidth" := Num(clientWidth)];
      var config :=
        if Truthy(Lookup(sized, "imgHeight")) then sized
        else sized["imgHeight" := Num(clientHeight)];
      if !container.Element? then Failure(ContainerNotElement)
      else Success(config)
  }

  /** Construction throws the missing-container error exactly when the user
      configuration has no truthy `container`. */
  lemma ConfigureNeedsContainer(userConfig: JsObject, clientWidth: nat, clientHeight: nat)
    ensures Configure(userConfig, clientWidth, clientHeight) == Failure(MissingContainer)
        <==> !Truthy(Lookup(userConfig, "container"))
  {
  }

  /** Since the default container is `null`, leaving it out always throws. */
  lemma OmittedContainerFails(userConfig: JsObject, clientWidth: nat, clientHeight: nat)
    requires "container" !in userConfig
    ensures Configure(userConfig, clientWidth, clientHeight) == Failure(MissingContainer)
  {
  }

  /** Construction succeeds exactly when the container is an element. */
  lemma ConfigureSucceeds(userConfig: JsObject, clientWidth: nat, clientHeight: nat)
    ensures Configure(userConfig, clientWidth, clientHeight).Success?
        <==> Lookup(userConfig, "container").Element?
  {
  }

  /** The capture dimensions are the configured ones when those are truthy,
      and the container's size otherwise (so an explicit 0 is replaced too). */
  lemma ConfigureDimensions(userConfig: JsObject, clientWidth: nat, clientHeight: nat)
    requires Configure(userConfig, clientWidth, clientHeight).Success?
    ensures var config := Configure(userConfig, clientWidth, clientHeight).value;
      && Lookup(config, "imgWidth") ==
           (if Truthy(Lookup(userConfig, "imgWidth")) then userConfig["imgWidth"] else Num(clientWidth))
      && Lookup(config, "imgHeight") ==
           (if Truthy(Lookup(userConfig, "imgHeight")) then userConfig["imgHeight"] else Num(clientHeight))
  {
  }

  /** Every other key is the user's value when the user gave one and the
      default otherwise, and the settled configuration has exactly the keys
      of the defaults and of the user configuration, `__proto__` excepted. */
  lemma ConfigureKeepsOtherKeys(userConfig: JsObject, clientWidth: nat, clientHeight: nat)
    requires Configure(userConfig, clientWidth, clientHeight).Success?
    ensures var config := Configure(userConfig, clientWidth, clientHeight).value;
      && config.Keys == (Defaults.Keys + userConfig.Keys) - {ProtoKey}
      && forall k | k in config && k != "imgWidth" && k != "imgHeight" ::
           config[k] == if k in userConfig then userConfig[k] else Defaults[k]
  {
  }

  /** One webcam controller. */
  class Photographer {
    /** The settled configuration; the source never changes it after
        construction. */
    const config: JsObject
    /** Whether the browser offers a `getUserMedia` entry point. Without one
        the source replaces `start`, `stop` and `takePhoto` by functions
        returning `false`. */
    const capable: bool
    /** The `<video>` preview, sized to the container. */
    const video: Surface
    /** The `<canvas>` frames are drawn on, sized to the capture dimensions. */
    const canvas: Surface
    /** The stream handle; set only by a granted `getUserMedia` request. */
    var stream: Option<StreamId>
    /** The photos taken, oldest first. */
    var photos: seq<Photo>
    /** Requests made of the browser and of the flash callback, in order. */
    ghost var events: seq<Event>
    /** `getUserMedia` requests whose callback has not yet run. */
    ghost var pending: nat

    function Container(): Value { Lookup(config, "container") }
    function Flash(): Value { Lookup(config, "flash") }
    function ImgFormat(): Value { Lookup(config, "imgFormat") }
    function ImgWidth(): Value { Lookup(config, "imgWidth") }
    function ImgHeight(): Value { Lookup(config, "imgHeight") }

    /** A photo this controller could have taken: its format is the one its
        src names, its size the capture dimensions. */
    predicate Consistent(p: Photo) {
      && ParseFormat(p.src) == Some(p.format)
      && p.width == ImgWidth()
      && p.height == ImgHeight()
    }

    ghost predicate Valid()
      reads this
    {
      && Container().Element?
      && canvas == Surface(ImgWidth(), ImgHeight())
      && (forall p | p in photos :: Consistent(p))
      && (!capable ==> stream == None && pending == 0)
    }

    /** The part of the constructor that runs once the configuration is
        settled: no stream yet, no photos, the video sized to the container
        and the canvas to the capture dimensions. */
    constructor Init(config: JsObject, clientWidth: nat, clientHeight: nat, capable: bool)
      requires Lookup(config, "container").Element?
      ensures this.config == config && this.capable == capable
      ensures video == Surface(Num(clientWidth), Num(clientHeight))
      ensures canvas == Surface(Lookup(config, "imgWidth"), Lookup(config, "imgHeight"))
      ensures stream == None && photos == []
      ensures events == [] && pending == 0
      ensures Valid()
    {
      this.config := config;
      this.capable := capable;
      video := Surface(Num(clientWidth), Num(clientHeight));
      canvas := Surface(Lookup(config, "imgWidth"), Lookup(config, "imgHeight"));
      stream := None;
      photos := [];
      events := [];
      pending := 0;
    }

    /** `new Photographer(userConfig)`: merge over the defaults, reject a
        missing container, default the capture dimensions to the container's
        size, attach the preview and create the canvas. */
    static method New(userConfig: JsObject, clientWidth: nat, clientHeight: nat, capable: bool)
        returns (r: Result<Photographer, Error>)
      ensures r.Success? <==> Configure(userConfig, clientWidth, clientHeight).Success?
      ensures r.Failure? ==> r.error == Configure(userConfig, clientWidth, clientHeight).error
      ensures r.Success? ==>
        && fresh(r.value)
        && r.value.Valid()
        && r.value.config == Configure(userConfig, clientWidth, clientHeight).value
        && r.value.capable == capable
        && r.value.video == Surface(Num(clientWidth), Num(clientHeight))
        && r.value.stream == None && r.value.photos == []
        && r.value.events == [] && r.value.pending == 0
    {
      var config := Extend(Defaults, userConfig);
      var container := Lookup(config, "container");
      if !Truthy(container) {
        return Failure(MissingContainer);
      }
      if !Truthy(Lookup(config, "imgWidth")) {
        config := config["imgWidth" := Num(clientWidth)];
      }
      if !Truthy(Lookup(config, "imgHeight")) {
        config := config["imgHeight" := Num(clientHeight)];
      }
      if !container.Element? {
        return Failure(ContainerNotElement);
      }
      var p := new Photographer.Init(config, clientWidth, clientHeight, capable);
      r := Success(p);
    }

    /** `start()`: issue a video-only `getUserMedia` request and report
        `true` at once, whether or not a stream ever arrives. */
    method Start() returns (ok: bool)
      requires Valid()
      modifies this
      ensures Valid()
      ensures ok == capable
      ensures !capable ==> unchanged(this)
      ensures capable ==>
        && events == old(events) + [VideoRequested]
        && pending == old(pending) + 1
        && stream == old(stream) && photos == old(photos)
    {
      if !capable {
        return false;
      }
      events := events + [VideoRequested];
      pending := pending + 1;
      return true;
    }

    /** The success callback of a request: the granted stream becomes the
        handle. Binding it to the preview and starting playback are
        browser work. */
    method StreamGranted(s: StreamId)
      requires Valid() && pending > 0
      modifies this
      ensures Valid()
      ensures stream == Some(s) && pending == old(pending) - 1
      ensures photos == old(photos) && events == old(events)
    {
      stream := Some(s);
      pending := pending - 1;
    }

    /** The error callback of a request: nothing is stored. Its throw
        happens in the browser's callback, not on any caller's stack. */
    method StreamDenied()
      requires Valid() && pending > 0
      modifies this
      ensures Valid()
      ensures pending == old(pending) - 1
      ensures stream == old(stream) && photos == old(photos) && events == old(events)
    {
      pending := pending - 1;
    }

    /** `stop()`: stop the held stream, if any, drop the handle, report
        `true`. A request still in flight is not cancelled. Once there is no
        handle, `stop` changes nothing, so a second call is a no-op. */
    method Stop() returns (ok: bool)
      requires Valid()
      modifies this
      ensures Valid()
      ensures ok == capable
      ensures old(stream) == None ==> unchanged(this)
      ensures capable ==>
        && stream == None
        && events == old(events) + (if old(stream).Some? then [StreamStopped(old(stream).value)] else [])
        && photos == old(photos) && pending == old(pending)
    {
      if !capable {
        return false;
      }
      if stream.Some? {
        events := events + [StreamStopped(stream.value)];
      }
      stream := None;
      return true;
    }

    /** The flash call `takePhoto` makes first, if a flash is configured. */
    function FlashCalls(): seq<Event> {
      if Truthy(Flash()) then [FlashInvoked(Flash(), Container())] else []
    }

    /** `takePhoto()`, with `src` the string the canvas encodes the drawn
        frame to: call the flash, draw, encode, read the format back out of
        `src` and append the photo. */
    method TakePhoto(src: string) returns (c: Capture)
      requires Valid()
      modifies this
      ensures Valid()
      ensures stream == old(stream) && pending == old(pending)
      ensures !capable ==> c == Declined && unchanged(this)
      ensures capable && Truthy(Flash()) && !Flash().Callable? ==>
        c == Threw(FlashNotCallable) && unchanged(this)
      ensures capable && (!Truthy(Flash()) || Flash().Callable?) ==>
        events == old(events) + FlashCalls() + [FrameDrawn(ImgWidth(), ImgHeight()), EncodeRequested(ImgFormat())]
      ensures capable && (!Truthy(Flash()) || Flash().Callable?) && ParseFormat(src).None? ==>
        c == Threw(NoImageFormat) && photos == old(photos)
      ensures capable && (!Truthy(Flash()) || Flash().Callable?) && ParseFormat(src).Some? ==>
        && c.Taken?
        && c.photo.src == src
        && MatchesFormat(src, c.photo.format)
        && c.photo.width == ImgWidth() && c.photo.height == ImgHeight()
        && photos == old(photos) + [c.photo]
    {
      if !capable {
        return Declined;
      }
      var flash := Flash();
      if Truthy(flash) {
        if !flash.Callable? {
          return Threw(FlashNotCallable);
        }
        events := events + [FlashInvoked(flash, Container())];
      }
      events := events + [FrameDrawn(ImgWidth(), ImgHeight()), EncodeRequested(ImgFormat())];
      var format := ParseFormat(src);
      if format.None? {
        return Threw(NoImageFormat);
      }
      var photo := Photo(src, format.value, ImgWidth(), ImgHeight());
      photos := photos + [photo];
      return Taken(photo);
    }

    /** `getPhotos()`: the photos, oldest first, in an array of their own:
        adding or removing entries of the result does not reach the
        controller. */
    method GetPhotos() returns (copy: seq<Photo>)
      ensures copy == photos
    {
      copy := photos;
    }

    /** `removePhoto(index)`: `splice(index, 1)` on the photos. */
    method RemovePhoto(index: int)
      requires Valid()
      modifies this
      ensures Valid()
      ensures photos == SpliceRemove(old(photos), index)
      ensures stream == old(stream) && events == old(events) && pending == old(pending)
    {
      photos := SpliceRemove(photos, index);
    }

    /** `clearAll(index)`: empties the photos; the argument is ignored. */
    method ClearAll(index: Value)
      requires Valid()
      modifies this
      ensures Valid()
      ensures photos == []
      ensures stream == old(stream) && events == old(events) && pending == old(pending)
    {
      photos := [];
    }
  }
}
