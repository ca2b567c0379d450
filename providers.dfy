/** The three provider adapters, from the point where the response body has been
    parsed, and the demonstration record. Each adapter either returns a
    canonical record or throws; a throw is `Threw`, whatever its message. */
module Providers {
  import opened Text
  import opened JsValues
  import opened Platforms
  import opened Quality

  /** One downloadable rendition. The fields keep whatever JSON value the
      provider supplied. */
  datatype MediaFormat = MediaFormat(url: JsValue, quality: JsValue, format: JsValue, size: JsValue)

  /** The canonical video record. `platform` is set only by the demonstration
      record; an adapter leaves it (and the fields it does not copy) unset. */
  datatype VideoRecord = VideoRecord(
    success: bool,
    title: JsValue,
    thumbnail: JsValue,
    duration: JsValue,
    uploader: JsValue,
    platform: Option<PlatformIdentity>,
    formats: seq<MediaFormat>)

  /** What calling an attempt produced: a record, or an exception. */
  datatype Outcome = Returned(record: VideoRecord) | Threw

  /** What `fetch(...)` followed by `response.json()` produced: a rejected
      promise (network failure or a body that is not JSON), or a parsed body. */
  datatype Response = Failed | Parsed(data: JsValue)

  const DefaultTitle := Str("Downloaded Video")

  /** The shape every adapter promises: a successful record with a truthy title,
      at least one rendition, and a truthy quality and format on each. */
  predicate Canonical(r: VideoRecord)
  {
    && r.success
    && Truthy(r.title)
    && |r.formats| >= 1
    && forall i :: 0 <= i < |r.formats| ==> Truthy(r.formats[i].quality) && Truthy(r.formats[i].format)
  }

  /** `data.key || fallback` as the adapters read their title and thumbnail. */
  predicate Defaulted(v: JsValue, data: JsValue, key: string, fallback: JsValue)
    requires !IsNullish(data)
  {
    v == if Truthy(Get(data, key)) then Get(data, key) else fallback
  }

  // ---------------------------------------------------------------------------
  // Cobalt

  /** The body of `fetchFromCobalt` after `response.json()`. */
  function MapCobalt(data: JsValue): (o: Outcome)
    ensures o.Returned? <==>
      !IsNullish(data) && (Get(data, "status") == Str("success") || Truthy(Get(data, "url")))
    ensures o.Returned? ==>
      && o.record.formats == [MediaFormat(Get(data, "url"), Str("1080p"), Str("mp4"), Null)]
      && Defaulted(o.record.title, data, "filename", DefaultTitle)
      && Defaulted(o.record.thumbnail, data, "thumb", Str(""))
      && o.record.success && o.record.duration == Undefined && o.record.uploader == Undefined
      && o.record.platform.None?
  {
    if IsNullish(data) then Threw
    else if Get(data, "status") == Str("success") || Truthy(Get(data, "url")) then
      Returned(VideoRecord(
        true,
        Or(Get(data, "filename"), DefaultTitle),
        Or(Get(data, "thumb"), Str("")),
        Undefined,
        Undefined,
        None,
        [MediaFormat(Get(data, "url"), Str("1080p"), Str("mp4"), Null)]))
    else Threw
  }

  /** A "success" status is enough: the single rendition may then have no URL. */
  lemma CobaltStatusWithoutUrl()
    ensures MapCobalt(Obj(map["status" := Str("success")])).Returned?
    ensures MapCobalt(Obj(map["status" := Str("success")])).record.formats[0].url == Undefined
  {
  }

  // ---------------------------------------------------------------------------
  // InstaVideo

  /** The arrow function given to `data.formats.map` does not throw on `f`:
      reading a property of a null or undefined element throws, and so does
      the template literal `${f.height}p` on a truthy height that does not
      convert to a string. */
  predicate InstaMappable(f: JsValue)
  {
    !IsNullish(f) && (Truthy(Get(f, "height")) ==> Stringable(Get(f, "height")))
  }

  /** That arrow function, on an element it does not throw on. */
  function MapInstaFormat(f: JsValue): (m: MediaFormat)
    requires InstaMappable(f)
    ensures m.url == Get(f, "url") && m.size == Get(f, "filesize")
    ensures Truthy(Get(f, "height")) ==> m.quality == Str(ToJsString(Get(f, "height")) + "p")
    ensures !Truthy(Get(f, "height")) ==> m.quality == Str("Audio")
    ensures Defaulted(m.format, f, "ext", Str("mp4"))
  {
    var height := Get(f, "height");
    MediaFormat(
      Get(f, "url"),
      if Truthy(height) then Str(ToJsString(height) + "p") else Str("Audio"),
      Or(Get(f, "ext"), Str("mp4")),
      Get(f, "filesize"))
  }

  /** `Array.prototype.map` with that function: one rendition per element, in
      order, or a throw as soon as the function throws on an element. */
  function MapInstaFormats(items: seq<JsValue>): (r: Option<seq<MediaFormat>>)
    ensures r.Some? <==> forall i :: 0 <= i < |items| ==> InstaMappable(items[i])
    ensures r.Some? ==>
      && |r.value| == |items|
      && forall i :: 0 <= i < |items| ==> InstaMappable(items[i]) && r.value[i] == MapInstaFormat(items[i])
  {
    if items == [] then Some([])
    else if !InstaMappable(items[0]) then None
    else
      match MapInstaFormats(items[1..])
      case None => None
      case Some(rest) => Some([MapInstaFormat(items[0])] + rest)
  }

  /** The body of `fetchFromInstaVideo` after `response.json()`. A value of
      `formats` that is not an array either fails the `length > 0` test or has
      no callable `map`, so it throws either way; so does an element the
      mapping function throws on. */
  function MapInstaVideo(data: JsValue): (o: Outcome)
    ensures o.Returned? <==>
      && !IsNullish(data)
      && Get(data, "formats").Arr?
      && |Get(data, "formats").items| > 0
      && forall i :: 0 <= i < |Get(data, "formats").items| ==> InstaMappable(Get(data, "formats").items[i])
    ensures o.Returned? ==>
      && Some(o.record.formats) == MapInstaFormats(Get(data, "formats").items)
      && Defaulted(o.record.title, data, "title", DefaultTitle)
      && Defaulted(o.record.thumbnail, data, "thumbnail", Str(""))
      && o.record.duration == Get(data, "duration")
      && o.record.uploader == Get(data, "uploader")
      && o.record.platform.None?
  {
    if IsNullish(data) then Threw
    else
      var formats := Get(data, "formats");
      if !formats.Arr? || |formats.items| == 0 then Threw
      else
        match MapInstaFormats(formats.items)
        case None => Threw
        case Some(mapped) =>
          Returned(VideoRecord(
            true,
            Or(Get(data, "title"), DefaultTitle),
            Or(Get(data, "thumbnail"), Str("")),
            Get(data, "duration"),
            Get(data, "uploader"),
            None,
            mapped))
  }

  /** The quality an InstaVideo rendition carries reads back, through the
      `parseInt` of the ladders, as the height it was written from. */
  lemma InstaHeightReadsBack(f: JsValue, h: int)
    requires !IsNullish(f) && Get(f, "height") == Num(h) && h != 0
    ensures MapInstaFormat(f).quality.Str?
    ensures ParseInt(MapInstaFormat(f).quality.s) == Some(h)
  {
    assert MapInstaFormat(f).quality.s == IntToString(h) + "p";
    RenderedIntParses(h, "p");
  }

  /** A height that is an object with its own `toString` key cannot be
      written into the quality, so the adapter throws and the next provider is
      tried. */
  lemma InstaObjectHeightThrows()
    ensures MapInstaVideo(Obj(map["formats" := Arr([Obj(map["height" := Obj(map["toString" := Num(1)])])])])).Threw?
  {
    var f := Obj(map["height" := Obj(map["toString" := Num(1)])]);
    assert !InstaMappable(f);
  }

  /** A rendition without a height is labelled "Audio", which `parseInt` cannot
      read: unless its extension says "audio", it lands on the bottom rung. */
  lemma InstaAudioQualityIsNaN()
    ensures ParseInt("Audio").None?
  {
    assert TrimStart("Audio") == "Audio";
  }

  // ---------------------------------------------------------------------------
  // YT-DLP

  /** The body of `fetchFromYTDLP` after `response.json()`. */
  function MapYtdlp(data: JsValue): (o: Outcome)
    ensures o.Returned? <==> !IsNullish(data) && Truthy(Get(data, "download_url"))
    ensures o.Returned? ==>
      && |o.record.formats| == 1
      && o.record.formats[0].url == Get(data, "download_url")
      && Defaulted(o.record.formats[0].quality, data, "quality", Str("720p"))
      && Defaulted(o.record.formats[0].format, data, "format", Str("mp4"))
      && o.record.formats[0].size == Get(data, "filesize")
      && Defaulted(o.record.title, data, "title", DefaultTitle)
      && Defaulted(o.record.thumbnail, data, "thumbnail", Str(""))
      && o.record.success && o.record.duration == Undefined && o.record.uploader == Undefined
      && o.record.platform.None?
  {
    if IsNullish(data) then Threw
    else if Truthy(Get(data, "download_url")) then
      Returned(VideoRecord(
        true,
        Or(Get(data, "title"), DefaultTitle),
        Or(Get(data, "thumbnail"), Str("")),
        Undefined,
        Undefined,
        None,
        [MediaFormat(
          Get(data, "download_url"),
          Or(Get(data, "quality"), Str("720p")),
          Or(Get(data, "format"), Str("mp4")),
          Get(data, "filesize"))]))
    else Threw
  }

  // ---------------------------------------------------------------------------
  // The adapters as attempts

  datatype Provider = Cobalt | InstaVideo | YtDlp

  /** One adapter call: a failed request throws before any mapping. */
  function Attempt(p: Provider, response: Response): (o: Outcome)
    ensures response.Failed? ==> o == Threw
    ensures o.Returned? ==> o.record.success && |o.record.formats| >= 1 && o.record.platform.None?
  {
    match response
    case Failed => Threw
    case Parsed(data) =>
      match p
      case Cobalt => MapCobalt(data)
      case InstaVideo => MapInstaVideo(data)
      case YtDlp => MapYtdlp(data)
  }

  /** Whatever the provider and the response, an adapter that returns returns a
      canonical record. */
  lemma AdaptersAreCanonical(p: Provider, response: Response)
    requires Attempt(p, response).Returned?
    ensures Canonical(Attempt(p, response).record)
  {
    var data := response.data;
    if p == InstaVideo {
      var r := Attempt(p, response).record;
      var items := Get(data, "formats").items;
      forall i | 0 <= i < |r.formats|
        ensures Truthy(r.formats[i].quality) && Truthy(r.formats[i].format)
      {
        NonEmptyRendering(ToJsString(Get(items[i], "height")));
      }
    }
  }

  lemma NonEmptyRendering(s: string)
    ensures Truthy(Str(s + "p"))
  {
    assert |s + "p"| == |s| + 1;
  }

  // ---------------------------------------------------------------------------
  // The demonstration record

  const PlaceholderUrl := Str("#")
  const MockTitle := Str("Sample Video - Professional Quality Download")
  const MockThumbnail := Str("https://via.placeholder.com/320x240/667eea/ffffff?text=Video+Thumbnail")

  const MockFormats: seq<MediaFormat> := [
    MediaFormat(PlaceholderUrl, Str("1080p"), Str("mp4"), Num(52428800)),
    MediaFormat(PlaceholderUrl, Str("720p"), Str("mp4"), Num(31457280)),
    MediaFormat(PlaceholderUrl, Str("480p"), Str("mp4"), Num(20971520)),
    MediaFormat(PlaceholderUrl, Str("audio"), Str("mp3"), Num(5242880))
  ]

  /** `createMockData(url)`: the fixed record, tagged with the platform of the
      URL it was asked for. */
  function MockData(url: string): (r: VideoRecord)
    ensures r.platform == Some(Classify(url))
    ensures r.formats == MockFormats
  {
    VideoRecord(true, MockTitle, MockThumbnail, Str("3:45"), Str("Demo Channel"), Some(Classify(url)), MockFormats)
  }

  /** The demonstration record is canonical, has four placeholder renditions,
      and differs between two URLs only in its platform. */
  lemma MockIsCanonical(url: string, other: string)
    ensures Canonical(MockData(url))
    ensures |MockData(url).formats| == 4
    ensures forall i :: 0 <= i < 4 ==> MockData(url).formats[i].url == Str("#")
    ensures MockData(url).(platform := None) == MockData(other).(platform := None)
  {
  }

  /** The fourth demonstration rendition is called "audio", but only its
      format is consulted for the audio tier and "mp3" does not contain
      "audio": it is ranked as the bottom rung of all three ladders. */
  lemma MockAudioIsBottomRung()
    ensures QualityBadge("audio", "mp3") == "quality-360p"
    ensures QualityLabel("audio", "mp3") == "Standard Quality"
    ensures QualityIcon("audio", "mp3") == "fas fa-play"
  {
    ParseWords();
    MissingCharExcludes("mp3", "audio", 0);
    NaNIsBottom("audio", "mp3");
  }
}
