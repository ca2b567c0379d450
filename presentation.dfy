/** The values `renderVideoInfo` computes for each rendition before they are
    spliced into markup: the three ladder values, the size text, the download
    file name, the upper-cased format and whether the rendition is a
    placeholder. The markup itself is not modelled. */
module Presentation {
  import opened Text
  import opened JsValues
  import opened Platforms
  import opened Quality
  import opened Formatting
  import opened Providers

  predicate IsAsciiAlnum(c: char)
  {
    ('a' <= c <= 'z') || ('A' <= c <= 'Z') || ('0' <= c <= '9')
  }

  /** `title.replace(/[^a-zA-Z0-9]/g, '_')`: every character outside the class
      becomes one underscore, the others stay where they are. */
  function Sanitize(title: string): (r: string)
    ensures |r| == |title|
    ensures forall i :: 0 <= i < |title| ==> r[i] == if IsAsciiAlnum(title[i]) then title[i] else '_'
  {
    if title == [] then []
    else [if IsAsciiAlnum(title[0]) then title[0] else '_'] + Sanitize(title[1..])
  }

  /** A sanitised title holds only letters, digits and underscores, so a second
      pass changes nothing. */
  lemma SanitizeIdempotent(title: string)
    ensures forall i :: 0 <= i < |title| ==> IsAsciiAlnum(Sanitize(title)[i]) || Sanitize(title)[i] == '_'
    ensures Sanitize(Sanitize(title)) == Sanitize(title)
  {
  }

  lemma SanitizeExample(title: string)
    requires title == "My Video: Part #1!"
    ensures Sanitize(title) + "." + "mp4" == "My_Video__Part__1_.mp4"
  {
  }

  function UpperChar(c: char): char
  {
    if 'a' <= c <= 'z' then (c as int - 32) as char else c
  }

  /** `s.toUpperCase()` for the letters a-z; every other character is kept. */
  function UpperAscii(s: string): (r: string)
    ensures |r| == |s|
    ensures forall i :: 0 <= i < |s| ==> r[i] == UpperChar(s[i])
  {
    if s == [] then [] else [UpperChar(s[0])] + UpperAscii(s[1..])
  }

  /** The values the template for one rendition is built from. `placeholder`
      is `format.url === '#'`: the preview button is then disabled and the
      download button shows the demo message. */
  datatype FormatView = FormatView(
    badge: string,
    caption: string,
    icon: string,
    sizeText: string,
    filename: string,
    formatType: string,
    placeholder: bool)

  /** The values of the whole panel: the platform chip, the option count and
      one entry per rendition, in order. */
  datatype VideoView = VideoView(platform: PlatformIdentity, optionCount: nat, items: seq<FormatView>)

  /** The header of the panel does not throw: the title is always written
      into the markup, and the thumbnail, duration and uploader are written
      when they are truthy. (No record carries `views`, so that line is never
      written.) */
  predicate HeaderRenders(record: VideoRecord)
  {
    && Stringable(record.title)
    && (Truthy(record.thumbnail) ==> Stringable(record.thumbnail))
    && (Truthy(record.duration) ==> Stringable(record.duration))
    && (Truthy(record.uploader) ==> Stringable(record.uploader))
  }

  /** The per-rendition body of the `forEach` does not throw: the title must be
      a string (`replace`), the format a string (`includes`, `toUpperCase`),
      the quality convertible where the ladders hand it to `parseInt`, the
      size something `formatFileSize` accepts, and the URL convertible (it is
      written into both buttons). */
  predicate Renderable(title: JsValue, f: MediaFormat)
  {
    && title.Str? && f.format.Str?
    && (!IsAudioFormat(f.format.s) ==> Stringable(f.quality))
    && FileSizeText(f.size).Some?
    && Stringable(f.url)
  }

  function FormatViewOf(title: JsValue, f: MediaFormat): (v: FormatView)
    requires Renderable(title, f)
    ensures v.filename == Sanitize(title.s) + "." + f.format.s
    ensures |v.filename| == |title.s| + 1 + |f.format.s|
    ensures v.placeholder <==> f.url == Str("#")
    ensures v.badge == QualityBadge(ToJsString(f.quality), f.format.s)
    ensures v.caption == QualityLabel(ToJsString(f.quality), f.format.s)
    ensures v.icon == QualityIcon(ToJsString(f.quality), f.format.s)
    ensures Some(v.sizeText) == FileSizeText(f.size)
    ensures v.formatType == UpperAscii(f.format.s)
  {
    var quality := ToJsString(f.quality);
    var format := f.format.s;
    FormatView(
      QualityBadge(quality, format),
      QualityLabel(quality, format),
      QualityIcon(quality, format),
      FileSizeText(f.size).value,
      Sanitize(title.s) + "." + format,
      UpperAscii(format),
      f.url == Str("#"))
  }

  /** The `forEach` over the renditions: one entry per rendition, in order, or
      a throw when one of them is not renderable. */
  function FormatItems(title: JsValue, formats: seq<MediaFormat>): (r: Option<seq<FormatView>>)
    ensures r.Some? <==> forall i :: 0 <= i < |formats| ==> Renderable(title, formats[i])
    ensures r.Some? ==>
      && |r.value| == |formats|
      && forall i :: 0 <= i < |formats| ==> Renderable(title, formats[i]) && r.value[i] == FormatViewOf(title, formats[i])
  {
    if formats == [] then Some([])
    else if !Renderable(title, formats[0]) then None
    else
      match FormatItems(title, formats[1..])
      case None => None
      case Some(rest) => Some([FormatViewOf(title, formats[0])] + rest)
  }

  /** `renderVideoInfo(videoData, originalUrl)`, up to the markup; `None` when
      it throws. The platform chip comes from the URL the user entered. */
  function ToViewModel(record: VideoRecord, originalUrl: string): (r: Option<VideoView>)
    ensures r.Some? <==>
      && HeaderRenders(record)
      && forall i :: 0 <= i < |record.formats| ==> Renderable(record.title, record.formats[i])
    ensures r.Some? ==>
      && r.value.platform == Classify(originalUrl)
      && r.value.optionCount == |record.formats| == |r.value.items|
  {
    if !HeaderRenders(record) then None
    else match FormatItems(record.title, record.formats)
    case None => None
    case Some(items) => Some(VideoView(Classify(originalUrl), |record.formats|, items))
  }

  /** The platform stored in the record is never read. */
  lemma PlatformFromUrlOnly(record: VideoRecord, p: Option<PlatformIdentity>, originalUrl: string)
    ensures ToViewModel(record.(platform := p), originalUrl) == ToViewModel(record, originalUrl)
  {
  }

  /** With no renditions only the header is rendered: the panel appears, empty,
      exactly when the header converts, so even a title that is not a string
      (a number, say) does not throw. */
  lemma NoFormatsRenderHeader(record: VideoRecord, originalUrl: string)
    requires record.formats == []
    ensures ToViewModel(record, originalUrl).Some? <==> HeaderRenders(record)
    ensures HeaderRenders(record) ==> ToViewModel(record, originalUrl) == Some(VideoView(Classify(originalUrl), 0, []))
  {
  }

  /** A Cobalt record whose URL is an object with its own `toString` key
      throws in the renderer: the URL cannot be written into the buttons. */
  lemma ObjectUrlThrows(originalUrl: string)
    ensures var data := Obj(map["url" := Obj(map["toString" := Num(1)])]);
      && MapCobalt(data).Returned?
      && ToViewModel(MapCobalt(data).record, originalUrl).None?
  {
    var data := Obj(map["url" := Obj(map["toString" := Num(1)])]);
    assert !Stringable(MapCobalt(data).record.formats[0].url);
  }

  /** A Cobalt record whose file name is a number throws in the renderer:
      `replace` is not a method of numbers. */
  lemma NumericTitleThrows(originalUrl: string)
    ensures var data := Obj(map["url" := Str("https://cdn.example/v.mp4"), "filename" := Num(7)]);
      && MapCobalt(data).Returned?
      && ToViewModel(MapCobalt(data).record, originalUrl).None?
  {
    var data := Obj(map["url" := Str("https://cdn.example/v.mp4"), "filename" := Num(7)]);
    assert !Renderable(MapCobalt(data).record.title, MapCobalt(data).record.formats[0]);
  }

  /** The demonstration record always renders: four placeholder entries. */
  lemma MockRenders(url: string)
    ensures ToViewModel(MockData(url), url).Some?
    ensures var v := ToViewModel(MockData(url), url).value;
      && v.platform == Classify(url)
      && v.optionCount == 4
      && forall i :: 0 <= i < 4 ==> v.items[i].placeholder
  {
    var r := MockData(url);
    MockShape(r.formats);
    PlaceholdersRender(r, url);
  }

  /** The panel of the demonstration record, which always renders. */
  function MockView(url: string): (v: VideoView)
    ensures ToViewModel(MockData(url), url) == Some(v)
  {
    MockRenders(url);
    ToViewModel(MockData(url), url).value
  }

  lemma MockShape(formats: seq<MediaFormat>)
    requires formats == MockFormats
    ensures |formats| == 4
    ensures forall i :: 0 <= i < 4 ==>
      && formats[i].url == Str("#") && formats[i].format.Str?
      && formats[i].size.Num? && formats[i].size.n != 0
  {
  }

  /** A record with a string title whose renditions all have a string format,
      a nonzero numeric size and the placeholder URL renders exactly when its
      header converts and each quality the ladders parse converts; every entry
      is then a placeholder. */
  lemma PlaceholdersRender(record: VideoRecord, url: string)
    requires record.title.Str?
    requires forall i :: 0 <= i < |record.formats| ==>
      && record.formats[i].url == Str("#") && record.formats[i].format.Str?
      && record.formats[i].size.Num? && record.formats[i].size.n != 0
    ensures ToViewModel(record, url).Some? <==>
      && HeaderRenders(record)
      && forall i :: 0 <= i < |record.formats| ==>
           !IsAudioFormat(record.formats[i].format.s) ==> Stringable(record.formats[i].quality)
    ensures ToViewModel(record, url).Some? ==>
      forall i :: 0 <= i < |record.formats| ==> ToViewModel(record, url).value.items[i].placeholder
  {
    forall i | 0 <= i < |record.formats| ensures FileSizeText(record.formats[i].size).Some? {
      NonzeroSizeKnown(record.formats[i].size.n);
    }
  }

  /** Every nonzero byte count has a size text. */
  lemma NonzeroSizeKnown(bytes: int)
    requires bytes != 0
    ensures FileSizeText(Num(bytes)).Some?
  {
  }

  /** Its fourth entry, quality "audio" in format "mp3", is ranked on the
      bottom rung, not as audio, and keeps the size it was given. */
  lemma MockAudioEntry(url: string)
    ensures |MockView(url).items| == 4
    ensures var v := MockView(url).items[3];
      && v.badge == "quality-360p" && v.caption == "Standard Quality" && v.icon == "fas fa-play"
      && v.sizeText == "5.0 MB"
  {
    MockShape(MockFormats);
    EntryOf(MockData(url), url, 3);
    MockAudioView();
  }

  /** Entry `i` of a rendered panel is the view of rendition `i`. */
  lemma EntryOf(record: VideoRecord, url: string, i: int)
    requires ToViewModel(record, url).Some? && 0 <= i < |record.formats|
    ensures Renderable(record.title, record.formats[i])
    ensures ToViewModel(record, url).value.items[i] == FormatViewOf(record.title, record.formats[i])
  {
  }

  lemma MockAudioView()
    ensures Renderable(MockTitle, MockFormats[3])
    ensures var v := FormatViewOf(MockTitle, MockFormats[3]);
      && v.badge == "quality-360p" && v.caption == "Standard Quality" && v.icon == "fas fa-play"
      && v.sizeText == "5.0 MB"
  {
    var f := MockFormats[3];
    assert ToJsString(f.quality) == "audio" && f.format.s == "mp3";
    MockAudioIsBottomRung();
    FiveMegabytes();
  }

  lemma FiveMegabytes()
    ensures FileSizeText(Num(5242880)) == Some("5.0 MB")
  {
    Pow1024Values();
    WholeUnitSize(5, 2);
    assert NatToString(5) + ".0 " + Units[2] == "5.0 MB";
  }
}
