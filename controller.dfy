/** `processVideo`: read and trim the input, refuse an empty or malformed URL
    before any request is made, resolve the video, and render it, falling
    back to the demonstration record when rendering the resolved one throws. */
module Controller {
  import opened Text
  import opened JsValues
  import opened Platforms
  import opened Providers
  import opened Resolver
  import opened Presentation

  /** What this call adds to the page. An error message for an empty or
      malformed URL leaves the panel of an earlier call in place (the panel is
      cleared only once the URL is accepted). `Panel(view, failureNotice)` is
      the new video panel; `failureNotice` is set when the failure message is
      shown above it because the resolved record could not be rendered. */
  datatype Screen =
    | EmptyUrlError
    | InvalidUrlError
    | Panel(view: VideoView, failureNotice: bool)

  /** `isValidUrl` stands for `new URL(url)` not throwing; the three responses
      are what the adapters' requests would get. */
  method ProcessVideo(input: string, isValidUrl: string -> bool, cobalt: Response, insta: Response, ytdlp: Response)
    returns (screen: Screen, invoked: nat)
    ensures var url := Trim(input);
      && (url == [] ==> screen == EmptyUrlError && invoked == 0)
      && (url != [] && !isValidUrl(url) ==> screen == InvalidUrlError && invoked == 0)
    ensures var url := Trim(input); url != [] && isValidUrl(url) ==>
      var (record, n) := Chosen(url, cobalt, insta, ytdlp);
      && invoked == n && 1 <= invoked <= 4
      && (ToViewModel(record, url).Some? ==> screen == Panel(ToViewModel(record, url).value, false))
      && (ToViewModel(record, url).None? ==> screen == Panel(MockView(url), true))
    ensures screen.Panel? ==> screen.view.platform == Classify(Trim(input))
  {
    var url := Trim(input);
    if url == [] {
      return EmptyUrlError, 0;
    }
    if !isValidUrl(url) {
      return InvalidUrlError, 0;
    }
    var record;
    record, invoked := ResolveVideo(url, cobalt, insta, ytdlp);
    var view := ToViewModel(record, url);
    if view.Some? {
      screen := Panel(view.value, false);
    } else {
      screen := Panel(MockView(url), true);
    }
  }

  /** Whitespace around the URL is not part of it: runs of white space and
      line terminators before and after it do not change which URL is
      classified or fetched. */
  lemma PaddedInputTrims(pre: string, url: string, post: string)
    requires forall i :: 0 <= i < |pre| ==> IsJsWhitespace(pre[i])
    requires forall i :: 0 <= i < |post| ==> IsJsWhitespace(post[i])
    requires url != [] && !IsJsWhitespace(url[0]) && !IsJsWhitespace(url[|url| - 1])
    ensures Trim(pre + url + post) == url
  {
    var s := pre + url + post;
    var lo, hi := |pre|, |pre| + |url|;
    assert s[lo] == url[0] && s[hi - 1] == url[|url| - 1];
    assert forall i :: 0 <= i < lo ==> s[i] == pre[i];
    assert forall i :: hi <= i < |s| ==> s[i] == post[i - hi];
    var r := Trim(s);
    TrimIsSlice(s);
    var a, b :| TrimmedSlice(s, r, a, b);
    assert r != [];
    assert r[0] == s[a] && r[|r| - 1] == s[b - 1];
    assert a == lo;
    assert b == hi;
    assert s[lo..hi] == url;
  }

  /** When every request fails the demonstration record is the resolved
      record itself; it renders, so the panel appears without the failure
      notice (the notice is reserved for a resolved record that does not
      render). */
  lemma ExhaustionIsSilent(url: string)
    ensures Chosen(url, Failed, Failed, Failed) == (MockData(url), 4)
    ensures ToViewModel(Chosen(url, Failed, Failed, Failed).0, url).Some?
  {
    MockRenders(url);
  }
}
