# Video downloader core, modelled in Dafny

`index.js` holds the `VideoDownloader` class of a browser page. The user pastes a video URL. The page then:

1. trims the URL and checks it;
2. asks three download services in turn (Cobalt, InstaVideo, YT-DLP), falling back to a built-in demonstration record;
3. renders the record it got as a panel with one entry per rendition.

This project models the logic of that pipeline:

- the platform classifier;
- the three quality ladders;
- the size and duration formatters;
- the three response mappers;
- the demonstration record;
- the attempt loop;
- the per-rendition values of the panel;
- the gate and fallback of `processVideo`.

The DOM, the markup and the network are left out.

Modules, one per component:

- `Text` (`text.dfy`): the JavaScript string primitives the code relies on:
  - `includes`, with a reference meaning as "occurs at some offset";
  - `trim`, over the ECMAScript white-space set;
  - digit reading, and the decimal rendering of integers.
- `JsValues` (`jsvalue.dfy`): parsed JSON values:
  - truthiness and `||`;
  - property access, which throws on `null`/`undefined`;
  - `String(v)`, and when it throws.
- `Platforms` (`platform.dfy`): `detectPlatform`:
  - a `for` loop with an early return;
  - proved equal to a first-match lookup over the ordered domain table.
- `Quality` (`quality.dfy`):
  - `parseInt`: sign, `0x` prefix and `NaN`;
  - `getQualityBadge`, `getQualityLabel`, `getQualityIcon`.
- `Formatting` (`formatting.dfy`):
  - `formatFileSize`, as the division loop proved against a closed-form unit choice;
  - `formatDuration`.
- `Providers` (`providers.dfy`):
  - the bodies of the three adapters after `response.json()`, and `createMockData`;
  - a thrown exception is the `Threw` outcome.
- `Resolver` (`resolver.dfy`): the `fetchVideoInfo` loop, proved against a first-success specification, with a count of the attempts it invokes.
- `Presentation` (`presentation.dfy`): the values `renderVideoInfo` computes for each rendition. `None` stands for "the renderer throws".
- `Controller` (`controller.dfy`): `processVideo`:
  - `new URL(url)` becomes a predicate parameter;
  - the three responses become parameters.

Numbers are mathematical integers. The size loop runs over `real`; dividing an integer below 2^53 by 1024 is exact in binary floating point. `toFixed(1)` is modelled as rounding half up on the magnitude.

Behaviour of the code that the model keeps, although a reader might expect otherwise:

- `formatFileSize(0)` gives `"Unknown size"`, not `"0.0 B"`: the code tests `!bytes`, and 0 is falsy (`Formatting.FalsySizes`).
- Rendering is not total. `renderVideoInfo` throws when the header cannot be written: the title, or a truthy thumbnail, duration or uploader, is a value `String()` cannot convert: an object with its own `toString` key, or an array holding one. JSON values are never callable, so `String()` of such an object throws a TypeError (`JsValues.Stringable`). It also throws when a rendition is rendered and one of these holds:
  - the title is not a string;
  - the format is not a string;
  - the format does not contain "audio" and the quality cannot be converted for `parseInt`;
  - the size is truthy and `formatFileSize` cannot print it. The model treats every truthy non-number size this way; see `Formatting.FileSizeText` under "Left out";
  - the URL cannot be converted for the button markup.
- In those cases `Presentation.ToViewModel` returns `None`, and `processVideo` then renders the demonstration record.
- Whether an entry is a placeholder depends on that rendition's own `url` being `'#'`, not on the URL the user entered (`Presentation.FormatViewOf`).
- When every request fails, the search resolves to the demonstration record and no notice is shown (`Controller.ExhaustionIsSilent`). The failure message appears only when rendering the resolved record throws.
- The adapters do throw: a failed request or an unusable body raises an exception, and `fetchVideoInfo` catches it and moves on to the next attempt. The InstaVideo mapping also throws on a truthy height that cannot be converted (`Providers.InstaObjectHeightThrows`).

## Model

| member | source | states |
|---|---|---|
| Text.IncludesIffOccurs | index.js:86 | the substring test holds exactly when the domain occurs at some offset of the URL |
| Text.MissingCharExcludes | index.js:86 | a URL lacking one character of a domain does not contain that domain |
| Text.Trim | index.js:398 | the trimmed input is empty iff the input is all white space, and otherwise starts and ends with a non-white-space character |
| Text.TrimIsSlice | index.js:398 | the trimmed input is the input's own slice between a leading and a trailing run of white space |
| Text.NatToStringValue | index.js:276 | reading the decimal rendering of a number back gives the number |
| Text.IntToStringValue | index.js:276 | an integer is written as its decimal digits, preceded by a minus sign when negative, and the digits read back as its magnitude |
| JsValues.StringableCases | index.js:276 | String() succeeds on every primitive, on an object exactly when it has no own toString key, and on an array exactly when each element is nullish or converts |
| JsValues.ToJsStringCases | index.js:276 | a string converts to itself, an integer to its decimal digits (with a minus sign when negative), an empty array to the empty string |
| Platforms.DetectPlatform | index.js:72-89 | the loop returns the identity of the first table entry, in listed order, whose domain occurs in the URL, or Unknown when none does; equal to the lookup function |
| Platforms.Lookup | index.js:85-88 | the lookup gives Unknown or the identity of an entry whose domain occurs in the URL |
| Platforms.ClassifyFirstMatch | index.js:72-89 | the classification used by the mock data and the renderer is the identity of the first matching table entry, or Unknown when none matches |
| Platforms.LookupCases | index.js:85-88 | every lookup result is the first match's identity or, with no match at all, the Unknown identity |
| Platforms.YouTubeAliases | index.js:74-75 | either YouTube domain yields the one YouTube identity |
| Platforms.TwitterAliases | index.js:74-79 | Twitter is returned iff twitter.com or x.com occurs and none of the four earlier domains does |
| Platforms.SubstringMatchIsLoose | index.js:79 | https://netflix.com/ is classified as Twitter, because x.com occurs in it |
| Quality.QualityBadge | index.js:91-100 | audio format gives quality-audio; otherwise one badge per inclusive height interval, quality-360p below 480 and for NaN |
| Quality.QualityLabel | index.js:102-112 | audio format gives Audio Only; otherwise one label per inclusive interval, SD 360p for 360-479, Standard Quality below 360 and for NaN |
| Quality.QualityIcon | index.js:114-122 | audio format gives the music icon; gem, crown, star from 720 up; play below 720 and for NaN |
| Quality.LaddersAgree | index.js:91-122 | the label ladder refines the badge ladder and the icon ladder coarsens it |
| Quality.AudioShortCircuit | index.js:92 | with an audio format all three results ignore the quality |
| Quality.NaNIsBottom | index.js:94-99 | an unparseable quality lands on the bottom rung of every ladder |
| Quality.ParseIntCases | index.js:94 | after leading white space, parseInt gives NaN on an empty rest or one starting with neither digit nor sign, a negative number only after a minus sign, and the value of the leading decimal digits when the rest starts with a digit and no hex prefix |
| Quality.RenderedIntParses | index.js:94 | parseInt of an integer rendered in decimal, followed by a suffix such as "p", gives the integer back |
| Quality.ParseWords | index.js:94 | "abc" and "audio" parse as NaN |
| Quality.LaddersDivergeAt360 | index.js:98-111 | "360p" in mp4 gets badge quality-360p, label SD 360p and the play icon |
| Quality.TopRungAt2160 | index.js:95 | "2160p" in mp4 is on the top rung of all three ladders |
| Quality.AudioMimeWins | index.js:92 | "128k" in "audio/mp3" is on the audio tier of all three ladders |
| Formatting.SizeUnit | index.js:127-133 | the unit chosen is the largest one whose power of 1024 does not exceed the count, capped at GB |
| Formatting.FormatFileSize | index.js:124-136 | the loop keeps size times 1024 to the unit index equal to the byte count and gives the text of the closed-form unit choice; falsy gives Unknown size; a truthy non-number throws |
| Formatting.ScaledUnit | index.js:127-133 | where the loop stops is the closed-form unit and the size it holds is the count scaled to that unit |
| Formatting.ScaledSizeInRange | index.js:127-133 | the scaled size of a positive count, before toFixed rounds it, is below 1024 unless the unit is GB, and at least 1 unless the unit is B |
| Formatting.RoundsUpTo1024 | index.js:127-135 | 1048535 bytes stay in KB and print as 1024.0 KB, because the unit is chosen before toFixed rounds |
| Formatting.ToFixed1Rounds | index.js:135 | toFixed(1) writes a minus sign exactly for a negative argument, then digits, a point and one digit that, read as tenths, are the nearest multiple of 0.1 to the magnitude, ties going up; the whole part has no leading zero |
| Formatting.FileSizeText | index.js:124-136 | the formatter throws exactly on a truthy non-number, and gives Unknown size for every falsy argument |
| Formatting.SizeTextReadsBack | index.js:124-136 | for a nonzero count the text is the scaled size rounded to one decimal, with a minus sign iff the count is negative, then a space and the unit name |
| Formatting.WholeUnitSize | index.js:135 | m whole units of B, KB or MB, for m in 1..1023, print as "m.0 unit" |
| Formatting.FalsySizes | index.js:125 | 0, undefined, null and the empty string give Unknown size |
| Formatting.OneKilobyte | index.js:124-136 | 1024 gives 1.0 KB |
| Formatting.FiftyMegabytes | index.js:195 | 52428800 gives 50.0 MB |
| Formatting.LargestByteCount | index.js:124-136 | 1023 gives 1023.0 B |
| Formatting.DurationText | index.js:138-143 | the text is Unknown exactly when the count is absent or 0, and otherwise contains the colon |
| Formatting.DurationReadsBack | index.js:138-143 | for a positive count the text is minutes without a leading zero, a colon and two digits below 60 that read back as the count |
| Formatting.DurationExamples | index.js:138-143 | 225 gives 3:45, 125 gives 2:05, 0 and absent give Unknown |
| Providers.MapCobalt | index.js:246-260 | returns iff the body is not nullish and status is "success" or url is truthy; then one 1080p mp4 rendition with a null size, a defaulted title and thumbnail, a success flag, no duration or uploader, and no platform |
| Providers.CobaltStatusWithoutUrl | index.js:246 | a success status is enough, even with no URL |
| Providers.MapInstaFormat | index.js:274-279 | quality is the height followed by "p" when the height is truthy, else Audio; ext defaults to mp4 |
| Providers.MapInstaFormats | index.js:274-279 | the map yields one rendition per element, in order, and throws iff an element is null or undefined or has a truthy height that cannot be converted to a string |
| Providers.MapInstaVideo | index.js:267-283 | returns iff formats is a non-empty array on whose every element the mapping does not throw; renditions are the mapped elements; duration and uploader copied |
| Providers.InstaObjectHeightThrows | index.js:276 | a height that is an object with its own toString key makes the adapter throw |
| Providers.InstaHeightReadsBack | index.js:276 | the quality written from a numeric height parses back to that height |
| Providers.InstaAudioQualityIsNaN | index.js:276 | the "Audio" quality parses as NaN |
| Providers.MapYtdlp | index.js:290-304 | returns iff download_url is truthy; then a successful record with no duration or uploader, and one rendition whose quality defaults to 720p and format to mp4 |
| Providers.Attempt | index.js:228-244 | a request that fails throws before any mapping; an attempt that returns returns a successful record with at least one rendition and no platform |
| Providers.AdaptersAreCanonical | index.js:246-304 | whatever an adapter returns is a success with a truthy title and at least one rendition, each with a truthy quality and format |
| Providers.MockData | index.js:188-226 | the demonstration record carries the platform of its URL and the four fixed renditions |
| Providers.MockIsCanonical | index.js:190-225 | the demonstration record is canonical, has four placeholder renditions and depends on the URL only through its platform |
| Providers.MockAudioIsBottomRung | index.js:211-212 | the "audio"/"mp3" rendition is ranked on the bottom rung, because mp3 does not contain "audio" |
| Resolver.FirstSuccess | index.js:175-182 | the reference answer: the first successful outcome, with every earlier one unsuccessful, or exhaustion iff none succeeds |
| Resolver.FetchVideoInfo | index.js:166-185 | the loop returns the first success and invokes exactly the attempts up to it, or all of them when none succeeds |
| Resolver.Attempts | index.js:168-173 | four attempts, the demonstration record last |
| Resolver.Chosen | index.js:175-182 | one to four attempts are made; every attempt before the last one made threw; the record is the returned record of the last attempt made, or the demonstration record after four |
| Resolver.NeverExhausted | index.js:175-184 | the All APIs failed error cannot be thrown, and the search settles on the first adapter that returns |
| Resolver.AdapterSuccess | index.js:178 | an adapter outcome counts as successful exactly when the adapter returned |
| Resolver.ResolveVideo | index.js:166-185 | resolution always succeeds, after one to four attempts, with a canonical record |
| Resolver.LaterAttemptsIrrelevant | index.js:178 | once Cobalt returns, later responses do not matter and one attempt is made |
| Resolver.SecondProviderWins | index.js:175-182 | Cobalt failing and InstaVideo returning gives InstaVideo's record after two attempts, whatever YT-DLP would do |
| Presentation.Sanitize | index.js:340 | every character outside A-Z, a-z, 0-9 becomes one underscore; length is kept |
| Presentation.SanitizeIdempotent | index.js:340 | a sanitised title holds only letters, digits and underscores, and sanitising again changes nothing |
| Presentation.SanitizeExample | index.js:340 | "My Video: Part #1!" in mp4 gives My_Video__Part__1_.mp4 |
| Presentation.UpperAscii | index.js:341 | upper-casing keeps the length and maps each a-z letter to its capital |
| Presentation.FormatViewOf | index.js:336-341 | each entry carries the three ladder values, the size text, the sanitised file name with the format appended, the upper-cased format, and is a placeholder iff its url is "#" |
| Presentation.FormatItems | index.js:335 | one entry per rendition, in order, or a throw iff some rendition is not renderable |
| Presentation.ToViewModel | index.js:307-364 | the panel shows the platform of the entered URL and the rendition count, or the renderer throws iff the header does not convert or some rendition is not renderable |
| Presentation.PlatformFromUrlOnly | index.js:308 | the platform stored in the record never affects the panel |
| Presentation.NoFormatsRenderHeader | index.js:313-335 | a record without renditions renders, as an empty panel, exactly when its header converts, whether or not its title is a string |
| Presentation.ObjectUrlThrows | index.js:360-364 | a Cobalt record whose URL is an object with its own toString key throws in the renderer |
| Presentation.NumericTitleThrows | index.js:340 | a Cobalt record with a numeric file name throws in the renderer |
| Presentation.MockRenders | index.js:428-429 | the demonstration record renders as four placeholder entries under the URL's platform |
| Presentation.MockView | index.js:428-429 | the demonstration panel is what rendering the demonstration record gives, so the fallback render cannot throw |
| Presentation.PlaceholdersRender | index.js:313-364 | with a string title and renditions with string formats, nonzero sizes and the "#" URL, the panel renders exactly when the header converts and every quality the ladders parse converts; every entry is then a placeholder |
| Presentation.NonzeroSizeKnown | index.js:125-135 | every nonzero byte count has a size text |
| Presentation.MockAudioEntry | index.js:336-339 | the demonstration panel has four entries, and the fourth is bottom rung with size 5.0 MB |
| Presentation.EntryOf | index.js:335-341 | entry i of a rendered panel is the view of rendition i |
| Presentation.FiveMegabytes | index.js:213 | 5242880 gives 5.0 MB |
| Controller.ProcessVideo | index.js:397-438 | an empty or invalid trimmed URL is refused with no attempt; otherwise the chosen record is rendered with no notice, or the demonstration panel with the failure notice when that record does not render |
| Controller.PaddedInputTrims | index.js:398 | any runs of white space and line terminators before and after a URL are removed before it is checked |
| Controller.ExhaustionIsSilent | index.js:419-421 | when every request fails, the demonstration record is the resolved record after four attempts and renders, so no failure notice is shown |

## Left out

- The DOM and the markup are not modelled:
  - element lookup, event binding and the welcome animation;
  - `showError`, `clearError` and `showDemoMessage`;
  - the HTML strings of `renderVideoInfo`, its stagger animation, and the typing effect of the page script.
  - Only the values are modelled: the ladder values, size text, file name, format type and placeholder flag of each entry, the platform and the option count.
- The network is not modelled. `fetch` and `response.json()` become the `Response` parameter: a rejection is `Failed`, a parsed body is `Parsed`. The request shapes are not modelled.
- `downloadFile` is not modelled: it only clicks a DOM anchor.
- URL validation (`new URL(url)`) is the `isValidUrl` parameter of `Controller.ProcessVideo`; the WHATWG URL parser is not modelled.
- Asynchrony is not modelled. The attempts run as plain sequential code, which is the order the `await`s impose.
- Exceptions carry no message and nothing is logged.
- Number modelling:
  - JSON numbers are integers. Fractional sizes, heights and durations are not modelled.
  - `toFixed` at magnitudes of 10^21 and above is not modelled.
- JsValues.ToJsStringCases, Text.IntToStringValue: `JsValues.ToJsString` and `Text.IntToString` write every integer in full. JavaScript's `String(n)` switches to exponent form from 10^21 (a height of 1e21 gives the quality "1e+21p", which `parseInt` reads as 1). The exponent form is missing at index.js:276 and index.js:297. `JSON.parse` also rounds every JSON number above 2^53 to the nearest double; the model's integers are exact, so that rounding is missing for every numeric field the page reads, including the sizes at index.js:278 and index.js:299 that reach `formatFileSize`.
- Formatting.FileSizeText, Formatting.FormatFileSize: a truthy non-number size is modelled as a throw. JavaScript instead coerces a numeric string or a one-element array of 1024 or more to a number in the loop, and prints it; that coercion is not modelled.
- Presentation.UpperAscii: upper-cases only a-z. The Unicode case mapping of `toUpperCase` is not modelled (for example `ß` to `SS`).
- Presentation.Sanitize: characters are Unicode scalar values, not UTF-16 code units. A character outside the Basic Multilingual Plane therefore sanitises to one underscore, where the page produces two.
- JsValues.ToJsString: gives `[object Object]` for every object, also one with its own `toString` key, where `String()` throws a TypeError. Every caller checks `JsValues.Stringable` first, so that value is never used.
- `formatDuration` is never called by the page; it is modelled over an optional integer.
