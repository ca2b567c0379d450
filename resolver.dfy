/** `fetchVideoInfo`: the attempts run one after another, in a fixed order,
    and the first one that returns a successful record ends the search. */
module Resolver {
  import opened Text
  import opened JsValues
  import opened Platforms
  import opened Providers

  /** `result && result.success`: a thrown attempt counts as not successful. */
  predicate Succeeded(o: Outcome)
  {
    o.Returned? && o.record.success
  }

  /** The record of the first successful attempt and its position, or the
      exhausted search that throws 'All APIs failed'. */
  datatype Resolution = Resolved(record: VideoRecord, index: nat) | AllFailed

  /** The reference answer: the first successful outcome, counting positions
      from `from`. */
  function FirstSuccess(outcomes: seq<Outcome>, from: nat): (r: Resolution)
    requires from <= |outcomes|
    ensures r.Resolved? ==>
      && from <= r.index < |outcomes|
      && Succeeded(outcomes[r.index]) && r.record == outcomes[r.index].record
      && forall j :: from <= j < r.index ==> !Succeeded(outcomes[j])
    ensures r.AllFailed? <==> forall j :: from <= j < |outcomes| ==> !Succeeded(outcomes[j])
    decreases |outcomes| - from
  {
    if from == |outcomes| then AllFailed
    else if Succeeded(outcomes[from]) then Resolved(outcomes[from].record, from)
    else FirstSuccess(outcomes, from + 1)
  }

  /** The loop over the attempts. `outcomes[i]` is what the `i`-th thunk would
      produce; `invoked` counts the thunks actually called. */
  method FetchVideoInfo(outcomes: seq<Outcome>) returns (res: Resolution, invoked: nat)
    ensures res == FirstSuccess(outcomes, 0)
    ensures res.Resolved? ==> invoked == res.index + 1
    ensures res.AllFailed? ==> invoked == |outcomes|
  {
    invoked := 0;
    while invoked < |outcomes|
      invariant invoked <= |outcomes|
      invariant FirstSuccess(outcomes, invoked) == FirstSuccess(outcomes, 0)
    {
      var result := outcomes[invoked];
      invoked := invoked + 1;
      if Succeeded(result) {
        return Resolved(result.record, invoked - 1), invoked;
      }
    }
    return AllFailed, invoked;
  }

  /** The attempt list of `fetchVideoInfo(url)`: the three adapters, given the
      responses their requests got, and the demonstration record last. */
  function Attempts(url: string, cobalt: Response, insta: Response, ytdlp: Response): (s: seq<Outcome>)
    ensures |s| == 4 && s[3] == Returned(MockData(url))
  {
    [Attempt(Cobalt, cobalt), Attempt(InstaVideo, insta), Attempt(YtDlp, ytdlp), Returned(MockData(url))]
  }

  /** The record `fetchVideoInfo` settles on, with the number of attempts it
      makes: the first adapter that returns wins, the demonstration record
      when none does. */
  function Chosen(url: string, cobalt: Response, insta: Response, ytdlp: Response): (r: (VideoRecord, nat))
    ensures 1 <= r.1 <= 4
    ensures r.1 >= 2 ==> Attempt(Cobalt, cobalt) == Threw
    ensures r.1 >= 3 ==> Attempt(InstaVideo, insta) == Threw
    ensures r.1 == 4 ==> Attempt(YtDlp, ytdlp) == Threw && r.0 == MockData(url)
    ensures r.1 == 1 ==> Attempt(Cobalt, cobalt) == Returned(r.0)
    ensures r.1 == 2 ==> Attempt(InstaVideo, insta) == Returned(r.0)
    ensures r.1 == 3 ==> Attempt(YtDlp, ytdlp) == Returned(r.0)
  {
    if Attempt(Cobalt, cobalt).Returned? then (Attempt(Cobalt, cobalt).record, 1)
    else if Attempt(InstaVideo, insta).Returned? then (Attempt(InstaVideo, insta).record, 2)
    else if Attempt(YtDlp, ytdlp).Returned? then (Attempt(YtDlp, ytdlp).record, 3)
    else (MockData(url), 4)
  }

  /** Every adapter that returns returns a successful record, and the
      demonstration record always does, so the search never runs out: the
      'All APIs failed' error cannot be thrown. */
  lemma NeverExhausted(url: string, cobalt: Response, insta: Response, ytdlp: Response)
    ensures FirstSuccess(Attempts(url, cobalt, insta, ytdlp), 0).Resolved?
    ensures var r := FirstSuccess(Attempts(url, cobalt, insta, ytdlp), 0);
      (r.record, r.index + 1) == Chosen(url, cobalt, insta, ytdlp)
  {
    var s := Attempts(url, cobalt, insta, ytdlp);
    assert Succeeded(s[3]);
    AdapterSuccess(Cobalt, cobalt);
    AdapterSuccess(InstaVideo, insta);
    AdapterSuccess(YtDlp, ytdlp);
    if !Succeeded(s[0]) {
      assert FirstSuccess(s, 0) == FirstSuccess(s, 1);
      if !Succeeded(s[1]) {
        assert FirstSuccess(s, 1) == FirstSuccess(s, 2);
        if !Succeeded(s[2]) {
          assert FirstSuccess(s, 2) == FirstSuccess(s, 3);
        }
      }
    }
  }

  lemma AdapterSuccess(p: Provider, response: Response)
    ensures Succeeded(Attempt(p, response)) <==> Attempt(p, response).Returned?
  {
    if Attempt(p, response).Returned? {
      AdaptersAreCanonical(p, response);
    }
  }

  /** `fetchVideoInfo(url)` with the responses the three requests got: it
      always resolves, to a canonical record, after one to four attempts. */
  method ResolveVideo(url: string, cobalt: Response, insta: Response, ytdlp: Response)
    returns (record: VideoRecord, invoked: nat)
    ensures (record, invoked) == Chosen(url, cobalt, insta, ytdlp)
    ensures 1 <= invoked <= 4
    ensures Canonical(record)
  {
    var res;
    res, invoked := FetchVideoInfo(Attempts(url, cobalt, insta, ytdlp));
    NeverExhausted(url, cobalt, insta, ytdlp);
    record := res.record;
    if invoked < 4 {
      AdaptersAreCanonical([Cobalt, InstaVideo, YtDlp][invoked - 1], [cobalt, insta, ytdlp][invoked - 1]);
    } else {
      MockIsCanonical(url, url);
    }
  }

  /** Later attempts are never made once one succeeds: when the first adapter
      returns, the record is its record whatever the others would have done. */
  lemma LaterAttemptsIrrelevant(url: string, cobalt: Response, insta: Response, ytdlp: Response,
                                insta2: Response, ytdlp2: Response)
    requires Attempt(Cobalt, cobalt).Returned?
    ensures Chosen(url, cobalt, insta, ytdlp) == Chosen(url, cobalt, insta2, ytdlp2)
    ensures Chosen(url, cobalt, insta, ytdlp).1 == 1
  {
  }

  /** A failing first provider hands over to the second; once that one returns,
      the third is never asked. */
  lemma SecondProviderWins(url: string, cobalt: Response, insta: Response, ytdlp: Response, ytdlp2: Response)
    requires Attempt(Cobalt, cobalt) == Threw && Attempt(InstaVideo, insta).Returned?
    ensures Chosen(url, cobalt, insta, ytdlp) == (Attempt(InstaVideo, insta).record, 2)
    ensures Chosen(url, cobalt, insta, ytdlp) == Chosen(url, cobalt, insta, ytdlp2)
  {
  }
}
