/** The platform classifier: a URL is matched against an ordered table of
    domain substrings and the identity of the first entry that occurs in it
    is returned, or the Unknown identity when none does. */
module Platforms {
  import opened Text

  datatype PlatformIdentity = PlatformIdentity(name: string, icon: string, color: string)

  const YouTube := PlatformIdentity("YouTube", "fab fa-youtube", "#ff0000")
  const Instagram := PlatformIdentity("Instagram", "fab fa-instagram", "#e4405f")
  const TikTok := PlatformIdentity("TikTok", "fab fa-tiktok", "#000000")
  const Twitter := PlatformIdentity("Twitter", "fab fa-twitter", "#1da1f2")
  const Facebook := PlatformIdentity("Facebook", "fab fa-facebook", "#1877f2")
  const Vimeo := PlatformIdentity("Vimeo", "fab fa-vimeo", "#1ab7ea")
  const Dailymotion := PlatformIdentity("Dailymotion", "fas fa-play-circle", "#0066cc")
  const Unknown := PlatformIdentity("Unknown", "fas fa-globe", "#64748b")

  /** The domain table in its enumeration order (the insertion order of the
      object literal). Two domains alias YouTube and two alias Twitter. */
  const Table: seq<(string, PlatformIdentity)> := [
    ("youtube.com", YouTube),
    ("youtu.be", YouTube),
    ("instagram.com", Instagram),
    ("tiktok.com", TikTok),
    ("twitter.com", Twitter),
    ("x.com", Twitter),
    ("facebook.com", Facebook),
    ("vimeo.com", Vimeo),
    ("dailymotion.com", Dailymotion)
  ]

  /** Entry `i` is the first of `entries` whose domain occurs in `url`. */
  ghost predicate FirstMatchAt(entries: seq<(string, PlatformIdentity)>, url: string, i: int)
  {
    && 0 <= i < |entries|
    && Includes(url, entries[i].0)
    && forall j :: 0 <= j < i ==> !Includes(url, entries[j].0)
  }

  ghost predicate NoMatch(entries: seq<(string, PlatformIdentity)>, url: string)
  {
    forall j :: 0 <= j < |entries| ==> !Includes(url, entries[j].0)
  }

  /** `p` is the identity of the first entry whose domain occurs in `url`, or
      Unknown when none does. */
  ghost predicate FirstMatchResult(entries: seq<(string, PlatformIdentity)>, url: string, p: PlatformIdentity)
  {
    || (exists i :: FirstMatchAt(entries, url, i) && p == entries[i].1)
    || (NoMatch(entries, url) && p == Unknown)
  }

  /** First-match lookup, as a function (used by the functions that recompute
      the platform from a URL). */
  function Lookup(entries: seq<(string, PlatformIdentity)>, url: string): (p: PlatformIdentity)
    ensures p == Unknown || exists i :: 0 <= i < |entries| && Includes(url, entries[i].0) && p == entries[i].1
  {
    if entries == [] then Unknown
    else if Includes(url, entries[0].0) then entries[0].1
    else Lookup(entries[1..], url)
  }

  /** `detectPlatform(url)` as the functions that call it see it. */
  function Classify(url: string): PlatformIdentity
  {
    Lookup(Table, url)
  }

  /** The classification is the first matching entry's identity, or Unknown
      when no entry matches. (Kept apart from `Classify`: a contract that
      unfolds the table at every use is costly for its callers.) */
  lemma ClassifyFirstMatch(url: string)
    ensures FirstMatchResult(Table, url, Classify(url))
  {
    LookupCases(Table, url);
  }

  lemma {:induction false} LookupFirstMatch(entries: seq<(string, PlatformIdentity)>, url: string, i: int)
    requires FirstMatchAt(entries, url, i)
    ensures Lookup(entries, url) == entries[i].1
  {
    if i > 0 {
      assert FirstMatchAt(entries[1..], url, i - 1);
      LookupFirstMatch(entries[1..], url, i - 1);
    }
  }

  lemma {:induction false} LookupNoMatch(entries: seq<(string, PlatformIdentity)>, url: string)
    requires NoMatch(entries, url)
    ensures Lookup(entries, url) == Unknown
  {
    if entries != [] {
      assert NoMatch(entries[1..], url);
      LookupNoMatch(entries[1..], url);
    }
  }

  /** Every lookup result is either the identity of the first matching entry
      or, when no entry matches, Unknown. */
  lemma {:induction false} LookupCases(entries: seq<(string, PlatformIdentity)>, url: string)
    ensures FirstMatchResult(entries, url, Lookup(entries, url))
  {
    if entries != [] && !Includes(url, entries[0].0) {
      LookupCases(entries[1..], url);
      if exists i :: FirstMatchAt(entries[1..], url, i) {
        var i :| FirstMatchAt(entries[1..], url, i);
        assert FirstMatchAt(entries, url, i + 1);
      }
    } else if entries != [] {
      assert FirstMatchAt(entries, url, 0);
    }
  }

  /** `detectPlatform`: walks the table in order and returns on the first hit. */
  method DetectPlatform(url: string) returns (p: PlatformIdentity)
    ensures FirstMatchResult(Table, url, p)
    ensures p == Classify(url)
  {
    for i := 0 to |Table|
      invariant forall j :: 0 <= j < i ==> !Includes(url, Table[j].0)
    {
      if Includes(url, Table[i].0) {
        assert FirstMatchAt(Table, url, i);
        LookupFirstMatch(Table, url, i);
        return Table[i].1;
      }
    }
    LookupNoMatch(Table, url);
    return Unknown;
  }

  /** Both YouTube domains give the one YouTube identity. */
  lemma YouTubeAliases(url: string)
    ensures Includes(url, "youtube.com") || Includes(url, "youtu.be") ==> Classify(url) == YouTube
  {
    if Includes(url, "youtube.com") {
      assert FirstMatchAt(Table, url, 0);
      LookupFirstMatch(Table, url, 0);
    } else if Includes(url, "youtu.be") {
      assert FirstMatchAt(Table, url, 1);
      LookupFirstMatch(Table, url, 1);
    }
  }

  /** The Twitter identity is returned exactly when one of the two Twitter
      domains occurs and none of the four domains listed before them does. */
  lemma TwitterAliases(url: string)
    ensures Classify(url) == Twitter <==>
      && (Includes(url, "twitter.com") || Includes(url, "x.com"))
      && !Includes(url, "youtube.com") && !Includes(url, "youtu.be")
      && !Includes(url, "instagram.com") && !Includes(url, "tiktok.com")
  {
    LookupCases(Table, url);
    if Classify(url) == Twitter {
      var i :| FirstMatchAt(Table, url, i) && Classify(url) == Table[i].1;
      assert i == 4 || i == 5;
      assert Table[i].0 == "twitter.com" || Table[i].0 == "x.com";
      assert Table[0].0 == "youtube.com" && !Includes(url, Table[0].0);
      assert Table[1].0 == "youtu.be" && !Includes(url, Table[1].0);
      assert Table[2].0 == "instagram.com" && !Includes(url, Table[2].0);
      assert Table[3].0 == "tiktok.com" && !Includes(url, Table[3].0);
    }
    if Includes(url, "twitter.com") && !Includes(url, "youtube.com") && !Includes(url, "youtu.be")
      && !Includes(url, "instagram.com") && !Includes(url, "tiktok.com")
    {
      assert FirstMatchAt(Table, url, 4);
      LookupFirstMatch(Table, url, 4);
    } else if Includes(url, "x.com") && !Includes(url, "youtube.com") && !Includes(url, "youtu.be")
      && !Includes(url, "instagram.com") && !Includes(url, "tiktok.com") && !Includes(url, "twitter.com")
    {
      assert FirstMatchAt(Table, url, 5);
      LookupFirstMatch(Table, url, 5);
    }
  }

  /** The test is a plain substring test, so a host that merely ends in
      "x.com" is taken for Twitter. */
  lemma SubstringMatchIsLoose()
    ensures Classify("https://netflix.com/") == Twitter
  {
    var url := "https://netflix.com/";
    NetflixHasX(url);
    NetflixLacksYouTube(url);
    NetflixLacksOthers(url);
    TwitterAliases(url);
  }

  lemma NetflixHasX(url: string)
    requires url == "https://netflix.com/"
    ensures Includes(url, "x.com")
  {
    assert url[14..19] == "x.com";
    OffsetGivesIncludes(url, "x.com", 14);
  }

  lemma NetflixLacksYouTube(url: string)
    requires url == "https://netflix.com/"
    ensures !Includes(url, "youtube.com") && !Includes(url, "youtu.be")
  {
    assert 'y' !in url;
    MissingCharExcludes(url, "youtube.com", 0);
    MissingCharExcludes(url, "youtu.be", 0);
  }

  lemma NetflixLacksOthers(url: string)
    requires url == "https://netflix.com/"
    ensures !Includes(url, "instagram.com") && !Includes(url, "tiktok.com")
  {
    assert "instagram.com"[4] == 'a' && 'a' !in url;
    MissingCharExcludes(url, "instagram.com", 4);
    assert "tiktok.com"[2] == 'k' && 'k' !in url;
    MissingCharExcludes(url, "tiktok.com", 2);
  }
}
