/**
 * `isValidUrl` of the link editor: one fixed pattern per platform, looked up
 * by the platform's name; a platform without a pattern is never valid.
 */
module UrlValidator {
  import opened Strings
  import opened Patterns

  /** `^https:\/\/github\.com\/.+` */
  const GitHubPattern: Regex := Cat(Lit("https://github.com/"), AnyPlus)

  /** `^https:\/\/(www\.)?linkedin\.com\/in\/.+` */
  const LinkedInPattern: Regex :=
    Cat(Lit("https://"), Cat(Opt(Lit("www.")), Cat(Lit("linkedin.com/in/"), AnyPlus)))

  /** `^https:\/\/twitter\.com\/.+` */
  const TwitterPattern: Regex := Cat(Lit("https://twitter.com/"), AnyPlus)

  /** `(channel|user)\/.+`, the tail of the YouTube pattern */
  const YouTubePath: Regex := Cat(Alt(Lit("channel"), Lit("user")), Cat(Lit("/"), AnyPlus))

  /** `^https:\/\/(www\.)?youtube\.com\/(channel|user)\/.+` */
  const YouTubePattern: Regex :=
    Cat(Lit("https://"), Cat(Opt(Lit("www.")), Cat(Lit("youtube.com/"), YouTubePath)))

  /** The `regexes` record, keyed by platform name. */
  const Regexes: map<string, Regex> :=
    map["GitHub" := GitHubPattern, "LinkedIn" := LinkedInPattern,
        "Twitter" := TwitterPattern, "YouTube" := YouTubePattern]

  /** `regexes[platform]?.test(url) ?? false` */
  predicate IsValidUrl(platform: string, url: string) {
    platform in Regexes && Test(Regexes[platform], url)
  }

  lemma GitHubUrls(url: string)
    ensures IsValidUrl("GitHub", url) <==> PrefixThenAny(url, "https://github.com/")
  {
    TestLitAnyPlus("https://github.com/", url);
  }

  lemma TwitterUrls(url: string)
    ensures IsValidUrl("Twitter", url) <==> PrefixThenAny(url, "https://twitter.com/")
  {
    TestLitAnyPlus("https://twitter.com/", url);
  }

  /** `^https:\/\/(www\.)?` in front of `tail`: `tail` is tested behind the scheme, with or without `www.`. */
  lemma SchemeThenOptionalWww(tail: Regex, url: string)
    ensures Test(Cat(Lit("https://"), Cat(Opt(Lit("www.")), tail)), url) <==>
      (StartsWith(url, "https://") && Test(tail, url[|"https://"|..])) ||
      (StartsWith(url, "https://www.") && Test(tail, url[|"https://www."|..]))
  {
    TestCatLit("https://", Cat(Opt(Lit("www.")), tail), url);
    StartsWithConcat(url, "https://", "www.");
    assert "https://" + "www." == "https://www.";
    if StartsWith(url, "https://") {
      var v := url[|"https://"|..];
      TestCatOpt(Lit("www."), tail, v);
      TestCatLit("www.", tail, v);
      if StartsWith(v, "www.") {
        assert v[|"www."|..] == url[|"https://www."|..];
      }
    }
  }

  lemma LinkedInUrls(url: string)
    ensures IsValidUrl("LinkedIn", url) <==>
      PrefixThenAny(url, "https://linkedin.com/in/") || PrefixThenAny(url, "https://www.linkedin.com/in/")
  {
    var p := "linkedin.com/in/";
    SchemeThenOptionalWww(Cat(Lit(p), AnyPlus), url);
    PrefixThenAnyConcat(url, "https://", p);
    PrefixThenAnyConcat(url, "https://www.", p);
    if StartsWith(url, "https://") {
      TestLitAnyPlus(p, url[|"https://"|..]);
    }
    if StartsWith(url, "https://www.") {
      TestLitAnyPlus(p, url[|"https://www."|..]);
    }
    assert "https://" + p == "https://linkedin.com/in/";
    assert "https://www." + p == "https://www.linkedin.com/in/";
  }

  /** What the YouTube pattern accepts once its scheme and optional `www.` are consumed. */
  lemma YouTubeHostUrls(w: string)
    ensures Test(Cat(Lit("youtube.com/"), YouTubePath), w) <==>
      PrefixThenAny(w, "youtube.com/channel/") || PrefixThenAny(w, "youtube.com/user/")
  {
    var slash := Cat(Lit("/"), AnyPlus);
    TestCatLit("youtube.com/", YouTubePath, w);
    assert "youtube.com/" + "channel/" == "youtube.com/channel/";
    assert "youtube.com/" + "user/" == "youtube.com/user/";
    PrefixThenAnyConcat(w, "youtube.com/", "channel/");
    PrefixThenAnyConcat(w, "youtube.com/", "user/");
    if StartsWith(w, "youtube.com/") {
      var x := w[|"youtube.com/"|..];
      TestCatAlt(Lit("channel"), Lit("user"), slash, x);
      TestCatLit("channel", slash, x);
      TestCatLit("user", slash, x);
      assert "channel" + "/" == "channel/";
      assert "user" + "/" == "user/";
      PrefixThenAnyConcat(x, "channel", "/");
      PrefixThenAnyConcat(x, "user", "/");
      if StartsWith(x, "channel") {
        TestLitAnyPlus("/", x[|"channel"|..]);
      }
      if StartsWith(x, "user") {
        TestLitAnyPlus("/", x[|"user"|..]);
      }
    }
  }

  /** The YouTube host and path, tested behind a given scheme, as full prefixes. */
  lemma YouTubeBehind(url: string, scheme: string)
    ensures (StartsWith(url, scheme) && Test(Cat(Lit("youtube.com/"), YouTubePath), url[|scheme|..])) <==>
      PrefixThenAny(url, scheme + "youtube.com/channel/") || PrefixThenAny(url, scheme + "youtube.com/user/")
  {
    PrefixThenAnyConcat(url, scheme, "youtube.com/channel/");
    PrefixThenAnyConcat(url, scheme, "youtube.com/user/");
    if StartsWith(url, scheme) {
      YouTubeHostUrls(url[|scheme|..]);
    }
  }

  /** The YouTube host and path behind the plain scheme `https://`. */
  lemma YouTubeBehindHttps(url: string)
    ensures (StartsWith(url, "https://") && Test(Cat(Lit("youtube.com/"), YouTubePath), url[|"https://"|..])) <==>
      PrefixThenAny(url, "https://youtube.com/channel/") || PrefixThenAny(url, "https://youtube.com/user/")
  {
    assert "https://" + "youtube.com/channel/" == "https://youtube.com/channel/";
    assert "https://" + "youtube.com/user/" == "https://youtube.com/user/";
    YouTubeBehind(url, "https://");
  }

  /** The YouTube host and path behind `https://www.`. */
  lemma YouTubeBehindHttpsWww(url: string)
    ensures (StartsWith(url, "https://www.") && Test(Cat(Lit("youtube.com/"), YouTubePath), url[|"https://www."|..])) <==>
      PrefixThenAny(url, "https://www.youtube.com/channel/") || PrefixThenAny(url, "https://www.youtube.com/user/")
  {
    assert "https://www." + "youtube.com/channel/" == "https://www.youtube.com/channel/";
    assert "https://www." + "youtube.com/user/" == "https://www.youtube.com/user/";
    YouTubeBehind(url, "https://www.");
  }

  lemma YouTubeUrls(url: string)
    ensures IsValidUrl("YouTube", url) <==>
      PrefixThenAny(url, "https://youtube.com/channel/") || PrefixThenAny(url, "https://youtube.com/user/") ||
      PrefixThenAny(url, "https://www.youtube.com/channel/") || PrefixThenAny(url, "https://www.youtube.com/user/")
  {
    SchemeThenOptionalWww(Cat(Lit("youtube.com/"), YouTubePath), url);
    YouTubeBehindHttps(url);
    YouTubeBehindHttpsWww(url);
  }

  /** The four platform names that have a pattern. */
  const PatternPlatforms: set<string> := Regexes.Keys

  /** Any other platform name, the unset platform `""` and `"Facebook"` included, fails closed. */
  lemma UnlistedPlatformRejected(platform: string, url: string)
    requires platform !in PatternPlatforms
    ensures !IsValidUrl(platform, url)
  {
  }

  /** Every accepted URL belongs to a platform with a pattern and is an `https://` URL with more after the scheme. */
  lemma AcceptedUrlShape(platform: string, url: string)
    requires IsValidUrl(platform, url)
    ensures platform in PatternPlatforms
    ensures StartsWith(url, "https://") && |url| > |"https://"|
  {
    var prefix: string;
    if platform == "GitHub" {
      GitHubUrls(url);
      prefix := "https://github.com/";
    } else if platform == "Twitter" {
      TwitterUrls(url);
      prefix := "https://twitter.com/";
    } else if platform == "LinkedIn" {
      LinkedInUrls(url);
      prefix := if PrefixThenAny(url, "https://linkedin.com/in/") then "https://linkedin.com/in/"
                else "https://www.linkedin.com/in/";
    } else {
      YouTubeUrls(url);
      prefix :=
        if PrefixThenAny(url, "https://youtube.com/channel/") then "https://youtube.com/channel/"
        else if PrefixThenAny(url, "https://youtube.com/user/") then "https://youtube.com/user/"
        else if PrefixThenAny(url, "https://www.youtube.com/channel/") then "https://www.youtube.com/channel/"
        else "https://www.youtube.com/user/";
    }
    assert PrefixThenAny(url, prefix);
    assert StartsWith(prefix, "https://");
    StartsWithTransitive(url, prefix, "https://");
  }

  /** The empty URL is rejected whatever the platform. */
  lemma EmptyUrlRejected(platform: string)
    ensures !IsValidUrl(platform, "")
  {
    if IsValidUrl(platform, "") {
      AcceptedUrlShape(platform, "");
    }
  }

  /** Sample inputs: a URL of each accepted shape, and near misses. */
  lemma GitHubExamples()
    ensures IsValidUrl("GitHub", "https://github.com/alice")
    ensures !IsValidUrl("GitHub", "https://github.com/")
  {
    var prefix := "https://github.com/";
    assert prefix + "alice" == "https://github.com/alice";
    GitHubUrls(prefix + "alice");
    StartsWithAppend(prefix, "alice");
    assert (prefix + "alice")[|prefix|] == 'a';
    GitHubUrls(prefix);
  }

  /** A line break right after the prefix, or a plain `http` scheme, is rejected. */
  lemma GitHubNearMisses()
    ensures !IsValidUrl("GitHub", "https://github.com/\nalice")
    ensures !IsValidUrl("GitHub", "http://github.com/alice")
  {
    var prefix := "https://github.com/";
    assert prefix + "\nalice" == "https://github.com/\nalice";
    GitHubUrls(prefix + "\nalice");
    assert (prefix + "\nalice")[|prefix|] == '\n';
    GitHubUrls("http://github.com/alice");
    DiffersAt("http://github.com/alice", prefix, 4);
  }

  lemma LinkedInExamples()
    ensures IsValidUrl("LinkedIn", "https://www.linkedin.com/in/alice")
    ensures !IsValidUrl("LinkedIn", "not-a-url")
  {
    var prefix := "https://www.linkedin.com/in/";
    assert prefix + "alice" == "https://www.linkedin.com/in/alice";
    LinkedInUrls(prefix + "alice");
    StartsWithAppend(prefix, "alice");
    assert (prefix + "alice")[|prefix|] == 'a';
    LinkedInUrls("not-a-url");
  }

  lemma YouTubeExamples()
    ensures IsValidUrl("YouTube", "https://youtube.com/user/alice")
  {
    var prefix := "https://youtube.com/user/";
    assert prefix + "alice" == "https://youtube.com/user/alice";
    YouTubeUrls(prefix + "alice");
    StartsWithAppend(prefix, "alice");
    assert (prefix + "alice")[|prefix|] == 'a';
  }

  lemma YouTubeRejectsWatchPage()
    ensures !IsValidUrl("YouTube", "https://youtube.com/watch?v=1")
  {
    var watch := "https://youtube.com/watch?v=1";
    DiffersAt(watch, "https://youtube.com/channel/", 20);
    DiffersAt(watch, "https://youtube.com/user/", 20);
    DiffersAt(watch, "https://www.youtube.com/channel/", 8);
    DiffersAt(watch, "https://www.youtube.com/user/", 8);
    YouTubeUrls(watch);
  }
}
