/**
 * How the mobile client of `clyq/src/utils/config.js` derives the backend's base URL
 * and the three endpoint URLs it calls. `Constants.expoConfig?.hostUri` and
 * `Platform.OS`, runtime objects of Expo and React Native, are parameters here.
 */
module ClientConfig {
  import opened Common
  import Backend

  const Scheme: string := "http://"
  const PortSuffix: string := ":4000"
  const AndroidEmulatorBase: string := "http://10.0.2.2:4000"
  const LocalhostBase: string := "http://localhost:4000"

  // ---------------------------------------------------------------------------
  // String.prototype.split with a one-character separator, and its inverse
  // ---------------------------------------------------------------------------

  /** The pieces joined back together, `sep` between neighbours. */
  function Join(pieces: seq<string>, sep: char): string
    requires |pieces| >= 1
    decreases |pieces|
  {
    if |pieces| == 1 then pieces[0] else pieces[0] + [sep] + Join(pieces[1..], sep)
  }

  /** `s.split(sep)`: the maximal runs of `s` between occurrences of `sep`; never empty. */
  function Split(s: string, sep: char): (pieces: seq<string>)
    ensures |pieces| >= 1
    ensures forall i :: 0 <= i < |pieces| ==> sep !in pieces[i]
    ensures Join(pieces, sep) == s
    decreases |s|
  {
    if s == [] then [""]
    else
      var rest := Split(s[1..], sep);
      if s[0] == sep then
        assert ([""] + rest)[1..] == rest;
        [""] + rest
      else
        assert s == [s[0]] + s[1..];
        assert ([[s[0]] + rest[0]] + rest[1..])[1..] == rest[1..];
        [[s[0]] + rest[0]] + rest[1..]
  }

  /** The first piece of a join is a prefix of it, followed by the separator when there is more. */
  lemma JoinHead(pieces: seq<string>, sep: char)
    requires |pieces| >= 1
    ensures pieces[0] <= Join(pieces, sep)
    ensures |pieces[0]| < |Join(pieces, sep)| ==> Join(pieces, sep)[|pieces[0]|] == sep
  {
  }

  /** A string without `sep` splits into itself alone. */
  lemma {:induction false} SplitWithoutSeparator(s: string, sep: char)
    requires sep !in s
    ensures Split(s, sep) == [s]
    decreases |s|
  {
    if s != [] {
      SplitWithoutSeparator(s[1..], sep);
      assert s == [s[0]] + s[1..];
    }
  }

  /** A string with exactly one `sep` splits into the parts before and after it. */
  lemma {:induction false} SplitAtOnlySeparator(h: string, tail: string, sep: char)
    requires sep !in h && sep !in tail
    ensures Split(h + [sep] + tail, sep) == [h, tail]
    decreases |h|
  {
    var s := h + [sep] + tail;
    if h == [] {
      assert s == [sep] + tail;
      assert s[1..] == tail;
      SplitWithoutSeparator(tail, sep);
    } else {
      assert s[1..] == h[1..] + [sep] + tail;
      SplitAtOnlySeparator(h[1..], tail, sep);
      assert [h[0]] + h[1..] == h;
    }
  }

  // ---------------------------------------------------------------------------
  // getLocalHost and the endpoint table
  // ---------------------------------------------------------------------------

  /**
   * `hostUri.split(":").shift()`: the longest prefix of `hostUri` without a colon,
   * that is, everything before the first colon, or all of it when there is none.
   */
  function HostSegment(hostUri: string): (h: string)
    ensures ':' !in h
    ensures h <= hostUri
    ensures |h| < |hostUri| ==> hostUri[|h|] == ':'
    ensures ':' !in hostUri ==> h == hostUri
  {
    var pieces := Split(hostUri, ':');
    JoinHead(pieces, ':');
    pieces[0]
  }

  /** The host part of a base URL of the shape `http://<host>:4000`. */
  function HostOf(url: string): string
    requires |url| >= |Scheme| + |PortSuffix|
  {
    url[|Scheme|..|url| - |PortSuffix|]
  }

  /**
   * `getLocalHost()`, with `Constants.expoConfig?.hostUri` and `Platform.OS` passed in.
   * A non-empty host URI wins on every platform; otherwise Android gets the emulator's
   * address and every other platform localhost. Every result is `http://<host>:4000`.
   */
  function GetLocalHost(hostUri: Option<string>, os: string): (url: string)
    ensures Truthy(hostUri) ==> url == Scheme + HostSegment(hostUri.value) + PortSuffix
    ensures !Truthy(hostUri) && os == "android" ==> url == AndroidEmulatorBase
    ensures !Truthy(hostUri) && os != "android" ==> url == LocalhostBase
    ensures |url| >= |Scheme| + |PortSuffix|
    ensures url[..|Scheme|] == Scheme && url[|url| - |PortSuffix|..] == PortSuffix
  {
    if Truthy(hostUri) then
      Scheme + HostSegment(hostUri.value) + PortSuffix
    else if os == "android" then
      AndroidEmulatorBase
    else
      LocalhostBase
  }

  /** A URL `http://<host>:4000` with a colon-free host parses back into that host and port 4000. */
  lemma {:induction false} UrlOfHost(host: string)
    requires ':' !in host
    ensures var url := Scheme + host + PortSuffix;
            && |url| >= |Scheme| + |PortSuffix|
            && HostOf(url) == host
            && Split(url[|Scheme|..], ':') == [host, "4000"]
  {
    var url := Scheme + host + PortSuffix;
    assert url[|Scheme|..] == host + [':'] + "4000";
    SplitAtOnlySeparator(host, "4000", ':');
  }

  /**
   * Every base URL is `http://<host>:4000` with a colon-free host, so splitting its
   * authority at ':' gives back exactly the host and the port 4000.
   */
  lemma BaseUrlShape(hostUri: Option<string>, os: string)
    ensures var url := GetLocalHost(hostUri, os);
            && url == Scheme + HostOf(url) + PortSuffix
            && ':' !in HostOf(url)
            && Split(url[|Scheme|..], ':') == [HostOf(url), "4000"]
  {
    if Truthy(hostUri) {
      UrlOfHost(HostSegment(hostUri.value));
    } else if os == "android" {
      assert AndroidEmulatorBase == Scheme + "10.0.2.2" + PortSuffix;
      UrlOfHost("10.0.2.2");
    } else {
      assert LocalhostBase == Scheme + "localhost" + PortSuffix;
      UrlOfHost("localhost");
    }
  }

  /** The `endpoints` table. */
  datatype Endpoints = Endpoints(trending: string, upcoming: string, posts: string)

  /**
   * `endpoints`, built from the base URL: each endpoint is the base followed by the
   * path of the backend route that serves it, and the three are distinct URLs.
   */
  function EndpointsFor(base: string): (e: Endpoints)
    ensures e.trending == base + Backend.TrendingRoute
    ensures e.upcoming == base + Backend.UpcomingRoute
    ensures e.posts == base + Backend.PostsRoute
    ensures e.trending != e.upcoming && e.trending != e.posts && e.upcoming != e.posts
  {
    var e := Endpoints(base + "/api/events/trending", base + "/api/events/upcoming", base + "/api/posts");
    assert e.trending[|base| + 12] == 't' && e.upcoming[|base| + 12] == 'u';
    assert |e.posts| < |e.trending|;
    e
  }

  /**
   * The endpoints the client derives address the backend on port 4000 at the host
   * `getLocalHost` chose: `http://<host>:4000<route>`, with a colon-free host.
   */
  lemma EndpointsTargetBackend(hostUri: Option<string>, os: string)
    ensures var base := GetLocalHost(hostUri, os);
            var e := EndpointsFor(base);
            var host := HostOf(base);
            && ':' !in host
            && e.trending == Scheme + host + ":4000" + Backend.TrendingRoute
            && e.upcoming == Scheme + host + ":4000" + Backend.UpcomingRoute
            && e.posts == Scheme + host + ":4000" + Backend.PostsRoute
  {
    BaseUrlShape(hostUri, os);
  }
}
