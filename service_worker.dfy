/** The offline service worker: request routing, the three caching
    strategies, install and activate. Cache Storage is a value threaded
    through the handlers: an ordered list of named caches (the order in
    which they were created, which is the order `caches.match` searches),
    each mapping request URLs to responses. The outcome of the one network
    fetch a handler makes is a parameter. Awaited and unawaited cache
    writes are taken to complete before the next event. */
module ServiceWorker {
  import opened Common

  const CacheName: string := "durks-v1"
  const StaticCacheName: string := "durks-static-v1"

  /** STATIC_ASSETS, relative to the worker's origin. */
  const StaticAssets: seq<string> := ["/", "/favicon.svg", "/logo-durks.png", "/manifest.json"]

  // ---------------------------------------------------------------------
  // Requests and responses

  datatype Request = Request(verb: string, url: string, accept: Option<string>)

  datatype Body = Content(id: nat) | OfflineText | OfflinePage

  datatype Response = Response(status: int, body: Body)

  /** `response.ok`. */
  predicate Ok(r: Response) {
    200 <= r.status <= 299
  }

  /** What the one network fetch of a handler produced. */
  datatype NetOutcome = Reply(response: Response) | NetError

  /** `new URL(url).protocol`: the scheme and its colon, or "" without one. */
  function Protocol(url: string): (p: string)
    ensures |p| <= |url| && p == url[..|p|]
    ensures p != [] ==> p[|p| - 1] == ':' && ':' !in p[..|p| - 1]
    ensures p == [] ==> ':' !in url
  {
    if |url| == 0 then ""
    else if url[0] == ':' then ":"
    else
      var rest := Protocol(url[1..]);
      if rest == "" then "" else [url[0]] + rest
  }

  /** A scheme without colons has as its protocol exactly what the URL starts with. */
  lemma {:induction false} ProtocolOfPrefix(url: string, scheme: string)
    requires |scheme| > 0 && scheme[|scheme| - 1] == ':' && ':' !in scheme[..|scheme| - 1]
    ensures Protocol(url) == scheme <==> StartsWith(url, scheme)
    decreases |url|
  {
    if |url| > 0 && |scheme| > 1 && url[0] == scheme[0] {
      var tail := scheme[1..];
      assert tail[..|tail| - 1] == scheme[1..|scheme| - 1];
      assert ':' !in tail[..|tail| - 1];
      ProtocolOfPrefix(url[1..], tail);
      if StartsWith(url, scheme) {
        assert url[1..][..|tail|] == tail;
      }
      if StartsWith(url[1..], tail) {
        assert url[..|scheme|] == [url[0]] + url[1..][..|tail|];
      }
    } else if |url| > 0 && |scheme| > 1 {
      assert scheme[0] in scheme[..|scheme| - 1];
    }
  }

  predicate IsExtensionUrl(url: string) {
    Protocol(url) == "chrome-extension:" || Protocol(url) == "moz-extension:"
  }

  /** The RUNTIME_CACHE patterns: Google Fonts hosts, any `/assets/` path,
      and a URL beginning with `/`. */
  predicate IsStaticAsset(url: string) {
    || StartsWith(url, "https://fonts.googleapis.com")
    || StartsWith(url, "https://fonts.gstatic.com")
    || Contains(url, "/assets/")
    || StartsWith(url, "/")
  }

  /** The last pattern never fires on the absolute URLs a Request carries:
      for an http(s) URL the test reduces to the first three. */
  lemma AbsoluteUrlsSkipRootPattern(url: string)
    requires StartsWith(url, "http")
    ensures IsStaticAsset(url) <==>
      StartsWith(url, "https://fonts.googleapis.com") || StartsWith(url, "https://fonts.gstatic.com")
      || Contains(url, "/assets/")
  {
    assert url[0] == 'h';
  }

  /** `request.headers.get('accept')?.includes('text/html')`. */
  predicate IsHtmlRequest(req: Request) {
    req.accept.Some? && Contains(req.accept.value, "text/html")
  }

  datatype Strategy = PassThrough | CacheFirst | NetworkFirst | StaleWhileRevalidate

  /** The fetch listener's choice. */
  function Route(req: Request): (s: Strategy)
    ensures s == PassThrough <==> req.verb != "GET" || IsExtensionUrl(req.url)
    ensures s == CacheFirst <==> req.verb == "GET" && !IsExtensionUrl(req.url) && IsStaticAsset(req.url)
    ensures s == NetworkFirst <==>
      req.verb == "GET" && !IsExtensionUrl(req.url) && !IsStaticAsset(req.url) && IsHtmlRequest(req)
  {
    if req.verb != "GET" then PassThrough
    else if IsExtensionUrl(req.url) then PassThrough
    else if IsStaticAsset(req.url) then CacheFirst
    else if IsHtmlRequest(req) then NetworkFirst
    else StaleWhileRevalidate
  }

  /** Every GET of a Vite asset is served cache first. */
  lemma AssetsAreCacheFirst(req: Request, k: nat)
    requires req.verb == "GET" && StartsWith(req.url, "https://")
    requires k + 8 <= |req.url| && req.url[k..k + 8] == "/assets/"
    ensures Route(req) == CacheFirst
  {
    ContainsAt(req.url, "/assets/", k);
    HttpsIsNotExtension(req.url);
  }

  /** An https URL is not a browser-extension URL. */
  lemma HttpsIsNotExtension(url: string)
    requires StartsWith(url, "https://")
    ensures !IsExtensionUrl(url)
  {
    assert url[0] == 'h';
    assert !StartsWith(url, "chrome-extension:") && !StartsWith(url, "moz-extension:");
    ProtocolOfPrefix(url, "chrome-extension:");
    ProtocolOfPrefix(url, "moz-extension:");
  }

  // ---------------------------------------------------------------------
  // Cache Storage

  datatype NamedCache = NamedCache(name: string, entries: map<string, Response>)

  /** The caches in creation order. */
  type Storage = seq<NamedCache>

  predicate UniqueNames(s: Storage) {
    forall i, j :: 0 <= i < j < |s| ==> s[i].name != s[j].name
  }

  predicate HasCache(s: Storage, name: string) {
    exists i :: 0 <= i < |s| && s[i].name == name
  }

  /** `caches.open(name)`: the cache is created, empty and last, when missing. */
  function Open(s: Storage, name: string): (t: Storage)
    ensures HasCache(s, name) ==> t == s
    ensures !HasCache(s, name) ==> t == s + [NamedCache(name, map[])]
    ensures HasCache(t, name)
    ensures UniqueNames(s) ==> UniqueNames(t)
  {
    if HasCache(s, name) then s
    else
      var t := s + [NamedCache(name, map[])];
      assert t[|s|].name == name;
      t
  }

  /** `cache.put(url, r)` on the cache called name (nothing when it is missing). */
  function Put(s: Storage, name: string, url: string, r: Response): (t: Storage)
    ensures |t| == |s|
    ensures forall i :: 0 <= i < |s| ==> t[i].name == s[i].name
    ensures forall i :: 0 <= i < |s| && s[i].name == name ==> t[i].entries == s[i].entries[url := r]
    ensures forall i :: 0 <= i < |s| && s[i].name != name ==> t[i] == s[i]
  {
    seq(|s|, i requires 0 <= i < |s| =>
      if s[i].name == name then NamedCache(name, s[i].entries[url := r]) else s[i])
  }

  /** `cache.match(url)` on one named cache. */
  function MatchIn(s: Storage, name: string, url: string): (r: Option<Response>)
    ensures r.Some? ==> exists i :: 0 <= i < |s| && s[i].name == name && url in s[i].entries
                                 && s[i].entries[url] == r.value
    ensures forall i :: 0 <= i < |s| && s[i].name == name && (forall j :: 0 <= j < i ==> s[j].name != name) ==>
      r == (if url in s[i].entries then Some(s[i].entries[url]) else None)
    ensures (forall i :: 0 <= i < |s| ==> s[i].name != name) ==> r.None?
  {
    if |s| == 0 then None
    else if s[0].name == name then (if url in s[0].entries then Some(s[0].entries[url]) else None)
    else MatchIn(s[1..], name, url)
  }

  /** `caches.match(url)`: the first cache in creation order that holds url. */
  function MatchAll(s: Storage, url: string): (r: Option<Response>)
    ensures r.None? <==> forall i :: 0 <= i < |s| ==> url !in s[i].entries
    ensures r.Some? ==> exists i :: 0 <= i < |s| && url in s[i].entries && s[i].entries[url] == r.value
  {
    if |s| == 0 then None
    else if url in s[0].entries then Some(s[0].entries[url])
    else MatchAll(s[1..], url)
  }

  /** With unique names, a put into the cache called name is what a match
      in that cache finds afterwards. */
  lemma {:induction false} PutThenMatchIn(s: Storage, name: string, url: string, r: Response)
    requires UniqueNames(s) && HasCache(s, name)
    ensures MatchIn(Put(s, name, url, r), name, url) == Some(r)
    decreases |s|
  {
    if s[0].name != name {
      assert Put(s, name, url, r)[1..] == Put(s[1..], name, url, r);
      assert HasCache(s[1..], name) by {
        var i :| 0 <= i < |s| && s[i].name == name;
        assert s[1..][i - 1].name == name;
      }
      PutThenMatchIn(s[1..], name, url, r);
    }
  }

  /** When no cache held url, a put makes it the first match everywhere. */
  lemma {:induction false} PutThenMatchAll(s: Storage, name: string, url: string, r: Response)
    requires HasCache(s, name) && MatchAll(s, url).None?
    ensures MatchAll(Put(s, name, url, r), url) == Some(r)
    decreases |s|
  {
    if s[0].name != name {
      assert Put(s, name, url, r)[1..] == Put(s[1..], name, url, r);
      assert HasCache(s[1..], name) by {
        var i :| 0 <= i < |s| && s[i].name == name;
        assert s[1..][i - 1].name == name;
      }
      PutThenMatchAll(s[1..], name, url, r);
    }
  }

  // ---------------------------------------------------------------------
  // Strategies

  /** cacheFirst: a cached response wins; otherwise the network's, stored
      in durks-v1 when ok; a network failure gives 503 "Offline". */
  function CacheFirstFetch(s: Storage, url: string, net: NetOutcome): (res: (Response, Storage))
    ensures MatchAll(s, url).Some? ==> res == (MatchAll(s, url).value, s)
    ensures MatchAll(s, url).None? && net.NetError? ==> res == (Response(503, OfflineText), s)
    ensures MatchAll(s, url).None? && net.Reply? ==> res.0 == net.response
    ensures MatchAll(s, url).None? && net.Reply? && Ok(net.response) ==>
      MatchAll(res.1, url) == Some(net.response)
    ensures MatchAll(s, url).None? && net.Reply? && Ok(net.response) ==>
      res.1 == Put(Open(s, CacheName), CacheName, url, net.response)
    ensures MatchAll(s, url).None? && net.Reply? && !Ok(net.response) ==> res.1 == s
  {
    match MatchAll(s, url)
    case Some(cached) => (cached, s)
    case None =>
      match net
      case NetError => (Response(503, OfflineText), s)
      case Reply(r) =>
        if Ok(r) then
          PutThenMatchAll(Open(s, CacheName), CacheName, url, r);
          OpenKeepsMatches(s, CacheName, url);
          (r, Put(Open(s, CacheName), CacheName, url, r))
        else (r, s)
  }

  lemma OpenKeepsMatches(s: Storage, name: string, url: string)
    ensures MatchAll(Open(s, name), url) == MatchAll(s, url)
  {
    if !HasCache(s, name) {
      MatchAllAppendEmpty(s, name, url);
    }
  }

  lemma {:induction false} MatchAllAppendEmpty(s: Storage, name: string, url: string)
    ensures MatchAll(s + [NamedCache(name, map[])], url) == MatchAll(s, url)
    decreases |s|
  {
    if |s| > 0 {
      assert (s + [NamedCache(name, map[])])[1..] == s[1..] + [NamedCache(name, map[])];
      MatchAllAppendEmpty(s[1..], name, url);
    }
  }

  /** A second cacheFirst after an ok miss is a hit for the same response,
      whatever the network does then. */
  lemma CacheFirstCachesOk(s: Storage, url: string, r: Response, later: NetOutcome)
    requires MatchAll(s, url).None? && Ok(r)
    ensures CacheFirstFetch(CacheFirstFetch(s, url, Reply(r)).1, url, later).0 == r
  {
  }

  /** networkFirst: the network's response (stored when ok); on failure the
      first cached response, else the offline page with status 200. */
  function NetworkFirstFetch(s: Storage, url: string, net: NetOutcome): (res: (Response, Storage))
    ensures net.Reply? ==> res.0 == net.response
    ensures net.Reply? && Ok(net.response) ==> res.1 == Put(Open(s, CacheName), CacheName, url, net.response)
    ensures net.Reply? && !Ok(net.response) ==> res.1 == s
    ensures net.NetError? ==> res.1 == s
    ensures net.NetError? && MatchAll(s, url).Some? ==> res.0 == MatchAll(s, url).value
    ensures net.NetError? && MatchAll(s, url).None? ==> res.0 == Response(200, OfflinePage)
  {
    match net
    case Reply(r) =>
      if Ok(r) then (r, Put(Open(s, CacheName), CacheName, url, r)) else (r, s)
    case NetError =>
      match MatchAll(s, url)
      case Some(cached) => (cached, s)
      case None => (Response(200, OfflinePage), s)
  }

  /** Going offline after one ok visit to a page no cache held shows that
      page again instead of the offline page. */
  lemma NetworkFirstServesLastOnline(s: Storage, url: string, r: Response)
    requires MatchAll(s, url).None? && Ok(r)
    ensures NetworkFirstFetch(NetworkFirstFetch(s, url, Reply(r)).1, url, NetError).0 == r
  {
    OpenKeepsMatches(s, CacheName, url);
    PutThenMatchAll(Open(s, CacheName), CacheName, url, r);
  }

  /** ...but a copy in a cache created earlier (the static cache filled at
      install) is found first: offline, the install-time copy is served
      even after a fresher ok visit. */
  lemma NetworkFirstPrefersEarlierCache(s: Storage, url: string, stale: Response, newer: Response)
    requires |s| >= 1 && s[0].name == StaticCacheName && url in s[0].entries && s[0].entries[url] == stale
    requires UniqueNames(s) && Ok(newer)
    ensures NetworkFirstFetch(NetworkFirstFetch(s, url, Reply(newer)).1, url, NetError).0 == stale
  {
    var t := Put(Open(s, CacheName), CacheName, url, newer);
    assert Open(s, CacheName)[0] == s[0];
    assert t[0] == s[0];
  }

  /** staleWhileRevalidate: open durks-v1 (creating it), answer with its
      cached copy when there is one, else with the network's response;
      an ok network response is stored either way. With neither, the
      handler's promise resolves to undefined (None): a network error. */
  function StaleWhileRevalidateFetch(s: Storage, url: string, net: NetOutcome): (res: (Option<Response>, Storage))
    ensures var withCache := Open(s, CacheName);
      && (MatchIn(withCache, CacheName, url).Some? ==> res.0 == MatchIn(withCache, CacheName, url))
      && (MatchIn(withCache, CacheName, url).None? && net.Reply? ==> res.0 == Some(net.response))
      && (MatchIn(withCache, CacheName, url).None? && net.NetError? ==> res.0.None?)
      && (net.Reply? && Ok(net.response) ==> res.1 == Put(withCache, CacheName, url, net.response))
      && (!(net.Reply? && Ok(net.response)) ==> res.1 == withCache)
  {
    var withCache := Open(s, CacheName);
    var cached := MatchIn(withCache, CacheName, url);
    var after := if net.Reply? && Ok(net.response) then Put(withCache, CacheName, url, net.response) else withCache;
    var fromFetch := if net.Reply? then Some(net.response) else cached;
    (if cached.Some? then cached else fromFetch, after)
  }

  /** The stale copy is served while the newer one is stored: the next
      request sees the newer response, even offline. */
  lemma StaleThenFresh(s: Storage, url: string, newer: Response)
    requires UniqueNames(s) && Ok(newer)
    ensures StaleWhileRevalidateFetch(StaleWhileRevalidateFetch(s, url, Reply(newer)).1, url, NetError).0
            == Some(newer)
  {
    var t := StaleWhileRevalidateFetch(s, url, Reply(newer)).1;
    PutThenMatchIn(Open(s, CacheName), CacheName, url, newer);
    assert Open(t, CacheName) == t;
  }

  /** The response the fetch listener gives the page, if it calls respondWith. */
  datatype Handled = NotHandled | Responded(response: Response) | NetworkErrorResponse

  function HandleFetch(s: Storage, req: Request, net: NetOutcome): (res: (Handled, Storage))
    ensures Route(req) == PassThrough <==> res.0 == NotHandled
    ensures Route(req) == PassThrough ==> res.1 == s
    ensures Route(req) == CacheFirst ==>
      res == (Responded(CacheFirstFetch(s, req.url, net).0), CacheFirstFetch(s, req.url, net).1)
    ensures Route(req) == NetworkFirst ==>
      res == (Responded(NetworkFirstFetch(s, req.url, net).0), NetworkFirstFetch(s, req.url, net).1)
    ensures Route(req) == StaleWhileRevalidate ==>
      && res.1 == StaleWhileRevalidateFetch(s, req.url, net).1
      && (StaleWhileRevalidateFetch(s, req.url, net).0.Some? ==>
            res.0 == Responded(StaleWhileRevalidateFetch(s, req.url, net).0.value))
      && (StaleWhileRevalidateFetch(s, req.url, net).0.None? ==> res.0 == NetworkErrorResponse)
  {
    match Route(req)
    case PassThrough => (NotHandled, s)
    case CacheFirst =>
      var (r, t) := CacheFirstFetch(s, req.url, net);
      (Responded(r), t)
    case NetworkFirst =>
      var (r, t) := NetworkFirstFetch(s, req.url, net);
      (Responded(r), t)
    case StaleWhileRevalidate =>
      var (r, t) := StaleWhileRevalidateFetch(s, req.url, net);
      (if r.Some? then Responded(r.value) else NetworkErrorResponse, t)
  }

  /** The page gets a network error only from stale-while-revalidate, when
      durks-v1 has no copy and the network fails; every other handled
      request is answered with a response. */
  lemma NetworkErrorOnlyOnStaleMiss(s: Storage, req: Request, net: NetOutcome)
    ensures HandleFetch(s, req, net).0 == NetworkErrorResponse <==>
      Route(req) == StaleWhileRevalidate && net.NetError?
      && MatchIn(Open(s, CacheName), CacheName, req.url).None?
  {
  }

  // ---------------------------------------------------------------------
  // Install and activate

  function AllOk(outcomes: seq<NetOutcome>): bool {
    forall i :: 0 <= i < |outcomes| ==> outcomes[i].Reply? && Ok(outcomes[i].response)
  }

  /** Puts every asset's response into the named cache. */
  function PutAll(s: Storage, name: string, urls: seq<string>, outcomes: seq<NetOutcome>): Storage
    requires |urls| == |outcomes| && AllOk(outcomes)
    decreases |urls|
  {
    if |urls| == 0 then s
    else PutAll(Put(s, name, urls[0], outcomes[0].response), name, urls[1..], outcomes[1..])
  }

  /** install: open the static cache, then addAll, which stores every asset
      or, when one fetch fails or is not ok, none; skipWaiting is called
      only after a complete addAll. The URLs are resolved against origin. */
  function Install(s: Storage, origin: string, outcomes: seq<NetOutcome>): (res: (Storage, bool))
    requires |outcomes| == |StaticAssets|
    ensures res.1 <==> AllOk(outcomes)
    ensures !res.1 ==> res.0 == Open(s, StaticCacheName)
    ensures HasCache(res.0, StaticCacheName)
    ensures |res.0| == |Open(s, StaticCacheName)|
    ensures forall i :: 0 <= i < |res.0| ==> res.0[i].name == Open(s, StaticCacheName)[i].name
    ensures forall i :: 0 <= i < |s| && s[i].name != StaticCacheName ==> res.0[i] == s[i]
  {
    var withCache := Open(s, StaticCacheName);
    if AllOk(outcomes) then
      var urls := seq(|StaticAssets|, i requires 0 <= i < |StaticAssets| => origin + StaticAssets[i]);
      PutAllKeepsNames(withCache, StaticCacheName, urls, outcomes);
      (PutAll(withCache, StaticCacheName, urls, outcomes), true)
    else (withCache, false)
  }

  lemma {:induction false} PutAllKeepsNames(s: Storage, name: string, urls: seq<string>, outcomes: seq<NetOutcome>)
    requires |urls| == |outcomes| && AllOk(outcomes)
    ensures |PutAll(s, name, urls, outcomes)| == |s|
    ensures forall i :: 0 <= i < |s| ==> PutAll(s, name, urls, outcomes)[i].name == s[i].name
    ensures forall i :: 0 <= i < |s| && s[i].name != name ==> PutAll(s, name, urls, outcomes)[i] == s[i]
    decreases |urls|
  {
    if |urls| > 0 {
      var t := Put(s, name, urls[0], outcomes[0].response);
      assert AllOk(outcomes[1..]) by {
        forall i | 0 <= i < |outcomes[1..]|
          ensures outcomes[1..][i].Reply? && Ok(outcomes[1..][i].response)
        {
          assert outcomes[1..][i] == outcomes[i + 1];
        }
      }
      PutAllKeepsNames(t, name, urls[1..], outcomes[1..]);
    }
  }

  /** A put for another URL, or into another cache, leaves a match alone. */
  lemma {:induction false} PutKeepsOtherMatch(s: Storage, name: string, url: string, other: string, r: Response)
    requires other != url
    ensures MatchIn(Put(s, name, other, r), name, url) == MatchIn(s, name, url)
    decreases |s|
  {
    if |s| > 0 {
      assert Put(s, name, other, r)[1..] == Put(s[1..], name, other, r);
      PutKeepsOtherMatch(s[1..], name, url, other, r);
    }
  }

  lemma {:induction false} PutAllKeepsOtherMatch(s: Storage, name: string, urls: seq<string>,
                                                 outcomes: seq<NetOutcome>, url: string)
    requires |urls| == |outcomes| && AllOk(outcomes) && url !in urls
    ensures MatchIn(PutAll(s, name, urls, outcomes), name, url) == MatchIn(s, name, url)
    decreases |urls|
  {
    if |urls| > 0 {
      AllOkTail(outcomes);
      PutKeepsOtherMatch(s, name, url, urls[0], outcomes[0].response);
      PutAllKeepsOtherMatch(Put(s, name, urls[0], outcomes[0].response), name, urls[1..], outcomes[1..], url);
    }
  }

  lemma AllOkTail(outcomes: seq<NetOutcome>)
    requires |outcomes| > 0 && AllOk(outcomes)
    ensures AllOk(outcomes[1..])
  {
    forall i | 0 <= i < |outcomes[1..]|
      ensures outcomes[1..][i].Reply? && Ok(outcomes[1..][i].response)
    {
      assert outcomes[1..][i] == outcomes[i + 1];
    }
  }

  /** With distinct URLs, every stored response is found afterwards. */
  lemma {:induction false} PutAllFinds(s: Storage, name: string, urls: seq<string>,
                                       outcomes: seq<NetOutcome>, i: nat)
    requires |urls| == |outcomes| && AllOk(outcomes) && i < |urls|
    requires UniqueNames(s) && HasCache(s, name)
    requires forall a, b :: 0 <= a < b < |urls| ==> urls[a] != urls[b]
    ensures MatchIn(PutAll(s, name, urls, outcomes), name, urls[i]) == Some(outcomes[i].response)
    decreases |urls|
  {
    var t := Put(s, name, urls[0], outcomes[0].response);
    AllOkTail(outcomes);
    assert PutAll(s, name, urls, outcomes) == PutAll(t, name, urls[1..], outcomes[1..]);
    if i == 0 {
      PutThenMatchIn(s, name, urls[0], outcomes[0].response);
      assert urls[0] !in urls[1..] by {
        forall j | 0 <= j < |urls[1..]| ensures urls[1..][j] != urls[0] {
          assert urls[1..][j] == urls[j + 1];
        }
      }
      PutAllKeepsOtherMatch(t, name, urls[1..], outcomes[1..], urls[0]);
    } else {
      assert UniqueNames(t);
      assert HasCache(t, name) by {
        var k :| 0 <= k < |s| && s[k].name == name;
        assert t[k].name == name;
      }
      assert forall a, b :: 0 <= a < b < |urls[1..]| ==> urls[1..][a] != urls[1..][b] by {
        forall a, b | 0 <= a < b < |urls[1..]| ensures urls[1..][a] != urls[1..][b] {
          assert urls[1..][a] == urls[a + 1] && urls[1..][b] == urls[b + 1];
        }
      }
      PutAllFinds(t, name, urls[1..], outcomes[1..], i - 1);
      assert urls[1..][i - 1] == urls[i] && outcomes[1..][i - 1] == outcomes[i];
    }
  }

  /** A complete install makes every static asset available from the
      static cache. */
  lemma InstallStoresAssets(s: Storage, origin: string, outcomes: seq<NetOutcome>, i: nat)
    requires |outcomes| == |StaticAssets| && AllOk(outcomes) && UniqueNames(s) && i < |StaticAssets|
    ensures MatchIn(Install(s, origin, outcomes).0, StaticCacheName, origin + StaticAssets[i])
            == Some(outcomes[i].response)
  {
    var urls := seq(|StaticAssets|, k requires 0 <= k < |StaticAssets| => origin + StaticAssets[k]);
    forall a, b | 0 <= a < b < |urls| ensures urls[a] != urls[b] {
      assert urls[a][|origin|..] == StaticAssets[a];
      assert urls[b][|origin|..] == StaticAssets[b];
    }
    PutAllFinds(Open(s, StaticCacheName), StaticCacheName, urls, outcomes, i);
    assert urls[i] == origin + StaticAssets[i];
  }

  /** A complete install stores only the static assets: a match in the
      static cache for any other URL is what it was before. */
  lemma InstallAddsOnlyAssets(s: Storage, origin: string, outcomes: seq<NetOutcome>, url: string)
    requires |outcomes| == |StaticAssets| && AllOk(outcomes)
    requires forall i :: 0 <= i < |StaticAssets| ==> url != origin + StaticAssets[i]
    ensures MatchIn(Install(s, origin, outcomes).0, StaticCacheName, url)
            == MatchIn(Open(s, StaticCacheName), StaticCacheName, url)
  {
    var urls := seq(|StaticAssets|, k requires 0 <= k < |StaticAssets| => origin + StaticAssets[k]);
    assert url !in urls;
    PutAllKeepsOtherMatch(Open(s, StaticCacheName), StaticCacheName, urls, outcomes, url);
  }

  /** activate: delete every cache but the two current ones, in order. */
  function Activate(s: Storage): (t: Storage)
    ensures forall c :: c in t <==> c in s && (c.name == CacheName || c.name == StaticCacheName)
    ensures |t| <= |s|
  {
    if |s| == 0 then []
    else if s[0].name == CacheName || s[0].name == StaticCacheName then [s[0]] + Activate(s[1..])
    else Activate(s[1..])
  }

  predicate IsCurrent(c: NamedCache) {
    c.name == CacheName || c.name == StaticCacheName
  }

  /** Activate is an order-preserving filter: it works cache by cache, so
      the kept caches stay in their creation order. */
  lemma {:induction false} ActivateKeepsOrder(a: Storage, b: Storage)
    ensures Activate(a + b) == Activate(a) + Activate(b)
    ensures forall c :: Activate([c]) == (if IsCurrent(c) then [c] else [])
    decreases |a|
  {
    if |a| > 0 {
      assert (a + b)[0] == a[0];
      assert (a + b)[1..] == a[1..] + b;
      ActivateKeepsOrder(a[1..], b);
    } else {
      assert a + b == b;
    }
    forall c ensures Activate([c]) == (if IsCurrent(c) then [c] else []) {
      assert [c][1..] == [];
    }
  }

  /** When no pruned cache holds url, caches.match finds after activate
      what it found before, since the survivors keep their order. */
  lemma {:induction false} ActivateKeepsMatches(s: Storage, url: string)
    requires forall i :: 0 <= i < |s| && !IsCurrent(s[i]) ==> url !in s[i].entries
    ensures MatchAll(Activate(s), url) == MatchAll(s, url)
    decreases |s|
  {
    if |s| > 0 {
      assert forall i :: 0 <= i < |s[1..]| && !IsCurrent(s[1..][i]) ==> url !in s[1..][i].entries by {
        forall i | 0 <= i < |s[1..]| && !IsCurrent(s[1..][i]) ensures url !in s[1..][i].entries {
          assert s[1..][i] == s[i + 1];
        }
      }
      ActivateKeepsMatches(s[1..], url);
      if IsCurrent(s[0]) {
        assert ([s[0]] + Activate(s[1..]))[1..] == Activate(s[1..]);
      }
    }
  }

  /** Activating twice deletes nothing more. */
  lemma {:induction false} ActivateIdempotent(s: Storage)
    ensures Activate(Activate(s)) == Activate(s)
    decreases |s|
  {
    if |s| > 0 {
      ActivateIdempotent(s[1..]);
      if s[0].name == CacheName || s[0].name == StaticCacheName {
        assert ([s[0]] + Activate(s[1..]))[1..] == Activate(s[1..]);
      }
    }
  }

  /** A failed install still leaves an (empty) static cache behind, and an
      activate afterwards keeps it. */
  lemma FailedInstallLeavesStaticCache(s: Storage, origin: string, outcomes: seq<NetOutcome>)
    requires |outcomes| == |StaticAssets| && !AllOk(outcomes) && !HasCache(s, StaticCacheName)
    ensures var t := Install(s, origin, outcomes).0;
      t == s + [NamedCache(StaticCacheName, map[])] && NamedCache(StaticCacheName, map[]) in Activate(t)
  {
  }
}
