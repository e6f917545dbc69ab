/** The in-page interception guard of `AdvancedAdBlocker`: a pure URL
    classifier, the wrappers it installs over the browser globals, and the
    click, DOM-insertion, message and unload listeners that consult it.

    The browser globals are the fields of a `Window` object. A global
    function is an opaque handler: either the browser's own (a token) or the
    guard's wrapper around the handler it replaced. The WHATWG URL parser
    behind `new URL(url).origin` is the function value `originOf` of an
    `Env`; `None` stands for the `TypeError` it throws on an unparsable
    string. */
module AdBlocker {
  import opened Wrappers
  import opened Text

  /** Substrings that mark a URL as an ad, tracker or redirector. */
  const BlockedPatterns: seq<string> := [
    "acscdn.com", "dtscout.com", "vidsrc-embed.ru", "googlesyndication",
    "doubleclick", "googletagmanager", "googleadservices",
    "/ads/", "/ad/", "/advert", "/banner", "/popup", "/popunder", "/redirect",
    "/click/", "/track/", "/analytics", "/telemetry", "/beacon", "/pixel",
    "/impression", "/aff/", "/out/", "/go/",
    "taboola", "outbrain", "criteo", "adnxs", "adsystem", "adserver", "advertising"
  ]

  /** Substrings that mark a URL as trusted, checked before anything else. */
  const WhitelistPatterns: seq<string> := [
    "/api/", "vidsrc.to", "vidsrc.me", "vidsrc.pm", "youtube.com", "ytimg.com"
  ]

  /** Redirector substrings the unload listener looks for in a link. */
  const SuspiciousPatterns: seq<string> := [
    "/go/", "/out/", "/click/", "/track/", "/redirect/", "/aff/", "/away/",
    "/exit/", "short.link", "bit.ly", "tinyurl"
  ]

  /** Keywords that mark an inserted element as ad furniture by class or id. */
  const AdKeywords: seq<string> := ["ad", "banner", "popup", "overlay"]

  /** Clicks closer together than this many milliseconds are cancelled. */
  const RapidClickWindow: int := 100

  /** The message a blocked fetch rejects with. */
  const BlockedMessage: string := "Blocked by ad blocker"

  /** What `shouldBlock` reads besides its argument: the page's own origin
      (`window.location.origin`) and the URL parser. */
  datatype Env = Env(pageOrigin: string, originOf: string -> Option<string>)

  /** `shouldBlock(url)`: whitelist first, then the parse (failure blocks),
      then the same-origin test, then the block list. */
  function ShouldBlock(url: string, env: Env): (r: bool)
    ensures IncludesAny(ToLower(url), WhitelistPatterns) ==> !r
    ensures !IncludesAny(ToLower(url), WhitelistPatterns) && env.originOf(url).None? ==> r
    ensures env.originOf(url) == Some(env.pageOrigin) ==> !r
    ensures (!IncludesAny(ToLower(url), WhitelistPatterns) && env.originOf(url).Some? &&
             env.originOf(url).value != env.pageOrigin) ==> (r <==> IncludesAny(ToLower(url), BlockedPatterns))
  {
    var lower := ToLower(url);
    if IncludesAny(lower, WhitelistPatterns) then false
    else match env.originOf(url)
      case None => true
      case Some(origin) => if origin == env.pageOrigin then false else IncludesAny(lower, BlockedPatterns)
  }

  /** A string whose lower-case form holds a whitelist pattern is never
      blocked, whatever block patterns it also holds and whether or not it
      parses. */
  lemma WhitelistWins(url: string, env: Env, k: nat)
    requires k < |WhitelistPatterns| && Includes(ToLower(url), WhitelistPatterns[k])
    ensures !ShouldBlock(url, env)
  {
  }

  /** A string that holds no whitelist pattern and does not parse is blocked. */
  lemma UnparsableBlocked(url: string, env: Env)
    requires env.originOf(url).None?
    ensures ShouldBlock(url, env) <==> !IncludesAny(ToLower(url), WhitelistPatterns)
  {
  }

  /** A parsable URL with the page's own origin is never blocked. */
  lemma SameOriginAllowed(url: string, env: Env)
    requires env.originOf(url) == Some(env.pageOrigin)
    ensures !ShouldBlock(url, env)
  {
  }

  /** Every other URL is blocked exactly when its lower-case form holds a
      block pattern. */
  lemma ForeignOriginVerdict(url: string, env: Env)
    requires !IncludesAny(ToLower(url), WhitelistPatterns)
    requires env.originOf(url).Some? && env.originOf(url).value != env.pageOrigin
    ensures ShouldBlock(url, env) <==>
      exists k :: 0 <= k < |BlockedPatterns| && Includes(ToLower(url), BlockedPatterns[k])
  {
  }

  /** If `q` occurs in `s`, its lower-case form occurs in the lower-case form of `s`. */
  lemma IncludesLowered(s: string, q: string)
    ensures Includes(s, q) ==> Includes(ToLower(s), ToLower(q))
  {
    IncludesIff(s, q);
    if Includes(s, q) {
      var i :| OccursAt(s, q, i);
      ToLowerSlice(s, i, i + |q|);
      IncludesFromOccurrence(ToLower(s), ToLower(q), i);
    }
  }

  /** Matching ignores case: a URL holding any upper/lower-case spelling `q`
      of a block pattern counts as holding that pattern, and one holding a
      spelling of a whitelist pattern is never blocked. */
  lemma CaseInsensitiveMatching(url: string, q: string, env: Env)
    ensures (exists k :: 0 <= k < |BlockedPatterns| && ToLower(q) == BlockedPatterns[k]) && Includes(url, q)
      ==> IncludesAny(ToLower(url), BlockedPatterns)
    ensures (exists k :: 0 <= k < |WhitelistPatterns| && ToLower(q) == WhitelistPatterns[k]) && Includes(url, q)
      ==> !ShouldBlock(url, env)
  {
    IncludesLowered(url, q);
  }

  // Lowering a string literal inside a larger proof is costly for the
  // solver, so each sample's lower-case form is proved on its own here.
  lemma LowerSampleWhitelisted(url: string)
    requires url == "https://vidsrc.to/ads/x"
    ensures ToLower(url) == url
  {
  }

  lemma LowerSampleMalformed(url: string)
    requires url == "not a url"
    ensures ToLower(url) == url
  {
  }

  lemma LowerSampleAdNetwork(url: string)
    requires url == "https://doubleclick.net/x"
    ensures ToLower(url) == url
  {
  }

  /** The sample ad-network URL holds the block pattern `doubleclick`. */
  lemma AdNetworkSample(url: string)
    requires url == "https://doubleclick.net/x"
    ensures IncludesAny(url, BlockedPatterns)
  {
    assert url[8..19] == "doubleclick" == BlockedPatterns[4];
    assert OccursAt(url, BlockedPatterns[4], 8);
    IncludesFromOccurrence(url, BlockedPatterns[4], 8);
  }

  /** No whitelist pattern occurs in a string without `/`, `v` and `y`. */
  lemma NoWhitelistWithout(s: string)
    requires '/' !in s || 'a' !in s
    requires 'v' !in s && 'y' !in s
    ensures !IncludesAny(s, WhitelistPatterns)
  {
    if '/' !in s {
      IncludesChars(s, "/api/", 0);
    } else {
      IncludesChars(s, "/api/", 1);
    }
    IncludesChars(s, "vidsrc.to", 0);
    IncludesChars(s, "vidsrc.me", 0);
    IncludesChars(s, "vidsrc.pm", 0);
    IncludesChars(s, "youtube.com", 0);
    IncludesChars(s, "ytimg.com", 0);
    assert WhitelistPatterns == ["/api/", "vidsrc.to", "vidsrc.me", "vidsrc.pm", "youtube.com", "ytimg.com"];
  }

  /** A whitelisted embed URL is allowed although it also holds `/ads/`. */
  lemma ExampleWhitelistedAdPath(url: string, env: Env)
    requires url == "https://vidsrc.to/ads/x"
    ensures !ShouldBlock(url, env)
  {
    LowerSampleWhitelisted(url);
    assert OccursAt(url, "vidsrc.to", 8);
    IncludesFromOccurrence(url, "vidsrc.to", 8);
    WhitelistWins(url, env, 1);
  }

  /** A string that is not a URL at all is blocked. */
  lemma ExampleMalformedBlocked(url: string, env: Env)
    requires url == "not a url" && env.originOf(url).None?
    ensures ShouldBlock(url, env)
  {
    LowerSampleMalformed(url);
    NoWhitelistWithout(url);
    UnparsableBlocked(url, env);
  }

  /** An ad-network URL on a foreign origin is blocked. */
  lemma ExampleAdNetworkBlocked(url: string, env: Env)
    requires url == "https://doubleclick.net/x"
    requires env.originOf(url) == Some("https://doubleclick.net")
    requires env.pageOrigin != "https://doubleclick.net"
    ensures ShouldBlock(url, env)
  {
    LowerSampleAdNetwork(url);
    NoWhitelistWithout(url);
    AdNetworkSample(url);
    ForeignOriginVerdict(url, env);
  }

  // ---------------------------------------------------------------------
  // The wrapped browser globals

  /** The first argument of `fetch`: a string, a `URL` object or a `Request`. */
  datatype FetchInput = StringInput(s: string) | UrlObject(href: string) | RequestObject(url: string)

  /** A call of `fetch`: its input and the opaque `init` options. */
  datatype FetchCall = FetchCall(input: FetchInput, init: nat)

  /** The URL the wrapped fetch classifies: the string itself, the `URL`'s
      `toString()`, or the request's `url`. */
  function RequestUrl(input: FetchInput): string {
    match input
    case StringInput(s) => s
    case UrlObject(href) => href
    case RequestObject(url) => url
  }

  /** What `window.fetch` holds: the browser's function, or the guard's
      wrapper around the function it replaced. */
  datatype FetchFn = NativeFetch(token: nat) | GuardedFetch(original: FetchFn)

  /** The outcome of a fetch call: a rejected promise, or the browser's
      function called with the given arguments. */
  datatype FetchOutcome = Rejected(message: string) | Dispatched(token: nat, call: FetchCall)

  /** The browser function at the bottom of a chain of wrappers. */
  function FetchRoot(f: FetchFn): nat {
    match f
    case NativeFetch(t) => t
    case GuardedFetch(o) => FetchRoot(o)
  }

  /** Calling `f(...args)`. A wrapper rejects a blocked URL and otherwise
      calls the function it saved with the same arguments. Through any chain
      of wrappers, the call is rejected exactly when some wrapper is present
      and the URL is blocked, and otherwise reaches the browser function
      unchanged. */
  function Fetch(f: FetchFn, call: FetchCall, env: Env): (r: FetchOutcome)
    ensures r == if f.GuardedFetch? && ShouldBlock(RequestUrl(call.input), env)
                 then Rejected(BlockedMessage) else Dispatched(FetchRoot(f), call)
  {
    match f
    case NativeFetch(t) => Dispatched(t, call)
    case GuardedFetch(original) =>
      if ShouldBlock(RequestUrl(call.input), env) then Rejected(BlockedMessage)
      else Fetch(original, call, env)
  }

  /** Wrapping an already wrapped fetch again changes no outcome. */
  lemma {:induction false} DoubleGuardedFetch(f: FetchFn, call: FetchCall, env: Env)
    ensures Fetch(GuardedFetch(GuardedFetch(f)), call, env) == Fetch(GuardedFetch(f), call, env)
  {
  }

  /** What `window.XMLHttpRequest` holds. */
  datatype XhrCtor = NativeXhr(token: nat) | GuardedXhr(original: XhrCtor)

  /** The outcome of `xhr.open(method, url, ...rest)` (the method is `verb`
      here, `rest` the optional `async`, `user` and `password`, rendered as
      strings): not forwarded, or forwarded to the browser's `open` with the
      same arguments. */
  datatype XhrOpenOutcome = OpenSkipped | OpenForwarded(token: nat, verb: string, url: string, rest: seq<string>)

  function XhrRoot(c: XhrCtor): nat {
    match c
    case NativeXhr(t) => t
    case GuardedXhr(o) => XhrRoot(o)
  }

  /** `new XMLHttpRequest().open(method, url, ...rest)`: a wrapped request
      skips the browser's `open` for a blocked URL and otherwise forwards
      every argument. */
  function XhrOpen(c: XhrCtor, verb: string, url: string, rest: seq<string>, env: Env): (r: XhrOpenOutcome)
    ensures r == if c.GuardedXhr? && ShouldBlock(url, env)
                 then OpenSkipped else OpenForwarded(XhrRoot(c), verb, url, rest)
  {
    match c
    case NativeXhr(t) => OpenForwarded(t, verb, url, rest)
    case GuardedXhr(original) =>
      if ShouldBlock(url, env) then OpenSkipped else XhrOpen(original, verb, url, rest, env)
  }

  /** What `window.open` holds. */
  datatype OpenFn = NativeOpen(token: nat) | GuardedOpen(original: OpenFn)

  /** A call of `window.open`: the first argument after `?.toString()`
      (`None` when it is absent) and the opaque remaining arguments. */
  datatype OpenCall = OpenCall(url: Option<string>, rest: nat)

  /** The outcome of `window.open`: `null`, or the browser's function
      called with the same arguments. */
  datatype OpenOutcome = NoWindow | Opened(token: nat, call: OpenCall)

  function OpenRoot(o: OpenFn): nat {
    match o
    case NativeOpen(t) => t
    case GuardedOpen(inner) => OpenRoot(inner)
  }

  /** The popup veto: only an empty (or absent) URL and `about:blank` are
      forwarded; every other URL yields `null`. */
  function WindowOpen(o: OpenFn, call: OpenCall): (r: OpenOutcome)
    ensures var url := call.url.GetOr("");
            r == if o.GuardedOpen? && url != "" && url != "about:blank"
                 then NoWindow else Opened(OpenRoot(o), call)
  {
    match o
    case NativeOpen(t) => Opened(t, call)
    case GuardedOpen(inner) =>
      var url := call.url.GetOr("");
      if url != "" && url != "about:blank" then NoWindow else WindowOpen(inner, call)
  }

  /** The listeners and observers the guard registers; they are never removed. */
  datatype Hook = UnloadListener | ClickListener | MutationSentinel | MessageListener

  /** The hooks one construction registers, in `init`'s order. */
  const GuardHooks: seq<Hook> := [UnloadListener, ClickListener, MutationSentinel, MessageListener]

  /** The browser globals the guard touches, and the document as the set of
      keys of the elements attached to it. */
  class Window {
    var fetch: FetchFn
    var xmlHttpRequest: XhrCtor
    var open: OpenFn
    var hooks: seq<Hook>
    var attached: set<nat>
    const locationOrigin: string

    constructor(fetch: FetchFn, xmlHttpRequest: XhrCtor, open: OpenFn, locationOrigin: string, attached: set<nat>)
      ensures this.fetch == fetch && this.xmlHttpRequest == xmlHttpRequest && this.open == open
      ensures this.locationOrigin == locationOrigin && this.attached == attached && hooks == []
    {
      this.fetch := fetch;
      this.xmlHttpRequest := xmlHttpRequest;
      this.open := open;
      this.locationOrigin := locationOrigin;
      this.attached := attached;
      hooks := [];
    }
  }

  // ---------------------------------------------------------------------
  // Listeners

  /** The target of a click: its tag name and, for an anchor, its resolved href. */
  datatype ClickTarget = ClickTarget(tagName: string, href: string)

  /** A node in a mutation's `addedNodes`. Only element nodes (`nodeType`
      1) are inspected; `src` is `getAttribute('src')`. */
  datatype Node = Node(key: nat, nodeType: int, tagName: string, src: Option<string>, className: string, id: string)

  /** One mutation record: the nodes it added. */
  datatype MutationRecord = MutationRecord(addedNodes: seq<Node>)

  /** The iframe test: an `IFRAME` whose non-empty `src` is blocked. */
  function IsBlockedIframe(n: Node, env: Env): (r: bool)
    ensures r ==> n.tagName == "IFRAME" && n.src.Some? && !IncludesAny(ToLower(n.src.value), WhitelistPatterns)
    ensures n.src.Some? && env.originOf(n.src.value) == Some(env.pageOrigin) ==> !r
    ensures (n.tagName == "IFRAME" && n.src.Some? && n.src.value != "" &&
             !IncludesAny(ToLower(n.src.value), WhitelistPatterns) && env.originOf(n.src.value).None?) ==> r
    ensures (n.tagName == "IFRAME" && n.src.Some? && n.src.value != "" &&
             !IncludesAny(ToLower(n.src.value), WhitelistPatterns) && env.originOf(n.src.value).Some? &&
             env.originOf(n.src.value).value != env.pageOrigin) ==>
      (r <==> IncludesAny(ToLower(n.src.value), BlockedPatterns))
  {
    n.tagName == "IFRAME" && n.src.Some? && n.src.value != "" && ShouldBlock(n.src.value, env)
  }

  /** The keyword test: some keyword occurs in the lower-cased class name
      or in the lower-cased id. */
  function HasAdKeyword(n: Node): (r: bool)
    ensures r <==> IncludesAny(ToLower(n.className), AdKeywords) || IncludesAny(ToLower(n.id), AdKeywords)
    ensures n.className == "" && n.id == "" ==> !r
    ensures Includes(ToLower(n.className), "ad") || Includes(ToLower(n.id), "ad") ==> r
  {
    assert AdKeywords[0] == "ad";
    assert forall k :: 0 <= k < |AdKeywords| ==> |AdKeywords[k]| >= 2;
    exists k :: 0 <= k < |AdKeywords| &&
      (Includes(ToLower(n.className), AdKeywords[k]) || Includes(ToLower(n.id), AdKeywords[k]))
  }

  /** The sentinel removes an inserted element when either test holds. */
  function ShouldRemove(n: Node, env: Env): (r: bool)
    ensures n.nodeType != 1 ==> !r
    ensures n.className == "" && n.id == "" && (n.tagName != "IFRAME" || n.src.None?) ==> !r
    ensures n.nodeType == 1 && (Includes(ToLower(n.className), "ad") || Includes(ToLower(n.id), "ad")) ==> r
    ensures n.nodeType == 1 && IsBlockedIframe(n, env) ==> r
  {
    n.nodeType == 1 && (IsBlockedIframe(n, env) || HasAdKeyword(n))
  }

  /** The keys of the nodes in `nodes` that the sentinel removes. */
  function RemovedNodes(nodes: seq<Node>, env: Env): (r: set<nat>)
    ensures forall key :: key in r <==> exists j :: 0 <= j < |nodes| && nodes[j].key == key && ShouldRemove(nodes[j], env)
  {
    if nodes == [] then {}
    else
      var last := nodes[|nodes| - 1];
      RemovedNodes(nodes[..|nodes| - 1], env) + (if ShouldRemove(last, env) then {last.key} else {})
  }

  /** The keys of the nodes a batch of mutation records makes the sentinel remove. */
  function RemovedBy(mutations: seq<MutationRecord>, env: Env): (r: set<nat>)
    ensures forall i :: 0 <= i < |mutations| ==> RemovedNodes(mutations[i].addedNodes, env) <= r
  {
    if mutations == [] then {}
    else
      var n := |mutations| - 1;
      var front := mutations[..n];
      assert forall i :: 0 <= i < n ==> front[i] == mutations[i];
      RemovedBy(front, env) + RemovedNodes(mutations[n].addedNodes, env)
  }

  /** An element leaves the document exactly when some record of the batch
      added it and it fails the iframe or the keyword test. */
  lemma {:induction false} RemovedByIff(mutations: seq<MutationRecord>, env: Env, key: nat)
    ensures key in RemovedBy(mutations, env) <==>
      exists i, j :: 0 <= i < |mutations| && 0 <= j < |mutations[i].addedNodes| &&
        mutations[i].addedNodes[j].key == key && ShouldRemove(mutations[i].addedNodes[j], env)
  {
    if mutations != [] {
      var n := |mutations| - 1;
      var front := mutations[..n];
      RemovedByIff(front, env, key);
      if key in RemovedBy(mutations, env) {
        if key in RemovedBy(front, env) {
          var i, j :| 0 <= i < |front| && 0 <= j < |front[i].addedNodes| &&
            front[i].addedNodes[j].key == key && ShouldRemove(front[i].addedNodes[j], env);
          assert mutations[i] == front[i];
        } else {
          var j :| 0 <= j < |mutations[n].addedNodes| && mutations[n].addedNodes[j].key == key &&
            ShouldRemove(mutations[n].addedNodes[j], env);
        }
      }
      forall i, j | 0 <= i < |mutations| && 0 <= j < |mutations[i].addedNodes| &&
        mutations[i].addedNodes[j].key == key && ShouldRemove(mutations[i].addedNodes[j], env)
        ensures key in RemovedBy(mutations, env)
      {
        if i < n {
          assert front[i] == mutations[i];
        }
      }
    }
  }

  /** The message filter: a message whose lower-cased origin is blocked
      does not reach any other listener. */
  function MessageSuppressed(origin: string, env: Env): (r: bool)
    ensures env.originOf(ToLower(origin)) == Some(env.pageOrigin) ==> !r
    ensures IncludesAny(ToLower(origin), WhitelistPatterns) ==> !r
    ensures r ==> env.originOf(ToLower(origin)).None? || IncludesAny(ToLower(origin), BlockedPatterns)
    ensures !IncludesAny(ToLower(origin), WhitelistPatterns) && env.originOf(ToLower(origin)).None? ==> r
    ensures (!IncludesAny(ToLower(origin), WhitelistPatterns) && env.originOf(ToLower(origin)).Some? &&
             env.originOf(ToLower(origin)).value != env.pageOrigin) ==>
      (r <==> IncludesAny(ToLower(origin), BlockedPatterns))
  {
    var lower := ToLower(origin);
    ToLowerOfLower(lower);
    assert ToLower(lower) == lower by {
      ToLowerOfLower(origin);
    }
    ShouldBlock(lower, env)
  }

  /** A message from the page's own origin always gets through. */
  lemma SameOriginMessagePasses(origin: string, env: Env)
    requires env.originOf(ToLower(origin)) == Some(env.pageOrigin)
    ensures !MessageSuppressed(origin, env)
  {
  }

  // Lowering a string literal inside a larger proof is costly for the
  // solver, so each sample's lower-case form is proved on its own here.
  lemma LowerSampleNullOrigin(origin: string)
    requires origin == "null"
    ensures ToLower(origin) == origin
  {
  }

  /** A sandboxed frame posts with origin `null`, which does not parse as a
      URL, so all its messages are suppressed. */
  lemma NullOriginMessageSuppressed(origin: string, env: Env)
    requires origin == "null" && env.originOf(origin).None?
    ensures MessageSuppressed(origin, env)
  {
    LowerSampleNullOrigin(origin);
    NoWhitelistWithout(origin);
    UnparsableBlocked(origin, env);
  }

  /** The unload listener: cancel when the focused element's href is
      non-empty and holds a redirector pattern (matched case-sensitively). */
  function UnloadCancelled(activeHref: Option<string>): (r: bool)
    ensures r <==> (activeHref.Some? && activeHref.value != "" &&
                    exists k :: 0 <= k < |SuspiciousPatterns| && Includes(activeHref.value, SuspiciousPatterns[k]))
  {
    activeHref.Some? && activeHref.value != "" && IncludesAny(activeHref.value, SuspiciousPatterns)
  }

  // ---------------------------------------------------------------------
  // The guard object

  class AdvancedAdBlocker {
    const win: Window
    const env: Env
    const originalFetch: FetchFn
    const originalXhr: XhrCtor
    /** The click listener's closure variable. */
    var lastClickTime: int

    /** Saves the current fetch and XMLHttpRequest, then installs every
        interceptor: the two network wrappers, the popup veto, and the four
        hooks. Nothing prevents a second construction over the same window;
        it wraps the first guard's wrappers. */
    constructor(win: Window, originOf: string -> Option<string>)
      modifies win
      ensures this.win == win && env == Env(win.locationOrigin, originOf) && lastClickTime == 0
      ensures originalFetch == old(win.fetch) && originalXhr == old(win.xmlHttpRequest)
      ensures win.fetch == GuardedFetch(originalFetch)
      ensures win.xmlHttpRequest == GuardedXhr(originalXhr)
      ensures win.open == GuardedOpen(old(win.open))
      ensures win.hooks == old(win.hooks) + GuardHooks
      ensures win.attached == old(win.attached)
    {
      this.win := win;
      env := Env(win.locationOrigin, originOf);
      originalFetch := win.fetch;
      originalXhr := win.xmlHttpRequest;
      lastClickTime := 0;
      new;
      win.fetch := GuardedFetch(originalFetch);
      win.xmlHttpRequest := GuardedXhr(originalXhr);
      win.open := GuardedOpen(win.open);
      win.hooks := win.hooks + GuardHooks;
    }

    /** Restores fetch and XMLHttpRequest to the saved originals and changes
        nothing else: the popup veto and the hooks stay installed. */
    method Destroy()
      modifies win`fetch, win`xmlHttpRequest
      ensures win.fetch == originalFetch && win.xmlHttpRequest == originalXhr
    {
      win.fetch := originalFetch;
      win.xmlHttpRequest := originalXhr;
    }

    /** The click listener. A click within 100 ms of the last accepted click
        is cancelled and leaves the timestamp alone; any other click is
        accepted, records `now`, and is still cancelled when it lands on an
        anchor whose href is blocked. */
    method OnClick(now: int, target: ClickTarget) returns (cancelled: bool)
      modifies this`lastClickTime
      ensures now - old(lastClickTime) < RapidClickWindow ==> cancelled && lastClickTime == old(lastClickTime)
      ensures now - old(lastClickTime) >= RapidClickWindow ==>
        lastClickTime == now && cancelled == (target.tagName == "A" && ShouldBlock(target.href, env))
    {
      if now - lastClickTime < RapidClickWindow {
        return true;
      }
      lastClickTime := now;
      cancelled := target.tagName == "A" && ShouldBlock(target.href, env);
    }

    /** The mutation observer callback: every added element that fails the
        iframe or keyword test is removed from the document. */
    method OnMutations(mutations: seq<MutationRecord>)
      modifies win`attached
      ensures win.attached == old(win.attached) - RemovedBy(mutations, env)
    {
      var i := 0;
      while i < |mutations|
        invariant 0 <= i <= |mutations|
        invariant win.attached == old(win.attached) - RemovedBy(mutations[..i], env)
      {
        var nodes := mutations[i].addedNodes;
        var j := 0;
        while j < |nodes|
          invariant 0 <= j <= |nodes|
          invariant win.attached == old(win.attached) - RemovedBy(mutations[..i], env) - RemovedNodes(nodes[..j], env)
        {
          var node := nodes[j];
          if node.nodeType == 1 {
            if IsBlockedIframe(node, env) {
              win.attached := win.attached - {node.key};
            }
            if HasAdKeyword(node) {
              win.attached := win.attached - {node.key};
            }
          }
          assert nodes[..j + 1][..j] == nodes[..j];
          j := j + 1;
        }
        assert nodes[..j] == nodes;
        assert mutations[..i + 1][..i] == mutations[..i];
        i := i + 1;
      }
      assert mutations[..i] == mutations;
    }
  }

  /** The keyword test has false positives: a class name that merely holds
      the letters `ad`, such as `page-header`, gets an element removed. */
  lemma KeywordFalsePositive(n: Node, env: Env)
    requires n.nodeType == 1 && n.className == "page-header"
    ensures ShouldRemove(n, env)
  {
    assert ToLower("page-header") == "page-header";
    assert OccursAt(ToLower(n.className), AdKeywords[0], 7);
    IncludesFromOccurrence(ToLower(n.className), AdKeywords[0], 7);
  }

  /** An inserted iframe served from an ad network is removed, whatever its
      class name and id. */
  lemma AdNetworkIframeRemoved(n: Node, env: Env)
    requires n.nodeType == 1 && n.tagName == "IFRAME" && n.src == Some("https://doubleclick.net/x")
    requires env.originOf("https://doubleclick.net/x") == Some("https://doubleclick.net")
    requires env.pageOrigin != "https://doubleclick.net"
    ensures ShouldRemove(n, env)
  {
    ExampleAdNetworkBlocked(n.src.value, env);
  }

  /** An inserted iframe on a whitelisted ad path, without class name or
      id, stays in place although its path holds `/ads/`. */
  lemma WhitelistedAdIframeKept(n: Node, env: Env)
    requires n.src == Some("https://vidsrc.to/ads/x") && n.className == "" && n.id == ""
    ensures !ShouldRemove(n, env)
  {
    ExampleWhitelistedAdPath(n.src.value, env);
  }
}
