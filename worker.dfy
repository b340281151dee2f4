/** The request handling of cloudflare-worker.js: the `fetch` router, the concierge
    proxy and the guide download, as the responses they choose. The rate-limit cache is
    the store of `RateLimit`; the call to the language-model API is an outcome passed in
    (`Upstream`), and what the worker would send it is returned as an `UpstreamCall`.
    Response headers and bodies other than the fields named here are not modelled. */
module Worker {
  import opened Wrappers
  import Text
  import opened RateLimit
  import opened Prompts

  /** Concierge requests per client per hour; guide downloads per client per day. */
  const ConciergeLimit: int := 15
  const ConciergeWindow: int := 3600
  const PdfLimit: int := 5
  const PdfWindow: int := 86400

  /** The longest accepted message, in UTF-16 code units (JavaScript's `length`). */
  const MaxMessageLength: int := 500

  /** Where the guide lives when the environment names no other location. */
  const DefaultPdfUrl: string := "https://www.goiconicway.com/Your_Route_Your_Way_v10.pdf"

  /** The reply text used when the completion carries no content. */
  const NoResponse: string := "No response"

  /** A JSON request body: unreadable (not JSON, or the literal `null`, which cannot be
      destructured), or a value whose three fields are strings or absent. */
  datatype Body = Unreadable | Fields(message: Option<string>, mode: Option<string>, language: Option<string>)

  /** The parts of a request the worker looks at: its HTTP method (`verb`), the URL path,
      the `CF-Connecting-IP` header and the JSON body. */
  datatype Request = Request(verb: string, path: string, clientIP: Option<string>, body: Body)

  /** The worker's environment: the optional `PDF_URL` variable. */
  datatype Env = Env(pdfUrl: Option<string>)

  /** What the language-model API call comes back with: a network failure, a non-2xx
      status, a body that is not JSON, or a completion whose first choice's message content
      may be missing. */
  datatype Upstream = Unreachable | HttpError | BadJson | Completion(content: Option<string>)

  /** The request the concierge sends to the language-model API. */
  datatype UpstreamCall = UpstreamCall(prompt: PromptId, message: string)

  datatype Response =
    | Preflight
    | Health
    | NotFound
    | MethodNotAllowed
    | RateLimited
    | InvalidMessage
    | ServiceUnavailable
    | InternalError
    | Reply(text: string)
    | Redirect(location: string)

  /** The HTTP status of each response. */
  function Status(r: Response): int {
    match r
    case Preflight => 200
    case Health => 200
    case NotFound => 404
    case MethodNotAllowed => 405
    case RateLimited => 429
    case InvalidMessage => 400
    case ServiceUnavailable => 503
    case InternalError => 500
    case Reply(_) => 200
    case Redirect(_) => 302
  }

  /** What one request does: its response, the limiter store after it, and the API call
      it makes, if any. */
  datatype Outcome = Outcome(response: Response, store: map<string, int>, call: Option<UpstreamCall>)

  /** JavaScript's `x || fallback` on an optional string: absent and empty both fall back. */
  function OrElse(x: Option<string>, fallback: string): (r: string)
    ensures x.Some? && x.value != "" ==> r == x.value
    ensures x.None? || x.value == "" ==> r == fallback
  {
    if x.Some? && x.value != "" then x.value else fallback
  }

  /** The client's rate-limit identity: its address, or "unknown" when the header is
      missing or empty. */
  function ClientKey(ip: Option<string>): (k: string)
    ensures k != ""
    ensures ip.Some? && ip.value != "" ==> k == ip.value
    ensures ip.None? || ip.value == "" ==> k == "unknown"
  {
    OrElse(ip, "unknown")
  }

  /** The message passes validation: present, non-empty and at most 500 code units. */
  predicate ValidMessage(m: Option<string>) {
    m.Some? && m.value != "" && Text.Utf16Length(m.value) <= MaxMessageLength
  }

  /** The system prompt for a request body, with the defaults "route" and "en". */
  function ConciergePrompt(b: Body): (p: PromptId)
    requires b.Fields?
    ensures p == SystemPrompt(OrElse(b.mode, "route"), OrElse(b.language, "en"))
    ensures b.mode.None? ==> p.mode == Route
    ensures b.language.None? ==> p.lang == En
  {
    SystemPrompt(OrElse(b.mode, "route"), OrElse(b.language, "en"))
  }

  /** The lookup `getSystemPrompt` performs as written for a request body: it yields the
      prompt the concierge sends exactly when neither the mode nor the language (after
      their defaults) is a name inherited from `Object.prototype`. */
  lemma ConciergeLookupAsWritten(b: Body)
    requires b.Fields?
    ensures var mode, lang := OrElse(b.mode, "route"), OrElse(b.language, "en");
      SystemPromptAsWritten(mode, lang) == Prompt(ConciergePrompt(b)) <==>
        mode !in InheritedNames && lang !in InheritedNames
  {
    var mode, lang := OrElse(b.mode, "route"), OrElse(b.language, "en");
    if mode !in InheritedNames && lang !in InheritedNames {
      AsWrittenAgrees(mode, lang);
    }
  }

  /** The concierge's response to the outcome of the API call. */
  function ConciergeReply(u: Upstream): (r: Response)
    ensures Status(r) == 200 <==> u.Completion?
    ensures u.HttpError? <==> Status(r) == 503
    ensures u.Completion? ==> r == Reply(OrElse(u.content, NoResponse)) && r.text != ""
    ensures u.Unreachable? || u.BadJson? ==> r == InternalError && Status(r) == 500
  {
    match u
    case Unreachable => InternalError
    case HttpError => ServiceUnavailable
    case BadJson => InternalError
    case Completion(content) => Reply(OrElse(content, NoResponse))
  }

  /** The rate-limit budget a request is checked against. */
  datatype Budget = Budget(key: string, limit: int)

  /** The budget the worker consults for `req`, if it consults the limiter at all: only
      a POST to the concierge and a GET of the guide do, each under its own key prefix. */
  function Consulted(req: Request): (b: Option<Budget>)
    ensures b.Some? <==>
      req.verb != "OPTIONS" &&
      ((req.path == "/api/concierge" && req.verb == "POST") || (req.path == "/api/guide" && req.verb == "GET"))
    ensures b.Some? && req.path == "/api/concierge" ==> b.value == Budget("concierge:" + ClientKey(req.clientIP), ConciergeLimit)
    ensures b.Some? && req.path == "/api/guide" ==> b.value == Budget("guide:" + ClientKey(req.clientIP), PdfLimit)
  {
    if req.verb == "OPTIONS" then None
    else if req.path == "/api/concierge" && req.verb == "POST" then
      Some(Budget("concierge:" + ClientKey(req.clientIP), ConciergeLimit))
    else if req.path == "/api/guide" && req.verb == "GET" then
      Some(Budget("guide:" + ClientKey(req.clientIP), PdfLimit))
    else None
  }

  /** `handleConcierge`: method check, then rate limit, then body and validation, then
      the API call. */
  function Concierge(store: map<string, int>, req: Request, upstream: Upstream): (o: Outcome)
    ensures req.verb != "POST" ==> o == Outcome(MethodNotAllowed, store, None)
    ensures req.verb == "POST" ==>
      var v := Check(store, "concierge:" + ClientKey(req.clientIP), ConciergeLimit);
      && o.store == v.store
      && (o.response == RateLimited <==> v.limited)
      && (!v.limited && req.body.Unreadable? ==> o.response == InternalError)
      && (!v.limited && req.body.Fields? && !ValidMessage(req.body.message) ==> o.response == InvalidMessage)
    ensures o.call.Some? <==>
      && req.verb == "POST"
      && !Check(store, "concierge:" + ClientKey(req.clientIP), ConciergeLimit).limited
      && req.body.Fields? && ValidMessage(req.body.message)
    ensures o.call.Some? ==>
      && o.call.value == UpstreamCall(ConciergePrompt(req.body), req.body.message.value)
      && o.response == ConciergeReply(upstream)
  {
    if req.verb != "POST" then Outcome(MethodNotAllowed, store, None)
    else
      var v := Check(store, "concierge:" + ClientKey(req.clientIP), ConciergeLimit);
      if v.limited then Outcome(RateLimited, v.store, None)
      else match req.body
        case Unreadable => Outcome(InternalError, v.store, None)
        case Fields(message, mode, language) =>
          if !ValidMessage(message) then Outcome(InvalidMessage, v.store, None)
          else Outcome(ConciergeReply(upstream), v.store, Some(UpstreamCall(ConciergePrompt(req.body), message.value)))
  }

  /** Where the guide download redirects: `PDF_URL`, or the default when it is unset or empty. */
  function PdfUrl(env: Env): (u: string)
    ensures u != ""
    ensures env.pdfUrl.Some? && env.pdfUrl.value != "" ==> u == env.pdfUrl.value
    ensures env.pdfUrl.None? || env.pdfUrl.value == "" ==> u == DefaultPdfUrl
  {
    OrElse(env.pdfUrl, DefaultPdfUrl)
  }

  /** `handleGuideDownload`: method check, rate limit, then a redirect to the guide. */
  function Guide(store: map<string, int>, req: Request, env: Env): (o: Outcome)
    ensures o.call == None
    ensures req.verb != "GET" ==> o == Outcome(MethodNotAllowed, store, None)
    ensures req.verb == "GET" ==>
      var v := Check(store, "guide:" + ClientKey(req.clientIP), PdfLimit);
      && o.store == v.store
      && (v.limited ==> o.response == RateLimited)
      && (!v.limited ==> o.response == Redirect(PdfUrl(env)))
  {
    if req.verb != "GET" then Outcome(MethodNotAllowed, store, None)
    else
      var v := Check(store, "guide:" + ClientKey(req.clientIP), PdfLimit);
      if v.limited then Outcome(RateLimited, v.store, None)
      else Outcome(Redirect(PdfUrl(env)), v.store, None)
  }

  /** The `fetch` entry point. */
  function Serve(store: map<string, int>, req: Request, env: Env, upstream: Upstream): (o: Outcome)
    ensures req.verb == "OPTIONS" ==> o == Outcome(Preflight, store, None)
    ensures req.verb != "OPTIONS" && req.path == "/api/concierge" ==> o == Concierge(store, req, upstream)
    ensures req.verb != "OPTIONS" && req.path == "/api/guide" ==> o == Guide(store, req, env)
    ensures req.verb != "OPTIONS" && req.path == "/api/health" ==> o == Outcome(Health, store, None)
    ensures req.verb != "OPTIONS" && req.path !in {"/api/concierge", "/api/guide", "/api/health"} ==>
      o == Outcome(NotFound, store, None)
    ensures Consulted(req).None? ==> o.store == store && o.response != RateLimited
    ensures Consulted(req).Some? ==>
      var b := Consulted(req).value;
      o.store == Check(store, b.key, b.limit).store && (o.response == RateLimited <==> Check(store, b.key, b.limit).limited)
    ensures o.call.Some? ==> req.path == "/api/concierge" && Status(o.response) != 429
  {
    if req.verb == "OPTIONS" then Outcome(Preflight, store, None)
    else if req.path == "/api/concierge" then Concierge(store, req, upstream)
    else if req.path == "/api/guide" then Guide(store, req, env)
    else if req.path == "/api/health" then Outcome(Health, store, None)
    else Outcome(NotFound, store, None)
  }

  /** The responses to `n` copies of one request, served one after another. */
  function Repeat(store: map<string, int>, req: Request, env: Env, upstream: Upstream, n: nat): (rs: seq<Response>)
    ensures |rs| == n
    decreases n
  {
    if n == 0 then []
    else
      var o := Serve(store, req, env, upstream);
      [o.response] + Repeat(o.store, req, env, upstream, n - 1)
  }

  /** A client repeating a rate-limited request is served exactly `limit - c` times, where
      `c` is its stored count, and refused with 429 from then on. */
  lemma {:induction false} RepeatHitsLimit(store: map<string, int>, req: Request, env: Env, upstream: Upstream, n: nat)
    requires Consulted(req).Some?
    requires 0 <= Count(store, Consulted(req).value.key) <= Consulted(req).value.limit
    ensures var b := Consulted(req).value;
      forall i :: 0 <= i < n ==>
        (Repeat(store, req, env, upstream, n)[i] == RateLimited <==> i >= b.limit - Count(store, b.key))
    decreases n
  {
    if n > 0 {
      var b := Consulted(req).value;
      var o := Serve(store, req, env, upstream);
      var rest := Repeat(o.store, req, env, upstream, n - 1);
      RepeatHitsLimit(o.store, req, env, upstream, n - 1);
      var rs := Repeat(store, req, env, upstream, n);
      assert rs == [o.response] + rest;
      forall i | 1 <= i < n
        ensures rs[i] == RateLimited <==> i >= b.limit - Count(store, b.key)
      {
        assert rs[i] == rest[i - 1];
      }
    }
  }

  /** The guide's daily budget: a client with `c` downloads on record gets the next
      `5 - c` requests redirected to the guide and 429 after that. */
  lemma GuideBudget(store: map<string, int>, ip: Option<string>, env: Env, upstream: Upstream, n: nat, i: nat)
    requires 0 <= Count(store, "guide:" + ClientKey(ip)) <= PdfLimit && i < n
    ensures var rs := Repeat(store, Request("GET", "/api/guide", ip, Unreadable), env, upstream, n);
      var c := Count(store, "guide:" + ClientKey(ip));
      (i < PdfLimit - c ==> rs[i] == Redirect(PdfUrl(env))) && (i >= PdfLimit - c ==> rs[i] == RateLimited)
  {
    var req := Request("GET", "/api/guide", ip, Unreadable);
    RepeatHitsLimit(store, req, env, upstream, n);
    GuideNeverFails(store, req, env, upstream, n, i);
  }

  /** Every response to a repeated guide GET is the redirect or 429. */
  lemma {:induction false} GuideNeverFails(store: map<string, int>, req: Request, env: Env, upstream: Upstream, n: nat, i: nat)
    requires req.verb == "GET" && req.path == "/api/guide" && i < n
    ensures Repeat(store, req, env, upstream, n)[i] in {Redirect(PdfUrl(env)), RateLimited}
    decreases n
  {
    if i > 0 {
      GuideNeverFails(Serve(store, req, env, upstream).store, req, env, upstream, n - 1, i - 1);
    }
  }

  /** The concierge and guide budgets are kept under different keys. */
  lemma SeparateBudgets(a: string, b: string)
    ensures "concierge:" + a != "guide:" + b
  {
    assert ("concierge:" + a)[0] == 'c';
    assert ("guide:" + b)[0] == 'g';
  }

  /** No request touches another client's counters, nor the other endpoint's counter. */
  lemma CountersIndependent(store: map<string, int>, req: Request, env: Env, upstream: Upstream, key: string)
    requires key != "concierge:" + ClientKey(req.clientIP) && key != "guide:" + ClientKey(req.clientIP)
    ensures Count(Serve(store, req, env, upstream).store, key) == Count(store, key)
  {
  }

  /** A guide download never changes any client's concierge counter. */
  lemma GuideSparesConcierge(store: map<string, int>, ip: Option<string>, env: Env, upstream: Upstream, other: string)
    ensures var req := Request("GET", "/api/guide", ip, Unreadable);
      Count(Serve(store, req, env, upstream).store, "concierge:" + other) == Count(store, "concierge:" + other)
  {
    SeparateBudgets(other, ClientKey(ip));
  }

  /** `handleConcierge`, consulting the limiter object. */
  method HandleConcierge(limiter: Limiter, req: Request, upstream: Upstream) returns (response: Response, call: Option<UpstreamCall>)
    modifies limiter
    ensures Outcome(response, limiter.store, call) == Concierge(old(limiter.store), req, upstream)
  {
    call := None;
    if req.verb != "POST" {
      return MethodNotAllowed, None;
    }
    var clientIP := ClientKey(req.clientIP);
    var isLimited := limiter.CheckRateLimit("concierge:" + clientIP, ConciergeLimit, ConciergeWindow);
    if isLimited {
      return RateLimited, None;
    }
    if req.body.Unreadable? {
      return InternalError, None;
    }
    var message := req.body.message;
    if !(message.Some? && message.value != "") || Text.Utf16Length(message.value) > MaxMessageLength {
      return InvalidMessage, None;
    }
    var prompt := SystemPrompt(OrElse(req.body.mode, "route"), OrElse(req.body.language, "en"));
    call := Some(UpstreamCall(prompt, message.value));
    response := ConciergeReply(upstream);
  }

  /** `handleGuideDownload`, consulting the limiter object. */
  method HandleGuideDownload(limiter: Limiter, req: Request, env: Env) returns (response: Response)
    modifies limiter
    ensures Outcome(response, limiter.store, None) == Guide(old(limiter.store), req, env)
  {
    if req.verb != "GET" {
      return MethodNotAllowed;
    }
    var clientIP := ClientKey(req.clientIP);
    var isLimited := limiter.CheckRateLimit("guide:" + clientIP, PdfLimit, PdfWindow);
    if isLimited {
      return RateLimited;
    }
    response := Redirect(PdfUrl(env));
  }

  /** The `fetch` entry point, consulting the limiter object. */
  method HandleFetch(limiter: Limiter, req: Request, env: Env, upstream: Upstream) returns (response: Response, call: Option<UpstreamCall>)
    modifies limiter
    ensures Outcome(response, limiter.store, call) == Serve(old(limiter.store), req, env, upstream)
  {
    call := None;
    if req.verb == "OPTIONS" {
      response := Preflight;
    } else if req.path == "/api/concierge" {
      response, call := HandleConcierge(limiter, req, upstream);
    } else if req.path == "/api/guide" {
      response := HandleGuideDownload(limiter, req, env);
    } else if req.path == "/api/health" {
      response := Health;
    } else {
      response := NotFound;
    }
  }
}
