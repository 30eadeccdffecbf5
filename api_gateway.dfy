/** The single choke point for outbound calls, `make_api_request`: credential
    check, rate limiter, Basic header, one attempt, and one retry after a
    2-second cooldown when the remote answers 409. The HTTP client is a server
    function of the request, its headers and the time of the attempt. */
module ApiGateway {
  import opened Wrappers
  import opened Auth
  import RateLimit
  import opened Numbers

  /** The status StoreHub uses for "rate limit exceeded". */
  const Conflict: nat := 409
  /** The sleep before the one retry, 2.0 s. */
  const Cooldown: nat := 2000
  /** How much of the 409 body the error message quotes. */
  const DetailLimit: nat := 200
  const DetailsPrefix: string := " Details: "

  datatype Query =
    | NoQuery
    | Range(fromDay: int, toDay: int, storeId: string, includeOnline: bool)

  datatype Request = Request(endpoint: string, verb: string, query: Query)

  /** What one attempt yields: a 2xx reply with its parsed JSON, a reply whose
      status `raise_for_status` rejects, or any other failure (a transport
      error, a timeout, a body that is not JSON). */
  datatype Response<+T> =
    | Ok(value: T)
    | Status(code: nat, body: string)
    | Failed(reason: string)

  type Server<T> = (Request, Headers, int) -> Response<T>

  /** One request as it went on the wire. */
  datatype Sent = Sent(request: Request, headers: Headers, time: int, retry: bool)

  datatype ApiError =
    | NotConfigured
    | NonAsciiCredentials
    | UnsupportedMethod(verb: string)
    | HttpError(status: nat)
    | RateLimitExceeded(endpoint: string, details: string)
    | TransportError(reason: string)

  /** `f" Details: {error_body[:200]}"`. */
  function Details(body: string): (d: string)
    ensures |d| == |DetailsPrefix| + Min(|body|, DetailLimit)
    ensures d[..|DetailsPrefix|] == DetailsPrefix
    ensures d[|DetailsPrefix|..] <= body
  {
    DetailsPrefix + body[..Min(|body|, DetailLimit)]
  }

  function DigitChar(d: int): char
    requires 0 <= d < 10
  {
    ('0' as int + d) as char
  }

  /** Python's `str()` of a non-negative integer. */
  function NatToString(n: nat): (s: string)
    ensures |s| > 0 && forall i :: 0 <= i < |s| ==> '0' <= s[i] <= '9'
    ensures DecimalValue(s) == n
    ensures s[0] == '0' ==> n == 0 && s == "0"
  {
    if n < 10 then [DigitChar(n)]
    else
      var hi := NatToString(n / 10);
      assert (hi + [DigitChar(n % 10)])[..|hi|] == hi;
      hi + [DigitChar(n % 10)]
  }

  /** Digits with no leading zero, as `str()` writes a non-negative integer. */
  predicate Canonical(s: string) {
    && |s| > 0 && (forall i :: 0 <= i < |s| ==> '0' <= s[i] <= '9')
    && (s[0] == '0' ==> s == "0")
  }

  lemma {:induction false} CanonicalAtLeastTen(s: string)
    requires Canonical(s) && |s| >= 2
    ensures DecimalValue(s) >= 10
    decreases |s|
  {
    var p := s[..|s| - 1];
    assert p[0] == s[0];
    if |p| >= 2 {
      CanonicalAtLeastTen(p);
    } else {
      assert p == [s[0]] && DecimalValue(p) == DecimalValue([]) * 10 + (s[0] as int - '0' as int);
    }
  }

  /** A canonical rendering is determined by its value: the digits of an
      error message read back as the status are exactly `str(status)`. */
  lemma {:induction false} CanonicalDecimalUnique(s: string, t: string)
    requires Canonical(s) && Canonical(t) && DecimalValue(s) == DecimalValue(t)
    ensures s == t
    decreases |s|
  {
    if |s| >= 2 { CanonicalAtLeastTen(s); }
    if |t| >= 2 { CanonicalAtLeastTen(t); }
    var ps, pt := s[..|s| - 1], t[..|t| - 1];
    if |s| == 1 {
      if |t| >= 2 {
        assert false;
      }
      assert DecimalValue(s) == DecimalValue(ps) * 10 + (s[0] as int - '0' as int) && pt == [];
    } else {
      if |t| == 1 {
        assert false;
      }
      assert ps[0] == s[0] && pt[0] == t[0];
      CanonicalDecimalUnique(ps, pt);
      assert s == ps + [s[|s| - 1]] && t == pt + [t[|t| - 1]];
    }
  }

  function DecimalValue(s: string): int
    requires forall i :: 0 <= i < |s| ==> '0' <= s[i] <= '9'
  {
    if s == [] then 0
    else DecimalValue(s[..|s| - 1]) * 10 + (s[|s| - 1] as int - '0' as int)
  }

  const NotConfiguredText := "StoreHub API credentials not configured"
  const UnsupportedPrefix := "Unsupported HTTP method: "
  const HttpErrorPrefix := "StoreHub API error: "
  const RateLimitPrefix := "StoreHub API rate limit exceeded. Endpoint: "
  const TryLater := ". Please try again later."

  /** The text of the exception the gateway raises. */
  function Message(e: ApiError): (m: string)
    // The status of a failed request can be read back from its message.
    ensures e.HttpError? ==>
      && |m| > |HttpErrorPrefix| && m[..|HttpErrorPrefix|] == HttpErrorPrefix
      && var digits := m[|HttpErrorPrefix|..];
         && (forall i :: 0 <= i < |digits| ==> '0' <= digits[i] <= '9') && DecimalValue(digits) == e.status
         && (digits[0] == '0' ==> digits == "0" && e.status == 0)
    // The unsupported verb is quoted after the fixed text.
    ensures e.UnsupportedMethod? ==>
      |m| >= |UnsupportedPrefix| && m[..|UnsupportedPrefix|] == UnsupportedPrefix && m[|UnsupportedPrefix|..] == e.verb
    // A rate-limit message names the endpoint and ends with the details.
    ensures e.RateLimitExceeded? ==>
      var head := RateLimitPrefix + e.endpoint + TryLater;
      |m| >= |head| && m[..|head|] == head && m[|head|..] == e.details
    ensures e.TransportError? ==> m == e.reason
    ensures e.NotConfigured? ==> m == NotConfiguredText
  {
    match e
    case NotConfigured => NotConfiguredText
    case NonAsciiCredentials => "'ascii' codec can't encode the credentials"
    case UnsupportedMethod(verb) =>
      PrefixSplit(UnsupportedPrefix, verb);
      UnsupportedPrefix + verb
    case HttpError(status) =>
      var digits := NatToString(status);
      PrefixSplit(HttpErrorPrefix, digits);
      HttpErrorPrefix + digits
    case RateLimitExceeded(endpoint, details) =>
      var head := RateLimitPrefix + endpoint + TryLater;
      PrefixSplit(head, details);
      head + details
    case TransportError(reason) => reason
  }

  lemma PrefixSplit<A>(p: seq<A>, q: seq<A>)
    ensures |p + q| == |p| + |q| && (p + q)[..|p|] == p && (p + q)[|p|..] == q
  {
  }

  predicate SupportedVerb(verb: string) {
    verb == "GET" || verb == "POST"
  }

  /** The effect of one call: the value returned or the error raised, the
      requests sent, and the limiter stamp and clock afterwards. */
  datatype Exchanged<+T> = Exchanged(result: Result<T, ApiError>, sent: seq<Sent>, last: int, now: int)

  /** The HTTP part of `make_api_request` once the limiter has stamped `t`:
      one attempt at `t`, and one retry `Cooldown` later after a 409. */
  function Attempts<T>(req: Request, headers: Headers, server: Server<T>, t: int): (x: Exchanged<T>)
    ensures x.last == t
    ensures 1 <= |x.sent| <= 2 && x.now == t + (if |x.sent| == 2 then Cooldown else 0)
    ensures x.sent[0] == Sent(req, headers, t, false)
    // A 2xx first reply is returned at once.
    ensures server(req, headers, t).Ok? ==>
      |x.sent| == 1 && x.result == Success(server(req, headers, t).value)
    // A transport failure of the first attempt is raised as it is.
    ensures server(req, headers, t).Failed? ==>
      |x.sent| == 1 && x.result == Failure(TransportError(server(req, headers, t).reason))
    // Any status other than 409 fails at once with that status.
    ensures server(req, headers, t).Status? && server(req, headers, t).code != Conflict ==>
      |x.sent| == 1 && x.result == Failure(HttpError(server(req, headers, t).code))
    // A 409 is retried once, 2 s later and without the limiter. The retry's
    // value is returned, or else the rate-limit error quoting the first body.
    ensures server(req, headers, t).Status? && server(req, headers, t).code == Conflict ==>
      && |x.sent| == 2 && x.sent[1] == Sent(req, headers, t + Cooldown, true)
      && x.result == (if server(req, headers, t + Cooldown).Ok? then Success(server(req, headers, t + Cooldown).value)
                      else Failure(RateLimitExceeded(req.endpoint, Details(server(req, headers, t).body))))
  {
    var first := Sent(req, headers, t, false);
    match server(req, headers, t)
    case Ok(v) => Exchanged(Success(v), [first], t, t)
    case Failed(reason) => Exchanged(Failure(TransportError(reason)), [first], t, t)
    case Status(code, body) =>
      if code != Conflict then Exchanged(Failure(HttpError(code)), [first], t, t)
      else
        var t2 := t + Cooldown;
        var second := Sent(req, headers, t2, true);
        var retried := server(req, headers, t2);
        if retried.Ok? then Exchanged(Success(retried.value), [first, second], t, t2)
        else Exchanged(Failure(RateLimitExceeded(req.endpoint, Details(body))), [first, second], t, t2)
  }

  /** Read backwards: each outcome names the reply that caused it. */
  lemma AttemptsOutcomeNamesReply<T>(req: Request, headers: Headers, server: Server<T>, t: int)
    ensures var x := Attempts(req, headers, server, t);
      && (|x.sent| == 2 ==> server(req, headers, t).Status? && server(req, headers, t).code == Conflict)
      && (x.result.Success? ==> server(req, headers, x.sent[|x.sent| - 1].time) == Ok(x.result.value))
      && (x.result.Failure? && x.result.error.HttpError? ==>
            && |x.sent| == 1 && x.result.error.status != Conflict
            && server(req, headers, t).Status? && server(req, headers, t).code == x.result.error.status)
      && (x.result.Failure? && x.result.error.RateLimitExceeded? ==>
            && |x.sent| == 2 && !server(req, headers, t + Cooldown).Ok?
            && x.result.error == RateLimitExceeded(req.endpoint, Details(server(req, headers, t).body)))
  {
  }

  /** The message raised for a rejected request names the status it was
      rejected with, or, after a failed retry, the endpoint and the start of
      the first reply's body. */
  lemma {:induction false} RejectedAttemptMessage<T>(req: Request, headers: Headers, server: Server<T>, t: int)
    requires server(req, headers, t).Status?
    requires Attempts(req, headers, server, t).result.Failure?
    ensures var m := Message(Attempts(req, headers, server, t).result.error);
      var first := server(req, headers, t);
      if first.code != Conflict then
        && |m| > |HttpErrorPrefix| && m[..|HttpErrorPrefix|] == HttpErrorPrefix
        && var digits := m[|HttpErrorPrefix|..];
           && (forall i :: 0 <= i < |digits| ==> '0' <= digits[i] <= '9') && DecimalValue(digits) == first.code
           && (digits[0] == '0' ==> digits == "0" && first.code == 0)
      else
        var head := RateLimitPrefix + req.endpoint + TryLater;
        |m| >= |head| && m[..|head|] == head && m[|head|..] == Details(first.body)
  {
    var x := Attempts(req, headers, server, t);
    var first := server(req, headers, t);
    if first.code != Conflict {
      assert x.result.error == HttpError(first.code);
    } else {
      assert x.result.error == RateLimitExceeded(req.endpoint, Details(first.body));
    }
  }

  /** One `make_api_request`, entered at `now` with limiter stamp `last`. */
  function Step<T>(creds: Credentials, req: Request, server: Server<T>, last: int, now: int): (x: Exchanged<T>)
    // Unconfigured: fails before the limiter and before any request.
    ensures !Configured(creds) ==> x == Exchanged(Failure(NotConfigured), [], last, now)
    // Configured: the limiter stamps first, whatever happens next.
    ensures Configured(creds) ==> x.last == RateLimit.Stamp(last, now)
    // Bad credentials text or an unknown verb fail after the limiter, sending nothing.
    ensures Configured(creds) && !AuthHeaders(creds).Basic? ==>
      x == Exchanged(Failure(NonAsciiCredentials), [], x.last, x.last)
    ensures AuthHeaders(creds).Basic? && !SupportedVerb(req.verb) ==>
      x == Exchanged(Failure(UnsupportedMethod(req.verb)), [], x.last, x.last)
    // Otherwise the attempts go out with the Basic header.
    ensures AuthHeaders(creds).Basic? && SupportedVerb(req.verb) ==>
      x == Attempts(req, AuthHeaders(creds).headers, server, x.last)
  {
    if !Configured(creds) then Exchanged(Failure(NotConfigured), [], last, now)
    else
      var t := RateLimit.Stamp(last, now);
      var auth := AuthHeaders(creds);
      if !auth.Basic? then Exchanged(Failure(NonAsciiCredentials), [], t, t)
      else if !SupportedVerb(req.verb) then Exchanged(Failure(UnsupportedMethod(req.verb)), [], t, t)
      else Attempts(req, auth.headers, server, t)
  }

  /** Whatever happens, a call sends only its own request. */
  lemma StepSendsOnlyItsRequest<T>(creds: Credentials, req: Request, server: Server<T>, last: int, now: int)
    ensures var x := Step(creds, req, server, last, now);
      forall i :: 0 <= i < |x.sent| ==> x.sent[i].request == req
  {
    var x := Step(creds, req, server, last, now);
    if AuthHeaders(creds).Basic? && SupportedVerb(req.verb) {
      AttemptsSendOnlyTheirRequest(req, AuthHeaders(creds).headers, server, x.last);
    } else {
      assert x.sent == [];
    }
  }

  lemma AttemptsSendOnlyTheirRequest<T>(req: Request, headers: Headers, server: Server<T>, t: int)
    ensures var a := Attempts(req, headers, server, t);
      forall i :: 0 <= i < |a.sent| ==> a.sent[i].request == req
  {
    var a := Attempts(req, headers, server, t);
    assert a.sent[0].request == req;
    assert |a.sent| == 2 ==> a.sent[1].request == req;
  }

  /** First attempts (those that went through the limiter) are spaced by at least
      the limiter delay, and none is later than the limiter's stamp `last`. */
  ghost predicate Paced(sent: seq<Sent>, last: int) {
    && (forall i, j :: 0 <= i < j < |sent| && !sent[i].retry && !sent[j].retry ==>
          sent[i].time + RateLimit.Delay <= sent[j].time)
    && (forall i :: 0 <= i < |sent| && !sent[i].retry ==> sent[i].time <= last)
  }

  /** What a call leaves in the log: nothing, or a first attempt at the new
      limiter stamp followed only by retries. */
  lemma StepSentShape<T>(creds: Credentials, req: Request, server: Server<T>, last: int, now: int)
    ensures var x := Step(creds, req, server, last, now);
      && x.last >= last
      && (x.sent != [] ==>
        && x.sent[0].time == x.last && !x.sent[0].retry && x.last >= last + RateLimit.Delay
        && forall k :: 1 <= k < |x.sent| ==> x.sent[k].retry)
  {
    var x := Step(creds, req, server, last, now);
    if Configured(creds) {
      RateLimit.StampIsEarliestAllowed(last, now);
      if AuthHeaders(creds).Basic? && SupportedVerb(req.verb) {
        var a := Attempts(req, AuthHeaders(creds).headers, server, x.last);
        assert x == a;
      }
    }
  }

  /** Appending a first attempt at a stamp at least Delay after the old one,
      followed only by retries, keeps the log paced. */
  lemma PacedAppend(sent: seq<Sent>, e: seq<Sent>, last: int, stamp: int)
    requires Paced(sent, last) && stamp >= last
    requires e != [] ==>
      && e[0].time == stamp && !e[0].retry && stamp >= last + RateLimit.Delay
      && forall k :: 1 <= k < |e| ==> e[k].retry
    ensures Paced(sent + e, stamp)
  {
    var s := sent + e;
    forall i, j | 0 <= i < j < |s| && !s[i].retry && !s[j].retry
      ensures s[i].time + RateLimit.Delay <= s[j].time
    {
      if j >= |sent| {
        assert s[j] == e[j - |sent|];
        assert j == |sent| && s[i] == sent[i];
      }
    }
    forall i | 0 <= i < |s| && !s[i].retry
      ensures s[i].time <= stamp
    {
      if i >= |sent| {
        assert s[i] == e[i - |sent|];
      }
    }
  }

  lemma PacedAfterStep<T>(sent: seq<Sent>, creds: Credentials, req: Request, server: Server<T>, last: int, now: int)
    requires Paced(sent, last)
    ensures var x := Step(creds, req, server, last, now);
      Paced(sent + x.sent, x.last)
  {
    var x := Step(creds, req, server, last, now);
    StepSentShape(creds, req, server, last, now);
    PacedAppend(sent, x.sent, last, x.last);
  }

  /** A sequence of calls, one after the other, from limiter stamp `last`
      and clock `now`. */
  datatype Trace<+T> = Trace(results: seq<Result<T, ApiError>>, sent: seq<Sent>, last: int, now: int)

  function Run<T>(creds: Credentials, reqs: seq<Request>, server: Server<T>, last: int, now: int): (r: Trace<T>)
    ensures |r.results| == |reqs|
    decreases |reqs|
  {
    if reqs == [] then Trace([], [], last, now)
    else
      var p := Run(creds, reqs[..|reqs| - 1], server, last, now);
      var x := Step(creds, reqs[|reqs| - 1], server, p.last, p.now);
      Trace(p.results + [x.result], p.sent + x.sent, x.last, x.now)
  }

  /** A run one request longer is that run followed by one more call. */
  lemma RunSnoc<T>(creds: Credentials, reqs: seq<Request>, req: Request, server: Server<T>, last: int, now: int)
    ensures var p := Run(creds, reqs, server, last, now);
      var x := Step(creds, req, server, p.last, p.now);
      Run(creds, reqs + [req], server, last, now) == Trace(p.results + [x.result], p.sent + x.sent, x.last, x.now)
  {
    assert (reqs + [req])[..|reqs|] == reqs;
  }

  /** The requests of the first attempts sent on the wire, in order; a retry
      is not counted again. */
  function Issued(sent: seq<Sent>): (r: seq<Request>)
    decreases |sent|
  {
    if sent == [] then []
    else Issued(sent[..|sent| - 1]) + (if sent[|sent| - 1].retry then [] else [sent[|sent| - 1].request])
  }

  lemma {:induction false} IssuedAppend(a: seq<Sent>, b: seq<Sent>)
    ensures Issued(a + b) == Issued(a) + Issued(b)
    decreases |b|
  {
    if b == [] {
      assert a + b == a;
    } else {
      var n := |b| - 1;
      assert (a + b)[..|a + b| - 1] == a + b[..n];
      IssuedAppend(a, b[..n]);
    }
  }

  lemma IssuedSnoc(a: seq<Sent>, b: seq<Sent>, ra: seq<Request>, r: Request)
    requires Issued(a) == ra && Issued(b) == [r]
    ensures Issued(a + b) == ra + [r]
  {
    IssuedAppend(a, b);
  }

  /** A call that gets past the credential and verb checks issues its request once. */
  lemma IssuedStep<T>(creds: Credentials, req: Request, server: Server<T>, last: int, now: int)
    requires AuthHeaders(creds).Basic? && SupportedVerb(req.verb)
    ensures Issued(Step(creds, req, server, last, now).sent) == [req]
  {
    IssuedAttempts(req, AuthHeaders(creds).headers, server, Step(creds, req, server, last, now).last);
  }

  lemma IssuedAttempts<T>(req: Request, headers: Headers, server: Server<T>, t: int)
    ensures Issued(Attempts(req, headers, server, t).sent) == [req]
  {
    var e := Attempts(req, headers, server, t).sent;
    assert e[..1] == [e[0]];
    assert Issued(e[..1]) == Issued([]) + [req];
    if |e| == 2 {
      assert e[..|e| - 1] == e[..1];
    }
  }

  lemma LastSplit<A>(s: seq<A>)
    requires s != []
    ensures s[..|s| - 1] + [s[|s| - 1]] == s
  {
  }

  /** With usable credentials, a run of calls sends every request once through
      the limiter, in order, whatever the earlier calls answered. */
  lemma {:induction false} RunIssuesEveryRequest<T>(creds: Credentials, reqs: seq<Request>, server: Server<T>, last: int, now: int)
    requires AuthHeaders(creds).Basic?
    requires forall i :: 0 <= i < |reqs| ==> SupportedVerb(reqs[i].verb)
    ensures Issued(Run(creds, reqs, server, last, now).sent) == reqs
    decreases |reqs|
  {
    if reqs != [] {
      var n := |reqs| - 1;
      LastSplit(reqs);
      var p := Run(creds, reqs[..n], server, last, now);
      var x := Step(creds, reqs[n], server, p.last, p.now);
      assert Run(creds, reqs, server, last, now).sent == p.sent + x.sent;
      assert forall i :: 0 <= i < n ==> reqs[..n][i] == reqs[i];
      RunIssuesEveryRequest(creds, reqs[..n], server, last, now);
      assert x == Attempts(reqs[n], AuthHeaders(creds).headers, server, x.last);
      IssuedAttempts(reqs[n], AuthHeaders(creds).headers, server, x.last);
      IssuedSnoc(p.sent, x.sent, reqs[..n], reqs[n]);
    }
  }

  /** Over any run of calls, first attempts stay spaced by the limiter delay. */
  lemma {:induction false} RunPaced<T>(creds: Credentials, reqs: seq<Request>, server: Server<T>, last: int, now: int)
    ensures Paced(Run(creds, reqs, server, last, now).sent, Run(creds, reqs, server, last, now).last)
    decreases |reqs|
  {
    if reqs != [] {
      var n := |reqs| - 1;
      var p := Run(creds, reqs[..n], server, last, now);
      RunPaced(creds, reqs[..n], server, last, now);
      PacedAfterStep(p.sent, creds, reqs[n], server, p.last, p.now);
    }
  }

  class Gateway {
    const creds: Credentials
    const clock: RateLimit.Clock
    const limiter: RateLimit.RateLimiter
    /** Everything sent so far, in order. */
    var sent: seq<Sent>

    ghost predicate Valid()
      reads this, limiter, clock
    {
      && limiter.clock == clock
      && limiter.lastCall <= clock.now
      && Paced(sent, limiter.lastCall)
    }

    constructor (creds: Credentials, clock: RateLimit.Clock)
      requires clock.now >= 0
      ensures this.creds == creds && this.clock == clock && fresh(limiter)
      ensures limiter.lastCall == 0 && sent == []
      ensures Valid()
    {
      this.creds := creds;
      this.clock := clock;
      limiter := new RateLimit.RateLimiter(clock);
      sent := [];
    }

    /** `make_api_request(req.endpoint, req.verb, ...)`. */
    method Call<T>(req: Request, server: Server<T>) returns (r: Result<T, ApiError>)
      requires Valid()
      modifies this, limiter, clock
      ensures Valid()
      ensures var x := Step(creds, req, server, old(limiter.lastCall), old(clock.now));
        && r == x.result && sent == old(sent) + x.sent
        && limiter.lastCall == x.last && clock.now == x.now
    {
      if !Configured(creds) {
        return Failure(NotConfigured);
      }
      PacedAfterStep(sent, creds, req, server, limiter.lastCall, clock.now);
      limiter.Acquire();
      var auth := AuthHeaders(creds);
      if !auth.Basic? {
        return Failure(NonAsciiCredentials);
      }
      var headers := auth.headers;
      if !SupportedVerb(req.verb) {
        return Failure(UnsupportedMethod(req.verb));
      }
      r := Exchange(req, headers, server);
    }

    /** The attempt and the one retry after a 409, once the limiter has let
        the call through. */
    method Exchange<T>(req: Request, headers: Headers, server: Server<T>) returns (r: Result<T, ApiError>)
      modifies this, clock
      ensures var x := Attempts(req, headers, server, old(clock.now));
        && r == x.result && sent == old(sent) + x.sent && clock.now == x.now
    {
      var t := clock.now;
      var first := server(req, headers, t);
      sent := sent + [Sent(req, headers, t, false)];
      match first {
        case Ok(v) =>
          return Success(v);
        case Failed(reason) =>
          return Failure(TransportError(reason));
        case Status(code, body) =>
          if code != Conflict {
            return Failure(HttpError(code));
          }
          var details := Details(body);
          clock.Advance(Cooldown);
          var t2 := clock.now;
          var second := server(req, headers, t2);
          sent := sent + [Sent(req, headers, t2, true)];
          if second.Ok? {
            return Success(second.value);
          }
          return Failure(RateLimitExceeded(req.endpoint, details));
      }
    }
  }
}
