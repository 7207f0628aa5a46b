/** The auth-gated request wrapper (`fetchWithAuth`) and `logout`.

    Concurrent callers are modelled as interleaved events over one shared
    world: each caller is a small state machine, the network answers by
    events, and the only state the callers share is the in-flight refresh
    marker (`refreshPromise`). A refresh is identified by its position in
    `refreshes`; every caller that awaits the same refresh sees the same
    outcome because the outcome is stored once, with the refresh. */
module AuthApi {
  import opened Optional
  import opened JsValue

  /** `RequestInit` as the wrapper sees it: named fields, passed through. */
  type Options = map<string, Scalar>

  /** A parsed JSON body, as far as the wrapper looks into it: `null`, an
      object (of which only `detail` is read), or any other JSON value. */
  datatype Json = JNull | JObject(detail: Scalar) | JOther(text: string)

  /** A response body: its raw text and, when the text is JSON, its value. */
  datatype Body = Body(text: string, json: Option<Json>)

  datatype Response = Response(status: int, body: Body)

  /** What the network delivers for one request. */
  datatype Delivery = Reply(response: Response) | NetworkFailure

  /** What a call rejects with: an `Error` with a message, the `TypeError` a
      second read of a consumed body raises, the `SyntaxError` of a body that
      is not JSON, or whatever the network layer threw. */
  datatype Failure = Message(text: string) | BodyUnusable | InvalidJson | NetworkError

  /** How a call settles: it resolves with a JSON value (`None` is `null`) or
      rejects. */
  datatype Result = Resolved(value: Option<Json>) | Rejected(failure: Failure)

  const RefreshUrl: string := "/api/auth/refresh_token"
  const SessionExpired: string := "Session expired. Please log in again."

  predicate IsOk(r: Response) {
    200 <= r.status <= 299
  }

  /** The fallback message for a failed response. */
  function StatusMessage(status: int): string {
    "Request failed with status " + Decimal(status)
  }

  /** `{...options, credentials: 'include'}`. */
  function WithCredentials(options: Options): (r: Options)
    ensures "credentials" in r && r["credentials"] == Str("include")
    ensures r.Keys == options.Keys + {"credentials"}
    ensures forall k :: k in options && k != "credentials" ==> r[k] == options[k]
  {
    options["credentials" := Str("include")]
  }

  const RefreshOptions: Options := map["method" := Str("POST"), "credentials" := Str("include")]

  // ---------------------------------------------------------------------
  // Turning the final response into a result
  // ---------------------------------------------------------------------

  /** The failure of a non-ok response, as the code is written: the body is
      read as JSON, and when that throws (not JSON, or `null.detail`), the
      catch block reads the same body again as text, which rejects because
      the first read consumed it. */
  function FailureAsWritten(r: Response): Failure {
    match r.body.json
    case Some(JObject(detail)) => Message(if Truthy(detail) then ToString(detail) else StatusMessage(r.status))
    case Some(JOther(_)) => Message(StatusMessage(r.status))
    case Some(JNull) => BodyUnusable
    case None => BodyUnusable
  }

  /** The failure of a non-ok response as intended: the server's `detail`
      when the body is a JSON object carrying one, otherwise the raw body
      text, otherwise the status message. (A JSON object or other JSON value
      without `detail` keeps the status message, as the `try` branch does.) */
  function FailureOf(r: Response): (f: Failure)
    ensures f.Message?
    ensures r.body.json.Some? && r.body.json.value.JObject? && Truthy(r.body.json.value.detail)
      ==> f.text == ToString(r.body.json.value.detail)
    ensures (r.body.json.None? || r.body.json == Some(JNull)) && r.body.text != ""
      ==> f.text == r.body.text
    ensures (r.body.json.None? || r.body.json == Some(JNull)) && r.body.text == ""
      ==> f.text == StatusMessage(r.status)
    ensures r.body.json.Some? && r.body.json.value != JNull
      && !(r.body.json.value.JObject? && Truthy(r.body.json.value.detail))
      ==> f.text == StatusMessage(r.status)
  {
    match r.body.json
    case Some(JObject(detail)) => Message(if Truthy(detail) then ToString(detail) else StatusMessage(r.status))
    case Some(JOther(_)) => Message(StatusMessage(r.status))
    case _ => Message(if r.body.text != "" then r.body.text else StatusMessage(r.status))
  }

  /** A 502 with a plain-text body: the code as written rejects with the
      consumed-body `TypeError` instead of the text the catch block meant to
      report. */
  lemma PlainTextErrorBodyIsLost()
    ensures var r := Response(502, Body("Bad Gateway", None));
      FailureAsWritten(r) == BodyUnusable && FailureOf(r) == Message("Bad Gateway")
  {
  }

  /** The intended failure agrees with the code wherever the code's JSON read
      succeeds and yields a non-null value. */
  lemma FailureOfAgreesOnJsonBodies(r: Response)
    requires r.body.json.Some? && r.body.json.value != JNull
    ensures FailureOf(r) == FailureAsWritten(r)
  {
  }

  /** The settlement of a call given its final response: non-ok rejects
      (with the intended failure when `corrected`, with the code's otherwise),
      204 resolves to `null` without reading the body, any other ok response
      resolves to its JSON (or rejects when it is not JSON). */
  function Finish(r: Response, corrected: bool): (res: Result)
    ensures !IsOk(r) ==> res.Rejected? && res.failure == (if corrected then FailureOf(r) else FailureAsWritten(r))
    ensures !IsOk(r) && r.body.json.Some? && r.body.json.value != JNull ==> res == Rejected(FailureOf(r))
    ensures !IsOk(r) && !corrected && (r.body.json.None? || r.body.json == Some(JNull)) ==> res == Rejected(BodyUnusable)
    ensures IsOk(r) && r.status == 204 ==> res == Resolved(None)
    ensures IsOk(r) && r.status != 204 && r.body.json.Some? ==> res == Resolved(r.body.json)
    ensures IsOk(r) && r.status != 204 && r.body.json.None? ==> res == Rejected(InvalidJson)
  {
    if !IsOk(r) then Rejected(if corrected then FailureOf(r) else FailureAsWritten(r))
    else if r.status == 204 then Resolved(None)
    else if r.body.json.Some? then Resolved(r.body.json)
    else Rejected(InvalidJson)
  }

  function Settle(d: Delivery, corrected: bool): Result {
    match d
    case Reply(r) => Finish(r, corrected)
    case NetworkFailure => Rejected(NetworkError)
  }

  // ---------------------------------------------------------------------
  // Interleaved callers sharing one refresh marker
  // ---------------------------------------------------------------------

  /** Where a call of `fetchWithAuth` stands. `AwaitingRefresh(k)` and
      `Retrying(k)` are inside the `try` whose `finally` clears the marker;
      `k` is the refresh the caller awaited. */
  datatype Phase = Requesting | AwaitingRefresh(refresh: nat) | Retrying(refresh: nat) | Done(result: Result)

  datatype Caller = Caller(url: string, options: Options, phase: Phase)

  /** Why a request was issued. */
  datatype Origin = First(caller: nat) | Retry(caller: nat) | RefreshCall(refresh: nat)

  datatype Request = Request(url: string, options: Options, origin: Origin)

  /** `refreshes[k]` is `None` while refresh `k` is in flight. `requests` is
      every request issued, in order. */
  datatype World = World(
    marker: Option<nat>,
    refreshes: seq<Option<Delivery>>,
    callers: seq<Caller>,
    requests: seq<Request>)

  const Start: World := World(None, [], [], [])

  datatype Event =
    | Call(url: string, options: Options)        // fetchWithAuth(url, options) is entered
    | Respond(caller: nat, delivery: Delivery)   // the caller's first request settles
    | RefreshSettles(refresh: nat, delivery: Delivery)
    | Resume(caller: nat)                        // the caller's `await refreshPromise` returns
    | RetryResponds(caller: nat, delivery: Delivery)

  predicate InFlight(w: World, k: nat) {
    k < |w.refreshes| && w.refreshes[k].None?
  }

  /** The `finally` block of a caller that awaited refresh `k`. As written it
      clears the marker whatever it names; the guarded form clears it only
      while it still names `k`. */
  function ClearMarker(marker: Option<nat>, k: nat, guarded: bool): Option<nat> {
    if !guarded || marker == Some(k) then None else marker
  }

  function SetPhase(w: World, i: nat, p: Phase): World
    requires i < |w.callers|
  {
    w.(callers := w.callers[i := w.callers[i].(phase := p)])
  }

  /** One event. `guarded` selects the corrected wrapper: the `finally`
      block that clears only its own refresh (see `ClearMarker`) and the
      intended failure of a non-ok response (see `Finish`). An event that
      does not fit the addressed caller's phase changes nothing. */
  function StepWith(w: World, e: Event, guarded: bool): World {
    match e
    case Call(url, options) =>
      var opts := WithCredentials(options);
      w.(callers := w.callers + [Caller(url, opts, Requesting)],
         requests := w.requests + [Request(url, opts, First(|w.callers|))])
    case Respond(i, d) =>
      if i >= |w.callers| || !w.callers[i].phase.Requesting? then w
      else if d.Reply? && d.response.status == 401 then
        if w.marker.None? then
          var k := |w.refreshes|;
          SetPhase(w.(marker := Some(k), refreshes := w.refreshes + [None],
                      requests := w.requests + [Request(RefreshUrl, RefreshOptions, RefreshCall(k))]),
                   i, AwaitingRefresh(k))
        else SetPhase(w, i, AwaitingRefresh(w.marker.value))
      else SetPhase(w, i, Done(Settle(d, guarded)))
    case RefreshSettles(k, d) =>
      if InFlight(w, k) then w.(refreshes := w.refreshes[k := Some(d)]) else w
    case Resume(i) =>
      if i >= |w.callers| || !w.callers[i].phase.AwaitingRefresh? then w
      else
        var k := w.callers[i].phase.refresh;
        if k >= |w.refreshes| || w.refreshes[k].None? then w
        else
          var d := w.refreshes[k].value;
          if d.Reply? && IsOk(d.response) then
            var c := w.callers[i];
            SetPhase(w.(requests := w.requests + [Request(c.url, c.options, Retry(i))]), i, Retrying(k))
          else if d.Reply? then
            SetPhase(w.(marker := ClearMarker(w.marker, k, guarded)), i, Done(Rejected(Message(SessionExpired))))
          else
            SetPhase(w.(marker := ClearMarker(w.marker, k, guarded)), i, Done(Rejected(NetworkError)))
    case RetryResponds(i, d) =>
      if i >= |w.callers| || !w.callers[i].phase.Retrying? then w
      else
        var k := w.callers[i].phase.refresh;
        SetPhase(w.(marker := ClearMarker(w.marker, k, guarded)), i, Done(Settle(d, guarded)))
  }

  /** `fetchWithAuth` as written. */
  function StepAsWritten(w: World, e: Event): World {
    StepWith(w, e, false)
  }

  /** `fetchWithAuth` corrected: the `finally` block clears only its own
      refresh, and a non-JSON error body's text becomes the message. */
  function Step(w: World, e: Event): World {
    StepWith(w, e, true)
  }

  function RunWith(w: World, es: seq<Event>, guarded: bool): World
    decreases |es|
  {
    if |es| == 0 then w else StepWith(RunWith(w, es[..|es| - 1], guarded), es[|es| - 1], guarded)
  }

  // ---------------------------------------------------------------------
  // Properties of single events
  // ---------------------------------------------------------------------

  /** A 401 issues a refresh request exactly when no refresh is marked; the
      caller then awaits the marked refresh, new or old. Any other delivery
      settles the caller with no new request. */
  lemma RespondRefreshesOnlyWhenIdle(w: World, i: nat, d: Delivery, guarded: bool)
    requires i < |w.callers| && w.callers[i].phase.Requesting?
    ensures var w' := StepWith(w, Respond(i, d), guarded);
      if d.Reply? && d.response.status == 401 then
        && (w.marker.None? ==>
              && w'.requests == w.requests + [Request(RefreshUrl, RefreshOptions, RefreshCall(|w.refreshes|))]
              && w'.marker == Some(|w.refreshes|) && InFlight(w', |w.refreshes|))
        && (w.marker.Some? ==>
              w'.requests == w.requests && w'.refreshes == w.refreshes && w'.marker == w.marker)
        && w'.callers[i].phase == AwaitingRefresh(w'.marker.value)
      else w'.requests == w.requests && w'.marker == w.marker && w'.callers[i].phase == Done(Settle(d, guarded))
  {
  }

  /** After its refresh settles a caller retries once, with the same URL and
      options, only on a successful refresh; a failed refresh rejects with
      the session-expired message and issues nothing. */
  lemma ResumeRetriesOnlyOnSuccess(w: World, i: nat, guarded: bool)
    requires i < |w.callers| && w.callers[i].phase.AwaitingRefresh?
    requires var k := w.callers[i].phase.refresh; k < |w.refreshes| && w.refreshes[k].Some?
    ensures var k := w.callers[i].phase.refresh;
      var w' := StepWith(w, Resume(i), guarded);
      match w.refreshes[k].value
      case Reply(r) =>
        if IsOk(r) then
          w'.requests == w.requests + [Request(w.callers[i].url, w.callers[i].options, Retry(i))]
          && w'.callers[i].phase == Retrying(k) && w'.marker == w.marker
        else
          w'.requests == w.requests && w'.callers[i].phase == Done(Rejected(Message(SessionExpired)))
          && w'.marker == ClearMarker(w.marker, k, guarded) && (!guarded ==> w'.marker.None?)
      case NetworkFailure =>
        w'.requests == w.requests && w'.callers[i].phase == Done(Rejected(NetworkError))
        && w'.marker == ClearMarker(w.marker, k, guarded) && (!guarded ==> w'.marker.None?)
  {
  }

  /** The retry's answer is final: even a second 401 settles the call, with
      no further refresh, and the `finally` has run. */
  lemma RetryIsFinal(w: World, i: nat, d: Delivery, guarded: bool)
    requires i < |w.callers| && w.callers[i].phase.Retrying?
    ensures var w' := StepWith(w, RetryResponds(i, d), guarded);
      && w'.callers[i].phase == Done(Settle(d, guarded))
      && w'.requests == w.requests && w'.refreshes == w.refreshes
      && w'.marker == ClearMarker(w.marker, w.callers[i].phase.refresh, guarded)
      && (!guarded ==> w'.marker.None?)
      && (guarded ==> w'.marker == (if w.marker == Some(w.callers[i].phase.refresh) then None else w.marker))
  {
  }

  /** A call answered by a 502 whose body is plain text: as written it
      rejects with the consumed-body `TypeError`, corrected with the text. */
  lemma BadGatewayThroughTheWrapper()
    ensures var bad := Respond(0, Reply(Response(502, Body("Bad Gateway", None))));
      && StepAsWritten(StepAsWritten(Start, Call("/x", map[])), bad).callers[0].phase == Done(Rejected(BodyUnusable))
      && Step(Step(Start, Call("/x", map[])), bad).callers[0].phase == Done(Rejected(Message("Bad Gateway")))
  {
  }

  // ---------------------------------------------------------------------
  // Whole-run invariants
  // ---------------------------------------------------------------------

  predicate PhaseRefersToKnownRefresh(p: Phase, n: nat) {
    (p.AwaitingRefresh? ==> p.refresh < n) && (p.Retrying? ==> p.refresh < n)
  }

  predicate IncludesCredentials(o: Options) {
    "credentials" in o && o["credentials"] == Str("include")
  }

  function RetriesOf(rs: seq<Request>, i: nat): nat
    decreases |rs|
  {
    if |rs| == 0 then 0
    else RetriesOf(rs[..|rs| - 1], i) + (if rs[|rs| - 1].origin == Retry(i) then 1 else 0)
  }

  /** The facts every reachable world keeps, whichever `finally` is used. */
  predicate WellFormed(w: World) {
    && (w.marker.Some? ==> w.marker.value < |w.refreshes|)
    && (forall i :: 0 <= i < |w.callers| ==> PhaseRefersToKnownRefresh(w.callers[i].phase, |w.refreshes|))
    && (forall i :: 0 <= i < |w.callers| && w.callers[i].phase.Retrying? ==> !InFlight(w, w.callers[i].phase.refresh))
    && (forall j :: 0 <= j < |w.requests| ==> IncludesCredentials(w.requests[j].options))
    && (forall i :: 0 <= i < |w.callers| ==> IncludesCredentials(w.callers[i].options))
    && (forall i :: 0 <= i < |w.callers| ==>
          RetriesOf(w.requests, i) <= 1
          && (w.callers[i].phase.Requesting? || w.callers[i].phase.AwaitingRefresh? ==> RetriesOf(w.requests, i) == 0))
    && (forall j :: 0 <= j < |w.requests| && w.requests[j].origin.Retry? ==> w.requests[j].origin.caller < |w.callers|)
  }

  /** Single flight: every refresh still in flight is the marked one, so at
      most one is in flight at a time. */
  predicate SingleFlight(w: World) {
    forall k :: 0 <= k < |w.refreshes| && w.refreshes[k].None? ==> w.marker == Some(k)
  }

  lemma RetriesOfAppend(rs: seq<Request>, q: Request, i: nat)
    ensures RetriesOf(rs + [q], i) == RetriesOf(rs, i) + (if q.origin == Retry(i) then 1 else 0)
  {
    assert (rs + [q])[..|rs|] == rs;
  }

  lemma {:induction false} RetriesOfAbsent(rs: seq<Request>, i: nat)
    requires forall j :: 0 <= j < |rs| ==> rs[j].origin != Retry(i)
    ensures RetriesOf(rs, i) == 0
    decreases |rs|
  {
    if |rs| > 0 {
      RetriesOfAbsent(rs[..|rs| - 1], i);
    }
  }

  lemma CallKeepsWellFormed(w: World, url: string, options: Options, guarded: bool)
    requires WellFormed(w)
    ensures WellFormed(StepWith(w, Call(url, options), guarded))
  {
    RetriesOfAbsent(w.requests, |w.callers|);
    var w' := StepWith(w, Call(url, options), guarded);
    var q := Request(url, WithCredentials(options), First(|w.callers|));
    assert w'.requests == w.requests + [q];
    forall i | 0 <= i < |w'.callers| ensures RetriesOf(w'.requests, i) == RetriesOf(w.requests, i) {
      RetriesOfAppend(w.requests, q, i);
    }
  }

  lemma RespondKeepsWellFormed(w: World, i: nat, d: Delivery, guarded: bool)
    requires WellFormed(w)
    ensures WellFormed(StepWith(w, Respond(i, d), guarded))
  {
    var w' := StepWith(w, Respond(i, d), guarded);
    if i < |w.callers| && w.callers[i].phase.Requesting? && d.Reply? && d.response.status == 401 && w.marker.None? {
      var q := Request(RefreshUrl, RefreshOptions, RefreshCall(|w.refreshes|));
      assert w'.requests == w.requests + [q];
      forall j | 0 <= j < |w'.callers| ensures RetriesOf(w'.requests, j) == RetriesOf(w.requests, j) {
        RetriesOfAppend(w.requests, q, j);
      }
      assert forall k :: 0 <= k < |w.refreshes| ==> w'.refreshes[k] == w.refreshes[k];
    }
  }

  /** A caller whose refresh succeeded issues its retry. */
  lemma RetryIssuedKeepsWellFormed(w: World, i: nat, k: nat)
    requires WellFormed(w) && i < |w.callers| && w.callers[i].phase == AwaitingRefresh(k)
    requires k < |w.refreshes| && w.refreshes[k].Some?
    ensures var c := w.callers[i];
      WellFormed(SetPhase(w.(requests := w.requests + [Request(c.url, c.options, Retry(i))]), i, Retrying(k)))
  {
    var c := w.callers[i];
    var q := Request(c.url, c.options, Retry(i));
    var w' := SetPhase(w.(requests := w.requests + [q]), i, Retrying(k));
    forall j | 0 <= j < |w'.callers|
      ensures RetriesOf(w'.requests, j) == RetriesOf(w.requests, j) + (if j == i then 1 else 0)
    {
      RetriesOfAppend(w.requests, q, j);
    }
  }

  /** A caller settles, possibly clearing the marker. */
  lemma CallerDoneKeepsWellFormed(w: World, i: nat, marker: Option<nat>, res: Result)
    requires WellFormed(w) && i < |w.callers|
    requires marker.None? || marker == w.marker
    ensures WellFormed(SetPhase(w.(marker := marker), i, Done(res)))
  {
  }

  lemma ResumeKeepsWellFormed(w: World, i: nat, guarded: bool)
    requires WellFormed(w)
    ensures WellFormed(StepWith(w, Resume(i), guarded))
  {
    if i < |w.callers| && w.callers[i].phase.AwaitingRefresh? {
      var k := w.callers[i].phase.refresh;
      if k < |w.refreshes| && w.refreshes[k].Some? {
        var d := w.refreshes[k].value;
        var m := ClearMarker(w.marker, k, guarded);
        if d.Reply? && IsOk(d.response) {
          RetryIssuedKeepsWellFormed(w, i, k);
        } else if d.Reply? {
          CallerDoneKeepsWellFormed(w, i, m, Rejected(Message(SessionExpired)));
        } else {
          CallerDoneKeepsWellFormed(w, i, m, Rejected(NetworkError));
        }
      }
    }
  }

  /** Every event keeps the world well formed, under either `finally`. */
  lemma StepKeepsWellFormed(w: World, e: Event, guarded: bool)
    requires WellFormed(w)
    ensures WellFormed(StepWith(w, e, guarded))
  {
    match e
    case Call(url, options) => CallKeepsWellFormed(w, url, options, guarded);
    case Respond(i, d) => RespondKeepsWellFormed(w, i, d, guarded);
    case RefreshSettles(k, d) =>
    case Resume(i) => ResumeKeepsWellFormed(w, i, guarded);
    case RetryResponds(i, d) =>
  }

  /** With the guarded `finally`, every event keeps single flight. */
  lemma StepKeepsSingleFlight(w: World, e: Event)
    requires WellFormed(w) && SingleFlight(w)
    ensures SingleFlight(Step(w, e))
  {
    var w' := Step(w, e);
    match e
    case Respond(i, d) =>
      if i < |w.callers| && w.callers[i].phase.Requesting? && d.Reply? && d.response.status == 401 && w.marker.None? {
        forall k | 0 <= k < |w.refreshes| ensures w'.refreshes[k] == w.refreshes[k] && w.refreshes[k].Some? {
        }
      }
    case Resume(i) =>
    case RetryResponds(i, d) =>
    case _ =>
  }

  /** Every run from the start keeps the world well formed, under either
      `finally`, and with the guarded one also keeps single flight. */
  lemma {:induction false} RunKeepsInvariants(es: seq<Event>, guarded: bool)
    ensures WellFormed(RunWith(Start, es, guarded))
    ensures guarded ==> SingleFlight(RunWith(Start, es, guarded))
    decreases |es|
  {
    if |es| > 0 {
      var before := RunWith(Start, es[..|es| - 1], guarded);
      RunKeepsInvariants(es[..|es| - 1], guarded);
      StepKeepsWellFormed(before, es[|es| - 1], guarded);
      if guarded {
        StepKeepsSingleFlight(before, es[|es| - 1]);
      }
    }
  }

  /** However the callers interleave, the guarded wrapper never has two
      refreshes in flight, every request it issued carries credentials, and
      no caller retried more than once. */
  lemma GuardedRunsAreSingleFlight(es: seq<Event>)
    ensures var w := RunWith(Start, es, true);
      && (forall k1, k2 :: InFlight(w, k1) && InFlight(w, k2) ==> k1 == k2)
      && (forall j :: 0 <= j < |w.requests| ==> IncludesCredentials(w.requests[j].options))
      && (forall i :: 0 <= i < |w.callers| ==> RetriesOf(w.requests, i) <= 1)
  {
    RunKeepsInvariants(es, true);
  }

  lemma RunWithStep(w: World, es: seq<Event>, n: nat, guarded: bool)
    requires n < |es|
    ensures RunWith(w, es[..n + 1], guarded) == StepWith(RunWith(w, es[..n], guarded), es[n], guarded)
  {
    assert es[..n + 1][..n] == es[..n];
  }

  const Unauthorized: Delivery := Reply(Response(401, Body("", Some(JObject(Undefined)))))
  const Fine: Delivery := Reply(Response(200, Body("{}", Some(JObject(Undefined)))))

  /** Four calls whose first requests all meet an expired session. Callers 0
      and 1 share refresh 0 and retry; caller 1's retry returns first and its
      `finally` clears the marker; caller 2 then starts refresh 1; caller 0's
      retry returns and its `finally` clears the marker again, though it now
      names refresh 1; caller 3 then starts refresh 2. */
  const RaceTrace: seq<Event> := [
    Call("/a", map[]), Call("/b", map[]), Call("/c", map[]), Call("/d", map[]),
    Respond(0, Unauthorized), Respond(1, Unauthorized),
    RefreshSettles(0, Fine), Resume(0), Resume(1),
    RetryResponds(1, Fine),
    Respond(2, Unauthorized),
    RetryResponds(0, Fine),
    Respond(3, Unauthorized)
  ]

  /** The state of the race after its first `n` events. */
  function RaceAfter(n: nat, guarded: bool): World
    requires n <= |RaceTrace|
  {
    RunWith(Start, RaceTrace[..n], guarded)
  }

  /** `w` has the given marker, refreshes and caller phases. */
  predicate Shows(w: World, marker: Option<nat>, refreshes: seq<Option<Delivery>>, phases: seq<Phase>) {
    && w.marker == marker && w.refreshes == refreshes && |w.callers| == |phases|
    && forall i :: 0 <= i < |phases| ==> w.callers[i].phase == phases[i]
  }

  lemma ShowsAfterCall(w: World, url: string, options: Options, guarded: bool,
                       m: Option<nat>, rs: seq<Option<Delivery>>, ps: seq<Phase>)
    requires Shows(w, m, rs, ps)
    ensures Shows(StepWith(w, Call(url, options), guarded), m, rs, ps + [Requesting])
  {
  }

  lemma ShowsAfterUnauthorized(w: World, i: nat, guarded: bool,
                               m: Option<nat>, rs: seq<Option<Delivery>>, ps: seq<Phase>)
    requires Shows(w, m, rs, ps) && i < |ps| && ps[i] == Requesting
    ensures m.None? ==> Shows(StepWith(w, Respond(i, Unauthorized), guarded),
                              Some(|rs|), rs + [None], ps[i := AwaitingRefresh(|rs|)])
    ensures m.Some? ==> Shows(StepWith(w, Respond(i, Unauthorized), guarded),
                              m, rs, ps[i := AwaitingRefresh(m.value)])
  {
  }

  lemma ShowsAfterRefreshSettles(w: World, k: nat, d: Delivery, guarded: bool,
                                 m: Option<nat>, rs: seq<Option<Delivery>>, ps: seq<Phase>)
    requires Shows(w, m, rs, ps) && k < |rs| && rs[k].None?
    ensures Shows(StepWith(w, RefreshSettles(k, d), guarded), m, rs[k := Some(d)], ps)
  {
  }

  lemma ShowsAfterResume(w: World, i: nat, guarded: bool,
                         m: Option<nat>, rs: seq<Option<Delivery>>, ps: seq<Phase>)
    requires Shows(w, m, rs, ps) && i < |ps| && ps[i].AwaitingRefresh?
    requires ps[i].refresh < |rs| && rs[ps[i].refresh] == Some(Fine)
    ensures Shows(StepWith(w, Resume(i), guarded), m, rs, ps[i := Retrying(ps[i].refresh)])
  {
  }

  lemma ShowsAfterRetry(w: World, i: nat, d: Delivery, guarded: bool,
                        m: Option<nat>, rs: seq<Option<Delivery>>, ps: seq<Phase>)
    requires Shows(w, m, rs, ps) && i < |ps| && ps[i].Retrying?
    ensures Shows(StepWith(w, RetryResponds(i, d), guarded),
                  ClearMarker(m, ps[i].refresh, guarded), rs, ps[i := Done(Settle(d, guarded))])
  {
  }

  const Q: Phase := Requesting
  const Ok: Phase := Done(Resolved(Some(JObject(Undefined))))

  lemma RaceFirstCalls(guarded: bool)
    ensures Shows(RaceAfter(2, guarded), None, [], [Q, Q])
  {
    assert RaceTrace[..0] == [];
    RunWithStep(Start, RaceTrace, 0, guarded);
    ShowsAfterCall(RaceAfter(0, guarded), "/a", map[], guarded, None, [], []);
    RunWithStep(Start, RaceTrace, 1, guarded);
    ShowsAfterCall(RaceAfter(1, guarded), "/b", map[], guarded, None, [], [Q]);
  }

  lemma RaceOpening(guarded: bool)
    ensures Shows(RaceAfter(4, guarded), None, [], [Q, Q, Q, Q])
  {
    RaceFirstCalls(guarded);
    RunWithStep(Start, RaceTrace, 2, guarded);
    ShowsAfterCall(RaceAfter(2, guarded), "/c", map[], guarded, None, [], [Q, Q]);
    RunWithStep(Start, RaceTrace, 3, guarded);
    ShowsAfterCall(RaceAfter(3, guarded), "/d", map[], guarded, None, [], [Q, Q, Q]);
  }

  lemma RaceFirstAwait(guarded: bool)
    ensures Shows(RaceAfter(5, guarded), Some(0), [None], [AwaitingRefresh(0), Q, Q, Q])
  {
    RaceOpening(guarded);
    RunWithStep(Start, RaceTrace, 4, guarded);
    ShowsAfterUnauthorized(RaceAfter(4, guarded), 0, guarded, None, [], [Q, Q, Q, Q]);
    assert [Q, Q, Q, Q][0 := AwaitingRefresh(0)] == [AwaitingRefresh(0), Q, Q, Q];
  }

  lemma RaceBothAwait(guarded: bool)
    ensures Shows(RaceAfter(6, guarded), Some(0), [None], [AwaitingRefresh(0), AwaitingRefresh(0), Q, Q])
  {
    RaceFirstAwait(guarded);
    RunWithStep(Start, RaceTrace, 5, guarded);
    ShowsAfterUnauthorized(RaceAfter(5, guarded), 1, guarded, Some(0), [None], [AwaitingRefresh(0), Q, Q, Q]);
    assert [AwaitingRefresh(0), Q, Q, Q][1 := AwaitingRefresh(0)] == [AwaitingRefresh(0), AwaitingRefresh(0), Q, Q];
  }

  lemma RaceFirstResume(guarded: bool)
    ensures Shows(RaceAfter(8, guarded), Some(0), [Some(Fine)], [Retrying(0), AwaitingRefresh(0), Q, Q])
  {
    RaceBothAwait(guarded);
    RunWithStep(Start, RaceTrace, 6, guarded);
    ShowsAfterRefreshSettles(RaceAfter(6, guarded), 0, Fine, guarded, Some(0), [None],
                             [AwaitingRefresh(0), AwaitingRefresh(0), Q, Q]);
    assert [None][0 := Some(Fine)] == [Some(Fine)];
    RunWithStep(Start, RaceTrace, 7, guarded);
    ShowsAfterResume(RaceAfter(7, guarded), 0, guarded, Some(0), [Some(Fine)],
                     [AwaitingRefresh(0), AwaitingRefresh(0), Q, Q]);
    assert [AwaitingRefresh(0), AwaitingRefresh(0), Q, Q][0 := Retrying(0)] == [Retrying(0), AwaitingRefresh(0), Q, Q];
  }

  lemma RaceSharedRefresh(guarded: bool)
    ensures Shows(RaceAfter(9, guarded), Some(0), [Some(Fine)], [Retrying(0), Retrying(0), Q, Q])
  {
    RaceFirstResume(guarded);
    RunWithStep(Start, RaceTrace, 8, guarded);
    ShowsAfterResume(RaceAfter(8, guarded), 1, guarded, Some(0), [Some(Fine)],
                     [Retrying(0), AwaitingRefresh(0), Q, Q]);
    assert [Retrying(0), AwaitingRefresh(0), Q, Q][1 := Retrying(0)] == [Retrying(0), Retrying(0), Q, Q];
  }

  lemma RaceSecondRefresh(guarded: bool)
    ensures Shows(RaceAfter(11, guarded), Some(1), [Some(Fine), None], [Retrying(0), Ok, AwaitingRefresh(1), Q])
  {
    RaceSharedRefresh(guarded);
    RunWithStep(Start, RaceTrace, 9, guarded);
    ShowsAfterRetry(RaceAfter(9, guarded), 1, Fine, guarded, Some(0), [Some(Fine)], [Retrying(0), Retrying(0), Q, Q]);
    assert [Retrying(0), Retrying(0), Q, Q][1 := Ok] == [Retrying(0), Ok, Q, Q];
    RunWithStep(Start, RaceTrace, 10, guarded);
    ShowsAfterUnauthorized(RaceAfter(10, guarded), 2, guarded, None, [Some(Fine)], [Retrying(0), Ok, Q, Q]);
    assert [Retrying(0), Ok, Q, Q][2 := AwaitingRefresh(1)] == [Retrying(0), Ok, AwaitingRefresh(1), Q];
  }

  /** The code as written: at the end of the race refreshes 1 and 2 are in
      flight at once, and the marker names only the second. */
  lemma TwoRefreshesInFlightAsWritten()
    ensures var w := RunWith(Start, RaceTrace, false);
      InFlight(w, 1) && InFlight(w, 2) && w.marker == Some(2)
  {
    RaceSecondRefresh(false);
    RunWithStep(Start, RaceTrace, 11, false);
    ShowsAfterRetry(RaceAfter(11, false), 0, Fine, false, Some(1), [Some(Fine), None],
                    [Retrying(0), Ok, AwaitingRefresh(1), Q]);
    assert [Retrying(0), Ok, AwaitingRefresh(1), Q][0 := Ok] == [Ok, Ok, AwaitingRefresh(1), Q];
    RunWithStep(Start, RaceTrace, 12, false);
    ShowsAfterUnauthorized(RaceAfter(12, false), 3, false, None, [Some(Fine), None], [Ok, Ok, AwaitingRefresh(1), Q]);
    assert RaceTrace[..13] == RaceTrace;
  }

  /** The guarded wrapper on the same events: caller 0's `finally` leaves
      refresh 1's marker alone, so caller 3 awaits refresh 1 and nothing
      else is in flight. */
  lemma RaceStaysSingleFlightGuarded()
    ensures var w := RunWith(Start, RaceTrace, true);
      InFlight(w, 1) && |w.refreshes| == 2 && w.marker == Some(1) && |w.callers| == 4 && w.callers[3].phase == AwaitingRefresh(1)
  {
    RaceSecondRefresh(true);
    RunWithStep(Start, RaceTrace, 11, true);
    ShowsAfterRetry(RaceAfter(11, true), 0, Fine, true, Some(1), [Some(Fine), None],
                    [Retrying(0), Ok, AwaitingRefresh(1), Q]);
    assert [Retrying(0), Ok, AwaitingRefresh(1), Q][0 := Ok] == [Ok, Ok, AwaitingRefresh(1), Q];
    RunWithStep(Start, RaceTrace, 12, true);
    ShowsAfterUnauthorized(RaceAfter(12, true), 3, true, Some(1), [Some(Fine), None], [Ok, Ok, AwaitingRefresh(1), Q]);
    assert RaceTrace[..13] == RaceTrace;
  }

  // ---------------------------------------------------------------------
  // logout
  // ---------------------------------------------------------------------

  datatype Profile = Profile(id: int, username: string)

  /** What `logout` leaves behind: the user store, the page it navigates to
      (in the browser), and how the call itself settles. */
  datatype LogoutOutcome = LogoutOutcome(user: Option<Profile>, navigation: Option<string>, result: Result)

  /** The request `logout` makes through the wrapper. */
  const LogoutCall: Event := Call("/api/auth/logout", map["method" := Str("POST")])

  /** One event only appends callers and requests, and never changes a
      caller's URL or options. */
  lemma StepKeepsCallersAndRequests(w: World, e: Event, guarded: bool)
    ensures var w' := StepWith(w, e, guarded);
      && |w'.callers| >= |w.callers| && |w'.requests| >= |w.requests|
      && w'.requests[..|w.requests|] == w.requests
      && forall i :: 0 <= i < |w.callers| ==> w'.callers[i].url == w.callers[i].url && w'.callers[i].options == w.callers[i].options
  {
  }

  /** A run only appends callers and requests, and never changes a caller's
      URL or options. */
  lemma {:induction false} RunKeepsCallersAndRequests(w: World, es: seq<Event>, guarded: bool)
    ensures var w' := RunWith(w, es, guarded);
      && |w'.callers| >= |w.callers| && |w'.requests| >= |w.requests|
      && w'.requests[..|w.requests|] == w.requests
      && forall i :: 0 <= i < |w.callers| ==> w'.callers[i].url == w.callers[i].url && w'.callers[i].options == w.callers[i].options
    decreases |es|
  {
    if |es| > 0 {
      var before := RunWith(w, es[..|es| - 1], guarded);
      RunKeepsCallersAndRequests(w, es[..|es| - 1], guarded);
      StepKeepsCallersAndRequests(before, es[|es| - 1], guarded);
      var after := RunWith(w, es, guarded);
      assert after.requests[..|before.requests|] == before.requests;
      assert after.requests[..|w.requests|] == after.requests[..|before.requests|][..|w.requests|];
    }
  }

  /** `logout`, given how its request settled: the `finally` block clears the
      user and navigates to the login page whether or not the request failed,
      and a failure still propagates to the caller afterwards. */
  function Logout(request: Result, browser: bool): (r: LogoutOutcome)
    ensures r.user.None?
    ensures r.navigation.Some? <==> browser
    ensures r.navigation.Some? ==> r.navigation.value == "/login"
    ensures request.Rejected? ==> r.result == request
    ensures request.Resolved? ==> r.result == Resolved(None)
  {
    LogoutOutcome(None, if browser then Some("/login") else None,
                  if request.Rejected? then request else Resolved(None))
  }

  /** `logout` goes through the wrapper: its call is the first caller, and
      its first request is a POST to the logout endpoint with credentials,
      whatever happens afterwards. Once that call settles, `logout` clears
      the user and hands a rejection on to its own caller. */
  lemma LogoutRunsThroughTheWrapper(es: seq<Event>, guarded: bool, browser: bool)
    ensures var w := RunWith(StepWith(Start, LogoutCall, guarded), es, guarded);
      && |w.callers| >= 1 && |w.requests| >= 1
      && w.callers[0].url == "/api/auth/logout"
      && w.requests[0] == Request("/api/auth/logout", map["method" := Str("POST"), "credentials" := Str("include")], First(0))
      && (w.callers[0].phase.Done? ==>
            var out := Logout(w.callers[0].phase.result, browser);
            out.user.None? && (w.callers[0].phase.result.Rejected? ==> out.result == w.callers[0].phase.result))
  {
    var w0 := StepWith(Start, LogoutCall, guarded);
    RunKeepsCallersAndRequests(w0, es, guarded);
    var w := RunWith(w0, es, guarded);
    assert w.requests[..1] == w0.requests;
    assert w.requests[0] == w.requests[..1][0];
  }
}
