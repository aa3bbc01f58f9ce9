/**
 One provider turn over an unreliable transport: attempts, credential refresh, the
 fallback without tools, and what the host sees of it all.

 The transport and the credential source are arbitrary functions of the call number,
 so every sequence of outcomes is covered.
 */
module Retry {
  import opened Wrappers

  /** Errors by the code their message begins with. */
  datatype Failure =
    | StreamClosed | InvalidToolCall | EmptyResponse | MalformedResponse | ResourceUnavailable
    | TransientHttp | TransientTransport | Deadline | OtherFailure

  predicate Retryable(f: Failure) { !f.Deadline? && !f.OtherFailure? }

  /** The codes of `retryable_error`. */
  const RETRYABLE_CODES: seq<string> := [
    "PROVIDER_STREAM_CLOSED:", "PROVIDER_INVALID_TOOL_CALL:", "PROVIDER_EMPTY_RESPONSE:", "PROVIDER_MALFORMED_RESPONSE:",
    "PROVIDER_RESOURCE_UNAVAILABLE:", "PROVIDER_TRANSIENT_HTTP:", "PROVIDER_TRANSIENT_TRANSPORT:"]

  /** How the message of a failure begins; other failures begin with none of these codes. */
  function Code(f: Failure): string {
    match f
    case StreamClosed => "PROVIDER_STREAM_CLOSED:"
    case InvalidToolCall => "PROVIDER_INVALID_TOOL_CALL:"
    case EmptyResponse => "PROVIDER_EMPTY_RESPONSE:"
    case MalformedResponse => "PROVIDER_MALFORMED_RESPONSE:"
    case ResourceUnavailable => "PROVIDER_RESOURCE_UNAVAILABLE:"
    case TransientHttp => "PROVIDER_TRANSIENT_HTTP:"
    case TransientTransport => "PROVIDER_TRANSIENT_TRANSPORT:"
    case Deadline => "PROVIDER_DEADLINE:"
    case OtherFailure => ""
  }

  /** A failure may be retried exactly when its code is on the list. */
  lemma RetryableByCode(f: Failure)
    ensures Retryable(f) <==> Code(f) in RETRYABLE_CODES
  {
    assert RETRYABLE_CODES[0] == Code(StreamClosed) && RETRYABLE_CODES[1] == Code(InvalidToolCall) && RETRYABLE_CODES[2] == Code(EmptyResponse);
    assert RETRYABLE_CODES[3] == Code(MalformedResponse) && RETRYABLE_CODES[4] == Code(ResourceUnavailable);
    assert RETRYABLE_CODES[5] == Code(TransientHttp) && RETRYABLE_CODES[6] == Code(TransientTransport);
    DeadlineIsNotListed();
  }

  lemma DeadlineIsNotListed()
    ensures "PROVIDER_DEADLINE:" !in RETRYABLE_CODES && "" !in RETRYABLE_CODES
  {
    assert forall i :: 0 <= i < |RETRYABLE_CODES| ==> |RETRYABLE_CODES[i]| > 18;
  }

  /** Successes, refused credentials and statuses worth a retry are told apart. */
  lemma StatusesApart(status: nat)
    ensures Success(status) ==> status / 100 == 2 && status != 401 && !RetryableStatus(status) && !ToolModeError(status)
    ensures status / 100 == 2 ==> Success(status)
    ensures RetryableStatus(status) ==> status != 401 && status / 100 in {4, 5}
    ensures ToolModeError(status) ==> status != 401 && status / 100 in {4, 5}
    ensures status / 100 == 4 ==> (RetryableStatus(status) <==> status % 100 in {8, 29}) && (ToolModeError(status) <==> status % 100 in {0, 22})
    ensures status / 100 == 5 ==> (RetryableStatus(status) <==> status % 100 in {0, 2, 3, 4}) && (ToolModeError(status) <==> status % 100 == 0)
  {
  }

  predicate RetryableStatus(status: nat) { status in {408, 429, 500, 502, 503, 504} }

  predicate ToolModeError(status: nat) { status in {400, 422, 500} }

  predicate Success(status: nat) { 200 <= status < 300 }

  /** A decoded turn, and what its final validation says. */
  datatype Turn = Turn(number: nat, problem: Option<Failure>)

  /**
   What one transport call leads to.  For a success status `deltas` are the text and
   reasoning deltas decoded before `result`; for another status `result` only tells
   whether the error body could be read.
   */
  datatype Outcome =
    | Unsent(failure: Failure)
    | Response(status: nat, deltas: seq<string>, result: Result<Turn, Failure>)

  /** The non-empty ones. */
  function Visible(deltas: seq<string>): seq<string> {
    if deltas == [] then []
    else Visible(deltas[..|deltas| - 1]) + (if deltas[|deltas| - 1] == "" then [] else [deltas[|deltas| - 1]])
  }

  lemma {:induction false} VisibleAppend(a: seq<string>, b: seq<string>)
    ensures Visible(a + b) == Visible(a) + Visible(b)
    decreases |b|
  {
    if b == [] {
      assert a + b == a;
    } else {
      var n := |b| - 1;
      assert (a + b)[..|a| + n] == a + b[..n];
      VisibleAppend(a, b[..n]);
    }
  }

  /** What the host can see of a call. */
  function Streamed(o: Outcome): seq<string> {
    if o.Response? && Success(o.status) then o.deltas else []
  }

  class Host {
    var received: seq<string>
  }

  /** Passes deltas on and remembers whether any was visible. */
  class AttemptSink {
    const inner: Host
    var visible: bool

    constructor (inner: Host)
      ensures this.inner == inner && !visible
    {
      this.inner, visible := inner, false;
    }

    method OnDelta(delta: string)
      modifies this, inner
      ensures visible == (old(visible) || delta != "")
      ensures inner.received == old(inner.received) + [delta]
    {
      if delta != "" { visible := true; }
      inner.received := inner.received + [delta];
    }
  }

  datatype Config = Config(supportsRefresh: bool, retryWithoutTools: bool, hasTools: bool, hosted: bool,
                           requestCheck: Option<Failure>, fallbackCheck: Option<Failure>)

  /** What one attempt did: its transport calls, its forced refreshes and how it failed. */
  datatype Attempt = Attempt(calls: nat, refreshes: nat, failure: Option<Failure>)

  /** The request as it is, or without its tools and with a notice instead. */
  datatype Body = Full | WithoutTools

  /** What a transport call was given. */
  datatype Sent = Sent(token: string, body: Body)

  /** What the credentials and the transport make of one request. */
  datatype Authorized = Authorized(reply: Result<(nat, Option<Turn>), Failure>, calls: nat, lookups: nat, refreshes: nat, tokens: seq<string>)

  class Provider {
    const config: Config
    const transport: nat -> Outcome
    const bearer: nat -> Result<string, Failure>
    var calls: nat
    var lookups: nat
    var refreshes: nat
    /** What each transport call was given. */
    ghost var sent: seq<Sent>

    constructor (config: Config, transport: nat -> Outcome, bearer: nat -> Result<string, Failure>)
      ensures this.config == config && this.transport == transport && this.bearer == bearer
      ensures calls == 0 && lookups == 0 && refreshes == 0 && sent == []
    {
      this.config, this.transport, this.bearer := config, transport, bearer;
      calls, lookups, refreshes, sent := 0, 0, 0, [];
    }

    /** The answer to transport call `k`, as `stream_turn` returns it. */
    function Reply(k: nat): Result<(nat, Option<Turn>), Failure> {
      match transport(k)
      case Unsent(f) => Err(f)
      case Response(status, _, result) =>
        if Success(status) then (if result.Ok? then Ok((status, Some(result.value))) else Err(result.error))
        else if status == 401 || RetryableStatus(status) || result.Ok? then Ok((status, None))
        else Err(result.error)
    }

    method ResolveBearer(force: bool) returns (token: Result<string, Failure>)
      modifies this`lookups, this`refreshes
      ensures lookups == old(lookups) + 1 && refreshes == old(refreshes) + if force then 1 else 0
      ensures token == bearer(old(lookups))
    {
      token := bearer(lookups);
      lookups := lookups + 1;
      if force { refreshes := refreshes + 1; }
    }

    method StreamTurn(token: string, body: Body, sink: AttemptSink) returns (r: Result<(nat, Option<Turn>), Failure>)
      modifies this`calls, this`sent, sink, sink.inner
      ensures calls == old(calls) + 1 && r == Reply(old(calls)) && sent == old(sent) + [Sent(token, body)]
      ensures sink.inner.received == old(sink.inner.received) + Streamed(transport(old(calls)))
      ensures sink.visible == (old(sink.visible) || Visible(Streamed(transport(old(calls)))) != [])
    {
      sent := sent + [Sent(token, body)];
      var o := transport(calls);
      calls := calls + 1;
      if o.Unsent? { return Err(o.failure); }
      if !Success(o.status) {
        if o.status == 401 || RetryableStatus(o.status) { return Ok((o.status, None)); }
        if o.result.Err? { return Err(o.result.error); }
        return Ok((o.status, None));
      }
      for i := 0 to |o.deltas|
        invariant calls == old(calls) + 1 && sent == old(sent) + [Sent(token, body)]
        invariant sink.inner.received == old(sink.inner.received) + o.deltas[..i]
        invariant sink.visible == (old(sink.visible) || Visible(o.deltas[..i]) != [])
      {
        sink.OnDelta(o.deltas[i]);
        assert o.deltas[..i + 1][..i] == o.deltas[..i];
      }
      assert o.deltas[..|o.deltas|] == o.deltas;
      if o.result.Err? { return Err(o.result.error); }
      return Ok((o.status, Some(o.result.value)));
    }

    /** A call answered with an error status shows nothing. */
    lemma ErrorStatusIsQuiet(k: nat)
      ensures Reply(k).Ok? && !Success(Reply(k).value.0) ==> Streamed(transport(k)) == []
      ensures Reply(k).Ok? && Success(Reply(k).value.0) ==>
                transport(k).Response? && Success(transport(k).status) && transport(k).result.Ok?
                && Reply(k).value.1 == Some(transport(k).result.value)
      ensures Visible([]) == []
      ensures forall t :: Delivers(k, t) ==> Reply(k) == Ok((transport(k).status, Some(t))) && Success(transport(k).status)
    {
    }

    /** Nothing but the last of these calls reached the host. */
    ghost predicate OnlyLastShown(from: nat, to: nat, shown: seq<string>)
    {
      && from <= to
      && (forall k: nat :: from <= k < to - 1 ==> Streamed(transport(k)) == [])
      && shown == (if from == to then [] else Streamed(transport(to - 1)))
    }

    /** None of these calls showed anything. */
    ghost predicate QuietCalls(from: nat, to: nat) {
      forall k: nat :: from <= k < to ==> Visible(Streamed(transport(k))) == []
    }

    lemma NoCallsYet(k: nat)
      ensures QuietCalls(k, k)
    {
    }

    /** After quiet calls, an attempt of which only the last call can show. */
    lemma {:induction false} AttemptShows(from: nat, mid: nat, to: nat, shown: seq<string>)
      requires from <= mid && QuietCalls(from, mid) && OnlyLastShown(mid, to, shown)
      ensures to > from ==> QuietCalls(from, to - 1)
      ensures Visible(shown) == [] ==> QuietCalls(from, to)
      ensures Visible(shown) == if to == from then [] else Visible(Streamed(transport(to - 1)))
    {
      hide Streamed, Visible;
      NothingYet();
    }

    /** The result is what the last call answered. */
    ghost predicate LastReply(to: nat, r: Result<(nat, Option<Turn>), Failure>) {
      r.Ok? ==> to > 0 && r == Reply(to - 1)
    }

    /** Call `k` was answered with 401, and the credentials can be refreshed. */
    predicate Refused(k: nat) {
      config.supportsRefresh && Reply(k).Ok? && Reply(k).value.0 == 401
    }

    /** One request from call `c` and lookup `l` on. */
    function Authorize(c: nat, l: nat): Authorized {
      match bearer(l)
      case Err(f) => Authorized(Err(f), 0, 1, 0, [])
      case Ok(token) =>
        if !Refused(c) then Authorized(Reply(c), 1, 1, 0, [token])
        else match bearer(l + 1)
          case Err(f) => Authorized(Err(f), 1, 2, 1, [token])
          case Ok(renewed) => Authorized(Reply(c + 1), 2, 2, 1, [token, renewed])
    }

    /**
     Credentials are refreshed exactly after a first 401 that can be refreshed, and then
     the request is sent once more with the fresh token and its answer is final.
     */
    lemma RefreshesOn401(c: nat, l: nat)
      requires bearer(l).Ok?
      ensures var a := Authorize(c, l);
              && a.tokens != [] && a.tokens[0] == bearer(l).value
              && (a.refreshes == 1 <==> config.supportsRefresh && transport(c).Response? && transport(c).status == 401)
              && (a.refreshes == 0 ==> a.calls == 1 && a.reply == Reply(c))
              && (a.refreshes == 1 && bearer(l + 1).Ok? ==>
                    a.calls == 2 && a.tokens == [bearer(l).value, bearer(l + 1).value] && a.reply == Reply(c + 1))
              && (a.refreshes == 1 && bearer(l + 1).Err? ==> a.calls == 1 && a.reply == Err(bearer(l + 1).error))
    {
    }

    /** The tokens as they are sent with a body. */
    ghost function SentWith(tokens: seq<string>, body: Body): seq<Sent> {
      seq(|tokens|, i requires 0 <= i < |tokens| => Sent(tokens[i], body))
    }

    /** At most one forced refresh, after a 401. */
    method StreamTurnWithAuth(body: Body, sink: AttemptSink) returns (r: Result<(nat, Option<Turn>), Failure>, ghost shown: seq<string>)
      modifies this`calls, this`lookups, this`refreshes, this`sent, sink, sink.inner
      ensures var a := Authorize(old(calls), old(lookups));
              && r == a.reply && calls == old(calls) + a.calls && lookups == old(lookups) + a.lookups
              && refreshes == old(refreshes) + a.refreshes && sent == old(sent) + SentWith(a.tokens, body)
      ensures old(calls) <= calls <= old(calls) + 2 && old(refreshes) <= refreshes <= old(refreshes) + 1
      ensures OnlyLastShown(old(calls), calls, shown) && (r.Ok? ==> calls > old(calls)) && LastReply(calls, r)
      ensures calls > old(calls) && Reply(calls - 1).Ok? && Success(Reply(calls - 1).value.0) ==> r == Reply(calls - 1)
      ensures sink.inner.received == old(sink.inner.received) + shown
      ensures sink.visible == (old(sink.visible) || Visible(shown) != [])
    {
      hide Reply, Streamed, Visible;
      shown := [];
      ErrorStatusIsQuiet(calls);
      ghost var c, l := calls, lookups;
      var token := ResolveBearer(false);
      if token.Err? { return Err(token.error), []; }
      var retried := false;
      while true
        invariant calls == c + (if retried then 1 else 0) && refreshes == old(refreshes) + (if retried then 1 else 0)
        invariant lookups == l + (if retried then 2 else 1) && bearer(l).Ok?
        invariant if retried then Refused(c) && token == bearer(l + 1) else token == bearer(l)
        invariant token.Ok? && sent == old(sent) + (if retried then [Sent(bearer(l).value, body)] else [])
        invariant retried ==> Streamed(transport(old(calls))) == []
        invariant sink.inner.received == old(sink.inner.received) && sink.visible == old(sink.visible)
        decreases !retried
      {
        ghost var k := calls;
        ErrorStatusIsQuiet(k);
        var streamed := StreamTurn(token.value, body, sink);
        shown := Streamed(transport(k));
        if streamed.Err? { return streamed, shown; }
        if streamed.value.0 == 401 && !retried && config.supportsRefresh {
          token := ResolveBearer(true);
          if token.Err? { return Err(token.error), shown; }
          retried := true;
          continue;
        }
        return streamed, shown;
      }
    }

    /** Whether the answer asks for another try without tools. */
    predicate FallsBack(reply: Result<(nat, Option<Turn>), Failure>) {
      config.retryWithoutTools && config.hasTools && reply.Ok? && ToolModeError(reply.value.0)
    }

    /** What an attempt makes of the last answer. */
    function Judge(reply: Result<(nat, Option<Turn>), Failure>): Result<Turn, Failure> {
      match reply
      case Err(f) => Err(f)
      case Ok((status, turn)) =>
        if !Success(status) then Err(if RetryableStatus(status) then TransientHttp else OtherFailure)
        else if turn.None? then Err(OtherFailure)
        else if turn.value.problem.Some? then Err(turn.value.problem.value)
        else Ok(turn.value)
    }

    /**
     What one attempt sends and makes of the answers: the full request, and after a tool
     mode error, if that is configured, the request without tools.
     */
    ghost predicate Attempted(c: nat, l: nat, before: seq<Sent>, after: seq<Sent>, r: Result<Turn, Failure>) {
      if config.requestCheck.Some? then r == Err(config.requestCheck.value) && after == before
      else
        var a := Authorize(c, l);
        if !FallsBack(a.reply) then r == Judge(a.reply) && after == before + SentWith(a.tokens, Full)
        else if config.fallbackCheck.Some? then r == Err(config.fallbackCheck.value) && after == before + SentWith(a.tokens, Full)
        else
          var b := Authorize(c + a.calls, l + a.lookups);
          r == Judge(b.reply) && after == before + SentWith(a.tokens, Full) + SentWith(b.tokens, WithoutTools)
    }

    /** One attempt: at most four transport calls and two forced refreshes, and one stream that shows. */
    method NextTurnOnce(sink: AttemptSink) returns (r: Result<Turn, Failure>, ghost shown: seq<string>)
      modifies this`calls, this`lookups, this`refreshes, this`sent, sink, sink.inner
      ensures old(calls) <= calls <= old(calls) + 4 && old(refreshes) <= refreshes <= old(refreshes) + 2
      ensures Attempted(old(calls), old(lookups), old(sent), sent, r)
      ensures OnlyLastShown(old(calls), calls, shown)
      ensures sink.inner.received == old(sink.inner.received) + shown
      ensures sink.visible == (old(sink.visible) || Visible(shown) != [])
      ensures r.Ok? ==> calls > old(calls) && Delivers(calls - 1, r.value)
      ensures r.Err? && calls > old(calls) ==> Fruitless(calls - 1)
    {
      hide Reply, Streamed, Visible, Authorize;
      ErrorStatusIsQuiet(calls);
      if config.requestCheck.Some? { return Err(config.requestCheck.value), []; }
      var streamed;
      streamed, shown := StreamTurnWithAuth(Full, sink);
      if calls > 0 { ErrorStatusIsQuiet(calls - 1); }
      if streamed.Err? { return Err(streamed.error), shown; }
      if config.retryWithoutTools && config.hasTools && ToolModeError(streamed.value.0) {
        assert shown == [];
        if config.fallbackCheck.Some? { return Err(config.fallbackCheck.value), shown; }
        ghost var first := calls;
        assert forall k: nat :: old(calls) <= k < first ==> Streamed(transport(k)) == [];
        streamed, shown := StreamTurnWithAuth(WithoutTools, sink);
        if calls > first { ErrorStatusIsQuiet(calls - 1); }
        if streamed.Err? { return Err(streamed.error), shown; }
      }
      r := Conclude(streamed.value.0, streamed.value.1);
    }

    /** The end of an attempt: the status, the turn and its validation. */
    method Conclude(status: nat, turn: Option<Turn>) returns (r: Result<Turn, Failure>)
      ensures r == Judge(Ok((status, turn)))
    {
      if !Success(status) {
        return Err(if RetryableStatus(status) then TransientHttp else OtherFailure);
      }
      if turn.None? { return Err(OtherFailure); }
      if turn.value.problem.Some? { return Err(turn.value.problem.value); }
      return Ok(turn.value);
    }

    /** Call `k` streamed this turn to its end and the turn passed its validation. */
    ghost predicate Delivers(k: nat, t: Turn) {
      && transport(k).Response? && Success(transport(k).status)
      && transport(k).result == Ok(t) && t.problem.None?
    }

    /** Call `k` streamed no valid turn. */
    ghost predicate Fruitless(k: nat) {
      forall t :: !Delivers(k, t)
    }

    /**
     At most three attempts.  Whatever the transport does, the non-empty deltas the
     host received are those of the last transport call alone; a returned turn is
     the one that call streamed.  `patient` says whether the delay before a retry
     is acceptable.
     */
    method NextTurn(host: Host, patient: nat -> bool) returns (r: Result<Turn, Failure>, attempts: seq<Attempt>)
      modifies this`calls, this`lookups, this`refreshes, this`sent, host
      ensures 1 <= |attempts| <= 3
      ensures forall i :: 0 <= i < |attempts| - 1 ==> attempts[i].failure.Some? && Retryable(attempts[i].failure.value) && patient(i)
      ensures attempts[|attempts| - 1].failure == if r.Ok? then None else Some(r.error)
      ensures Bounded(attempts)
      ensures calls == old(calls) + TotalCalls(attempts)
      ensures old(host.received) <= host.received
      ensures Visible(host.received[|old(host.received)|..])
              == (if calls == old(calls) then [] else Visible(Streamed(transport(calls - 1))))
      ensures calls > old(calls) ==> QuietCalls(old(calls), calls - 1)
      ensures r.Ok? ==> calls > old(calls) && Delivers(calls - 1, r.value)
      ensures r.Err? && calls > old(calls) ==> Fruitless(calls - 1)
      ensures |attempts| > 1 ==> !config.hosted
      ensures r.Err? ==>
                || |attempts| == 3 || config.hosted || !patient(|attempts| - 1) || !Retryable(r.error)
                || Visible(host.received[|old(host.received)|..]) != []
    {
      hide Reply, Streamed, Visible, TotalCalls, Delivers, Fruitless, QuietCalls, OnlyLastShown, Attempted, Bounded;
      NothingYet();
      NoCallsYet(calls);
      attempts := [];
      ghost var before := host.received;
      ghost var seen: seq<string> := [];
      for attempt := 0 to 3
        invariant |attempts| == attempt && calls == old(calls) + TotalCalls(attempts)
        invariant Bounded(attempts)
        invariant host.received == before + seen && Visible(seen) == []
        invariant QuietCalls(old(calls), calls)
        invariant attempt > 0 ==> !config.hosted
        invariant forall i :: 0 <= i < |attempts| ==> attempts[i].failure.Some? && Retryable(attempts[i].failure.value) && patient(i)
        invariant calls > old(calls) ==> Fruitless(calls - 1)
        invariant attempt < 3
      {
        ghost var shown;
        var calls0, refreshes0 := calls, refreshes;
        var sink := new AttemptSink(host);
        var outcome;
        outcome, shown := NextTurnOnce(sink);
        ghost var earlier := attempts;
        var done := Attempt(calls - calls0, refreshes - refreshes0, if outcome.Ok? then None else Some(outcome.error));
        TotalSnoc(attempts, done);
        attempts := attempts + [done];
        BoundSnoc(earlier, done);
        AttemptShows(old(calls), calls0, calls, shown);
        VisibleAppend(seen, shown);
        seen := seen + shown;
        assert host.received[|before|..] == seen;
        if outcome.Ok? { return outcome, attempts; }
        var retry := attempt < 2 && patient(attempt) && !sink.visible && !config.hosted && Retryable(outcome.error);
        if !retry { return outcome, attempts; }
      }
      assert false;
    }
  }

  /** Each attempt made at most four calls and two forced refreshes. */
  ghost predicate Bounded(attempts: seq<Attempt>) {
    forall i :: 0 <= i < |attempts| ==> attempts[i].calls <= 4 && attempts[i].refreshes <= 2
  }

  lemma BoundSnoc(attempts: seq<Attempt>, a: Attempt)
    requires Bounded(attempts) && a.calls <= 4 && a.refreshes <= 2
    ensures Bounded(attempts + [a])
  {
  }

  lemma NothingYet()
    ensures Visible([]) == [] && TotalCalls([]) == 0 && Bounded([])
  {
  }

  lemma {:induction false} TotalSnoc(attempts: seq<Attempt>, a: Attempt)
    ensures TotalCalls(attempts + [a]) == TotalCalls(attempts) + a.calls
  {
    assert (attempts + [a])[..|attempts|] == attempts;
  }

  function TotalCalls(attempts: seq<Attempt>): nat {
    if attempts == [] then 0 else TotalCalls(attempts[..|attempts| - 1]) + attempts[|attempts| - 1].calls
  }
}
