/** The part of `request` from the `fetch` call on, which src/sasaxios.ts and
    src/sasaxios.js share word for word: classification of the transport
    outcome on `ok`, the response-rejected chain for a non-ok status, the
    response-fulfilled chain for an ok one, and the request-rejected chain in
    the `catch` that follows. Handlers run strictly one after another. */
module Chains {
  import opened Platform
  import opened Types
  import opened ResponseParse
  import opened Interceptor

  /** `new Error(nativeResponse.statusText, { cause: nativeResponse })`. */
  function NonOkError(response: NativeResponse): (e: Thrown)
    ensures e.ErrorObject? && e.message == response.statusText && e.cause == Some(response)
  {
    ErrorObject("Error", response.statusText, Some(response))
  }

  /** A loop over rejected handlers followed by `throw`: each non-null handler
      is called with the current error and may set its message; a handler that
      throws ends the loop and its value is what propagates; otherwise the
      (possibly re-messaged) error is thrown at the end. What a handler
      returns is ignored. */
  function RunRejected<F>(hs: seq<Handler<F, RejectedHandler>>, e: Thrown): Thrown
    decreases |hs|
  {
    if hs == [] then e
    else if hs[0].rejected.None? then RunRejected(hs[1..], e)
    else
      var reaction := hs[0].rejected.value(e);
      if reaction.result.Abrupt? then reaction.result.thrown
      else RunRejected(hs[1..], WithMessage(e, reaction.setMessage))
  }

  /** The rejected loop as written: `for (const interceptor of handlers) if
      (interceptor.rejected) await interceptor.rejected(e)`, then `throw e`. */
  method RejectedChain<F>(hs: seq<Handler<F, RejectedHandler>>, e: Thrown) returns (thrown: Thrown)
    ensures thrown == RunRejected(hs, e)
  {
    var i := 0;
    var current := e;
    while i < |hs|
      invariant 0 <= i <= |hs|
      invariant RunRejected(hs[i..], current) == RunRejected(hs, e)
    {
      assert hs[i..][1..] == hs[i + 1..];
      if hs[i].rejected.Some? {
        var reaction := hs[i].rejected.value(current);
        if reaction.result.Abrupt? {
          return reaction.result.thrown;
        }
        current := WithMessage(current, reaction.setMessage);
      }
      i := i + 1;
    }
    thrown := current;
  }

  /** The response-fulfilled loop: each non-null handler is given the response
      object and leaves it in a new state; the first that throws ends it. */
  function RunResponseFulfilled<O, R>(hs: seq<Handler<ResponseStep<O>, R>>, response: Response<O>): Completion<Response<O>>
    decreases |hs|
  {
    if hs == [] then Normal(response)
    else if hs[0].fulfilled.None? then RunResponseFulfilled(hs[1..], response)
    else match hs[0].fulfilled.value(response)
      case Normal(next) => RunResponseFulfilled(hs[1..], next)
      case Abrupt(t) => Abrupt(t)
  }

  /** The loop as written. */
  method ResponseFulfilledChain<O, R>(hs: seq<Handler<ResponseStep<O>, R>>, response: Response<O>) returns (result: Completion<Response<O>>)
    ensures result == RunResponseFulfilled(hs, response)
  {
    var i := 0;
    var current := response;
    while i < |hs|
      invariant 0 <= i <= |hs|
      invariant RunResponseFulfilled(hs[i..], current) == RunResponseFulfilled(hs, response)
    {
      assert hs[i..][1..] == hs[i + 1..];
      if hs[i].fulfilled.Some? {
        var step := hs[i].fulfilled.value(current);
        if step.Abrupt? {
          return step;
        }
        current := step.value;
      }
      i := i + 1;
    }
    result := Normal(current);
  }

  /** The body of the `try`: a rejecting transport throws its reason; a non-ok
      response runs the response-rejected chain on a fresh error and throws;
      an ok one is parsed into `{ data, status, statusText, headers, config }`
      and handed to the response-fulfilled chain. */
  function Attempt<O>(outcome: TransportOutcome, config: O, responseHs: seq<Handler<ResponseStep<O>, RejectedHandler>>,
                      parse: NativeResponse -> Payload): Completion<Response<O>>
  {
    match outcome
    case Rejected(reason) => Abrupt(reason)
    case Responded(native) =>
      if !native.Ok() then Abrupt(RunRejected(responseHs, NonOkError(native)))
      else RunResponseFulfilled(responseHs, Response(parse(native), native.status, native.statusText, native.headers, config))
  }

  /** The whole `try`/`catch`: anything thrown in the `try` goes through the
      request-rejected chain and is rethrown. */
  function Settle<O, F>(outcome: TransportOutcome, config: O, requestHs: seq<Handler<F, RejectedHandler>>,
                        responseHs: seq<Handler<ResponseStep<O>, RejectedHandler>>, parse: NativeResponse -> Payload): (r: Completion<Response<O>>)
    ensures r.Normal? ==> outcome.Responded? && outcome.response.Ok()
    ensures outcome.Rejected? ==> r == Abrupt(RunRejected(requestHs, outcome.reason))
  {
    match Attempt(outcome, config, responseHs, parse)
    case Normal(r) => Normal(r)
    case Abrupt(t) => Abrupt(RunRejected(requestHs, t))
  }

  /** The `try`/`catch` as written, with the loops above. */
  method SettleLoop<O, F>(outcome: TransportOutcome, config: O, requestHs: seq<Handler<F, RejectedHandler>>,
                          responseHs: seq<Handler<ResponseStep<O>, RejectedHandler>>, parse: NativeResponse -> Payload)
    returns (result: Completion<Response<O>>)
    ensures result == Settle(outcome, config, requestHs, responseHs, parse)
  {
    var thrown: Thrown;
    if outcome.Rejected? {
      thrown := outcome.reason;
    } else if !outcome.response.Ok() {
      thrown := RejectedChain(responseHs, NonOkError(outcome.response));
    } else {
      var native := outcome.response;
      result := ResponseFulfilledChain(responseHs, Response(parse(native), native.status, native.statusText, native.headers, config));
      if result.Normal? {
        return;
      }
      thrown := result.thrown;
    }
    thrown := RejectedChain(requestHs, thrown);
    result := Abrupt(thrown);
  }

  /** A non-ok status runs both rejected chains, response first: the caller
      sees what the request-rejected chain makes of what the
      response-rejected chain made of `Error(statusText)`. */
  lemma NonOkRunsBothChains<O, F>(native: NativeResponse, config: O, requestHs: seq<Handler<F, RejectedHandler>>,
                                 responseHs: seq<Handler<ResponseStep<O>, RejectedHandler>>, parse: NativeResponse -> Payload)
    requires !native.Ok()
    ensures Settle(Responded(native), config, requestHs, responseHs, parse) ==
      Abrupt(RunRejected(requestHs, RunRejected(responseHs, NonOkError(native))))
  {
  }

  /** A transport rejection runs only the request-rejected chain: the response
      handlers, whatever they are, play no part. */
  lemma TransportRejectionSkipsResponseChain<O, F>(reason: Thrown, config: O, requestHs: seq<Handler<F, RejectedHandler>>,
                                                  responseHs: seq<Handler<ResponseStep<O>, RejectedHandler>>,
                                                  otherHs: seq<Handler<ResponseStep<O>, RejectedHandler>>, parse: NativeResponse -> Payload)
    ensures Settle(Rejected(reason), config, requestHs, responseHs, parse) == Abrupt(RunRejected(requestHs, reason))
    ensures Settle(Rejected(reason), config, requestHs, responseHs, parse) == Settle(Rejected(reason), config, requestHs, otherHs, parse)
  {
  }

  /** The chain never swallows an error: it always ends by throwing, and a
      response is only ever produced for an ok status. */
  lemma OkOnly<O, F>(outcome: TransportOutcome, config: O, requestHs: seq<Handler<F, RejectedHandler>>,
                     responseHs: seq<Handler<ResponseStep<O>, RejectedHandler>>, parse: NativeResponse -> Payload)
    ensures Settle(outcome, config, requestHs, responseHs, parse).Normal? ==> outcome.Responded? && outcome.response.Ok()
  {
  }

  /** Without interceptors a call succeeds exactly on an ok status, with the
      parsed body and the native status, status text and headers, and the
      call's own options as `config`; otherwise it throws the transport's
      reason or `Error(statusText)` with the response as its cause. */
  lemma NoInterceptors<O, F>(outcome: TransportOutcome, config: O, parse: NativeResponse -> Payload)
    ensures var r := Settle<O, F>(outcome, config, [], [], parse);
      && (r.Normal? <==> outcome.Responded? && outcome.response.Ok())
      && (r.Normal? ==> r.value == Response(parse(outcome.response), outcome.response.status, outcome.response.statusText, outcome.response.headers, config))
      && (outcome.Rejected? ==> r == Abrupt(outcome.reason))
      && (outcome.Responded? && !outcome.response.Ok() ==> r == Abrupt(NonOkError(outcome.response)))
  {
  }

  /** None of the rejected handlers of a list throws, on any input. */
  ghost predicate NeverThrow<F>(hs: seq<Handler<F, RejectedHandler>>) {
    forall i, t :: 0 <= i < |hs| && hs[i].rejected.Some? ==> hs[i].rejected.value(t).result.Normal?
  }

  /** Two thrown values that are the same object: the same Error object (its
      message may have been reassigned), or the same other value. */
  predicate SameObject(a: Thrown, b: Thrown) {
    if a.ErrorObject? then b.ErrorObject? && a.name == b.name && a.cause == b.cause else a == b
  }

  /** Only a throwing handler replaces the error: when none throws, the chain
      rethrows the very object it was given, at most with a new message. */
  lemma {:induction false} NonThrowingKeepsError<F>(hs: seq<Handler<F, RejectedHandler>>, e: Thrown)
    requires NeverThrow(hs)
    ensures SameObject(RunRejected(hs, e), e)
    decreases |hs|
  {
    if hs != [] {
      assert NeverThrow(hs[1..]) by {
        forall i, t | 0 <= i < |hs[1..]| && hs[1..][i].rejected.Some?
          ensures hs[1..][i].rejected.value(t).result.Normal?
        {
          assert hs[1..][i] == hs[i + 1];
        }
      }
      if hs[0].rejected.None? {
        NonThrowingKeepsError(hs[1..], e);
      } else {
        var next := WithMessage(e, hs[0].rejected.value(e).setMessage);
        NonThrowingKeepsError(hs[1..], next);
      }
    }
  }

  /** What a rejected handler does, apart from the value it returns. */
  function Effect(r: Reaction): (Option<string>, Option<Thrown>) {
    (r.setMessage, if r.result.Abrupt? then Some(r.result.thrown) else None)
  }

  /** Two handler lists that differ at most in what their rejected handlers
      return. */
  ghost predicate SameEffects<F, G>(hs: seq<Handler<F, RejectedHandler>>, gs: seq<Handler<G, RejectedHandler>>) {
    && |hs| == |gs|
    && (forall i :: 0 <= i < |hs| ==> (hs[i].rejected.Some? <==> gs[i].rejected.Some?))
    && (forall i, t :: 0 <= i < |hs| && hs[i].rejected.Some? && gs[i].rejected.Some? ==>
          Effect(hs[i].rejected.value(t)) == Effect(gs[i].rejected.value(t)))
  }

  /** Return values of rejected handlers are discarded: lists with the same
      effects produce the same error. */
  lemma {:induction false} ReturnValuesIgnored<F, G>(hs: seq<Handler<F, RejectedHandler>>, gs: seq<Handler<G, RejectedHandler>>, e: Thrown)
    requires SameEffects(hs, gs)
    ensures RunRejected(hs, e) == RunRejected(gs, e)
    decreases |hs|
  {
    if hs != [] {
      assert SameEffects(hs[1..], gs[1..]) by {
        forall i | 0 <= i < |hs[1..]| ensures hs[1..][i] == hs[i + 1] && gs[1..][i] == gs[i + 1] {}
      }
      if hs[0].rejected.Some? {
        assert Effect(hs[0].rejected.value(e)) == Effect(gs[0].rejected.value(e));
      }
      ReturnValuesIgnored(hs[1..], gs[1..], e);
      if hs[0].rejected.Some? {
        var m := hs[0].rejected.value(e).setMessage;
        ReturnValuesIgnored(hs[1..], gs[1..], WithMessage(e, m));
      }
    }
  }

  /** A registration without a rejected handler is skipped by the rejected loop. */
  lemma {:induction false} SkipsNullRejected<F>(before: seq<Handler<F, RejectedHandler>>, h: Handler<F, RejectedHandler>,
                                               after: seq<Handler<F, RejectedHandler>>, e: Thrown)
    requires h.rejected.None?
    ensures RunRejected(before + [h] + after, e) == RunRejected(before + after, e)
    decreases |before|
  {
    if before == [] {
      assert before + [h] + after == [h] + after;
      assert before + after == after;
      assert ([h] + after)[1..] == after;
    } else {
      assert (before + [h] + after)[1..] == before[1..] + [h] + after;
      assert (before + after)[1..] == before[1..] + after;
      assert (before + [h] + after)[0] == (before + after)[0] == before[0];
      SkipsNullRejected(before[1..], h, after, e);
      if before[0].rejected.Some? {
        var m := before[0].rejected.value(e).setMessage;
        SkipsNullRejected(before[1..], h, after, WithMessage(e, m));
      }
    }
  }

  /** The response-fulfilled chain of `a + b` is that of `a` followed by that
      of `b` on the state `a` left: handlers run in array order, each on what
      the previous one left, and a throw stops the rest. */
  lemma {:induction false} FulfilledInOrder<O, R>(a: seq<Handler<ResponseStep<O>, R>>, b: seq<Handler<ResponseStep<O>, R>>, response: Response<O>)
    ensures RunResponseFulfilled(a + b, response) ==
      match RunResponseFulfilled(a, response)
      case Normal(next) => RunResponseFulfilled(b, next)
      case Abrupt(t) => Abrupt(t)
    decreases |a|
  {
    if a == [] {
      assert a + b == b;
    } else {
      assert (a + b)[1..] == a[1..] + b;
      assert (a + b)[0] == a[0];
      if a[0].fulfilled.None? {
        FulfilledInOrder(a[1..], b, response);
      } else if a[0].fulfilled.value(response).Normal? {
        FulfilledInOrder(a[1..], b, a[0].fulfilled.value(response).value);
      }
    }
  }

  /** The response-interceptor test: a handler that sets `message` to
      `override` and rethrows the error makes a non-ok call fail with an error
      carrying that message, the status response as its cause. */
  lemma OverrideMessage<O>(native: NativeResponse, config: O, parse: NativeResponse -> Payload)
    requires !native.Ok()
    ensures var handler: RejectedHandler := e => Reaction(Some("override"), Abrupt(WithMessage(e, Some("override"))));
      Settle<O, int>(Responded(native), config, [],
             [Handler(0, None, Some(handler))], parse) ==
      Abrupt(ErrorObject("Error", "override", Some(native)))
  {
  }

  /** The request-interceptor test: a request-rejected handler that returns
      `Promise.reject('override')` makes every call that fails from `fetch` on
      reject with the string `override`. Failures before the `try` never
      reach the handler. */
  lemma RejectWithOverride<O>(outcome: TransportOutcome, config: O, responseHs: seq<Handler<ResponseStep<O>, RejectedHandler>>,
                              parse: NativeResponse -> Payload)
    requires Attempt(outcome, config, responseHs, parse).Abrupt?
    ensures var handler: RejectedHandler := e => Reaction(None, Abrupt(Other(Is(Str("override")))));
      Settle<O, int>(outcome, config, [Handler(0, None, Some(handler))], responseHs, parse) ==
      Abrupt(Other(Is(Str("override"))))
  {
  }

  /** The response-interceptor test: a fulfilled handler that assigns
      `response.data = 'override'` makes an ok call resolve with that data,
      the rest of the response as it was built. */
  lemma AssignedData<O>(native: NativeResponse, config: O, parse: NativeResponse -> Payload)
    requires native.Ok()
    ensures var handler: ResponseStep<O> := (r: Response<O>) => Normal(r.(data := Assigned(Is(Str("override")))));
      Settle<O, int>(Responded(native), config, [], [Handler(0, Some(handler), None)], parse) ==
      Normal(Response(Assigned(Is(Str("override"))), native.status, native.statusText, native.headers, config))
  {
    var handler: ResponseStep<O> := (r: Response<O>) => Normal(r.(data := Assigned(Is(Str("override")))));
    var hs: seq<Handler<ResponseStep<O>, RejectedHandler>> := [Handler(0, Some(handler), None)];
    assert hs[1..] == [];
  }
}
