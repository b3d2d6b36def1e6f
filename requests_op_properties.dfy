/** Properties of the retry policy of `requests_op`. */
module RetryProperties {
  import opened Wrappers
  import opened Http
  import opened RetryExecutor

  /** `s` without its first `k` elements (empty once `k` passes its end). */
  function Drop<T>(s: seq<T>, k: nat): seq<T>
  {
    if k <= |s| then s[k..] else []
  }

  /**
   * One attempt sends at most one request; it goes round again, after one
   * sleep, exactly when a supported op got a 5xx reply.
   */
  lemma AttemptOnceFootprint(op: string, uri: string, header: Header, body: Dict, d: Dict, n: Net)
    ensures match AttemptOnce(op, uri, header, body, d, n)
      case Finished(o) => o.net == if Supported(op) then n.Sent(RequestFor(op, uri, header, body)) else n
      case Retry(_, m) =>
        && Supported(op) && n.Next().Reply? && Is5xx(n.Next().code)
        && m == n.Sent(RequestFor(op, uri, header, body)).Slept()
    ensures AttemptOnce(op, uri, header, body, d, n).Retry? <==> Supported(op) && n.Next().Reply? && Is5xx(n.Next().code)
  {
  }

  /** The attempts send at most `left` requests, all of them the same one. */
  lemma {:induction false} AttemptsRequests(op: string, uri: string, header: Header, body: Dict, d: Dict, n: Net, left: nat)
    ensures var o := Attempts(op, uri, header, body, d, n, left);
      && n.sent <= o.net.sent
      && |o.net.sent| <= |n.sent| + left
      && (forall i | |n.sent| <= i < |o.net.sent| :: Supported(op) && o.net.sent[i] == RequestFor(op, uri, header, body))
    decreases left
  {
    if left > 0 {
      AttemptOnceFootprint(op, uri, header, body, d, n);
      AttemptsStep(op, uri, header, body, d, n, left);
      match AttemptOnce(op, uri, header, body, d, n)
      case Finished(_) =>
      case Retry(failed, n1) =>
        AttemptsRequests(op, uri, header, body, failed, n1, left - 1);
    }
  }

  /** Each request sent consumes one scripted reply; the executor log is untouched; every sleep follows a request. */
  lemma {:induction false} AttemptsConsume(op: string, uri: string, header: Header, body: Dict, d: Dict, n: Net, left: nat)
    ensures var o := Attempts(op, uri, header, body, d, n, left);
      && |n.sent| <= |o.net.sent|
      && o.net.replies == Drop(n.replies, |o.net.sent| - |n.sent|)
      && o.net.ops == n.ops
      && n.sleeps <= o.net.sleeps <= n.sleeps + (|o.net.sent| - |n.sent|)
    decreases left
  {
    if left > 0 {
      AttemptOnceFootprint(op, uri, header, body, d, n);
      AttemptsStep(op, uri, header, body, d, n, left);
      match AttemptOnce(op, uri, header, body, d, n)
      case Finished(_) =>
      case Retry(failed, n1) =>
        AttemptsConsume(op, uri, header, body, failed, n1, left - 1);
        DropNext(n.replies, |Attempts(op, uri, header, body, failed, n1, left - 1).net.sent| - |n1.sent|);
    }
  }

  /** Consuming one reply and then `k` more is consuming `k + 1`. */
  lemma DropNext<T>(s: seq<T>, k: nat)
    ensures Drop(if |s| > 0 then s[1..] else [], k) == Drop(s, k + 1)
  {
    if |s| > 0 && k + 1 <= |s| {
      assert s[1..][k..] == s[k + 1..];
    }
  }

  /**
   * Every attempt sends the same request and consumes exactly one reply;
   * at most `left` requests are sent and every sleep follows a request.
   */
  lemma AttemptsFootprint(op: string, uri: string, header: Header, body: Dict, d: Dict, n: Net, left: nat)
    ensures var o := Attempts(op, uri, header, body, d, n, left);
      && n.sent <= o.net.sent
      && |o.net.sent| <= |n.sent| + left
      && (forall i | |n.sent| <= i < |o.net.sent| :: Supported(op) && o.net.sent[i] == RequestFor(op, uri, header, body))
      && o.net.replies == Drop(n.replies, |o.net.sent| - |n.sent|)
      && o.net.ops == n.ops
      && n.sleeps <= o.net.sleeps <= n.sleeps + (|o.net.sent| - |n.sent|)
  {
    AttemptsRequests(op, uri, header, body, d, n, left);
    AttemptsConsume(op, uri, header, body, d, n, left);
  }

  /**
   * `requests_op` makes at most ten network calls, all of them the same
   * request, and records one executor invocation.
   */
  lemma AtMostTenCalls(op: string, uri: string, header: Header, body: Dict, d: Dict, n: Net)
    ensures var o := RequestsOpSpec(op, uri, header, body, d, n);
      && n.sent <= o.net.sent
      && |o.net.sent| <= |n.sent| + 10
      && (forall i | |n.sent| <= i < |o.net.sent| :: Supported(op) && o.net.sent[i] == RequestFor(op, uri, header, body))
      && o.net.ops == n.ops + [OpCall(op, uri)]
      && n.sleeps <= o.net.sleeps <= n.sleeps + (|o.net.sent| - |n.sent|)
  {
    AttemptsFootprint(op, uri, header, body, d, n.Invoked(op, uri), MaxAttempts);
  }

  /** An unsupported operation records its error and makes no network call. */
  lemma UnsupportedOpMakesNoCall(op: string, uri: string, header: Header, body: Dict, d: Dict, n: Net)
    requires !Supported(op)
    ensures RequestsOpSpec(op, uri, header, body, d, n)
         == OpResult(d["ApiError" := Str("unsupported op " + op)], Same, n.Invoked(op, uri))
  {
    AttemptsStep(op, uri, header, body, d, n.Invoked(op, uri), MaxAttempts);
  }

  /** A status that is neither 2xx nor 5xx stops after that one call, with no sleep. */
  lemma ClientErrorStops(op: string, uri: string, header: Header, body: Dict, d: Dict, n: Net, code: nat, payload: Body)
    requires Supported(op)
    requires n.Next() == Reply(code, payload) && !Is2xx(code) && !Is5xx(code)
    ensures RequestsOpSpec(op, uri, header, body, d, n)
         == OpResult(d["ApiError" := Str(ErrorText(op, uri, code))], Same,
                     n.Invoked(op, uri).Sent(RequestFor(op, uri, header, body)))
  {
    AttemptsStep(op, uri, header, body, d, n.Invoked(op, uri), MaxAttempts);
  }

  /** The first `k` scripted replies are all server errors. */
  ghost predicate ServerErrors(replies: seq<Reply>, k: nat)
  {
    k <= |replies| && forall i | 0 <= i < k :: replies[i].Reply? && Is5xx(replies[i].code)
  }

  /** A server error makes the attempt record it, sleep and try again. */
  lemma ServerErrorRetries(op: string, uri: string, header: Header, body: Dict, d: Dict, n: Net)
    requires Supported(op)
    requires n.Next().Reply? && Is5xx(n.Next().code)
    ensures AttemptOnce(op, uri, header, body, d, n)
         == Retry(d["ApiError" := Str(ErrorText(op, uri, n.Next().code))], n.Sent(RequestFor(op, uri, header, body)).Slept())
  {
    assert !Is2xx(n.Next().code);
  }

  lemma {:induction false} ServerErrorsExhaust(op: string, uri: string, header: Header, body: Dict, d: Dict, n: Net, left: nat)
    requires Supported(op) && 1 <= left
    requires ServerErrors(n.replies, left)
    ensures var o := Attempts(op, uri, header, body, d, n, left);
      && o.ret == Same
      && o.dict == d["ApiError" := Str(ErrorText(op, uri, n.replies[left - 1].code))]
      && |o.net.sent| == |n.sent| + left
      && o.net.sleeps == n.sleeps + left
      && o.net.replies == n.replies[left..]
    decreases left
  {
    var failed := d["ApiError" := Str(ErrorText(op, uri, n.replies[0].code))];
    var n1 := n.Sent(RequestFor(op, uri, header, body)).Slept();
    ServerErrorRetries(op, uri, header, body, d, n);
    AttemptsStep(op, uri, header, body, d, n, left);
    if left > 1 {
      assert n1.replies == n.replies[1..];
      ServerErrorsExhaust(op, uri, header, body, failed, n1, left - 1);
      var o := Attempts(op, uri, header, body, failed, n1, left - 1);
      assert o.dict == d["ApiError" := Str(ErrorText(op, uri, n.replies[left - 1].code))];
    }
  }

  /**
   * Ten server errors in a row: exactly ten calls and ten one-unit sleeps,
   * and the error records the last status.
   */
  lemma AllServerErrorsGiveUp(op: string, uri: string, header: Header, body: Dict, d: Dict, n: Net)
    requires Supported(op)
    requires ServerErrors(n.replies, 10)
    ensures var o := RequestsOpSpec(op, uri, header, body, d, n);
      && o.ret == Same
      && o.dict == d["ApiError" := Str(op + " " + uri + " " + Decimal(n.replies[9].code))]
      && |o.net.sent| == |n.sent| + 10
      && o.net.sleeps == n.sleeps + 10
      && o.net.replies == n.replies[10..]
  {
    ServerErrorsExhaust(op, uri, header, body, d, n.Invoked(op, uri), MaxAttempts);
  }

  /** What a successful attempt leaves, for a reply `code`/`payload` and the caller's dictionary `d`. */
  ghost predicate Recovered(op: string, uri: string, code: nat, payload: Body, d: Dict, o: OpResult)
  {
    && (op == "PUT" ==> o.ret == Same && o.dict == d - {"ApiError"})
    && (op == "GET" ==> match payload
         case JsonArray(items) =>
           if |items| == 0 then o.ret == Raised(IndexError) && o.dict == d - {"ApiError"}
           else o.ret == Replaced(items[0]) && o.dict == d - {"ApiError"}
         case JsonNonArray => o.ret == Same && o.dict == d["ApiError" := Str(ErrorText(op, uri, code))]
         case XmlElement(_) => o.ret == Raised(JsonDecodeError) && o.dict == d - {"ApiError"})
  }

  /** A 2xx reply ends the attempts at once. */
  lemma SuccessFinishes(op: string, uri: string, header: Header, body: Dict, d: Dict, n: Net)
    requires Supported(op)
    requires n.Next().Reply? && Is2xx(n.Next().code)
    ensures var a := AttemptOnce(op, uri, header, body, d, n);
      && a.Finished?
      && a.result.net == n.Sent(RequestFor(op, uri, header, body))
      && Recovered(op, uri, n.Next().code, n.Next().body, d, a.result)
  {
  }

  /** An earlier recorded error does not show in what a successful attempt leaves. */
  lemma RecoveredForgets(op: string, uri: string, code: nat, payload: Body, d: Dict, v: Value, o: OpResult)
    requires Recovered(op, uri, code, payload, d["ApiError" := v], o)
    ensures Recovered(op, uri, code, payload, d, o)
  {
    assert d["ApiError" := v] - {"ApiError"} == d - {"ApiError"};
    assert d["ApiError" := v]["ApiError" := Str(ErrorText(op, uri, code))] == d["ApiError" := Str(ErrorText(op, uri, code))];
  }

  lemma {:induction false} RecoversAt(op: string, uri: string, header: Header, body: Dict, d: Dict, n: Net, k: nat, left: nat)
    requires Supported(op) && k < left && k < |n.replies|
    requires ServerErrors(n.replies, k)
    requires n.replies[k].Reply? && Is2xx(n.replies[k].code)
    ensures var o := Attempts(op, uri, header, body, d, n, left);
      && |o.net.sent| == |n.sent| + k + 1
      && o.net.sleeps == n.sleeps + k
      && o.net.replies == n.replies[k + 1..]
      && Recovered(op, uri, n.replies[k].code, n.replies[k].body, d, o)
    decreases k
  {
    AttemptsStep(op, uri, header, body, d, n, left);
    if k == 0 {
      SuccessFinishes(op, uri, header, body, d, n);
    } else {
      var v := Str(ErrorText(op, uri, n.replies[0].code));
      var n1 := n.Sent(RequestFor(op, uri, header, body)).Slept();
      ServerErrorRetries(op, uri, header, body, d, n);
      assert n1.replies == n.replies[1..];
      RecoversAt(op, uri, header, body, d["ApiError" := v], n1, k - 1, left - 1);
      RecoveredForgets(op, uri, n.replies[k].code, n.replies[k].body, d, v, Attempts(op, uri, header, body, d["ApiError" := v], n1, left - 1));
    }
  }

  /**
   * Fewer than ten server errors followed by a success: the retries recover.
   * The earlier errors leave no trace: a PUT returns the caller's dictionary
   * without `ApiError`; a GET of a list returns exactly its element 0; a GET
   * of anything else returns the caller's dictionary with `ApiError` set.
   */
  lemma RetriesRecover(op: string, uri: string, header: Header, body: Dict, d: Dict, n: Net, k: nat)
    requires Supported(op) && k < 10 && k < |n.replies|
    requires ServerErrors(n.replies, k)
    requires n.replies[k].Reply? && Is2xx(n.replies[k].code)
    ensures var o := RequestsOpSpec(op, uri, header, body, d, n);
      var code := n.replies[k].code;
      && |o.net.sent| == |n.sent| + k + 1
      && o.net.sleeps == n.sleeps + k
      && (op == "PUT" ==> o.ret == Same && o.dict == d - {"ApiError"})
      && (op == "GET" && n.replies[k].body.JsonArray? && |n.replies[k].body.items| > 0 ==>
            o.ret == Replaced(n.replies[k].body.items[0]) && "ApiError" !in o.dict)
      && (op == "GET" && n.replies[k].body.JsonNonArray? ==>
            o.ret == Same && o.dict == d["ApiError" := Str(ErrorText("GET", uri, code))])
  {
    RecoversAt(op, uri, header, body, d, n.Invoked(op, uri), k, MaxAttempts);
  }

  /**
   * A GET that hands back the caller's own dictionary always leaves a
   * non-empty `ApiError` in it: a successful read is always a new dictionary.
   */
  lemma {:induction false} GetSameMeansError(uri: string, header: Header, body: Dict, d: Dict, n: Net, left: nat)
    requires left >= 1 || Truthy(Lookup(d, "ApiError"))
    ensures var o := Attempts("GET", uri, header, body, d, n, left);
      o.ret == Same ==> Truthy(Lookup(o.dict, "ApiError"))
    decreases left
  {
    if left > 0 {
      AttemptsStep("GET", uri, header, body, d, n, left);
      match AttemptOnce("GET", uri, header, body, d, n)
      case Finished(_) =>
      case Retry(failed, n1) =>
        GetSameMeansError(uri, header, body, failed, n1, left - 1);
    }
  }

  lemma GetReturnsFreshOrError(uri: string, header: Header, body: Dict, d: Dict, n: Net)
    ensures var o := RequestsOpSpec("GET", uri, header, body, d, n);
      o.ret == Same ==> Truthy(Lookup(o.dict, "ApiError"))
  {
    GetSameMeansError(uri, header, body, d, n.Invoked("GET", uri), MaxAttempts);
  }
}
