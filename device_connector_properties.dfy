/** Properties of the device connector API model: what each call sends, and what it can hand back. */
module ConnectorProperties {
  import opened Wrappers
  import opened Http
  import opened RetryExecutor
  import opened RetryProperties
  import opened Connector

  /** The number of XML API POSTs among the requests. */
  function Posts(s: seq<Request>): nat
    decreases |s|
  {
    if |s| == 0 then 0 else Posts(s[..|s| - 1]) + (if s[|s| - 1].HttpPost? then 1 else 0)
  }

  /** Extending a request log by requests that are not POSTs keeps its POST count. */
  lemma {:induction false} PostsKept(s: seq<Request>, t: seq<Request>)
    requires s <= t
    requires forall i | |s| <= i < |t| :: !t[i].HttpPost?
    ensures Posts(t) == Posts(s)
    decreases |t|
  {
    if |t| > |s| {
      var u := t[..|t| - 1];
      assert s <= u;
      assert !t[|t| - 1].HttpPost?;
      assert forall i | |s| <= i < |u| :: u[i] == t[i];
      PostsKept(s, u);
    } else {
      assert s == t;
    }
  }

  /** Extending a request log by one POST adds one to its POST count. */
  lemma PostsSent(s: seq<Request>, req: Request)
    ensures Posts(s + [req]) == Posts(s) + (if req.HttpPost? then 1 else 0)
  {
    assert (s + [req])[..|s|] == s;
  }

  /**
   * `m` follows `n` by connector API traffic only: requests, executor calls
   * and sleeps are appended, and none of the new requests is an XML API POST.
   */
  ghost predicate ApiTraffic(n: Net, m: Net)
  {
    && n.sent <= m.sent
    && n.ops <= m.ops
    && n.sleeps <= m.sleeps
    && Posts(m.sent) == Posts(n.sent)
  }

  lemma ApiTrafficTrans(a: Net, b: Net, c: Net)
    requires ApiTraffic(a, b) && ApiTraffic(b, c)
    ensures ApiTraffic(a, c)
  {
  }

  /** Within API traffic, every added request is a GET or a PUT. */
  lemma {:induction false} ApiTrafficAddsNoPost(n: Net, m: Net)
    requires ApiTraffic(n, m)
    ensures forall i | |n.sent| <= i < |m.sent| :: !m.sent[i].HttpPost?
    decreases |m.sent|
  {
    if |m.sent| > |n.sent| {
      var shorter := m.(sent := m.sent[..|m.sent| - 1]);
      var last := m.sent[|m.sent| - 1];
      assert m.sent == shorter.sent + [last];
      PostsSent(shorter.sent, last);
      assert n.sent <= shorter.sent;
      assert Posts(shorter.sent) >= Posts(n.sent) by {
        PostsMonotone(n.sent, shorter.sent);
      }
      ApiTrafficAddsNoPost(n, shorter);
    }
  }

  lemma {:induction false} PostsMonotone(s: seq<Request>, t: seq<Request>)
    requires s <= t
    ensures Posts(s) <= Posts(t)
    decreases |t|
  {
    if |t| > |s| {
      var u := t[..|t| - 1];
      assert s <= u;
      PostsMonotone(s, u);
    } else {
      assert s == t;
    }
  }

  /** `requests_op` records one executor call and sends only GETs or PUTs. */
  lemma RequestsOpTraffic(op: string, uri: string, header: Header, body: Dict, d: Dict, n: Net)
    ensures var o := RequestsOpSpec(op, uri, header, body, d, n);
      ApiTraffic(n, o.net) && o.net.ops == n.ops + [OpCall(op, uri)]
  {
    AttemptsFootprint(op, uri, header, body, d, n.Invoked(op, uri), MaxAttempts);
    var o := RequestsOpSpec(op, uri, header, body, d, n);
    PostsKept(n.sent, o.net.sent);
  }

  /** `ro_json = requests_op(...)`: which dictionary is updated, and what `ro_json` names afterwards. */
  lemma OpOnBoundEffect(b: Binding, op: string, uri: string, header: Header, body: Dict, n: Net)
    ensures var o := RequestsOpSpec(op, uri, header, body, Current(b), n);
      var p := OpOnBound(b, op, uri, header, body, n);
      && p.net == o.net
      && (p.fault.Some? <==> o.ret.Raised?)
      && (o.ret.Raised? ==> p.fault == Some(o.ret.fault))
      && p.bind.caller == (if b.cur.Caller? then o.dict else b.caller)
      && (p.fault.None? ==> Current(p.bind) == ResultOf(o).value)
      && (p.fault.None? ==> (p.bind.cur.Caller? <==> b.cur.Caller? && o.ret.Same?))
  {
  }

  /** `k` executor calls alternating between `a` and `b`, starting with `a`. */
  function Cycle(a: OpCall, b: OpCall, k: nat): seq<OpCall>
    decreases k
  {
    if k == 0 then [] else [a] + Cycle(b, a, k - 1)
  }

  function StatusRead(host: string): OpCall
  {
    OpCall("GET", SystemsUri(host))
  }

  function SystemsWrite(host: string): OpCall
  {
    OpCall("PUT", SystemsUri(host))
  }

  /** The executor calls a run of rounds added: `n.ops` extended by `Cycle(a, b, k)` for some `k <= bound`. */
  ghost predicate CalledInTurn(n: Net, m: Net, a: OpCall, b: OpCall, bound: nat)
  {
    && n.ops <= m.ops
    && |m.ops| - |n.ops| <= bound
    && m.ops[|n.ops|..] == Cycle(a, b, |m.ops| - |n.ops|)
  }

  lemma CalledInTurnStep(n: Net, m: Net, p: Net, a: OpCall, b: OpCall, bound: nat)
    requires m.ops == n.ops + [a, b]
    requires CalledInTurn(m, p, a, b, bound)
    ensures CalledInTurn(n, p, a, b, bound + 2)
  {
    var k := |p.ops| - |m.ops|;
    assert p.ops[|n.ops|..] == [a, b] + p.ops[|m.ops|..];
    assert Cycle(a, b, k + 2) == [a] + ([b] + Cycle(a, b, k));
  }

  /**
   * Every round of `configure_connector` reads the status, and it writes
   * the Systems resource exactly when the status said disabled.
   */
  lemma ConfigureRoundTraffic(host: string, header: Header, n: Net)
    ensures var r := ConfigureRound(host, header, n);
      var s := GetStatusSpec(host, header, n);
      var m := if r.Stop? then r.last.net else r.net;
      && ApiTraffic(n, m)
      && (m.ops == n.ops + [StatusRead(host)] || m.ops == n.ops + [StatusRead(host), SystemsWrite(host)])
      && (|m.ops| == |n.ops| + 2 <==> s.out.Ok? && "AdminState" in s.out.value && !Truthy(s.out.value["AdminState"]))
      && (r.Again? ==> m.ops == n.ops + [StatusRead(host), SystemsWrite(host)])
  {
    var s := GetStatusSpec(host, header, n);
    RequestsOpTraffic("GET", SystemsUri(host), header, map[], DisabledDefault, n);
    if s.out.Ok? && "AdminState" in s.out.value && !Truthy(s.out.value["AdminState"]) {
      RequestsOpTraffic("PUT", SystemsUri(host), header, EnableBody, s.out.value, s.net);
      ApiTrafficTrans(n, s.net, RequestsOpSpec("PUT", SystemsUri(host), header, EnableBody, s.out.value, s.net).net);
    }
  }

  /**
   * `configure_connector` alternates status reads and enabling writes,
   * starting with a read, at most two calls per round.
   */
  lemma {:induction false} ConfigureRoundsTraffic(host: string, header: Header, d: Dict, n: Net, left: nat)
    ensures var r := ConfigureRounds(host, header, d, n, left);
      ApiTraffic(n, r.net) && CalledInTurn(n, r.net, StatusRead(host), SystemsWrite(host), 2 * left)
    decreases left
  {
    if left > 0 {
      ConfigureRoundTraffic(host, header, n);
      var round := ConfigureRound(host, header, n);
      match round
      case Stop(last) =>
        ConfigureRoundsStop(host, header, d, n, left);
        assert last.net.ops[|n.ops|..] == Cycle(StatusRead(host), SystemsWrite(host), |last.net.ops| - |n.ops|);
      case Again(after, n1) =>
        ConfigureRoundsAgain(host, header, d, n, after, n1, left);
        ConfigureRoundsTraffic(host, header, after, n1, left - 1);
        var r := ConfigureRounds(host, header, after, n1, left - 1);
        ApiTrafficTrans(n, n1, r.net);
        CalledInTurnStep(n, n1, r.net, StatusRead(host), SystemsWrite(host), 2 * (left - 1));
    }
  }

  /** The status `configure_connector` returns says the connector is enabled, or carries an `ApiError`. */
  predicate EnabledOrFailed(status: Dict)
  {
    ("AdminState" in status && Truthy(status["AdminState"])) || Truthy(Lookup(status, "ApiError"))
  }

  /**
   * A round carries on exactly when the status read said disabled and the
   * enabling PUT came back without an `ApiError`; so a round that ends the
   * loop normally saw the connector enabled or an `ApiError`, and one that
   * carries on made two calls.
   */
  lemma ConfigureRoundOutcome(host: string, header: Header, n: Net)
    ensures var r := ConfigureRound(host, header, n);
      var s := GetStatusSpec(host, header, n);
      && (r.Again? <==>
            && s.out.Ok? && "AdminState" in s.out.value && !Truthy(s.out.value["AdminState"])
            && var p := RequestsOpSpec("PUT", SystemsUri(host), header, EnableBody, s.out.value, s.net);
               ResultOf(p).Ok? && !Truthy(Lookup(ResultOf(p).value, "ApiError")))
      && (r.Stop? && r.last.out.Ok? ==> EnabledOrFailed(r.last.out.value))
      && (r.Again? ==> |r.net.ops| == |n.ops| + 2)
  {
    ConfigureRoundTraffic(host, header, n);
  }

  /**
   * When `configure_connector` returns a dictionary, it reports the
   * connector enabled, or carries an `ApiError`, or all rounds were used up
   * (each with a read and a write).
   */
  lemma {:induction false} ConfigureRoundsOutcome(host: string, header: Header, d: Dict, n: Net, left: nat)
    ensures var r := ConfigureRounds(host, header, d, n, left);
      r.out.Ok? ==> EnabledOrFailed(r.out.value) || |r.net.ops| == |n.ops| + 2 * left
    decreases left
  {
    if left > 0 {
      ConfigureRoundOutcome(host, header, n);
      match ConfigureRound(host, header, n)
      case Stop(last) =>
        ConfigureRoundsStop(host, header, d, n, left);
      case Again(after, n1) =>
        ConfigureRoundsAgain(host, header, d, n, after, n1, left);
        ConfigureRoundsOutcome(host, header, after, n1, left - 1);
    }
  }

  /** The connector is enabled within `configure_connector`'s bounds: four reads and four writes at most. */
  lemma ConfigureConnectorTraffic(host: string, header: Header, n: Net)
    ensures var r := ConfigureConnectorSpec(host, header, n);
      && ApiTraffic(n, r.net)
      && CalledInTurn(n, r.net, StatusRead(host), SystemsWrite(host), 8)
      && (r.out.Ok? ==> EnabledOrFailed(r.out.value) || |r.net.ops| == |n.ops| + 8)
  {
    ConfigureRoundsTraffic(host, header, DisabledDefault, n, ConfigureLimit);
    ConfigureRoundsOutcome(host, header, DisabledDefault, n, ConfigureLimit);
  }

  /** A connector that already reports itself enabled is left alone: one read, no write. */
  lemma AlreadyEnabled(host: string, header: Header, n: Net)
    requires GetStatusSpec(host, header, n).out.Ok?
    requires "AdminState" in GetStatusSpec(host, header, n).out.value
    requires Truthy(GetStatusSpec(host, header, n).out.value["AdminState"])
    ensures ConfigureConnectorSpec(host, header, n) == GetStatusSpec(host, header, n)
    ensures ConfigureConnectorSpec(host, header, n).net.ops == n.ops + [StatusRead(host)]
  {
    RequestsOpTraffic("GET", SystemsUri(host), header, map[], DisabledDefault, n);
    ConfigureRoundsStop(host, header, DisabledDefault, n, ConfigureLimit);
  }

  /** A PUT never replaces the caller's dictionary: its result is always the dictionary passed in. */
  lemma {:induction false} PutKeepsDictionary(uri: string, header: Header, body: Dict, d: Dict, n: Net, left: nat)
    ensures !Attempts("PUT", uri, header, body, d, n, left).ret.Replaced?
    decreases left
  {
    if left > 0 {
      AttemptsStep("PUT", uri, header, body, d, n, left);
      match AttemptOnce("PUT", uri, header, body, d, n)
      case Finished(_) =>
      case Retry(failed, n1) =>
        PutKeepsDictionary(uri, header, body, failed, n1, left - 1);
    }
  }

  lemma AccessRoundKeepsCaller(host: string, header: Header, readOnly: Value, b: Binding, n: Net)
    requires b.cur.Own?
    ensures match AccessRound(host, header, readOnly, b, n)
      case Stop(last) => last.bind.caller == b.caller
      case Again(next, _) => next.caller == b.caller && next.cur.Own?
  {
    OpOnBoundEffect(b, "PUT", SystemsUri(host), header, map["ReadOnlyMode" := readOnly], n);
  }

  /** Once `ro_json` names a dictionary of the method's own, the caller's dictionary is never touched again. */
  lemma {:induction false} OwnRoundsKeepCaller(host: string, header: Header, readOnly: Value, b: Binding, n: Net, left: nat)
    requires b.cur.Own?
    ensures AccessRounds(host, header, readOnly, b, n, left).bind.caller == b.caller
    decreases left
  {
    if left > 0 {
      AccessRoundKeepsCaller(host, header, readOnly, b, n);
      match AccessRound(host, header, readOnly, b, n)
      case Stop(last) =>
        AccessRoundsStop(host, header, readOnly, b, n, left);
      case Again(next, n1) =>
        AccessRoundsAgain(host, header, readOnly, b, n, next, n1, left);
        OwnRoundsKeepCaller(host, header, readOnly, next, n1, left - 1);
    }
  }

  /**
   * `configure_access_mode` changes the caller's dictionary only through its
   * first PUT: afterwards the local name is rebound to fresh status reads.
   */
  lemma AccessModeTouchesCallerOnce(device: Device, header: Header, caller: Dict, n: Net)
    ensures AccessModeSpec(device, header, caller, n).bind.caller
         == RequestsOpSpec("PUT", SystemsUri(device.hostname), header, map["ReadOnlyMode" := device.readOnly], caller, n).dict
  {
    var body := map["ReadOnlyMode" := device.readOnly];
    var o := RequestsOpSpec("PUT", SystemsUri(device.hostname), header, body, caller, n);
    PutKeepsDictionary(SystemsUri(device.hostname), header, body, caller, n.Invoked("PUT", SystemsUri(device.hostname)), MaxAttempts);
    var b := Binding(caller, Caller);
    match AccessRound(device.hostname, header, device.readOnly, b, n)
    case Stop(last) =>
      AccessRoundsStop(device.hostname, header, device.readOnly, b, n, ConfigureLimit);
    case Again(next, n1) =>
      AccessRoundsAgain(device.hostname, header, device.readOnly, b, n, next, n1, ConfigureLimit);
      OwnRoundsKeepCaller(device.hostname, header, device.readOnly, next, n1, ConfigureLimit - 1);
  }

  /** Every round of `configure_access_mode` writes the mode and, exactly when that came back clean, reads the status back. */
  lemma AccessRoundTraffic(host: string, header: Header, readOnly: Value, b: Binding, n: Net)
    ensures var r := AccessRound(host, header, readOnly, b, n);
      var p := OpOnBound(b, "PUT", SystemsUri(host), header, map["ReadOnlyMode" := readOnly], n);
      var m := if r.Stop? then r.last.net else r.net;
      && ApiTraffic(n, m)
      && (m.ops == n.ops + [SystemsWrite(host)] || m.ops == n.ops + [SystemsWrite(host), StatusRead(host)])
      && (|m.ops| == |n.ops| + 2 <==> p.fault.None? && !Truthy(Lookup(Current(p.bind), "ApiError")))
      && (r.Again? ==> m.ops == n.ops + [SystemsWrite(host), StatusRead(host)])
  {
    var body := map["ReadOnlyMode" := readOnly];
    var p := OpOnBound(b, "PUT", SystemsUri(host), header, body, n);
    RequestsOpTraffic("PUT", SystemsUri(host), header, body, Current(b), n);
    RequestsOpTraffic("GET", SystemsUri(host), header, map[], DisabledDefault, p.net);
    ApiTrafficTrans(n, p.net, GetStatusSpec(host, header, p.net).net);
  }

  lemma {:induction false} AccessRoundsTraffic(host: string, header: Header, readOnly: Value, b: Binding, n: Net, left: nat)
    ensures var r := AccessRounds(host, header, readOnly, b, n, left);
      ApiTraffic(n, r.net) && CalledInTurn(n, r.net, SystemsWrite(host), StatusRead(host), 2 * left)
    decreases left
  {
    if left > 0 {
      AccessRoundTraffic(host, header, readOnly, b, n);
      match AccessRound(host, header, readOnly, b, n)
      case Stop(last) =>
        AccessRoundsStop(host, header, readOnly, b, n, left);
        assert last.net.ops[|n.ops|..] == Cycle(SystemsWrite(host), StatusRead(host), |last.net.ops| - |n.ops|);
      case Again(next, n1) =>
        AccessRoundsAgain(host, header, readOnly, b, n, next, n1, left);
        AccessRoundsTraffic(host, header, readOnly, next, n1, left - 1);
        var r := AccessRounds(host, header, readOnly, next, n1, left - 1);
        ApiTrafficTrans(n, n1, r.net);
        CalledInTurnStep(n, n1, r.net, SystemsWrite(host), StatusRead(host), 2 * (left - 1));
    }
  }

  /** The dictionary `configure_access_mode` returns carries an `ApiError` or reports the wanted mode. */
  predicate ModeSetOrFailed(v: Dict, readOnly: Value)
  {
    Truthy(Lookup(v, "ApiError")) || ("ReadOnlyMode" in v && v["ReadOnlyMode"] == readOnly)
  }

  /**
   * A round carries on exactly when the PUT came back clean and the status
   * read back reports a different mode; so a round that ends the loop
   * normally saw the wanted mode or an `ApiError`, and one that carries on
   * made two calls.
   */
  lemma AccessRoundOutcome(host: string, header: Header, readOnly: Value, b: Binding, n: Net)
    ensures var r := AccessRound(host, header, readOnly, b, n);
      var p := OpOnBound(b, "PUT", SystemsUri(host), header, map["ReadOnlyMode" := readOnly], n);
      && (r.Again? <==>
            && p.fault.None? && !Truthy(Lookup(Current(p.bind), "ApiError"))
            && var s := GetStatusSpec(host, header, p.net);
               s.out.Ok? && "ReadOnlyMode" in s.out.value && s.out.value["ReadOnlyMode"] != readOnly)
      && (r.Stop? && r.last.fault.None? ==> ModeSetOrFailed(Current(r.last.bind), readOnly))
      && (r.Again? ==> |r.net.ops| == |n.ops| + 2)
  {
    AccessRoundTraffic(host, header, readOnly, b, n);
  }

  /**
   * When `configure_access_mode` returns normally, `ro_json` carries an
   * `ApiError`, or reports the wanted mode, or all rounds were used up.
   */
  lemma {:induction false} AccessRoundsOutcome(host: string, header: Header, readOnly: Value, b: Binding, n: Net, left: nat)
    ensures var r := AccessRounds(host, header, readOnly, b, n, left);
      r.fault.None? ==> ModeSetOrFailed(Current(r.bind), readOnly) || |r.net.ops| == |n.ops| + 2 * left
    decreases left
  {
    if left > 0 {
      AccessRoundOutcome(host, header, readOnly, b, n);
      match AccessRound(host, header, readOnly, b, n)
      case Stop(last) =>
        AccessRoundsStop(host, header, readOnly, b, n, left);
      case Again(next, n1) =>
        AccessRoundsAgain(host, header, readOnly, b, n, next, n1, left);
        AccessRoundsOutcome(host, header, readOnly, next, n1, left - 1);
    }
  }

  lemma AccessModeTraffic(device: Device, header: Header, caller: Dict, n: Net)
    ensures var r := AccessModeSpec(device, header, caller, n);
      var v := Current(r.bind);
      && ApiTraffic(n, r.net)
      && CalledInTurn(n, r.net, SystemsWrite(device.hostname), StatusRead(device.hostname), 8)
      && (r.fault.None? ==> ModeSetOrFailed(v, device.readOnly) || |r.net.ops| == |n.ops| + 8)
  {
    var b := Binding(caller, Caller);
    AccessRoundsTraffic(device.hostname, header, device.readOnly, b, n, ConfigureLimit);
    AccessRoundsOutcome(device.hostname, header, device.readOnly, b, n, ConfigureLimit);
  }

  /** The shape of a claim triple: the claim response is empty or holds just an `ApiError`, and then the code is empty. */
  predicate ClaimShape(info: ClaimInfo)
  {
    && (info.claimResp == map[] || info.claimResp.Keys == {"ApiError"})
    && (info.claimResp != map[] <==> Truthy(Lookup(info.claimResp, "ApiError")))
    && (info.claimResp != map[] ==> info.claimCode == Str(""))
  }

  /**
   * The token read makes one GET and keeps the identifier it was given. An
   * error it reports becomes the claim response, with an empty code; a
   * clean read gives its `Token` as the code, or raises `KeyError` without
   * one.
   */
  lemma TokenReadTraffic(host: string, header: Header, b: Binding, deviceId: Value, n: Net)
    ensures var c := TokenReadSpec(host, header, b, deviceId, n);
      var o := OpOnBound(b, "GET", TokensUri(host), header, map[], n);
      && ApiTraffic(n, c.net)
      && c.net.ops == n.ops + [OpCall("GET", TokensUri(host))]
      && (c.out.Ok? ==> c.out.value.deviceId == deviceId && ClaimShape(c.out.value))
      && (o.fault.Some? ==> c.out == Err(o.fault.value))
      && (o.fault.None? && Truthy(Lookup(Current(o.bind), "ApiError")) ==>
            c.out == Ok(ClaimInfo(map["ApiError" := Current(o.bind)["ApiError"]], deviceId, Str(""))))
      && (c.out.Ok? && c.out.value.claimResp == map[] ==>
            && o.fault.None? && !Truthy(Lookup(Current(o.bind), "ApiError")) && "Token" in Current(o.bind)
            && c.out.value == ClaimInfo(map[], deviceId, Current(o.bind)["Token"]))
      && (o.fault.None? && !Truthy(Lookup(Current(o.bind), "ApiError")) ==>
            c.out == (if "Token" in Current(o.bind) then Ok(ClaimInfo(map[], deviceId, Current(o.bind)["Token"]))
                      else Err(KeyError("Token"))))
  {
    RequestsOpTraffic("GET", TokensUri(host), header, map[], Current(b), n);
    var o := OpOnBound(b, "GET", TokensUri(host), header, map[], n);
    if o.fault.None? && Truthy(Lookup(Current(o.bind), "ApiError")) {
      assert "ApiError" in map["ApiError" := Current(o.bind)["ApiError"]];
    }
  }

  /**
   * `get_claim_info` reads the device identifier and, only when that read
   * gave an `Id` and no `ApiError`, and then always, the security token;
   * two clean reads give the `Id` and the `Token`. The claim response
   * holds an `ApiError` exactly when it is not empty, and then the claim
   * code is empty; an empty claim response means both reads were clean,
   * and the result holds the identifier and the token they returned.
   */
  lemma ClaimInfoTraffic(host: string, header: Header, caller: Dict, n: Net)
    ensures var c := ClaimInfoSpec(host, header, caller, n);
      var ids := OpCall("GET", IdentifiersUri(host));
      var tokens := OpCall("GET", TokensUri(host));
      && ApiTraffic(n, c.net)
      && (c.net.ops == n.ops + [ids] || c.net.ops == n.ops + [ids, tokens])
      && (c.out.Ok? && c.out.value.claimResp == map[] ==> c.net.ops == n.ops + [ids, tokens])
      && (c.out.Ok? ==> ClaimShape(c.out.value))
      && (|c.net.ops| == |n.ops| + 2 ==>
            var first := OpOnBound(Binding(caller, Caller), "GET", IdentifiersUri(host), header, map[], n);
            first.fault.None? && !Truthy(Lookup(Current(first.bind), "ApiError")) && "Id" in Current(first.bind))
      && (c.out.Ok? && c.out.value.claimResp == map[] ==>
            var first := OpOnBound(Binding(caller, Caller), "GET", IdentifiersUri(host), header, map[], n);
            var got := Current(first.bind);
            && first.fault.None? && !Truthy(Lookup(got, "ApiError")) && "Id" in got
            && var second := OpOnBound(first.bind, "GET", TokensUri(host), header, map[], first.net);
               && second.fault.None? && !Truthy(Lookup(Current(second.bind), "ApiError")) && "Token" in Current(second.bind)
               && c.out.value == ClaimInfo(map[], got["Id"], Current(second.bind)["Token"]))
      && (var first := OpOnBound(Binding(caller, Caller), "GET", IdentifiersUri(host), header, map[], n);
          var got := Current(first.bind);
          first.fault.None? && !Truthy(Lookup(got, "ApiError")) && "Id" in got ==>
            var second := OpOnBound(first.bind, "GET", TokensUri(host), header, map[], first.net);
            var toks := Current(second.bind);
            && c.net.ops == n.ops + [ids, tokens]
            && (second.fault.None? && !Truthy(Lookup(toks, "ApiError")) ==>
                  c.out == (if "Token" in toks then Ok(ClaimInfo(map[], got["Id"], toks["Token"]))
                            else Err(KeyError("Token")))))
  {
    var first := OpOnBound(Binding(caller, Caller), "GET", IdentifiersUri(host), header, map[], n);
    RequestsOpTraffic("GET", IdentifiersUri(host), header, map[], caller, n);
    if first.fault.None? {
      var got := Current(first.bind);
      if !Truthy(Lookup(got, "ApiError")) && "Id" in got {
        TokenReadTraffic(host, header, first.bind, got["Id"], first.net);
        ApiTrafficTrans(n, first.net, TokenReadSpec(host, header, first.bind, got["Id"], first.net).net);
      } else if Truthy(Lookup(got, "ApiError")) {
        var resp := map["ApiError" := got["ApiError"]];
        assert "ApiError" in resp;
      }
    }
  }

  /**
   * What `get_claim_info` returns is decided by the identifier read: a
   * failed read leaves the identifier and the code empty; a successful one
   * fixes the identifier, whatever the token read then does.
   */
  lemma ClaimInfoFromIdentifiers(host: string, header: Header, caller: Dict, n: Net)
    ensures var c := ClaimInfoSpec(host, header, caller, n);
      var o := RequestsOpSpec("GET", IdentifiersUri(host), header, map[], caller, n);
      && (o.ret.Raised? ==> c == ClaimStep(Err(o.ret.fault), o.dict, o.net))
      && (!o.ret.Raised? ==>
            var ids := ResultOf(o).value;
            && (Truthy(Lookup(ids, "ApiError")) ==>
                  c == ClaimStep(Ok(ClaimInfo(map["ApiError" := ids["ApiError"]], Str(""), Str(""))), o.dict, o.net))
            && (!Truthy(Lookup(ids, "ApiError")) && "Id" !in ids ==> c == ClaimStep(Err(KeyError("Id")), o.dict, o.net))
            && (!Truthy(Lookup(ids, "ApiError")) && "Id" in ids && c.out.Ok? ==> c.out.value.deviceId == ids["Id"]))
  {
  }

  /**
   * The caller's dictionary is changed by the identifier read only: the
   * token read works on the list element that read returned.
   */
  lemma ClaimInfoTouchesCallerOnce(host: string, header: Header, caller: Dict, n: Net)
    ensures ClaimInfoSpec(host, header, caller, n).caller
         == RequestsOpSpec("GET", IdentifiersUri(host), header, map[], caller, n).dict
  {
    GetReturnsFreshOrError(IdentifiersUri(host), header, map[], caller, n);
  }

  /**
   * The XML API login sends exactly one POST with the credentials, and
   * logs in exactly when a 2xx reply carries a non-empty `outCookie`; the
   * session header is then built from that cookie.
   */
  lemma LoginOutcome(device: Device, n: Net)
    ensures var r := LoginSpec(device, n);
      var reply := n.Next();
      && r.net == n.Sent(HttpPost(XmlApiUri(device.hostname), LoginBody(device.username, device.password)))
      && (r.session.loggedIn <==>
            reply.Reply? && Is2xx(reply.code) && reply.body.XmlElement?
            && "outCookie" in reply.body.attrib && reply.body.attrib["outCookie"] != "")
      && (r.session.loggedIn ==>
            var cookie := reply.body.attrib["outCookie"];
            r.session == Session(true, CookieHeader(cookie), Some(cookie)) && r.fault.None?)
      && (!r.session.loggedIn ==> r.session == NoSession)
      && (r.fault.Some? <==> reply.Refused? || (Is2xx(reply.code) && !reply.body.XmlElement?))
  {
  }

  /**
   * Logging out is a no-op without a session; with one it sends one POST
   * naming the session cookie, and ends the session unless that POST got
   * no reply.
   */
  lemma LogoutOutcome(host: string, s: Session, n: Net)
    requires WellFormed(s)
    ensures var r := LogoutSpec(host, s, n);
      && WellFormed(r.session)
      && r.session.authHeader == s.authHeader && r.session.xmlCookie == s.xmlCookie
      && (!s.loggedIn ==> r == SessionStep(None, s, n))
      && (s.loggedIn ==> r.net == n.Sent(HttpPost(XmlApiUri(host), LogoutBody(s.xmlCookie.value))))
      && (r.fault.None? <==> !r.session.loggedIn)
  {
  }
}
