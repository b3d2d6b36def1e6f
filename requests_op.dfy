/**
 * `requests_op` (device_connector.py): one GET or PUT to the device
 * connector, retried while the device answers with a server error.
 */
module RetryExecutor {
  import opened Wrappers
  import opened Http

  /** The number of attempts of `for _ in range(10)`. */
  const MaxAttempts: nat := 10

  /** What the name `ro_json` refers to when `requests_op` returns. */
  datatype Ret =
    | Same                    // the caller's dictionary, updated in place
    | Replaced(entries: Dict) // a new dictionary: element 0 of a list reply
    | Raised(fault: Fault)    // an exception escaped

  /** The caller's dictionary afterwards, what was returned, and the network afterwards. */
  datatype OpResult = OpResult(dict: Dict, ret: Ret, net: Net)

  predicate Supported(op: string)
  {
    op == "GET" || op == "PUT"
  }

  /** The error text `"%s %s %s" % (op, uri, resp.status_code)`. */
  function ErrorText(op: string, uri: string, code: nat): string
  {
    op + " " + uri + " " + Decimal(code)
  }

  function UnsupportedText(op: string): string
  {
    "unsupported op " + op
  }

  function RequestFor(op: string, uri: string, header: Header, body: Dict): Request
    requires Supported(op)
  {
    if op == "GET" then HttpGet(uri, header) else HttpPut(uri, header, body)
  }

  /** How one attempt ends: `requests_op` returns `result`, or sleeps and tries again with `failed` recorded. */
  datatype Attempt = Finished(result: OpResult) | Retry(failed: Dict, net: Net)

  /** One iteration of the attempts loop on dictionary `d`. */
  function AttemptOnce(op: string, uri: string, header: Header, body: Dict, d: Dict, n: Net): Attempt
  {
    if !Supported(op) then Finished(OpResult(d["ApiError" := Str(UnsupportedText(op))], Same, n))
    else
      var n1 := n.Sent(RequestFor(op, uri, header, body));
      match n.Next()
      case Refused => Finished(OpResult(d, Raised(ConnectionError), n1))
      case Reply(code, payload) =>
        if Is2xx(code) then
          var cleared := d - {"ApiError"};
          if op != "GET" then Finished(OpResult(cleared, Same, n1))
          else
            match payload
            case JsonArray(items) =>
              if |items| == 0 then Finished(OpResult(cleared, Raised(IndexError), n1))
              else Finished(OpResult(cleared, Replaced(items[0]), n1))
            case JsonNonArray => Finished(OpResult(cleared["ApiError" := Str(ErrorText(op, uri, code))], Same, n1))
            case XmlElement(_) => Finished(OpResult(cleared, Raised(JsonDecodeError), n1))
        else
          var failed := d["ApiError" := Str(ErrorText(op, uri, code))];
          if Is5xx(code) then Retry(failed, n1.Slept())
          else Finished(OpResult(failed, Same, n1))
  }

  /**
   * The attempts loop with `left` iterations to go, on dictionary `d`.
   * (`left` alone bounds the recursion; `n` in the decreases clause keeps the
   * verifier from unrolling all ten iterations whenever `left` is a literal.)
   */
  function Attempts(op: string, uri: string, header: Header, body: Dict, d: Dict, n: Net, left: nat): OpResult
    decreases left, 1, n
  {
    if left == 0 then OpResult(d, Same, n) else AttemptsFrom(op, uri, header, body, d, n, left)
  }

  /** The attempts loop from an attempt that is about to run, `left` attempts to go counting it. */
  function AttemptsFrom(op: string, uri: string, header: Header, body: Dict, d: Dict, n: Net, left: nat): OpResult
    requires left > 0
    decreases left, 0, n
  {
    match AttemptOnce(op, uri, header, body, d, n)
    case Finished(o) => o
    case Retry(failed, n1) => Attempts(op, uri, header, body, failed, n1, left - 1)
  }

  /** An attempt that finishes decides the result; one that retries hands over to the remaining attempts. */
  lemma AttemptsStep(op: string, uri: string, header: Header, body: Dict, d: Dict, n: Net, left: nat)
    requires left > 0
    ensures Attempts(op, uri, header, body, d, n, left)
         == match AttemptOnce(op, uri, header, body, d, n)
            case Finished(o) => o
            case Retry(failed, n1) => Attempts(op, uri, header, body, failed, n1, left - 1)
  {
  }

  /** `requests_op(op, uri, header, ro_json, body)` on a dictionary holding `d`. */
  function RequestsOpSpec(op: string, uri: string, header: Header, body: Dict, d: Dict, n: Net): OpResult
  {
    Attempts(op, uri, header, body, d, n.Invoked(op, uri), MaxAttempts)
  }

  /** What `ro_json = requests_op(...)` leaves in `ro_json`, as a value. */
  function ResultOf(o: OpResult): Result<Dict, Fault>
  {
    match o.ret
    case Same => Ok(o.dict)
    case Replaced(e) => Ok(e)
    case Raised(f) => Err(f)
  }

  method RequestsOp(op: string, uri: string, header: Header, ro: JsonDict, body: Dict, net: Network)
    returns (r: Result<JsonDict, Fault>)
    modifies ro, net
    ensures var g := RequestsOpSpec(op, uri, header, body, old(ro.entries), old(net.State()));
      && ro.entries == g.dict
      && net.State() == g.net
      && match g.ret
         case Same => r == Ok(ro)
         case Replaced(e) => r.Ok? && fresh(r.value) && r.value.entries == e
         case Raised(f) => r == Err(f)
  {
    ghost var goal := RequestsOpSpec(op, uri, header, body, ro.entries, net.State());
    net.ops := net.ops + [OpCall(op, uri)];
    var cur := ro;
    for i := 0 to MaxAttempts
      invariant cur == ro
      invariant Attempts(op, uri, header, body, ro.entries, net.State(), MaxAttempts - i) == goal
    {
      var reply: Reply;
      if op == "GET" {
        reply := net.Send(HttpGet(uri, header));
      } else if op == "PUT" {
        reply := net.Send(HttpPut(uri, header, body));
      } else {
        ro.entries := ro.entries["ApiError" := Str(UnsupportedText(op))];
        break;
      }
      if reply.Refused? {
        return Err(ConnectionError);
      }
      if Is2xx(reply.code) {
        ro.entries := ro.entries - {"ApiError"};
        if op == "GET" {
          match reply.body
          case JsonArray(items) =>
            if |items| == 0 {
              return Err(IndexError);
            }
            cur := new JsonDict(items[0]);
          case JsonNonArray =>
            ro.entries := ro.entries["ApiError" := Str(ErrorText(op, uri, reply.code))];
          case XmlElement(_) =>
            return Err(JsonDecodeError);
        }
        break;
      }
      ro.entries := ro.entries["ApiError" := Str(ErrorText(op, uri, reply.code))];
      if Is5xx(reply.code) {
        net.Sleep();
        continue;
      }
      break;
    }
    r := Ok(cur);
  }
}
