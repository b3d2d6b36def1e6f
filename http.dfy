/**
 * The environment the device-connector code runs in: decoded JSON values,
 * the replies a device gives, the requests sent to it, and the network
 * itself, which is a script of replies consumed one per request.
 */
module Http {
  import opened Wrappers

  /** A JSON scalar as it appears in a connector status record. */
  datatype Value = Null | Bool(b: bool) | Str(s: string)

  /** A decoded JSON object (a Python dict of the status record). */
  type Dict = map<string, Value>

  /** HTTP request headers; the empty map stands for the empty header `''`. */
  type Header = map<string, string>

  /** Python's `d.get(key)`: the value, or `None` when the key is absent. */
  function Lookup(d: Dict, key: string): Value
  {
    if key in d then d[key] else Null
  }

  /** Python truthiness of a JSON scalar. */
  predicate Truthy(v: Value)
  {
    match v
    case Null => false
    case Bool(b) => b
    case Str(s) => s != ""
  }

  /** Python's `"%s" % v` for a JSON scalar. */
  function Show(v: Value): string
  {
    match v
    case Null => "None"
    case Bool(b) => if b then "True" else "False"
    case Str(s) => s
  }

  /** The body of a reply as the client library would decode it. */
  datatype Body =
    | JsonArray(items: seq<Dict>)              // a JSON list of objects
    | JsonNonArray                             // any other JSON document
    | XmlElement(attrib: map<string, string>)  // an XML document: its root's attributes

  /** What one request yields: a status code and body, or a connection failure. */
  datatype Reply = Reply(code: nat, body: Body) | Refused

  datatype Request =
    | HttpGet(uri: string, header: Header)
    | HttpPut(uri: string, header: Header, json: Dict)
    | HttpPost(uri: string, data: string)

  /** One invocation of the retrying executor: its operation and target. */
  datatype OpCall = OpCall(op: string, uri: string)

  /** The exceptions the modelled code can raise. */
  datatype Fault =
    | ConnectionError            // the request got no reply
    | IndexError                 // element 0 of an empty list
    | KeyError(key: string)      // a missing dictionary key
    | JsonDecodeError            // a body that is not JSON
    | XmlParseError              // a body that is not XML
    | TypeError                  // string concatenation with a non-string
    | UnboundLocalError(name: string)

  /**
   * The state of the network as a value: the replies still scripted, every
   * request sent so far, every executor invocation so far, and the number of
   * one-unit sleeps taken. An exhausted script refuses every connection.
   */
  datatype Net = Net(replies: seq<Reply>, sent: seq<Request>, ops: seq<OpCall>, sleeps: nat)
  {
    function Next(): Reply
    {
      if |replies| > 0 then replies[0] else Refused
    }

    function Sent(req: Request): Net
    {
      this.(replies := if |replies| > 0 then replies[1..] else [], sent := sent + [req])
    }

    function Slept(): Net
    {
      this.(sleeps := sleeps + 1)
    }

    function Invoked(op: string, uri: string): Net
    {
      this.(ops := ops + [OpCall(op, uri)])
    }
  }

  /** The network, which every request and every sleep goes through. */
  class Network {
    var replies: seq<Reply>
    ghost var sent: seq<Request>
    ghost var ops: seq<OpCall>
    ghost var sleeps: nat

    ghost function State(): Net
      reads this
    {
      Net(replies, sent, ops, sleeps)
    }

    constructor (script: seq<Reply>)
      ensures State() == Net(script, [], [], 0)
    {
      replies, sent, ops, sleeps := script, [], [], 0;
    }

    /** Sends one request and takes the next scripted reply. */
    method Send(req: Request) returns (reply: Reply)
      modifies this
      ensures reply == old(State()).Next()
      ensures State() == old(State()).Sent(req)
    {
      if |replies| > 0 {
        reply := replies[0];
        replies := replies[1..];
      } else {
        reply := Refused;
      }
      sent := sent + [req];
    }

    /** `sleep(1)`: time is not modelled, only counted. */
    method Sleep()
      modifies this
      ensures State() == old(State()).Slept()
    {
      sleeps := sleeps + 1;
    }
  }

  /** A Python dict that the code updates in place. */
  class JsonDict {
    var entries: Dict

    constructor (entries: Dict)
      ensures this.entries == entries
    {
      this.entries := entries;
    }
  }

  /** Python's `str(n)` for a non-negative integer. */
  function Decimal(n: nat): string
  {
    if n < 10 then [DigitChar(n)] else Decimal(n / 10) + [DigitChar(n % 10)]
  }

  function DigitChar(d: nat): char
    requires d < 10
  {
    (d + '0' as int) as char
  }

  /** `re.match(r'<lead>..', str(code))`: the decimal text starts with `lead` and has at least three characters. */
  predicate StatusMatches(code: nat, lead: char)
  {
    var text := Decimal(code);
    |text| >= 3 && text[0] == lead
  }

  predicate Is2xx(code: nat)
  {
    StatusMatches(code, '2')
  }

  predicate Is5xx(code: nat)
  {
    StatusMatches(code, '5')
  }

  lemma ThreeDigits(n: nat)
    requires 100 <= n < 1000
    ensures Decimal(n) == [DigitChar(n / 100), DigitChar(n / 10 % 10), DigitChar(n % 10)]
  {
    assert Decimal(n / 100) == [DigitChar(n / 100)];
    assert Decimal(n / 10) == Decimal(n / 100) + [DigitChar(n / 10 % 10)];
  }

  /**
   * For codes below 1000 the pattern test is the numeric range test:
   * 2xx means 200 to 299 and 5xx means 500 to 599.
   */
  lemma StatusClassOfHttpCode(code: nat)
    requires code < 1000
    ensures Is2xx(code) <==> 200 <= code <= 299
    ensures Is5xx(code) <==> 500 <= code <= 599
  {
    if code < 10 {
      assert |Decimal(code)| == 1;
    } else if code < 100 {
      assert Decimal(code) == Decimal(code / 10) + [DigitChar(code % 10)];
      assert |Decimal(code)| == 2;
    } else {
      ThreeDigits(code);
    }
  }
}
