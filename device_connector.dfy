/**
 * The device connector API of device_connector.py: the `DeviceConnector`
 * class and its UCS Manager subclass, which authenticates with an XML API
 * session cookie. The subclass only adds session set-up and tear-down, so
 * both are one class here: the constructor is the base class's `__init__`
 * and `OpenUcs` is the subclass's.
 */
module Connector {
  import opened Wrappers
  import opened Http
  import opened RetryExecutor

  /** The device dictionary of the claim configuration. */
  datatype Device = Device(hostname: string, username: string, password: string, readOnly: Value)

  function ConnectorUri(host: string): string
  {
    "https://" + host + "/connector"
  }

  function SystemsUri(host: string): string
  {
    ConnectorUri(host) + "/Systems"
  }

  function IdentifiersUri(host: string): string
  {
    ConnectorUri(host) + "/DeviceIdentifiers"
  }

  function TokensUri(host: string): string
  {
    ConnectorUri(host) + "/SecurityTokens"
  }

  function XmlApiUri(host: string): string
  {
    "https://" + host + "/nuova"
  }

  function LoginBody(user: string, password: string): string
  {
    "<aaaLogin inName='" + user + "' inPassword='" + password + "' />"
  }

  function LogoutBody(cookie: string): string
  {
    "<aaaLogout inCookie='" + cookie + "' />"
  }

  function CookieHeader(cookie: string): Header
  {
    map["ucsmcookie" := "ucsm-cookie=" + cookie]
  }

  /** The session fields of a connector object: `logged_in`, `auth_header`, `xml_cookie` (None while unset). */
  datatype Session = Session(loggedIn: bool, authHeader: Header, xmlCookie: Option<string>)

  /** The fields as the base class's `__init__` leaves them. */
  const NoSession := Session(false, map[], None)

  /** A logged-in session holds a cookie and the header built from it. */
  predicate WellFormed(s: Session)
  {
    s.loggedIn ==> s.xmlCookie.Some? && s.authHeader == CookieHeader(s.xmlCookie.value)
  }

  /** The value a call leaves in `ro_json`, and the network afterwards. */
  datatype Run = Run(out: Result<Dict, Fault>, net: Net)

  /** The request body that enables the connector. */
  const EnableBody: Dict := map["AdminState" := Bool(true)]

  /** The dictionary `ro_json` starts from before a status read. */
  const DisabledDefault: Dict := map["AdminState" := Bool(false)]

  /** `get_status`: one GET of the Systems resource on a new dictionary. */
  function GetStatusSpec(host: string, header: Header, n: Net): Run
  {
    var o := RequestsOpSpec("GET", SystemsUri(host), header, map[], DisabledDefault, n);
    Run(ResultOf(o), o.net)
  }

  /** How one round of a configuration loop ends: the method returns `last`, or the next round starts from `carry`. */
  datatype Round<R, K> = Stop(last: R) | Again(carry: K, net: Net)

  /** One round of `configure_connector`: read the status and, while disabled, PUT the enabling body. */
  function ConfigureRound(host: string, header: Header, n: Net): Round<Run, Dict>
  {
    var s := GetStatusSpec(host, header, n);
    match s.out
    case Err(_) => Stop(s)
    case Ok(status) =>
      if "AdminState" !in status then Stop(Run(Err(KeyError("AdminState")), s.net))
      else if Truthy(status["AdminState"]) then Stop(s)
      else
        var p := RequestsOpSpec("PUT", SystemsUri(host), header, EnableBody, status, s.net);
        match ResultOf(p)
        case Err(f) => Stop(Run(Err(f), p.net))
        case Ok(after) =>
          if Truthy(Lookup(after, "ApiError")) then Stop(Run(Ok(after), p.net))
          else Again(after, p.net)
  }

  /** A call handed back the dictionary object holding `out`'s value, or raised `out`'s fault. */
  ghost predicate Delivers(r: Result<JsonDict, Fault>, out: Result<Dict, Fault>)
    reads if r.Ok? then {r.value} else {}
  {
    && (r.Ok? <==> out.Ok?)
    && (r.Ok? ==> r.value.entries == out.value)
    && (r.Err? ==> r.error == out.error)
  }

  /**
   * The rounds of `configure_connector`, `left` to go, `ro_json` holding `d`.
   * The round itself is taken by `ConfigureRoundsFrom`, so that unfolding this
   * function once does not unfold the round.
   */
  function ConfigureRounds(host: string, header: Header, d: Dict, n: Net, left: nat): Run
    decreases left, 1, n
  {
    if left == 0 then Run(Ok(d), n) else ConfigureRoundsFrom(host, header, n, left)
  }

  /** The rounds of `configure_connector` from a round that is about to run, `left` rounds to go counting it. */
  function ConfigureRoundsFrom(host: string, header: Header, n: Net, left: nat): Run
    requires left > 0
    decreases left, 0, n
  {
    match ConfigureRound(host, header, n)
    case Stop(last) => last
    case Again(after, n1) => ConfigureRounds(host, header, after, n1, left - 1)
  }

  /** A round that leaves the loop decides what the remaining rounds return. */
  lemma ConfigureRoundsStop(host: string, header: Header, d: Dict, n: Net, left: nat)
    requires left > 0 && ConfigureRound(host, header, n).Stop?
    ensures ConfigureRounds(host, header, d, n, left) == ConfigureRound(host, header, n).last
  {
  }

  /** A round that carries on hands the loop to the next round. */
  lemma ConfigureRoundsAgain(host: string, header: Header, d: Dict, n: Net, after: Dict, n1: Net, left: nat)
    requires left > 0
    requires ConfigureRound(host, header, n) == Again(after, n1)
    ensures ConfigureRounds(host, header, d, n, left) == ConfigureRounds(host, header, after, n1, left - 1)
  {
  }

  /** The number of rounds of `for _ in range(4)` in the two configuration loops. */
  const ConfigureLimit: nat := 4

  function ConfigureConnectorSpec(host: string, header: Header, n: Net): Run
  {
    ConfigureRounds(host, header, DisabledDefault, n, ConfigureLimit)
  }

  /** What the local name `ro_json` is bound to: the caller's dictionary, or one of the method's own. */
  datatype Target = Caller | Own(entries: Dict)

  /** The caller's dictionary and the binding of `ro_json`. */
  datatype Binding = Binding(caller: Dict, cur: Target)

  /** The binding when the caller's dictionary holds `caller` and `ro_json` names it (`same`) or another holding `own`. */
  function BindingOf(caller: Dict, same: bool, own: Dict): Binding
  {
    Binding(caller, if same then Caller else Own(own))
  }

  function Current(b: Binding): Dict
  {
    if b.cur.Caller? then b.caller else b.cur.entries
  }

  /** A step of a method that works on a caller's dictionary: an escaping exception, the binding, the network. */
  datatype Step = Step(fault: Option<Fault>, bind: Binding, net: Net)

  /**
   * An exception ends the method: the caller keeps whatever its dictionary
   * holds, and the local name `ro_json` is gone, so the binding is reset.
   */
  function Raise(f: Fault, caller: Dict, n: Net): Step
  {
    Step(Some(f), Binding(caller, Caller), n)
  }

  function FaultOf<T>(r: Result<T, Fault>): Option<Fault>
  {
    if r.Err? then Some(r.error) else None
  }

  /**
   * The step a method has taken when it raised `fault` or returned the
   * dictionary `own` (the caller's own one when `same`), the caller's
   * dictionary holding `caller`.
   */
  function Observed(fault: Option<Fault>, caller: Dict, same: bool, own: Dict, n: Net): Step
  {
    if fault.Some? then Raise(fault.value, caller, n) else Step(None, BindingOf(caller, same, own), n)
  }

  /** `ro_json = requests_op(..., ro_json=ro_json, ...)`: the call updates whatever `ro_json` names. */
  function OpOnBound(b: Binding, op: string, uri: string, header: Header, body: Dict, n: Net): Step
  {
    var o := RequestsOpSpec(op, uri, header, body, Current(b), n);
    var touched := if b.cur.Caller? then Binding(o.dict, Caller) else Binding(b.caller, Own(o.dict));
    match o.ret
    case Same => Step(None, touched, o.net)
    case Replaced(e) => Step(None, Binding(touched.caller, Own(e)), o.net)
    case Raised(f) => Raise(f, touched.caller, o.net)
  }

  /** One round of `configure_access_mode`: PUT the wanted mode, then read it back. */
  function AccessRound(host: string, header: Header, readOnly: Value, b: Binding, n: Net): Round<Step, Binding>
  {
    var p := OpOnBound(b, "PUT", SystemsUri(host), header, map["ReadOnlyMode" := readOnly], n);
    if p.fault.Some? || Truthy(Lookup(Current(p.bind), "ApiError")) then Stop(p)
    else
      var s := GetStatusSpec(host, header, p.net);
      match s.out
      case Err(f) => Stop(Raise(f, p.bind.caller, s.net))
      case Ok(status) =>
        var next := Binding(p.bind.caller, Own(status));
        if "ReadOnlyMode" !in status then Stop(Raise(KeyError("ReadOnlyMode"), p.bind.caller, s.net))
        else if status["ReadOnlyMode"] == readOnly then Stop(Step(None, next, s.net))
        else Again(next, s.net)
  }

  /** The rounds of `configure_access_mode`, `left` to go (split in two like `ConfigureRounds`). */
  function AccessRounds(host: string, header: Header, readOnly: Value, b: Binding, n: Net, left: nat): Step
    decreases left, 1, n
  {
    if left == 0 then Step(None, b, n) else AccessRoundsFrom(host, header, readOnly, b, n, left)
  }

  /** The rounds of `configure_access_mode` from a round that is about to run, `left` rounds to go counting it. */
  function AccessRoundsFrom(host: string, header: Header, readOnly: Value, b: Binding, n: Net, left: nat): Step
    requires left > 0
    decreases left, 0, n
  {
    match AccessRound(host, header, readOnly, b, n)
    case Stop(last) => last
    case Again(next, n1) => AccessRounds(host, header, readOnly, next, n1, left - 1)
  }

  lemma AccessRoundsStop(host: string, header: Header, readOnly: Value, b: Binding, n: Net, left: nat)
    requires left > 0 && AccessRound(host, header, readOnly, b, n).Stop?
    ensures AccessRounds(host, header, readOnly, b, n, left) == AccessRound(host, header, readOnly, b, n).last
  {
  }

  lemma AccessRoundsAgain(host: string, header: Header, readOnly: Value, b: Binding, n: Net, next: Binding, n1: Net, left: nat)
    requires left > 0
    requires AccessRound(host, header, readOnly, b, n) == Again(next, n1)
    ensures AccessRounds(host, header, readOnly, b, n, left) == AccessRounds(host, header, readOnly, next, n1, left - 1)
  {
  }

  function AccessModeSpec(device: Device, header: Header, caller: Dict, n: Net): Step
  {
    AccessRounds(device.hostname, header, device.readOnly, Binding(caller, Caller), n, ConfigureLimit)
  }

  /** The triple `(claim_resp, device_id, claim_code)`. */
  datatype ClaimInfo = ClaimInfo(claimResp: Dict, deviceId: Value, claimCode: Value)

  /** The outcome of `get_claim_info`, the caller's dictionary afterwards, and the network. */
  datatype ClaimStep = ClaimStep(out: Result<ClaimInfo, Fault>, caller: Dict, net: Net)

  /** `get_claim_info`: read the device identifier and, when that gave one, the security token. */
  function ClaimInfoSpec(host: string, header: Header, caller: Dict, n: Net): ClaimStep
  {
    var first := OpOnBound(Binding(caller, Caller), "GET", IdentifiersUri(host), header, map[], n);
    if first.fault.Some? then ClaimStep(Err(first.fault.value), first.bind.caller, first.net)
    else
      var ids := Current(first.bind);
      if Truthy(Lookup(ids, "ApiError")) then
        ClaimStep(Ok(ClaimInfo(map["ApiError" := ids["ApiError"]], Str(""), Str(""))), first.bind.caller, first.net)
      else if "Id" !in ids then ClaimStep(Err(KeyError("Id")), first.bind.caller, first.net)
      else TokenReadSpec(host, header, first.bind, ids["Id"], first.net)
  }

  /** The second half of `get_claim_info`: the token read, `ro_json` bound as `b`, the identifier known. */
  function TokenReadSpec(host: string, header: Header, b: Binding, deviceId: Value, n: Net): ClaimStep
  {
    var second := OpOnBound(b, "GET", TokensUri(host), header, map[], n);
    if second.fault.Some? then ClaimStep(Err(second.fault.value), second.bind.caller, second.net)
    else
      var tokens := Current(second.bind);
      if Truthy(Lookup(tokens, "ApiError")) then
        ClaimStep(Ok(ClaimInfo(map["ApiError" := tokens["ApiError"]], deviceId, Str(""))), second.bind.caller, second.net)
      else if "Token" !in tokens then ClaimStep(Err(KeyError("Token")), second.bind.caller, second.net)
      else ClaimStep(Ok(ClaimInfo(map[], deviceId, tokens["Token"])), second.bind.caller, second.net)
  }

  /** The outcome of a session change: an exception if one escaped, the session fields, the network. */
  datatype SessionStep = SessionStep(fault: Option<Fault>, session: Session, net: Net)

  /** The XML API login of the subclass's `__init__`. */
  function LoginSpec(device: Device, n: Net): (r: SessionStep)
    ensures WellFormed(r.session)
  {
    var n1 := n.Sent(HttpPost(XmlApiUri(device.hostname), LoginBody(device.username, device.password)));
    match n.Next()
    case Refused => SessionStep(Some(ConnectionError), NoSession, n1)
    case Reply(code, payload) =>
      if !Is2xx(code) then SessionStep(None, NoSession, n1)
      else
        match payload
        case XmlElement(attrib) =>
          if "outCookie" in attrib && attrib["outCookie"] != "" then
            var cookie := attrib["outCookie"];
            SessionStep(None, Session(true, CookieHeader(cookie), Some(cookie)), n1)
          else SessionStep(None, NoSession, n1)
        case _ => SessionStep(Some(XmlParseError), NoSession, n1)
  }

  function LogoutSpec(host: string, s: Session, n: Net): SessionStep
    requires WellFormed(s)
  {
    if !s.loggedIn then SessionStep(None, s, n)
    else
      var n1 := n.Sent(HttpPost(XmlApiUri(host), LogoutBody(s.xmlCookie.value)));
      if n.Next().Refused? then SessionStep(Some(ConnectionError), s, n1)
      else SessionStep(None, s.(loggedIn := false), n1)
  }

  class DeviceConnector {
    const device: Device
    const connectorUri: string
    const systemsUri: string
    const xmlUri: string
    const net: Network
    var loggedIn: bool
    var authHeader: Header
    var xmlCookie: Option<string>

    function Fields(): Session
      reads this
    {
      Session(loggedIn, authHeader, xmlCookie)
    }

    ghost predicate Valid()
      reads this
    {
      && connectorUri == ConnectorUri(device.hostname)
      && systemsUri == SystemsUri(device.hostname)
      && xmlUri == XmlApiUri(device.hostname)
      && WellFormed(Fields())
    }

    /** The base class's `__init__`. */
    constructor (device: Device, net: Network)
      ensures this.device == device && this.net == net
      ensures Valid() && Fields() == NoSession
    {
      this.device := device;
      this.net := net;
      loggedIn := false;
      authHeader := map[];
      xmlCookie := None;
      connectorUri := ConnectorUri(device.hostname);
      systemsUri := ConnectorUri(device.hostname) + "/Systems";
      xmlUri := XmlApiUri(device.hostname);
    }

    /** The subclass's `__init__`: build the object, then log in to the XML API. */
    static method OpenUcs(device: Device, net: Network) returns (r: Result<DeviceConnector, Fault>)
      modifies net
      ensures var g := LoginSpec(device, old(net.State()));
        && net.State() == g.net
        && (g.fault.Some? ==> r == Err(g.fault.value))
        && (g.fault.None? ==>
              r.Ok? && fresh(r.value) && r.value.Valid()
              && r.value.device == device && r.value.net == net && r.value.Fields() == g.session)
    {
      var dc := new DeviceConnector(device, net);
      var reply := net.Send(HttpPost(dc.xmlUri, LoginBody(device.username, device.password)));
      match reply
      case Refused =>
        return Err(ConnectionError);
      case Reply(code, payload) =>
        if Is2xx(code) {
          match payload
          case XmlElement(attrib) =>
            if "outCookie" !in attrib || attrib["outCookie"] == "" {
              return Ok(dc);
            }
            dc.xmlCookie := Some(attrib["outCookie"]);
            dc.authHeader := CookieHeader(attrib["outCookie"]);
            dc.loggedIn := true;
          case _ =>
            return Err(XmlParseError);
        }
      r := Ok(dc);
    }

    method GetStatus() returns (r: Result<JsonDict, Fault>)
      requires Valid()
      modifies net
      ensures r.Ok? ==> fresh(r.value)
      ensures var g := GetStatusSpec(device.hostname, authHeader, old(net.State()));
        net.State() == g.net && Delivers(r, g.out)
    {
      var ro := new JsonDict(DisabledDefault);
      r := RequestsOp("GET", systemsUri, authHeader, ro, map[], net);
    }

    /** The body of one pass of the `for` loop of `configure_connector`. */
    method ConfigureOnce() returns (stop: bool, r: Result<JsonDict, Fault>)
      requires Valid()
      modifies net
      ensures r.Ok? ==> fresh(r.value)
      ensures match ConfigureRound(device.hostname, authHeader, old(net.State()))
        case Stop(last) => stop && net.State() == last.net && Delivers(r, last.out)
        case Again(after, n) => !stop && net.State() == n && r.Ok? && r.value.entries == after
    {
      stop := true;
      r := GetStatus();
      if r.Err? {
        return;
      }
      var ro := r.value;
      if "AdminState" !in ro.entries {
        return true, Err(KeyError("AdminState"));
      }
      if Truthy(ro.entries["AdminState"]) {
        return;
      }
      r := RequestsOp("PUT", systemsUri, authHeader, ro, EnableBody, net);
      stop := r.Err? || Truthy(Lookup(r.value.entries, "ApiError"));
    }

    method ConfigureConnector() returns (r: Result<JsonDict, Fault>)
      requires Valid()
      modifies net
      ensures r.Ok? ==> fresh(r.value)
      ensures var g := ConfigureConnectorSpec(device.hostname, authHeader, old(net.State()));
        net.State() == g.net && Delivers(r, g.out)
    {
      ghost var goal := ConfigureConnectorSpec(device.hostname, authHeader, net.State());
      var left: nat := ConfigureLimit;
      var ro := new JsonDict(DisabledDefault);
      r := Ok(ro);
      while left > 0
        invariant r.Ok? && fresh(r.value)
        invariant ConfigureRounds(device.hostname, authHeader, r.value.entries, net.State(), left) == goal
      {
        ghost var d0, n0 := r.value.entries, net.State();
        var stop;
        stop, r := ConfigureOnce();
        if stop {
          ConfigureRoundsStop(device.hostname, authHeader, d0, n0, left);
          return;
        }
        left := left - 1;
        ConfigureRoundsAgain(device.hostname, authHeader, d0, n0, r.value.entries, net.State(), left + 1);
      }
    }

    /** The body of one pass of the `for` loop of `configure_access_mode`. */
    method AccessOnce(ro: JsonDict, cur: JsonDict) returns (stop: bool, r: Result<JsonDict, Fault>)
      requires Valid()
      modifies ro, cur, net
      ensures r.Ok? ==> r.value == ro || r.value == cur || fresh(r.value)
      ensures var round := AccessRound(device.hostname, authHeader, device.readOnly,
                                       BindingOf(old(ro.entries), cur == ro, old(cur.entries)), old(net.State()));
        && (stop ==> round == Stop(Observed(FaultOf(r), ro.entries, r.Err? || r.value == ro,
                                            if r.Ok? then r.value.entries else map[], net.State())))
        && (!stop ==> r.Ok? && round == Again(BindingOf(ro.entries, r.value == ro, r.value.entries), net.State()))
    {
      stop := true;
      r := RequestsOp("PUT", systemsUri, authHeader, cur, map["ReadOnlyMode" := device.readOnly], net);
      if r.Err? || Truthy(Lookup(r.value.entries, "ApiError")) {
        return;
      }
      r := GetStatus();
      if r.Err? {
        return;
      }
      if "ReadOnlyMode" !in r.value.entries {
        return true, Err(KeyError("ReadOnlyMode"));
      }
      stop := r.value.entries["ReadOnlyMode"] == device.readOnly;
    }

    method ConfigureAccessMode(ro: JsonDict) returns (r: Result<JsonDict, Fault>)
      requires Valid()
      modifies ro, net
      ensures r.Ok? ==> r.value == ro || fresh(r.value)
      ensures AccessModeSpec(device, authHeader, old(ro.entries), old(net.State()))
           == Observed(FaultOf(r), ro.entries, r.Err? || r.value == ro,
                       if r.Ok? then r.value.entries else map[], net.State())
    {
      ghost var goal := AccessModeSpec(device, authHeader, ro.entries, net.State());
      var left: nat := ConfigureLimit;
      r := Ok(ro);
      while left > 0
        invariant r.Ok? && (r.value == ro || fresh(r.value))
        invariant AccessRounds(device.hostname, authHeader, device.readOnly,
                               BindingOf(ro.entries, r.value == ro, r.value.entries), net.State(), left) == goal
      {
        ghost var b0, n0 := BindingOf(ro.entries, r.value == ro, r.value.entries), net.State();
        var stop;
        stop, r := AccessOnce(ro, r.value);
        if stop {
          AccessRoundsStop(device.hostname, authHeader, device.readOnly, b0, n0, left);
          return;
        }
        left := left - 1;
        AccessRoundsAgain(device.hostname, authHeader, device.readOnly, b0, n0,
                          BindingOf(ro.entries, r.value == ro, r.value.entries), net.State(), left + 1);
      }
    }

    method GetClaimInfo(ro: JsonDict) returns (r: Result<ClaimInfo, Fault>)
      requires Valid()
      modifies ro, net
      ensures ClaimInfoSpec(device.hostname, authHeader, old(ro.entries), old(net.State()))
           == ClaimStep(r, ro.entries, net.State())
    {
      var claimResp: Dict := map[];
      var deviceId, claimCode := Str(""), Str("");
      var ids := RequestsOp("GET", connectorUri + "/DeviceIdentifiers", authHeader, ro, map[], net);
      if ids.Err? {
        return Err(ids.error);
      }
      var cur := ids.value;
      if !Truthy(Lookup(cur.entries, "ApiError")) {
        if "Id" !in cur.entries {
          return Err(KeyError("Id"));
        }
        deviceId := cur.entries["Id"];
        var tokens := RequestsOp("GET", connectorUri + "/SecurityTokens", authHeader, cur, map[], net);
        if tokens.Err? {
          return Err(tokens.error);
        }
        cur := tokens.value;
        if !Truthy(Lookup(cur.entries, "ApiError")) {
          if "Token" !in cur.entries {
            return Err(KeyError("Token"));
          }
          claimCode := cur.entries["Token"];
        } else {
          claimResp := claimResp["ApiError" := cur.entries["ApiError"]];
        }
      } else {
        claimResp := claimResp["ApiError" := cur.entries["ApiError"]];
      }
      r := Ok(ClaimInfo(claimResp, deviceId, claimCode));
    }

    method Logout() returns (fault: Option<Fault>)
      requires Valid()
      modifies this, net
      ensures Valid()
      ensures LogoutSpec(device.hostname, old(Fields()), old(net.State())) == SessionStep(fault, Fields(), net.State())
    {
      fault := None;
      if loggedIn {
        var reply := net.Send(HttpPost(xmlUri, LogoutBody(xmlCookie.value)));
        if reply.Refused? {
          return Some(ConnectionError);
        }
        loggedIn := false;
      }
    }
  }
}
