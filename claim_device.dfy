/**
 * `get_device_claim_codes` (claim_device.py): log in to one UCS Manager,
 * enable its device connector, wait for the connection, and ask for the
 * claim codes unless the device is already claimed; log out in `finally`.
 * Also the two request builders of the provisioning calls that are pure
 * data: the resource-group selector and the list of role references.
 */
module ClaimDevice {
  import opened Wrappers
  import opened Http
  import opened RetryExecutor
  import opened Connector

  /** How `get_device_claim_codes` ends. */
  datatype Exit =
    | Returned(body: Dict)   // `return request_body`
    | Exited(status: int)    // `sys.exit(status)` from an exception handler
    | Crashed(fault: Fault)  // the logout in `finally` raised, replacing the outcome

  /** The locals of the `try` block: `result['msg']`, `return_code` (None while unbound), and the network. */
  datatype Flow = Flow(msg: string, rc: Option<int>, net: Net)

  /** A stage of the `try` block: its value or the exception it raised, and the locals afterwards. */
  datatype Progress<T> = Progress(out: Result<T, Fault>, flow: Flow)

  /** What a call of `get_device_claim_codes` amounts to. */
  datatype Report = Report(exit: Exit, msg: string, rc: Option<int>, net: Net)

  /** The number of polls of `for _ in range(10)` in the connection wait. */
  const WaitPolls: nat := 10

  /**
   * Python's `msg += v`: a string value extends the message, which keeps
   * everything already written as its prefix; any other value is a
   * `TypeError` and the message is not extended.
   */
  function Append(msg: string, v: Value): (r: Result<string, Fault>)
    ensures r.Ok? <==> v.Str?
    ensures r.Ok? ==> msg <= r.value && r.value[|msg|..] == v.s
    ensures r.Err? ==> r.error == TypeError
  {
    match v
    case Str(s) => Ok(msg + s)
    case _ => Err(TypeError)
  }

  /** The claim request body `{"SecurityToken": claim_code, "SerialNumber": device_id}`. */
  function ClaimBody(claimCode: Value, deviceId: Value): Dict
  {
    map["SecurityToken" := claimCode, "SerialNumber" := deviceId]
  }

  /** A failed login is noted, and the flow goes on. */
  function LoginCheckSpec(s: Session, n: Net): Flow
  {
    if s.loggedIn then Flow("", None, n) else Flow("  Login error", Some(1), n)
  }

  /** The `AdminState` check after `configure_connector`: a disabled connector is noted, with its `ApiError`. */
  function AdminCheckSpec(ro: Dict, f: Flow): Progress<Dict>
  {
    if "AdminState" !in ro then Progress(Err(KeyError("AdminState")), f)
    else if Truthy(ro["AdminState"]) then Progress(Ok(ro), f)
    else if !Truthy(Lookup(ro, "ApiError")) then Progress(Ok(ro), f.(rc := Some(1)))
    else
      match Append(f.msg, ro["ApiError"])
      case Err(e) => Progress(Err(e), f.(rc := Some(1)))
      case Ok(m) => Progress(Ok(ro), f.(msg := m, rc := Some(1)))
  }

  /** The connection wait with `left` polls to go, `ro_json` holding `ro`. */
  function Polls(host: string, header: Header, ro: Dict, n: Net, left: nat): Run
    decreases left, n
  {
    if left == 0 then Run(Ok(ro), n)
    else if "ConnectionState" !in ro then Run(Err(KeyError("ConnectionState")), n)
    else if ro["ConnectionState"] == Str("Connected") then Run(Ok(ro), n)
    else
      var s := GetStatusSpec(host, header, n.Slept());
      if s.out.Err? then s else Polls(host, header, s.out.value, s.net, left - 1)
  }

  /** The three state lines of the message, and the note when the connection is not up. */
  function SummarySpec(ro: Dict, f: Flow): Progress<Dict>
  {
    if "AdminState" !in ro then Progress(Err(KeyError("AdminState")), f)
    else
      var m1 := f.msg + "  AdminState: " + Show(ro["AdminState"]);
      if "ConnectionState" !in ro then Progress(Err(KeyError("ConnectionState")), f.(msg := m1))
      else
        var m2 := m1 + "  ConnectionState: " + Show(ro["ConnectionState"]);
        if "AccountOwnershipState" !in ro then Progress(Err(KeyError("AccountOwnershipState")), f.(msg := m2))
        else
          var m3 := m2 + "  Claimed state: " + Show(ro["AccountOwnershipState"]);
          var rc := if ro["ConnectionState"] != Str("Connected") then Some(1) else f.rc;
          Progress(Ok(ro), f.(msg := m3, rc := rc))
  }

  /**
   * The claim decision and `return request_body`: an unclaimed device gets
   * its claim codes read and turned into the request body; for a claimed one
   * the name `request_body` is never bound.
   */
  function ClaimStageSpec(host: string, header: Header, ro: Dict, f: Flow): Progress<Dict>
    requires "AccountOwnershipState" in ro
  {
    if ro["AccountOwnershipState"] == Str("Claimed") then Progress(Err(UnboundLocalError("request_body")), f)
    else
      var c := ClaimInfoSpec(host, header, ro, f.net);
      var f1 := f.(net := c.net);
      match c.out
      case Err(e) => Progress(Err(e), f1)
      case Ok(info) =>
        var noted :=
          if !Truthy(Lookup(info.claimResp, "ApiError")) then Ok(f1)
          else
            match Append(f1.msg, info.claimResp["ApiError"])
            case Err(e) => Err(e)
            case Ok(m) => Ok(f1.(msg := m, rc := Some(1)));
        match noted
        case Err(e) => Progress(Err(e), f1)
        case Ok(f2) =>
          var m := f2.msg + "  Id: " + Show(info.deviceId) + "  Token: " + Show(info.claimCode);
          Progress(Ok(ClaimBody(info.claimCode, info.deviceId)), f2.(msg := m))
  }

  /** The stages after the `AdminState` check, from the status `configure_connector` returned. */
  function AfterAdminCheckSpec(host: string, header: Header, ro: Dict, f: Flow): Progress<Dict>
  {
    var w := Polls(host, header, ro, f.net, WaitPolls);
    match w.out
    case Err(e) => Progress(Err(e), f.(net := w.net))
    case Ok(status) =>
      var m := SummarySpec(status, f.(net := w.net));
      if m.out.Err? then m else ClaimStageSpec(host, header, status, m.flow)
  }

  /** The `try` block once the connector object exists, with session fields `s`. */
  function TrySpec(host: string, s: Session, n: Net): Progress<Dict>
  {
    var f0 := LoginCheckSpec(s, n);
    var c := ConfigureConnectorSpec(host, s.authHeader, n);
    match c.out
    case Err(e) => Progress(Err(e), f0.(net := c.net))
    case Ok(ro) =>
      var a := AdminCheckSpec(ro, f0.(net := c.net));
      if a.out.Err? then a else AfterAdminCheckSpec(host, s.authHeader, ro, a.flow)
  }

  /**
   * `get_device_claim_codes(device)`: every exception of the `try` block
   * ends in `sys.exit(1)`; the logout of `finally` runs whenever the
   * connector object was built, and an exception it raises replaces the
   * outcome.
   */
  function ClaimCodesSpec(device: Device, n: Net): Report
  {
    var l := LoginSpec(device, n);
    if l.fault.Some? then Report(Exited(1), "", None, l.net)
    else
      var t := TrySpec(device.hostname, l.session, l.net);
      var exit := if t.out.Ok? then Returned(t.out.value) else Exited(1);
      var lo := LogoutSpec(device.hostname, l.session, t.flow.net);
      Report(if lo.fault.Some? then Crashed(lo.fault.value) else exit, t.flow.msg, t.flow.rc, lo.net)
  }

  /** The connection wait: poll the status, one second apart, until it reports `Connected`. */
  method AwaitConnection(dc: DeviceConnector, ro: JsonDict) returns (r: Result<JsonDict, Fault>)
    requires dc.Valid()
    modifies dc.net
    ensures r.Ok? ==> r.value == ro || fresh(r.value)
    ensures var g := Polls(dc.device.hostname, dc.authHeader, ro.entries, old(dc.net.State()), WaitPolls);
      dc.net.State() == g.net && Delivers(r, g.out)
  {
    ghost var goal := Polls(dc.device.hostname, dc.authHeader, ro.entries, dc.net.State(), WaitPolls);
    r := Ok(ro);
    for i := 0 to WaitPolls
      invariant r.Ok? && (r.value == ro || fresh(r.value))
      invariant Polls(dc.device.hostname, dc.authHeader, r.value.entries, dc.net.State(), WaitPolls - i) == goal
    {
      if "ConnectionState" !in r.value.entries {
        return Err(KeyError("ConnectionState"));
      }
      if r.value.entries["ConnectionState"] == Str("Connected") {
        break;
      }
      dc.net.Sleep();
      r := dc.GetStatus();
      if r.Err? {
        return;
      }
    }
  }

  /** The `try` block of `get_device_claim_codes` once `dc_obj` is bound. */
  method ClaimTry(dc: DeviceConnector) returns (out: Result<Dict, Fault>, msg: string, rc: Option<int>)
    requires dc.Valid()
    modifies dc.net
    ensures TrySpec(dc.device.hostname, dc.Fields(), old(dc.net.State())) == Progress(out, Flow(msg, rc, dc.net.State()))
  {
    msg, rc := "", None;
    if !dc.loggedIn {
      msg := msg + "  Login error";
      rc := Some(1);
    }
    ghost var f0 := LoginCheckSpec(dc.Fields(), dc.net.State());
    assert f0 == Flow(msg, rc, dc.net.State());
    var c := dc.ConfigureConnector();
    ghost var g := ConfigureConnectorSpec(dc.device.hostname, dc.authHeader, old(dc.net.State()));
    if c.Err? {
      return Err(c.error), msg, rc;
    }
    var ro := c.value;
    assert g.out == Ok(ro.entries);
    if "AdminState" !in ro.entries {
      return Err(KeyError("AdminState")), msg, rc;
    }
    if !Truthy(ro.entries["AdminState"]) {
      rc := Some(1);
      if Truthy(Lookup(ro.entries, "ApiError")) {
        var m := Append(msg, ro.entries["ApiError"]);
        if m.Err? {
          return Err(m.error), msg, rc;
        }
        msg := m.value;
      }
    }
    assert AdminCheckSpec(ro.entries, f0.(net := g.net)) == Progress(Ok(ro.entries), Flow(msg, rc, dc.net.State()));
    assert TrySpec(dc.device.hostname, dc.Fields(), old(dc.net.State()))
        == AfterAdminCheckSpec(dc.device.hostname, dc.authHeader, ro.entries, Flow(msg, rc, dc.net.State()));
    out, msg, rc := ClaimAfterAdminCheck(dc, ro, msg, rc);
  }

  /** The connection wait, the message summary and the claim decision. */
  method ClaimAfterAdminCheck(dc: DeviceConnector, ro: JsonDict, msg0: string, rc0: Option<int>)
    returns (out: Result<Dict, Fault>, msg: string, rc: Option<int>)
    requires dc.Valid()
    modifies dc.net, ro
    ensures AfterAdminCheckSpec(dc.device.hostname, dc.authHeader, old(ro.entries), Flow(msg0, rc0, old(dc.net.State())))
         == Progress(out, Flow(msg, rc, dc.net.State()))
  {
    msg, rc := msg0, rc0;
    var w := AwaitConnection(dc, ro);
    if w.Err? {
      return Err(w.error), msg, rc;
    }
    var status := w.value;
    if "AdminState" !in status.entries {
      return Err(KeyError("AdminState")), msg, rc;
    }
    msg := msg + "  AdminState: " + Show(status.entries["AdminState"]);
    if "ConnectionState" !in status.entries {
      return Err(KeyError("ConnectionState")), msg, rc;
    }
    msg := msg + "  ConnectionState: " + Show(status.entries["ConnectionState"]);
    if "AccountOwnershipState" !in status.entries {
      return Err(KeyError("AccountOwnershipState")), msg, rc;
    }
    msg := msg + "  Claimed state: " + Show(status.entries["AccountOwnershipState"]);
    if status.entries["ConnectionState"] != Str("Connected") {
      rc := Some(1);
    }
    var requestBody: Option<Dict> := None;
    if status.entries["AccountOwnershipState"] != Str("Claimed") {
      var info := dc.GetClaimInfo(status);
      if info.Err? {
        return Err(info.error), msg, rc;
      }
      var claim := info.value;
      if Truthy(Lookup(claim.claimResp, "ApiError")) {
        var m := Append(msg, claim.claimResp["ApiError"]);
        if m.Err? {
          return Err(m.error), msg, rc;
        }
        msg := m.value;
        rc := Some(1);
      }
      msg := msg + "  Id: " + Show(claim.deviceId);
      msg := msg + "  Token: " + Show(claim.claimCode);
      requestBody := Some(ClaimBody(claim.claimCode, claim.deviceId));
    }
    if requestBody.None? {
      return Err(UnboundLocalError("request_body")), msg, rc;
    }
    out := Ok(requestBody.value);
  }

  /** `get_device_claim_codes(device)`: the claim request body, or how the call ended instead. */
  method GetDeviceClaimCodes(device: Device, net: Network) returns (exit: Exit, msg: string, rc: Option<int>)
    modifies net
    ensures ClaimCodesSpec(device, old(net.State())) == Report(exit, msg, rc, net.State())
  {
    msg, rc := "", None;
    var made := DeviceConnector.OpenUcs(device, net);
    if made.Err? {
      return Exited(1), msg, rc;
    }
    var dc := made.value;
    var out;
    out, msg, rc := ClaimTry(dc);
    exit := if out.Ok? then Returned(out.value) else Exited(1);
    var fault := dc.Logout();
    if fault.Some? {
      exit := Crashed(fault.value);
    }
  }

  /** The fixed text of the resource-group selector before the device identifiers. */
  const SelectorPrefix: string := "/api/v1/asset/DeviceRegistrations?$filter=Moid in('"

  const SelectorSuffix: string := "')"

  /** Python's `",".join(parts)`. */
  function Join(parts: seq<string>): string
  {
    if |parts| == 0 then ""
    else if |parts| == 1 then parts[0]
    else parts[0] + "," + Join(parts[1..])
  }

  /** Python's `s.split(",")`: the pieces between the commas, always at least one. */
  function Split(s: string): (r: seq<string>)
    ensures |r| > 0
  {
    if |s| == 0 then [""]
    else
      var rest := Split(s[1..]);
      if s[0] == ',' then [""] + rest else [[s[0]] + rest[0]] + rest[1..]
  }

  /** The selector of the resource group for the claimed devices `moids`, in order. */
  function Selector(moids: seq<string>): string
  {
    SelectorPrefix + Join(moids) + SelectorSuffix
  }

  /** Reads the device identifiers back out of a selector. */
  function ParseSelector(s: string): Option<seq<string>>
  {
    if |s| >= |SelectorPrefix| + |SelectorSuffix| && s[..|SelectorPrefix|] == SelectorPrefix
       && s[|s| - |SelectorSuffix|..] == SelectorSuffix
    then Some(Split(s[|SelectorPrefix|..|s| - |SelectorSuffix|]))
    else None
  }

  /** The role reference `{"ObjectType": "iam.Role", "Moid": moid}`. */
  function RoleRef(moid: Value): Dict
  {
    map["ObjectType" := Str("iam.Role"), "Moid" := moid]
  }

  /** The loop building `request_roles` from the `Results` of the role query. */
  method RequestRoles(results: seq<Dict>) returns (r: Result<seq<Dict>, Fault>)
    ensures r.Ok? <==> forall i | 0 <= i < |results| :: "Moid" in results[i]
    ensures r.Ok? ==> |r.value| == |results| && forall i | 0 <= i < |results| :: r.value[i] == RoleRef(results[i]["Moid"])
    ensures r.Err? ==> r.error == KeyError("Moid")
  {
    var roles: seq<Dict> := [];
    for i := 0 to |results|
      invariant |roles| == i
      invariant forall j | 0 <= j < i :: "Moid" in results[j] && roles[j] == RoleRef(results[j]["Moid"])
    {
      if "Moid" !in results[i] {
        return Err(KeyError("Moid"));
      }
      roles := roles + [RoleRef(results[i]["Moid"])];
    }
    r := Ok(roles);
  }
}
