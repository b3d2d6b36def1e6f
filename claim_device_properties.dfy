/** Properties of `get_device_claim_codes` and of the two request builders. */
module ClaimDeviceProperties {
  import opened Wrappers
  import opened Http
  import opened RetryExecutor
  import opened RetryProperties
  import opened Connector
  import opened ConnectorProperties
  import opened ClaimDevice

  /** `g` carries on from `f`: the message only grows, and a noted failure is never cleared. */
  predicate Extends(f: Flow, g: Flow)
  {
    && f.msg <= g.msg
    && (f.rc == Some(1) ==> g.rc == Some(1))
    && (g.rc == f.rc || g.rc == Some(1))
  }

  /** Two runs of a stage that take the same course: the same outcome and the same network traffic. */
  predicate SameCourse<T(==)>(p: Progress<T>, q: Progress<T>)
  {
    p.out == q.out && p.flow.net == q.flow.net
  }

  /**
   * The connection wait polls only the status, at most `left` times, and
   * sleeps at least once before each poll.
   */
  lemma {:induction false} PollsTraffic(host: string, header: Header, ro: Dict, n: Net, left: nat)
    ensures var r := Polls(host, header, ro, n, left);
      && ApiTraffic(n, r.net)
      && |r.net.ops| <= |n.ops| + left
      && (forall i | |n.ops| <= i < |r.net.ops| :: r.net.ops[i] == StatusRead(host))
      && r.net.sleeps >= n.sleeps + (|r.net.ops| - |n.ops|)
    decreases left
  {
    if left > 0 && "ConnectionState" in ro && ro["ConnectionState"] != Str("Connected") {
      var s := GetStatusSpec(host, header, n.Slept());
      RequestsOpTraffic("GET", SystemsUri(host), header, map[], DisabledDefault, n.Slept());
      ApiTrafficTrans(n, n.Slept(), s.net);
      if s.out.Ok? {
        PollsTraffic(host, header, s.out.value, s.net, left - 1);
        ApiTrafficTrans(n, s.net, Polls(host, header, s.out.value, s.net, left - 1).net);
      }
    }
  }

  /**
   * The wait ends with a `Connected` snapshot, or after all `left` polls;
   * a snapshot that is already `Connected` is kept with no poll at all.
   */
  lemma {:induction false} PollsOutcome(host: string, header: Header, ro: Dict, n: Net, left: nat)
    ensures var r := Polls(host, header, ro, n, left);
      && (r.out.Ok? ==>
            ("ConnectionState" in r.out.value && r.out.value["ConnectionState"] == Str("Connected"))
            || |r.net.ops| == |n.ops| + left)
      && ("ConnectionState" in ro && ro["ConnectionState"] == Str("Connected") ==> r == Run(Ok(ro), n))
    decreases left
  {
    if left > 0 && "ConnectionState" in ro && ro["ConnectionState"] != Str("Connected") {
      var s := GetStatusSpec(host, header, n.Slept());
      RequestsOpTraffic("GET", SystemsUri(host), header, map[], DisabledDefault, n.Slept());
      if s.out.Ok? {
        PollsOutcome(host, header, s.out.value, s.net, left - 1);
      }
    }
  }

  /** The wait stops at the first poll that reports `Connected`. */
  lemma PollsStopAtConnected(host: string, header: Header, ro: Dict, n: Net, left: nat, status: Dict, m: Net)
    requires left > 0 && "ConnectionState" in ro && ro["ConnectionState"] != Str("Connected")
    requires GetStatusSpec(host, header, n.Slept()) == Run(Ok(status), m)
    requires "ConnectionState" in status && status["ConnectionState"] == Str("Connected")
    ensures Polls(host, header, ro, n, left) == Run(Ok(status), m)
  {
    PollsOutcome(host, header, status, m, left - 1);
  }

  /** A disabled connector is noted (with its `ApiError` when that is text) and the flow goes on with no traffic. */
  lemma AdminCheckNotes(ro: Dict, f: Flow)
    ensures var a := AdminCheckSpec(ro, f);
      && a.flow.net == f.net
      && Extends(f, a.flow)
      && (a.out.Ok? ==> a.out.value == ro)
      && (a.out.Ok? <==> "AdminState" in ro && (Truthy(ro["AdminState"]) || !Truthy(Lookup(ro, "ApiError")) || ro["ApiError"].Str?))
      && ("AdminState" in ro && !Truthy(ro["AdminState"]) ==> a.flow.rc == Some(1))
      && (a.out.Ok? && "AdminState" in ro && !Truthy(ro["AdminState"]) && Truthy(Lookup(ro, "ApiError")) ==>
            a.flow.msg == f.msg + ro["ApiError"].s)
  {
  }

  /**
   * The summary appends the three state lines, and notes a connection that
   * is not up without stopping.
   */
  lemma SummaryNotes(ro: Dict, f: Flow)
    ensures var m := SummarySpec(ro, f);
      && m.flow.net == f.net
      && Extends(f, m.flow)
      && (m.out.Ok? <==> "AdminState" in ro && "ConnectionState" in ro && "AccountOwnershipState" in ro)
      && (m.out.Ok? ==>
            && m.out.value == ro
            && m.flow.msg == f.msg + "  AdminState: " + Show(ro["AdminState"])
                                   + "  ConnectionState: " + Show(ro["ConnectionState"])
                                   + "  Claimed state: " + Show(ro["AccountOwnershipState"])
            && (ro["ConnectionState"] != Str("Connected") ==> m.flow.rc == Some(1))
            && (ro["ConnectionState"] == Str("Connected") ==> m.flow.rc == f.rc))
      && (m.out.Err? ==> m.out.error.KeyError?)
  {
  }

  /** An already claimed device makes no request and leaves `request_body` unbound. */
  lemma ClaimedLeavesBodyUnbound(host: string, header: Header, ro: Dict, f: Flow)
    requires "AccountOwnershipState" in ro && ro["AccountOwnershipState"] == Str("Claimed")
    ensures ClaimStageSpec(host, header, ro, f) == Progress(Err(UnboundLocalError("request_body")), f)
  {
  }

  /**
   * The claim stage returns a body exactly when the device is unclaimed,
   * the claim information was read, and any `ApiError` it carries is text;
   * the body is the token and the identifier read, so a failed token read
   * still returns the identifier, with an empty token.
   */
  lemma ClaimStageBody(host: string, header: Header, ro: Dict, f: Flow)
    requires "AccountOwnershipState" in ro
    ensures var p := ClaimStageSpec(host, header, ro, f);
      var c := ClaimInfoSpec(host, header, ro, f.net);
      && Extends(f, p.flow)
      && (p.out.Ok? <==>
            && ro["AccountOwnershipState"] != Str("Claimed")
            && c.out.Ok?
            && (!Truthy(Lookup(c.out.value.claimResp, "ApiError")) || c.out.value.claimResp["ApiError"].Str?))
      && (p.out.Ok? ==>
            && p.out.value == ClaimBody(c.out.value.claimCode, c.out.value.deviceId)
            && p.out.value.Keys == {"SecurityToken", "SerialNumber"}
            && p.flow.net == c.net
            && (Truthy(Lookup(c.out.value.claimResp, "ApiError")) ==> p.flow.rc == Some(1))
            && (Truthy(Lookup(c.out.value.claimResp, "ApiError")) ==> p.out.value["SecurityToken"] == Str("")))
      && (var first := OpOnBound(Binding(ro, Caller), "GET", IdentifiersUri(host), header, map[], f.net);
          var ids := Current(first.bind);
          var second := OpOnBound(first.bind, "GET", TokensUri(host), header, map[], first.net);
          var toks := Current(second.bind);
          && ro["AccountOwnershipState"] != Str("Claimed")
          && first.fault.None? && !Truthy(Lookup(ids, "ApiError")) && "Id" in ids
          && second.fault.None? && !Truthy(Lookup(toks, "ApiError")) && "Token" in toks
          ==> p.out == Ok(ClaimBody(toks["Token"], ids["Id"])))
  {
    if ro["AccountOwnershipState"] != Str("Claimed") {
      ClaimInfoTraffic(host, header, ro, f.net);
    }
  }

  /** The claim stage makes no request for a claimed device, and otherwise the requests of `get_claim_info`. */
  lemma ClaimStageTraffic(host: string, header: Header, ro: Dict, f: Flow)
    requires "AccountOwnershipState" in ro
    ensures var p := ClaimStageSpec(host, header, ro, f);
      && ApiTraffic(f.net, p.flow.net)
      && (ro["AccountOwnershipState"] == Str("Claimed") <==> p.flow.net == f.net)
      && (ro["AccountOwnershipState"] != Str("Claimed") ==>
            |p.flow.net.ops| > |f.net.ops| && p.flow.net.ops[|f.net.ops|] == OpCall("GET", IdentifiersUri(host)))
  {
    ClaimInfoTraffic(host, header, ro, f.net);
  }

  /** The messages and flags never change the course of the claim stage. */
  lemma ClaimStageCourse(host: string, header: Header, ro: Dict, f: Flow, g: Flow)
    requires "AccountOwnershipState" in ro && f.net == g.net
    ensures SameCourse(ClaimStageSpec(host, header, ro, f), ClaimStageSpec(host, header, ro, g))
  {
  }

  lemma AfterAdminCheckCourse(host: string, header: Header, ro: Dict, f: Flow, g: Flow)
    requires f.net == g.net
    ensures SameCourse(AfterAdminCheckSpec(host, header, ro, f), AfterAdminCheckSpec(host, header, ro, g))
  {
    var w := Polls(host, header, ro, f.net, WaitPolls);
    if w.out.Ok? {
      var status := w.out.value;
      SummaryNotes(status, f.(net := w.net));
      SummaryNotes(status, g.(net := w.net));
      var m := SummarySpec(status, f.(net := w.net));
      var k := SummarySpec(status, g.(net := w.net));
      if m.out.Ok? {
        ClaimStageCourse(host, header, status, m.flow, k.flow);
      }
    }
  }

  /**
   * A failed login changes only the message and the flag: the `try` block
   * makes the same requests and reaches the same outcome as a logged-in one
   * with the same header.
   */
  lemma LoginFailureOnlyNoted(host: string, s: Session, t: Session, n: Net)
    requires s.authHeader == t.authHeader
    ensures SameCourse(TrySpec(host, s, n), TrySpec(host, t, n))
  {
    var c := ConfigureConnectorSpec(host, s.authHeader, n);
    if c.out.Ok? {
      var fs := LoginCheckSpec(s, n).(net := c.net);
      var ft := LoginCheckSpec(t, n).(net := c.net);
      AdminCheckNotes(c.out.value, fs);
      AdminCheckNotes(c.out.value, ft);
      var a := AdminCheckSpec(c.out.value, fs);
      var b := AdminCheckSpec(c.out.value, ft);
      if a.out.Ok? {
        AfterAdminCheckCourse(host, s.authHeader, c.out.value, a.flow, b.flow);
      }
    }
  }

  /** The later stages carry the notes on, and make API traffic only. */
  lemma AfterAdminCheckNotes(host: string, header: Header, ro: Dict, f: Flow)
    ensures var p := AfterAdminCheckSpec(host, header, ro, f);
      Extends(f, p.flow) && ApiTraffic(f.net, p.flow.net)
  {
    var w := Polls(host, header, ro, f.net, WaitPolls);
    PollsTraffic(host, header, ro, f.net, WaitPolls);
    if w.out.Ok? {
      var status := w.out.value;
      SummaryNotes(status, f.(net := w.net));
      var m := SummarySpec(status, f.(net := w.net));
      if m.out.Ok? {
        ClaimStageBody(host, header, status, m.flow);
        ClaimStageTraffic(host, header, status, m.flow);
        ApiTrafficTrans(f.net, w.net, ClaimStageSpec(host, header, status, m.flow).flow.net);
      }
    }
  }

  /**
   * The `try` block makes API traffic only, and a failed login stays noted
   * in the message and the flag whatever happens afterwards.
   */
  lemma TryNotes(host: string, s: Session, n: Net)
    ensures var p := TrySpec(host, s, n);
      && ApiTraffic(n, p.flow.net)
      && (!s.loggedIn ==> "  Login error" <= p.flow.msg && p.flow.rc == Some(1))
      && (p.flow.rc.None? || p.flow.rc == Some(1))
  {
    var f0 := LoginCheckSpec(s, n);
    var c := ConfigureConnectorSpec(host, s.authHeader, n);
    ConfigureConnectorTraffic(host, s.authHeader, n);
    if c.out.Ok? {
      AdminCheckNotes(c.out.value, f0.(net := c.net));
      var a := AdminCheckSpec(c.out.value, f0.(net := c.net));
      if a.out.Ok? {
        AfterAdminCheckNotes(host, s.authHeader, c.out.value, a.flow);
        ApiTrafficTrans(n, c.net, AfterAdminCheckSpec(host, s.authHeader, c.out.value, a.flow).flow.net);
      }
    }
  }

  /** The claim request is returned only for an unclaimed device whose identifiers this run read. */
  lemma TryBody(host: string, s: Session, n: Net)
    ensures var p := TrySpec(host, s, n);
      p.out.Ok? ==>
        && p.out.value.Keys == {"SecurityToken", "SerialNumber"}
        && |n.ops| <= |p.flow.net.ops|
        && OpCall("GET", IdentifiersUri(host)) in p.flow.net.ops[|n.ops|..]
  {
    var f0 := LoginCheckSpec(s, n);
    var c := ConfigureConnectorSpec(host, s.authHeader, n);
    ConfigureConnectorTraffic(host, s.authHeader, n);
    if c.out.Ok? {
      var a := AdminCheckSpec(c.out.value, f0.(net := c.net));
      if a.out.Ok? {
        var w := Polls(host, s.authHeader, c.out.value, a.flow.net, WaitPolls);
        PollsTraffic(host, s.authHeader, c.out.value, a.flow.net, WaitPolls);
        if w.out.Ok? {
          var m := SummarySpec(w.out.value, a.flow.(net := w.net));
          if m.out.Ok? {
            ClaimStageBody(host, s.authHeader, w.out.value, m.flow);
            ClaimStageTraffic(host, s.authHeader, w.out.value, m.flow);
            var p := ClaimStageSpec(host, s.authHeader, w.out.value, m.flow);
            if p.out.Ok? {
              var ops := p.flow.net.ops;
              assert |n.ops| <= |m.flow.net.ops| < |ops|;
              assert ops[|n.ops|..][|m.flow.net.ops| - |n.ops|] == ops[|m.flow.net.ops|];
            }
          }
        }
      }
    }
  }

  /** A login that raised leaves `dc_obj` unbound: exit status 1 and no logout, only the login request. */
  lemma LoginFaultExits(device: Device, n: Net)
    requires LoginSpec(device, n).fault.Some?
    ensures ClaimCodesSpec(device, n)
         == Report(Exited(1), "", None, n.Sent(HttpPost(XmlApiUri(device.hostname), LoginBody(device.username, device.password))))
  {
    LoginOutcome(device, n);
  }

  /**
   * Once the connector object exists, the logout runs on every path: the
   * call's first request is the login POST, a logged-in session's logout
   * POST is the last request, every request in between is a connector GET
   * or PUT, and the XML API sees exactly one POST more than the login
   * exactly when the login succeeded.
   */
  lemma LogoutOnEveryPath(device: Device, n: Net)
    requires LoginSpec(device, n).fault.None?
    ensures var l := LoginSpec(device, n);
      var r := ClaimCodesSpec(device, n);
      var last := if l.session.loggedIn then |r.net.sent| - 1 else |r.net.sent|;
      && |n.sent| < |r.net.sent|
      && r.net.sent[|n.sent|] == HttpPost(XmlApiUri(device.hostname), LoginBody(device.username, device.password))
      && (forall i | |n.sent| < i < last :: !r.net.sent[i].HttpPost?)
      && Posts(r.net.sent) == Posts(n.sent) + (if l.session.loggedIn then 2 else 1)
      && (l.session.loggedIn ==>
            r.net.sent[|r.net.sent| - 1] == HttpPost(XmlApiUri(device.hostname), LogoutBody(l.session.xmlCookie.value)))
  {
    var l := LoginSpec(device, n);
    LoginOutcome(device, n);
    PostsSent(n.sent, HttpPost(XmlApiUri(device.hostname), LoginBody(device.username, device.password)));
    var t := TrySpec(device.hostname, l.session, l.net);
    TryNotes(device.hostname, l.session, l.net);
    ApiTrafficAddsNoPost(l.net, t.flow.net);
    var r := ClaimCodesSpec(device, n);
    assert t.flow.net.sent <= r.net.sent;
    assert l.net.sent <= t.flow.net.sent;
    if l.session.loggedIn {
      PostsSent(t.flow.net.sent, HttpPost(XmlApiUri(device.hostname), LogoutBody(l.session.xmlCookie.value)));
    }
  }

  /**
   * How the call ends: a returned body always has the two claim keys and
   * follows a read of the device identifiers made by this call; every exception handler exits
   * with status 1; a failed login is noted in the message and the flag.
   */
  lemma ClaimCodesOutcome(device: Device, n: Net)
    ensures var l := LoginSpec(device, n);
      var r := ClaimCodesSpec(device, n);
      && (r.exit.Returned? ==>
            && r.exit.body.Keys == {"SecurityToken", "SerialNumber"}
            && |n.ops| <= |r.net.ops|
            && OpCall("GET", IdentifiersUri(device.hostname)) in r.net.ops[|n.ops|..])
      && (r.exit.Exited? ==> r.exit.status == 1)
      && (r.exit.Crashed? ==> r.exit.fault == ConnectionError && l.session.loggedIn)
      && (l.fault.None? && !l.session.loggedIn ==> "  Login error" <= r.msg && r.rc == Some(1))
  {
    var l := LoginSpec(device, n);
    if l.fault.None? {
      TryNotes(device.hostname, l.session, l.net);
      TryBody(device.hostname, l.session, l.net);
    }
  }

  /** Python's `",".join` and `split(",")` undo each other on identifiers without commas. */
  lemma {:induction false} SplitJoin(parts: seq<string>)
    requires |parts| > 0
    requires forall i | 0 <= i < |parts| :: ',' !in parts[i]
    ensures Split(Join(parts)) == parts
    decreases |parts|
  {
    if |parts| == 1 {
      SplitPlain(parts[0], "");
      assert parts[0] + "" == parts[0];
    } else {
      var rest := Join(parts[1..]);
      SplitJoin(parts[1..]);
      SplitPlain(parts[0], "," + rest);
      assert ("," + rest)[1..] == rest;
      assert Split("," + rest) == [""] + parts[1..];
      assert parts[0] + "," + rest == parts[0] + ("," + rest);
      assert parts[0] + "" == parts[0];
    }
  }

  /** A comma-free prefix joins the first piece of what follows it. */
  lemma {:induction false} SplitPlain(a: string, s: string)
    requires ',' !in a
    ensures Split(a + s) == [a + Split(s)[0]] + Split(s)[1..]
    decreases |a|
  {
    if |a| > 0 {
      SplitPlain(a[1..], s);
      assert (a + s)[1..] == a[1..] + s;
      assert [a[0]] + (a[1..] + Split(s)[0]) == a + Split(s)[0];
    } else {
      assert a + s == s;
      assert a + Split(s)[0] == Split(s)[0];
    }
  }

  /**
   * The selector names exactly the given devices, in order: it parses back
   * to the list it was built from.
   */
  lemma SelectorRoundTrip(moids: seq<string>)
    requires |moids| > 0
    requires forall i | 0 <= i < |moids| :: ',' !in moids[i]
    ensures ParseSelector(Selector(moids)) == Some(moids)
  {
    var s := Selector(moids);
    assert s[..|SelectorPrefix|] == SelectorPrefix;
    assert s[|s| - |SelectorSuffix|..] == SelectorSuffix;
    assert s[|SelectorPrefix|..|s| - |SelectorSuffix|] == Join(moids);
    SplitJoin(moids);
  }
}
