# Intersight device claim: device connector and claim-code retrieval

This project models the part of the Intersight device-claim tool that talks to a UCS Manager's
device connector, and it proves properties of that model. The tool works in these steps:

- It logs in to the UCS Manager XML API.
- It enables the device connector, retrying up to four rounds.
- It waits up to ten polls for the connector to report `Connected`.
- Unless the device is already claimed, it reads the device identifier and the one-time security token.
- It hands them back as the body of the claim request.
- In `finally` it logs out.

Every connector call goes through `requests_op`, which makes up to ten attempts at a request while
the reply is a 5xx.

The model is built in layers:

- **`Http` (http.dfy).** JSON values and dictionaries, HTTP requests and replies, and the network.
  - The network is a `Network` object holding a script of replies. Each request consumes one reply, and an exhausted script refuses the connection.
  - The network also keeps three logs: the requests sent, the `requests_op` invocations, and the one-second sleeps.
  - A Python dictionary that is updated in place is a `JsonDict` object.
- **`RetryExecutor` (requests_op.dfy).** `requests_op`, as two things:
  - a value-level specification over the network state (`RequestsOpSpec`, built from one loop iteration `AttemptOnce`);
  - the imperative `RequestsOp` with its `for` loop, proved equal to that specification.
- **`Connector` (device_connector.dfy).** The `DeviceConnector` class and its UCS subclass, folded into one class.
  - The subclass constructor becomes `OpenUcs`, because the login in it can raise before `dc_obj` is bound.
  - Each method has a specification function, and the method's `ensures` ties its new state to that function.
  - A Python name rebound to `requests_op`'s result is tracked by `Binding`. It records whether `ro_json` still names the caller's dictionary or a fresh one.
- **`ClaimDevice` (claim_device.dfy).** `get_device_claim_codes`, plus the two pure request builders of the provisioning calls:
  - the resource-group selector;
  - the list of role references.
- **The `*_properties.dfy` modules** prove properties of the specification functions:
  - retry bounds, and what the executor leaves in the caller's dictionary;
  - request traffic, and which dictionary each method changes;
  - the claim decision and the exit paths;
  - the selector round trip.

Some behaviours of the code that a caller might not expect:

- **Failed token read.** A failed token read does not stop the flow. `get_claim_info` keeps the identifier and returns an empty token with the error (device_connector.py:97-105), as `ConnectorProperties.TokenReadTraffic` states. `get_device_claim_codes` (claim_device.py:102-117) then returns a claim body with an empty `SecurityToken` (`ClaimDeviceProperties.ClaimStageBody`).
- **Failed identifier read.** This likewise yields a body with both fields empty.
- **Failed login.** A failed login is noted in the message and the return code, and the flow goes on with an empty header. The `logged_in` flag steers no request: `ClaimDeviceProperties.LoginFailureOnlyNoted` proves that the requests and outcome of the `try` block depend only on the header.
- **Partly updated status.** The executor writes `ApiError` into the caller's dictionary in place, and a PUT returns that same dictionary (`RetryProperties.RetriesRecover`, `ConnectorProperties.PutKeepsDictionary`).
- **Already-claimed device.** For such a device, `request_body` is never bound. `return request_body` raises `UnboundLocalError`, which the generic handler turns into exit status 1 (`ClaimDeviceProperties.ClaimedLeavesBodyUnbound`).

## Model

| member | source | states |
|---|---|---|
| Http.StatusClassOfHttpCode | device_connector.py:22-32 | For codes below 1000, `re.match('2..', str(code))` holds exactly for 200-299, and `'5..'` exactly for 500-599. |
| Http.Network.Send | device_connector.py:15-17 | A request gets the next scripted reply and is appended to the request log. An exhausted script refuses it. |
| Http.Network.Sleep | device_connector.py:33 | `sleep(1)` adds one to the sleep count and changes nothing else. |
| RetryExecutor.RequestsOp | device_connector.py:11-37 | After the loop, three things equal the specification: the caller's dictionary, the network, and the returned object. That object is the caller's dictionary, or a fresh element 0 of a 2xx GET list. An exception raised in the loop is returned as its fault. |
| RetryProperties.AttemptOnceFootprint | device_connector.py:14-36 | An unsupported op sends nothing. A supported op sends one request. It goes round again exactly when that request got a 5xx reply, and then it sleeps once. |
| RetryProperties.AttemptsRequests | device_connector.py:13-36 | With `left` iterations to go: at most `left` requests, all the same supported request, appended to the log. |
| RetryProperties.AttemptsConsume | device_connector.py:13-36 | One scripted reply is consumed per request. Sleeps never exceed the requests. |
| RetryProperties.AttemptsFootprint | device_connector.py:13-36 | The combined footprint of the retry loop: the requests sent, the replies consumed and the sleeps taken. |
| RetryProperties.AtMostTenCalls | device_connector.py:13-37 | A `requests_op` call sends at most ten identical requests, records one invocation, and sleeps at most once per request. |
| RetryProperties.UnsupportedOpMakesNoCall | device_connector.py:18-20 | An op other than GET or PUT sends nothing. It sets `ApiError` to "unsupported op <op>" and returns the caller's dictionary. |
| RetryProperties.ClientErrorStops | device_connector.py:30-36 | A reply that is neither 2xx nor 5xx ends the loop after one request, recording "<op> <uri> <code>" in `ApiError`. |
| RetryProperties.ServerErrorRetries | device_connector.py:30-34 | A 5xx reply records the error, sleeps once and goes round again. |
| RetryProperties.ServerErrorsExhaust | device_connector.py:13-34 | Let k be the number of iterations left. If the next k replies are all 5xx, the loop makes k requests, sleeps k times and keeps the last error. |
| RetryProperties.AllServerErrorsGiveUp | device_connector.py:13-37 | After ten 5xx replies, `requests_op` gives up. By then it has sent ten requests and slept ten times. The caller's dictionary holds the tenth reply's error text. |
| RetryProperties.SuccessFinishes | device_connector.py:22-29 | A 2xx reply ends the loop after one request and produces the recovered result. |
| RetryProperties.RecoveredForgets | device_connector.py:23 | The result after a 2xx does not depend on an earlier `ApiError`, because the `pop` removes it. |
| RetryProperties.RecoversAt | device_connector.py:13-29 | k 5xx replies followed by a 2xx give k+1 requests and k sleeps, and then the 2xx result. |
| RetryProperties.RetriesRecover | device_connector.py:13-29 | After k < 10 server errors and a 2xx, the result depends on the op and the body. A PUT returns the caller's dictionary without `ApiError`. A GET of a non-empty list returns element 0. A GET of a non-list records an error in the caller's dictionary. |
| RetryProperties.GetSameMeansError | device_connector.py:24-28 | A GET loop that returns the caller's dictionary leaves a truthy `ApiError` in it. |
| RetryProperties.GetReturnsFreshOrError | device_connector.py:11-37 | A GET either returns a fresh dictionary, or returns the caller's dictionary holding a truthy `ApiError`. |
| Connector.LoginSpec | device_connector.py:112-127 | The session the login produces is well formed: when it is logged in, it holds the cookie and the header built from that cookie. |
| Connector.DeviceConnector.constructor | device_connector.py:44-49 | A new connector is not logged in and has an empty header. |
| Connector.DeviceConnector.OpenUcs | device_connector.py:112-127 | One login POST is sent. Its fault, if any, is returned in place of the object. Otherwise the object's session fields are those the login produced. |
| Connector.DeviceConnector.GetStatus | device_connector.py:51-56 | One `requests_op` GET of Systems, starting from `{AdminState: False}`. It returns a fresh dictionary. |
| Connector.DeviceConnector.ConfigureOnce | device_connector.py:62-69 | One round of `configure_connector`. It stops when the connector is enabled or the PUT failed, and otherwise carries the PUT result on. |
| Connector.DeviceConnector.ConfigureConnector | device_connector.py:58-70 | The four-round loop, equal to `ConfigureConnectorSpec` in result and network. |
| Connector.DeviceConnector.AccessOnce | device_connector.py:76-82 | One round of `configure_access_mode`. The PUT updates whichever dictionary `ro_json` names. The round stops on an error or when the read-back mode matches. |
| Connector.DeviceConnector.ConfigureAccessMode | device_connector.py:72-83 | The four-round loop, equal to `AccessModeSpec`. That covers the caller's dictionary as changed in place, the returned object and the network. |
| Connector.DeviceConnector.GetClaimInfo | device_connector.py:85-106 | Equal to `ClaimInfoSpec`: the claim response, identifier and code, the caller's dictionary afterwards, and the network. |
| Connector.DeviceConnector.Logout | device_connector.py:129-137 | Equal to `LogoutSpec`: a POST naming the cookie only when logged in. The session ends unless that POST raised. |
| ConnectorProperties.RequestsOpTraffic | device_connector.py:11-37 | A `requests_op` call records one invocation and sends no XML API POST. |
| ConnectorProperties.OpOnBoundEffect | device_connector.py:92-98 | For `ro_json = requests_op(..., ro_json, ...)`: only the dictionary `ro_json` named is changed. Afterwards `ro_json` names the returned dictionary. |
| ConnectorProperties.ConfigureRoundTraffic | device_connector.py:62-69 | A round is a status read, followed by one Systems write exactly when the read reported the connector disabled. It goes on only after both. |
| ConnectorProperties.ConfigureRoundsTraffic | device_connector.py:61-69 | With `left` rounds: reads and writes alternate, starting with a read, and there are at most 2·left calls. |
| ConnectorProperties.ConfigureRoundOutcome | device_connector.py:62-69 | A round goes on exactly when the read reported the connector disabled and the enabling PUT came back without an `ApiError`. So an enabled connector or a PUT error stops the loop, and a round that stops normally has a truthy `AdminState` or a truthy `ApiError`. |
| ConnectorProperties.ConfigureRoundsOutcome | device_connector.py:61-70 | The loop's status is enabled or failed, or else all rounds were used. |
| ConnectorProperties.ConfigureConnectorTraffic | device_connector.py:58-70 | `configure_connector` makes at most four reads and four writes, in turn. It returns an enabled or failed status, or uses all eight calls. |
| ConnectorProperties.AlreadyEnabled | device_connector.py:60-64 | An enabled connector is read once and not written. |
| ConnectorProperties.PutKeepsDictionary | device_connector.py:16-29 | A PUT never replaces the caller's dictionary. |
| ConnectorProperties.AccessRoundKeepsCaller | device_connector.py:76-82 | Once `ro_json` names a status dictionary of its own, a round leaves the caller's dictionary alone. |
| ConnectorProperties.OwnRoundsKeepCaller | device_connector.py:74-82 | The same holds across all remaining rounds. |
| ConnectorProperties.AccessModeTouchesCallerOnce | device_connector.py:72-83 | The caller's dictionary ends as the first PUT left it. |
| ConnectorProperties.AccessRoundTraffic | device_connector.py:76-82 | A round is a Systems write, followed by a status read exactly when the PUT came back clean. |
| ConnectorProperties.AccessRoundsTraffic | device_connector.py:74-82 | Writes and reads alternate, starting with a write, and there are at most 2·left calls. |
| ConnectorProperties.AccessRoundOutcome | device_connector.py:76-82 | A round goes on exactly when the PUT came back clean and the read-back reports a different `ReadOnlyMode`. So a PUT error or a matching mode stops the loop, and a round that stops normally has an `ApiError` or the requested mode. |
| ConnectorProperties.AccessRoundsOutcome | device_connector.py:74-83 | The loop ends with the mode set or failed, or else all rounds were used. |
| ConnectorProperties.AccessModeTraffic | device_connector.py:72-83 | `configure_access_mode` makes at most eight calls, in turn. It ends with the mode set or failed, or uses all eight. |
| ConnectorProperties.TokenReadTraffic | device_connector.py:97-103 | The token read is one GET, and it keeps the identifier it was given. An exception it raises is passed on. An `ApiError` becomes the claim response, with an empty code. A clean read gives an empty response and its `Token` as the code, or raises `KeyError('Token')` when the key is missing. Conversely, an empty response comes only from a clean read with a `Token`. |
| ConnectorProperties.ClaimInfoTraffic | device_connector.py:85-106 | The identifiers are read first. The tokens are read only after a clean identifier read. The claim response is non-empty exactly when it holds an `ApiError`, and then the code is empty. A clean identifier read with an `Id` is always followed by the token read; if that read is clean too, the result is the identifier's `Id` with the token's `Token` (or `KeyError('Token')` without one). Conversely, an empty claim response means both reads were clean. |
| ConnectorProperties.ClaimInfoFromIdentifiers | device_connector.py:91-106 | The identifier read decides the identifier: an error gives an empty identifier and code; a missing `Id` raises `KeyError`. |
| ConnectorProperties.ClaimInfoTouchesCallerOnce | device_connector.py:92-98 | Only the identifier read changes the caller's dictionary. |
| ConnectorProperties.LoginOutcome | device_connector.py:116-126 | The login is one POST with the credentials. The session is logged in exactly when a 2xx XML reply has a non-empty `outCookie`, and the header is built from that cookie. A refused connection or a non-XML 2xx body raises. |
| ConnectorProperties.LogoutOutcome | device_connector.py:129-137 | The logout does nothing without a session. With a session it sends one POST naming the cookie and keeps the header. |
| ClaimDevice.AwaitConnection | claim_device.py:84-89 | The wait loop equals `Polls` with ten polls, in result and network. The status it returns is the one given, or a fresh one. |
| ClaimDevice.ClaimTry | claim_device.py:66-117 | The `try` block, once `dc_obj` is bound, equals `TrySpec` in outcome, message, return code and network. |
| ClaimDevice.ClaimAfterAdminCheck | claim_device.py:84-117 | The wait, the summary and the claim decision equal `AfterAdminCheckSpec`. |
| ClaimDevice.GetDeviceClaimCodes | claim_device.py:63-137 | `get_device_claim_codes` equals `ClaimCodesSpec`: the returned body or `sys.exit(1)`, the logout in `finally`, the message and the network. |
| ClaimDevice.RequestRoles | claim_device.py:250-256 | The role list succeeds exactly when every result has a `Moid`, and has one `iam.Role` reference per result, in order. Otherwise it raises `KeyError('Moid')`. |
| ClaimDeviceProperties.PollsTraffic | claim_device.py:84-89 | The wait only reads the status, at most ten times. It sleeps at least once per read. |
| ClaimDeviceProperties.PollsOutcome | claim_device.py:84-89 | The wait ends `Connected`, or after all polls. A status already `Connected` is kept without a poll. |
| ClaimDeviceProperties.PollsStopAtConnected | claim_device.py:84-89 | The wait stops at the first poll that reports `Connected`. |
| ClaimDeviceProperties.AdminCheckNotes | claim_device.py:77-81 | A disabled connector sets the return code to 1 and appends its textual `ApiError`. The flow goes on, with no traffic. |
| ClaimDeviceProperties.SummaryNotes | claim_device.py:91-97 | The three state lines are appended. A status that is not `Connected` sets the return code to 1 without stopping. A missing key raises `KeyError`. |
| ClaimDeviceProperties.ClaimedLeavesBodyUnbound | claim_device.py:99-117 | A claimed device makes no request, and `request_body` is unbound. |
| ClaimDeviceProperties.ClaimStageBody | claim_device.py:99-117 | A body is returned exactly when three things hold: the device is unclaimed, the claim information was read, and any error in it is text. The body is `{SecurityToken: code, SerialNumber: id}` and has exactly those two keys. After a reported error its `SecurityToken` is empty and the return code is 1. For an unclaimed device whose two reads are clean, with an `Id` and a `Token`, the body is `{SecurityToken: Token, SerialNumber: Id}`. |
| ClaimDeviceProperties.ClaimStageTraffic | claim_device.py:99-101 | A request is made exactly when the device is not claimed, and the first one reads the identifiers. |
| ClaimDeviceProperties.ClaimStageCourse | claim_device.py:99-117 | The message and the return code do not change the claim stage's outcome or requests. |
| ClaimDeviceProperties.AfterAdminCheckCourse | claim_device.py:84-117 | The same holds for the wait, the summary and the claim stage together. |
| ClaimDeviceProperties.LoginFailureOnlyNoted | claim_device.py:70-117 | A failed login does not stop the flow. The `logged_in` flag steers no request: two sessions with the same header make the same requests in the `try` block and reach the same outcome. |
| ClaimDeviceProperties.AfterAdminCheckNotes | claim_device.py:84-117 | The message only grows, and a return code of 1 is never cleared. Only connector API traffic is added. |
| ClaimDeviceProperties.TryNotes | claim_device.py:66-117 | A failed login stays noted in the message and the return code whatever follows. The return code is unset or 1. |
| ClaimDeviceProperties.TryBody | claim_device.py:99-117 | A returned body has exactly the two claim keys. It follows a read of the device identifiers made in this `try` block. |
| ClaimDeviceProperties.LoginFaultExits | claim_device.py:66-137 | A login that raises exits with status 1. Only the login request is sent, with no logout. |
| ClaimDeviceProperties.LogoutOnEveryPath | claim_device.py:134-137 | Once `dc_obj` is bound, the logout runs on every path. The login POST comes first. A logged-in run ends with the logout POST, and no request in between is a POST. A logged-in run makes two XML API POSTs where a logged-out run makes one. |
| ClaimDeviceProperties.ClaimCodesOutcome | claim_device.py:63-137 | Every exception handler exits with 1. A logout fault is a refused connection, and it happens only while logged in. A returned body has the two claim keys, and follows an identifier read made by this call. |
| ClaimDeviceProperties.SelectorRoundTrip | claim_device.py:170-173 | The selector lists exactly the given device identifiers, in order: a non-empty list of identifiers, none containing a comma, parses back to itself. The empty list and the list holding one empty identifier give the same selector. |

## Left out

- **Transport details are not modelled.** That covers TLS (`verify=False`), request timeouts (the login's `timeout=5`), response text and logging/`print`. A request either gets a scripted reply or is refused, which models `ConnectionError`.
- **Sleep duration is not modelled.** Only the number of one-second sleeps is counted.
- **A 2xx JSON list whose element 0 is not an object is not modelled.** `JsonArray` holds objects only. In the code, `ro_json = resp.json()[0]` would then bind a non-dictionary, and the next `.get` would raise.
- **JSON values are limited to null, booleans and strings.** Numbers, arrays and objects inside a status record are not modelled. `Show` renders a value the way `%s` does for these three kinds.
- **A `''` header is modelled as an empty map.** The unauthenticated header `''` is the empty header.
- **`UcsDeviceConnector` is folded into `DeviceConnector`.** Its `__init__` is the static `OpenUcs`.
- **A `finally` reached without `dc_obj` is not modelled separately.** The `locals()`/`globals()` test at claim_device.py:136 is modelled as "the connector object was built".
- **The rest of claim_device.py is not part of this model.** That covers the configuration reading, the Intersight authentication and the REST calls that claim and provision on Intersight.
  - Only the selector string (170-173) and the role loop (250-256) are modelled.
  - Fetching `Results` from the role query's response is not modelled. `RequestRoles` starts from that list.
- **The `changed` key of `result` is not modelled.** It is never changed.
- **Malformed device configuration is not modelled.** `Device` always holds a hostname, a username, a password and `read_only` (device_connector.py:48, :76, :116-117 read them unconditionally). A device dictionary missing `hostname` would make the handler's own `device['hostname']` raise `KeyError` instead of exiting with 1.
- **The exit is modelled, not the process.** `sys.exit` and the process exit status are modelled as the `Exited` outcome. `exception_print` is not modelled.
