/**
 * The decision rules inside the controller's commands, as pure functions:
 * which request a command sends (or which validation error it reports
 * instead), how an outcome is classified, and how the connection probe
 * is read.
 */
module Commands {
  import opened Wrappers
  import opened Http

  /** The type of a shown message ('success' or 'error'). */
  datatype Kind = Success | Error

  /** What `showMessage` puts in the response area. */
  datatype Message = Message(text: string, kind: Kind)

  /** The status indicator: not yet probed, or the last `updateStatus(connected, text)`. */
  datatype Connection = Unchecked | Reported(connected: bool, text: string)

  const NoSelectionError: string := "Please select at least one speaker to group"
  const SingleSelectionError: string := "You need at least 2 speakers to create a group"
  const NoGroupSelectedError: string := "Please select a group to ungroup"
  const ManualInputError: string := "Please enter both name and IP address"

  /** The liveness probe `checkConnection` sends. */
  const StatusRequest: Request := Request(Get, ApiBaseUrl + "/status", NoBody)

  /**
   * `checkConnection`: a response that is ok (2xx) or 404 means the server is
   * up; any other response is a connection error; a thrown error means the
   * server is unreachable.
   */
  function ProbeStatus(o: Outcome): (c: Connection)
    ensures c.Reported?
    ensures c.connected <==> o.Response? && (IsOk(o.status) || o.status == 404)
    ensures c.connected <==> c.text == "Connected"
    ensures !c.connected ==> c.text == if o.Thrown? then "Server Unreachable" else "Connection Error"
  {
    match o
    case Response(status, _) =>
      if IsOk(status) || status == 404 then Reported(true, "Connected")
      else Reported(false, "Connection Error")
    case Thrown(_) => Reported(false, "Server Unreachable")
  }

  /**
   * `createGroup`'s local check and request: fewer than two selected names is
   * rejected before any request (with a message that tells none from one);
   * otherwise one POST to /group whose `speakerName` is the selection in order.
   */
  function PlanCreateGroup(selection: seq<string>): (r: Result<Request, string>)
    ensures r.Ok? <==> |selection| >= 2
    ensures r.Err? ==> r.error == if selection == [] then NoSelectionError else SingleSelectionError
    ensures r.Ok? ==> r.value.verb == Post && r.value.url == ApiBaseUrl + "/group"
    ensures r.Ok? ==> r.value.body.SpeakerNames? && r.value.body.names == selection
  {
    if |selection| == 0 then Err(NoSelectionError)
    else if |selection| < 2 then Err(SingleSelectionError)
    else Ok(Request(Post, ApiBaseUrl + "/group", SpeakerNames(selection)))
  }

  /** `ungroup`'s URL: the "all groups" sentinel or one group name, encoded by `encode`. */
  function UngroupUrl(selector: string, encode: string -> string): string {
    if selector == "all" then ApiBaseUrl + "/ungroup"
    else ApiBaseUrl + "/ungroup?group_name=" + encode(selector)
  }

  /**
   * The URL identifies the selector: with an injective encoder (as
   * `encodeURIComponent` is), distinct selectors give distinct URLs.
   */
  lemma UngroupUrlIdentifiesSelector(a: string, b: string, encode: string -> string)
    requires forall x, y :: encode(x) == encode(y) ==> x == y
    ensures UngroupUrl(a, encode) == UngroupUrl(b, encode) ==> a == b
  {
    var all := ApiBaseUrl + "/ungroup";
    var prefix := ApiBaseUrl + "/ungroup?group_name=";
    if UngroupUrl(a, encode) == UngroupUrl(b, encode) {
      if a != "all" && b != "all" {
        assert UngroupUrl(a, encode)[|prefix|..] == encode(a);
        assert UngroupUrl(b, encode)[|prefix|..] == encode(b);
      } else {
        assert |prefix| > |all|;
      }
    }
  }

  /**
   * The all-groups URL is sent for the selector "all" and for no other
   * selector. The test is on the selector's text, so a group that is itself
   * named "all" gets the all-groups URL too.
   */
  lemma AllGroupsUrlOnlyForSentinel(selector: string, encode: string -> string)
    ensures UngroupUrl(selector, encode) == ApiBaseUrl + "/ungroup" <==> selector == "all"
  {
    if selector != "all" {
      assert |UngroupUrl(selector, encode)| > |ApiBaseUrl + "/ungroup"|;
    }
  }

  /** `ungroup`'s local check and request: an empty selector is rejected; otherwise one GET. */
  function PlanUngroup(selector: string, encode: string -> string): (r: Result<Request, string>)
    ensures r.Err? <==> selector == ""
    ensures r.Err? ==> r.error == NoGroupSelectedError
    ensures r.Ok? ==> r.value == Request(Get, UngroupUrl(selector, encode), NoBody)
  {
    if selector == "" then Err(NoGroupSelectedError)
    else Ok(Request(Get, UngroupUrl(selector, encode), NoBody))
  }

  /**
   * How `createGroup` and `ungroup` report an outcome: the response text after
   * `responsePrefix`, a success exactly when the status is 200 (not every ok
   * status); a thrown error's message after `errorPrefix`, always an error.
   */
  function Report(o: Outcome, responsePrefix: string, errorPrefix: string): (m: Message)
    ensures m.kind == Success <==> o.Response? && o.status == 200
    ensures o.Response? ==> m.text == responsePrefix + o.text
    ensures o.Thrown? ==> m.text == errorPrefix + o.message
  {
    match o
    case Response(status, text) => Message(responsePrefix + text, if status == 200 then Success else Error)
    case Thrown(message) => Message(errorPrefix + message, Error)
  }

  function GroupCreationReport(o: Outcome): Message {
    Report(o, "Group creation response: ", "Error creating group: ")
  }

  function UngroupReport(o: Outcome): Message {
    Report(o, "Ungroup response: ", "Error ungrouping: ")
  }

  /**
   * `addManualSpeaker`'s message: an error unless both inputs are non-empty;
   * otherwise a success naming the name and then the address.
   */
  function ManualSpeakerReport(name: string, ip: string): (m: Message)
    ensures m.kind == Success <==> name != "" && ip != ""
    ensures m.kind == Error ==> m.text == ManualInputError
    ensures m.kind == Success ==> m.text == "Added speaker: " + name + " (" + ip + ")"
  {
    if name == "" || ip == "" then Message(ManualInputError, Error)
    else Message("Added speaker: " + name + " (" + ip + ")", Success)
  }
}
