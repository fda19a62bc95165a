/**
 * The `SpeakerControllerUI` object: the state the page's controller keeps and
 * the commands that change it. Network calls are split at their `await`: a
 * command returns the request it sends, and the outcome of that request is an
 * input. Rendering is reduced to the fields it would show.
 */
module Controller {
  import opened Wrappers
  import opened Http
  import opened Selection
  import opened Text
  import opened Commands

  /** A speaker record `{name, ip, port}`. */
  datatype Speaker = Speaker(name: string, ip: string, port: string)

  /** A button element's `disabled` flag and `textContent`. */
  datatype Button = Button(disabled: bool, textContent: string)

  const CreateGroupIdle: Button := Button(false, "Create Group")
  const CreateGroupBusy: Button := Button(true, "Creating...")
  const UngroupIdle: Button := Button(false, "Ungroup")
  const UngroupBusy: Button := Button(true, "Ungrouping...")

  class SpeakerControllerUI {
    /** The speaker list; set empty at construction and never filled. */
    var speakers: seq<Speaker>
    /** The selection tracker, in insertion order. */
    var selectedSpeakers: seq<string>
    var createGroupBtn: Button
    var ungroupBtn: Button
    /** The last message shown in the response area. */
    var message: Option<Message>
    /** The status text and indicator. */
    var status: Connection
    /** The values of the manual-entry name and IP inputs. */
    var manualName: string
    var manualIp: string
    /** A group request has been sent and its outcome not yet handled. */
    ghost var creating: bool
    /** An ungroup request has been sent and its outcome not yet handled. */
    ghost var ungrouping: bool

    /** The selection holds each name once; a button whose request is in flight is disabled and busy. */
    ghost predicate Valid()
      reads this
    {
      Distinct(selectedSpeakers)
      && (creating ==> createGroupBtn == CreateGroupBusy)
      && (ungrouping ==> ungroupBtn == UngroupBusy)
    }

    /**
     * A fresh controller: no speakers, nothing selected, nothing in flight. The
     * buttons are the page's own; the connection probe it starts is modelled
     * by a later CheckConnection call carrying the probe's outcome.
     */
    constructor (createButton: Button, ungroupButton: Button)
      ensures Valid() && !creating && !ungrouping
      ensures speakers == [] && selectedSpeakers == []
      ensures createGroupBtn == createButton && ungroupBtn == ungroupButton
      ensures message == None && status == Unchecked
      ensures manualName == "" && manualIp == ""
    {
      speakers := [];
      selectedSpeakers := [];
      createGroupBtn, ungroupBtn := createButton, ungroupButton;
      message, status := None, Unchecked;
      manualName, manualIp := "", "";
      creating, ungrouping := false, false;
      new;
      LoadSpeakers();
    }

    /** `showMessage`: the response area now shows `text` as `kind`. */
    method ShowMessage(text: string, kind: Kind)
      modifies this`message
      ensures message == Some(Message(text, kind))
    {
      message := Some(Message(text, kind));
    }

    /** `updateStatus`: the status text and indicator now show `connected` and `text`. */
    method UpdateStatus(connected: bool, text: string)
      modifies this`status
      ensures status == Reported(connected, text)
    {
      status := Reported(connected, text);
    }

    /** `checkConnection`: probes /status and shows the classified outcome. */
    method CheckConnection(o: Outcome) returns (req: Request)
      modifies this`status
      ensures req == StatusRequest
      ensures status == ProbeStatus(o)
      ensures status.connected <==> o.Response? && (IsOk(o.status) || o.status == 404)
    {
      req := StatusRequest;
      match o {
        case Response(code, _) =>
          if IsOk(code) || code == 404 {
            UpdateStatus(true, "Connected");
          } else {
            UpdateStatus(false, "Connection Error");
          }
        case Thrown(_) =>
          UpdateStatus(false, "Server Unreachable");
      }
    }

    /**
     * `loadSpeakers`: there is no directory request; it redraws the placeholder
     * panel, whose freshly drawn manual-entry inputs are empty. The speaker list
     * and the selection are left as they are.
     */
    method LoadSpeakers()
      modifies this`manualName, this`manualIp
      ensures manualName == "" && manualIp == ""
    {
      manualName, manualIp := "", "";
    }

    /**
     * `addManualSpeaker`: both inputs must be non-empty. Either way a message
     * is shown and no request is sent; only on success are both inputs cleared.
     * The speaker record it builds is never stored.
     */
    method AddManualSpeaker()
      modifies this`message, this`manualName, this`manualIp
      ensures message == Some(ManualSpeakerReport(old(manualName), old(manualIp)))
      ensures old(manualName) == "" || old(manualIp) == "" ==>
        manualName == old(manualName) && manualIp == old(manualIp)
      ensures old(manualName) != "" && old(manualIp) != "" ==> manualName == "" && manualIp == ""
    {
      var name, ip := manualName, manualIp;
      if name == "" || ip == "" {
        ShowMessage(ManualInputError, Error);
        return;
      }
      // The record is built for display only and then dropped: it never reaches `speakers`.
      var speaker := Speaker(name, ip, "55001");
      ShowMessage("Added speaker: " + name + " (" + ip + ")", Success);
      manualName, manualIp := "", "";
    }

    /**
     * `toggleSpeakerSelection`: `name` becomes selected exactly when it was not,
     * and no other name changes.
     */
    method ToggleSpeakerSelection(name: string)
      requires Valid()
      modifies this`selectedSpeakers
      ensures Valid()
      ensures selectedSpeakers == Toggle(old(selectedSpeakers), name)
      ensures name in selectedSpeakers <==> name !in old(selectedSpeakers)
      ensures forall n :: n != name ==> (n in selectedSpeakers <==> n in old(selectedSpeakers))
    {
      if name in selectedSpeakers {
        selectedSpeakers := Delete(selectedSpeakers, name);
      } else {
        selectedSpeakers := selectedSpeakers + [name];
      }
    }

    /**
     * `createGroup` up to its `await`: reads the group name (trimmed, then
     * unused), checks the selection size and, when at least two names are
     * selected, makes the button busy and sends the group request. A rejected
     * selection shows its error and leaves the button alone.
     */
    method BeginCreateGroup(groupName: string) returns (req: Option<Request>)
      requires Valid() && !creating
      modifies this`message, this`createGroupBtn, this`creating
      ensures Valid()
      ensures req == PlanCreateGroup(selectedSpeakers).ToOption()
      ensures req.None? ==> (!creating && createGroupBtn == old(createGroupBtn)
                             && message == Some(Message(PlanCreateGroup(selectedSpeakers).error, Error)))
      ensures req.Some? ==> creating && createGroupBtn == CreateGroupBusy && message == old(message)
    {
      var trimmedName := Trim(groupName);
      var speakersToGroup := selectedSpeakers;
      if |speakersToGroup| == 0 {
        ShowMessage(NoSelectionError, Error);
        return None;
      }
      if |speakersToGroup| < 2 {
        ShowMessage(SingleSelectionError, Error);
        return None;
      }
      createGroupBtn := CreateGroupBusy;
      creating := true;
      req := Some(Request(Post, ApiBaseUrl + "/group", SpeakerNames(speakersToGroup)));
    }

    /**
     * `createGroup` after its `await`: shows the classified outcome and, as its
     * `finally` does, restores the button. The selection is kept.
     */
    method FinishCreateGroup(o: Outcome)
      requires Valid() && creating
      modifies this`message, this`createGroupBtn, this`creating
      ensures Valid() && !creating
      ensures message == Some(GroupCreationReport(o))
      ensures createGroupBtn == CreateGroupIdle
    {
      match o {
        case Response(code, text) =>
          ShowMessage("Group creation response: " + text, if code == 200 then Success else Error);
        case Thrown(m) =>
          ShowMessage("Error creating group: " + m, Error);
      }
      createGroupBtn := CreateGroupIdle;
      creating := false;
    }

    /**
     * `createGroup` whole, the request's outcome given: at most one request,
     * sent exactly when two or more names are selected; afterwards the button
     * is idle again if a request was sent, and the selection is unchanged.
     */
    method CreateGroup(groupName: string, o: Outcome) returns (req: Option<Request>)
      requires Valid() && !creating
      modifies this`message, this`createGroupBtn, this`creating
      ensures Valid() && !creating
      ensures req == PlanCreateGroup(selectedSpeakers).ToOption()
      ensures req.None? ==> (createGroupBtn == old(createGroupBtn)
                             && message == Some(Message(PlanCreateGroup(selectedSpeakers).error, Error)))
      ensures req.Some? ==> createGroupBtn == CreateGroupIdle && message == Some(GroupCreationReport(o))
    {
      req := BeginCreateGroup(groupName);
      if req.Some? {
        FinishCreateGroup(o);
      }
    }

    /**
     * `ungroup` up to its `await`: an empty selector is rejected with a
     * message; otherwise the button is made busy and the GET for the
     * selector's URL is sent.
     */
    method BeginUngroup(selector: string, encode: string -> string) returns (req: Option<Request>)
      requires Valid() && !ungrouping
      modifies this`message, this`ungroupBtn, this`ungrouping
      ensures Valid()
      ensures req == PlanUngroup(selector, encode).ToOption()
      ensures req.None? ==> (!ungrouping && ungroupBtn == old(ungroupBtn)
                             && message == Some(Message(NoGroupSelectedError, Error)))
      ensures req.Some? ==> ungrouping && ungroupBtn == UngroupBusy && message == old(message)
    {
      if selector == "" {
        ShowMessage(NoGroupSelectedError, Error);
        return None;
      }
      ungroupBtn := UngroupBusy;
      ungrouping := true;
      var url := if selector == "all" then ApiBaseUrl + "/ungroup"
                 else ApiBaseUrl + "/ungroup?group_name=" + encode(selector);
      req := Some(Request(Get, url, NoBody));
    }

    /** `ungroup` after its `await`: shows the classified outcome and restores the button. */
    method FinishUngroup(o: Outcome)
      requires Valid() && ungrouping
      modifies this`message, this`ungroupBtn, this`ungrouping
      ensures Valid() && !ungrouping
      ensures message == Some(UngroupReport(o))
      ensures ungroupBtn == UngroupIdle
    {
      match o {
        case Response(code, text) =>
          ShowMessage("Ungroup response: " + text, if code == 200 then Success else Error);
        case Thrown(m) =>
          ShowMessage("Error ungrouping: " + m, Error);
      }
      ungroupBtn := UngroupIdle;
      ungrouping := false;
    }

    /** `ungroup` whole, the request's outcome given. */
    method Ungroup(selector: string, encode: string -> string, o: Outcome) returns (req: Option<Request>)
      requires Valid() && !ungrouping
      modifies this`message, this`ungroupBtn, this`ungrouping
      ensures Valid() && !ungrouping
      ensures req == PlanUngroup(selector, encode).ToOption()
      ensures req.None? ==> ungroupBtn == old(ungroupBtn) && message == Some(Message(NoGroupSelectedError, Error))
      ensures req.Some? ==> ungroupBtn == UngroupIdle && message == Some(UngroupReport(o))
    {
      req := BeginUngroup(selector, encode);
      if req.Some? {
        FinishUngroup(o);
      }
    }
  }

  /**
   * A session as a caller sees it through the contracts alone: grouping is
   * refused with no speaker and with one speaker selected, and neither refusal
   * sends a request or touches the button.
   */
  method RefusedGroupingSession() {
    var ui := new SpeakerControllerUI(CreateGroupIdle, UngroupIdle);
    var req := ui.CreateGroup("", Response(200, "OK"));
    assert req == None && ui.message == Some(Message(NoSelectionError, Error));

    ui.ToggleSpeakerSelection("Kitchen");
    assert ui.selectedSpeakers == ["Kitchen"];
    req := ui.CreateGroup("", Response(200, "OK"));
    assert req == None && ui.message == Some(Message(SingleSelectionError, Error));
    assert ui.createGroupBtn == CreateGroupIdle;
  }

  /**
   * With two speakers selected, the group request carries them in selection
   * order; an ungroup may complete while it is in flight without touching the
   * busy create button; a 200 "OK" is a success, and the selection survives it.
   */
  method GroupingSession(encode: string -> string) {
    var ui := new SpeakerControllerUI(CreateGroupIdle, UngroupIdle);
    ui.ToggleSpeakerSelection("Kitchen");
    assert ui.selectedSpeakers == ["Kitchen"];
    ui.ToggleSpeakerSelection("Den");
    assert "Den" !in ["Kitchen"];
    assert Toggle(["Kitchen"], "Den") == ["Kitchen"] + ["Den"];
    assert ui.selectedSpeakers == ["Kitchen", "Den"];

    var req := ui.BeginCreateGroup("  Party ");
    assert req == Some(Request(Post, ApiBaseUrl + "/group", SpeakerNames(["Kitchen", "Den"])));
    assert ui.createGroupBtn.disabled;

    var other := ui.Ungroup("all", encode, Response(500, "busy"));
    assert other == Some(Request(Get, ApiBaseUrl + "/ungroup", NoBody));
    assert ui.message.value.kind == Error;
    assert ui.createGroupBtn == CreateGroupBusy;

    ui.FinishCreateGroup(Response(200, "OK"));
    assert ui.message.value.kind == Success;
    assert ui.createGroupBtn == CreateGroupIdle;
    assert ui.selectedSpeakers == ["Kitchen", "Den"];
  }
}
