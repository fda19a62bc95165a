# Speaker controller page: a Dafny model

This project models the client-side controller of the speaker-control web page,
the `SpeakerControllerUI` class in `src/main/resources/static/script.js`. It covers:

- the selection tracker: a Set of speaker names that the user toggles;
- the two group commands (create a group from the selection, dissolve one group
  or all groups), with their local validation, the request each sends, the
  busy/idle state of their buttons and how their outcome is reported;
- the connection probe that sets the status indicator;
- the manual "add speaker" form.

Network calls are split at their `await`. A command returns the `Request` it
would send, or `None` when validation rejects it locally. The awaited outcome is
an input, either a response (status and body text) or a thrown error (message).
For `createGroup` and `ungroup`, `BeginX` models the code before the `await`
and `FinishX` the code after it, including the `finally`. `X` is the two run
back to back.

Modules:

- `Wrappers`: Option and Result.
- `Http`: requests, outcomes, the base URL and `response.ok`.
- `Selection`: the selection as a duplicate-free sequence in insertion order.
  A JavaScript Set iterates in insertion order, and `Array.from` passes that
  order into the group request.
- `Text`: `String.prototype.trim`.
- `Commands`: the pure decision rules.
- `Controller`: the `SpeakerControllerUI` class. Its ghost flags `creating` and
  `ungrouping` mark a request in flight. `Valid()` ties each flag to its
  button's disabled "in progress" state.

`Controller.RefusedGroupingSession` and `Controller.GroupingSession` are
clients. From the contracts alone they derive the following:

- grouping is refused with none or one speaker selected;
- a 200 "OK" is reported as a success;
- the selection survives a successful grouping;
- an ungroup may complete while a group request is in flight.

These sessions exercise the controller's contracts, not what the page can reach.
Nothing in `script.js` calls `toggleSpeakerSelection`, and the placeholder panel
draws no speaker checkboxes. In the page as shipped, the selection therefore
stays empty, and `createGroup` can only report "Please select at least one
speaker to group".

## Model

| member | source | states |
|---|---|---|
| `Selection.Delete` | src/main/resources/static/script.js:211-212 | Deleting a name removes exactly that name from the members, keeps the selection duplicate-free, and changes nothing when the name is absent |
| `Selection.DeleteAt` | src/main/resources/static/script.js:211-212 | Deleting the name at index i closes the gap there: the other names keep their relative order |
| `Selection.DeleteAppended` | src/main/resources/static/script.js:211-214 | Deleting a name that was just added gives back the selection as it was before the add |
| `Selection.Toggle` | src/main/resources/static/script.js:210-215 | After a toggle, the name is selected exactly when it was not before; every other name keeps its membership; the selection stays duplicate-free |
| `Selection.ToggleTwiceRestoresMembers` | src/main/resources/static/script.js:210-215 | Toggling a name twice restores the set of selected names |
| `Selection.ToggleTwiceRestoresOrder` | src/main/resources/static/script.js:210-215 | Toggling twice restores the selection's order exactly when the name was absent or was the last one added. When the name was selected, it ends up deleted from its place and re-added at the end of the order that the group request sends |
| `Text.TrimStart` | src/main/resources/static/script.js:136 | The result is the suffix of the input that starts at its first non-whitespace character: everything dropped is whitespace |
| `Text.TrimEnd` | src/main/resources/static/script.js:136 | The result is the prefix of the input that ends at its last non-whitespace character: everything dropped is whitespace |
| `Text.Trim` | src/main/resources/static/script.js:136 | The trimmed group name is the slice of the input that remains once the leading and trailing whitespace is removed: everything outside the slice is whitespace, and the slice neither starts nor ends with whitespace. `createGroup` never uses the value |
| `Text.TrimIdempotent` | src/main/resources/static/script.js:136 | Trimming an already trimmed name changes nothing |
| `Commands.ProbeStatus` | src/main/resources/static/script.js:33-45 | The probe reports connected exactly when the response is ok (2xx) or 404. The text is "Connected" exactly when connected. Otherwise it is "Server Unreachable" for a thrown error and "Connection Error" for any other status |
| `Commands.PlanCreateGroup` | src/main/resources/static/script.js:135-161 | A request is made exactly when at least two names are selected. With none selected the error is the "at least one speaker" message; with one, the "at least 2 speakers" message. The request is a POST to /group whose speakerName is the selection in order. The group name plays no part |
| `Commands.UngroupUrlIdentifiesSelector` | src/main/resources/static/script.js:185-187 | With an injective encoder, two selectors that give the same ungroup URL are equal |
| `Commands.AllGroupsUrlOnlyForSentinel` | src/main/resources/static/script.js:185-187 | The all-groups URL /ungroup is sent exactly when the selector is "all". No other selector yields it, and a group that is itself named "all" cannot be ungrouped on its own: selecting it dissolves every group |
| `Commands.PlanUngroup` | src/main/resources/static/script.js:176-191 | An empty selector, and only that, is rejected with "Please select a group to ungroup". Any other selector gives one GET without a body to `UngroupUrl`. That URL is /ungroup for the "all" sentinel; for any other selector it is /ungroup?group_name= followed by the encoded selector |
| `Commands.Report` | src/main/resources/static/script.js:163-166 | An outcome is classified as success exactly when it is a response with status 200. A response's message carries its body text verbatim; a thrown error's message carries the error message |
| `Commands.ManualSpeakerReport` | src/main/resources/static/script.js:121-128 | The manual-entry message is a success exactly when both name and IP are non-empty. A success names the speaker and its IP; anything else shows the "enter both" error |
| `Controller.SpeakerControllerUI.constructor` | src/main/resources/static/script.js:3-12 | A fresh controller has no speakers, no selection, no message and an unprobed status. Its manual-entry inputs are empty and no request is in flight |
| `Controller.SpeakerControllerUI.ShowMessage` | src/main/resources/static/script.js:203-208 | The response area shows the given text and type; nothing else changes |
| `Controller.SpeakerControllerUI.UpdateStatus` | src/main/resources/static/script.js:47-55 | The status shows the given connected flag and text; nothing else changes |
| `Controller.SpeakerControllerUI.CheckConnection` | src/main/resources/static/script.js:33-45 | Sends GET /status and sets the status to the probe's classification. Only the status changes |
| `Controller.SpeakerControllerUI.LoadSpeakers` | src/main/resources/static/script.js:57-69 | Sends no request. It leaves the speaker list and the selection alone, and only the redrawn manual-entry inputs change, to empty |
| `Controller.SpeakerControllerUI.AddManualSpeaker` | src/main/resources/static/script.js:117-133 | Shows the manual-entry message and sends no request. Both inputs are cleared on success and kept on error. The speaker list is untouched |
| `Controller.SpeakerControllerUI.ToggleSpeakerSelection` | src/main/resources/static/script.js:210-215 | The selection becomes Toggle of the old one: the name flips, other names keep their membership, and the selection stays duplicate-free |
| `Controller.SpeakerControllerUI.BeginCreateGroup` | src/main/resources/static/script.js:135-161 | Sends the planned request or none. On rejection it shows the validation error and leaves the button untouched. Otherwise the button is disabled with "Creating..." and the earlier message stays. The selection is unchanged |
| `Controller.SpeakerControllerUI.FinishCreateGroup` | src/main/resources/static/script.js:163-170 | Shows the classified group-creation outcome and restores the button to enabled "Create Group". The selection is kept |
| `Controller.SpeakerControllerUI.CreateGroup` | src/main/resources/static/script.js:135-171 | At most one request, exactly the planned one. A sent request leaves the button enabled "Create Group" with the outcome shown. A rejection leaves the button as it was with the error shown. The selection is never cleared |
| `Controller.SpeakerControllerUI.BeginUngroup` | src/main/resources/static/script.js:173-191 | Sends the planned ungroup request or none. On rejection it shows the error and leaves the button untouched. Otherwise the button is disabled with "Ungrouping..." |
| `Controller.SpeakerControllerUI.FinishUngroup` | src/main/resources/static/script.js:193-200 | Shows the classified ungroup outcome and restores the button to enabled "Ungroup" |
| `Controller.SpeakerControllerUI.Ungroup` | src/main/resources/static/script.js:173-201 | At most one request, exactly the planned one. Afterwards the button is enabled "Ungroup" with the outcome shown, or untouched with the error shown |

## Left out

- `fetch`, `await` and timing are replaced by a returned `Request` and an `Outcome` input. Only the in-flight window between `BeginX` and `FinishX` is modelled. A failure while reading the body text is folded into `Thrown`.
- The request body is the structured `{speakerName: [...]}` value. The `JSON.stringify` serialisation and the Content-Type header are not modelled.
- `encodeURIComponent` is a parameter `encode`. `Commands.UngroupUrlIdentifiesSelector` assumes only that it is injective. It throws only on lone surrogates, which a Dafny string cannot hold, so its error path is not modelled.
- The DOM is reduced to fields: element lookup, event wiring, HTML strings, `scrollIntoView`, `showLoading`, `showError` and `showSpeakersPlaceholder`. The checkbox-syncing loop in `toggleSpeakerSelection` (script.js lines 218-231) updates only the rendering.
- The initial state of the two buttons comes from the page markup, which is not part of this model, so the constructor takes it as parameters. The connection probe started by the constructor is modelled by a later `CheckConnection` call that carries the probe's outcome.
- The default message type 'info' of `showMessage` is never used by the code modelled, so it is not modelled.
- `WebUIController.java` only serves static resources, so it is not modelled.
- The page never fetches a speaker list: `loadSpeakers` only draws a placeholder, so the `speakers` field stays empty.
