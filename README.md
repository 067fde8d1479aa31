# Time range plugin of the capture GUI, in Dafny

This project models the "Time Range" widget of the Maya capture GUI
(`TimePlugin`). The widget picks the frame range a capture job uses. It has
three modes: follow the host's time slider, use the widget's own start and
end values, or use only the host's current frame. It builds a label such as
`Time Range (1, 120)` and signals it. It captures and restores its settings as a
flat record. It also subscribes to two host events so that the label follows
the timeline.

Modules:

- `Wrappers` (wrappers.dfy): `Option` and `Result`.
- `Decimal` (decimal.dfy): Python's `str()` of an integer, and `int()` of a
  string of digits, with the proof that the second reads back the first.
- `TimeRange` (time_range.dfy): the pure logic.
  - The mode constants and the combo box that holds them. Its position is -1
    to 2, where -1 means no selection. `currentText` and `findText` are modelled.
  - `get_outputs` as `GetOutputs`. The host's two queries are a `Queries`
    value, passed in on each call.
  - The label `on_mode_changed` builds, as `LabelOf`, with `ParseLabel` to read
    it back.
  - `get_inputs` and `apply_inputs` on a `Widget` value, as `GetInputs` and
    `ApplyInputs`. The settings record is a `map<string, Value>`.
- `Plugin` (plugin.dfy): the objects.
  - `Host` stands for the host application as the widget sees it: the two
    `capture_gui.lib` queries (capture_gui/plugins/timeplugin.py:65, 77, 97,
    104) and Maya's `om.MEventMessage` callback registry. It answers the two
    queries, hands out fresh callback ids, and refuses to remove an id it does
    not hold.
  - `TimePlugin` holds the widget's fields: mode index, start, end, the two
    enabled flags, the label and the list of callback ids. Ghost fields record
    every label signalled, how many options-changed signals were raised, and
    every removal failure that was logged. Its methods change these fields in
    place. `GetOutputs` and `GetInputs` are functions of the class that apply
    the `TimeRange` functions to the current fields, and
    `RestoreCapturedInputs` applies the object's own captured record to it.

The host's queries are parameters: `Queries` in the pure functions, and the
fields of `Host` in the class. Signals and logging are ghost records.

In these places the code behaves in ways a reader might not expect; the model
follows the code:

- An unrecognised `time` name in `apply_inputs` does not fall back to Time
  Slider. `findText` returns -1, so the combo box ends up with no selection,
  and a later `get_outputs` raises for the empty mode text
  (`ApplyInputsUnknownModeSelectsNothing`).
- `_register_callbacks` appends two new ids each time. It does not replace the
  ids already stored.
- `_remove_callbacks` never empties the list. Calling `uninitialize` again tries
  the stale ids again, and each of those removals fails and is logged
  (`SecondCycle`, `RemovingUnheldFailsEach`).
- A new widget's spin boxes start at Qt's initial value 0, not at 1 and 120.
  The defaults 1 and 120 apply only to `apply_inputs` on a record without those
  keys.
- `on_mode_changed` gives an unknown mode the current-frame label, while
  `get_outputs` raises for it (`UnknownModeLabelsCurrentFrame`).

## Model

| member | source | states |
|---|---|---|
| `TimeRange.CurrentText` | capture_gui/plugins/timeplugin.py:63 | the selected text is one of the three modes exactly when some entry is selected, and "" when none is |
| `TimeRange.FindText` | capture_gui/plugins/timeplugin.py:122 | the position it returns is -1 exactly when the text is not one of the three modes, and otherwise holds that text |
| `TimeRange.FindTextOfCurrentText` | capture_gui/plugins/timeplugin.py:116-127 | looking up the selected text gives back the selected position, including "no selection" |
| `TimeRange.GetOutputs` | capture_gui/plugins/timeplugin.py:86-113 | succeeds exactly for the three mode names; otherwise fails with UnsupportedMode of that mode; on success the record has exactly the keys start_frame and end_frame, both integers |
| `TimeRange.StartEndIsVerbatim` | capture_gui/plugins/timeplugin.py:99-101 | Start/End returns the widget's start and end exactly, even when start > end, whatever the host reports |
| `TimeRange.TimeSliderIsQueriedEachCall` | capture_gui/plugins/timeplugin.py:96-97 | Time Slider returns the host range of this call; two calls with different host ranges give different results, so nothing is cached |
| `TimeRange.CurrentFrameIsSingleFrame` | capture_gui/plugins/timeplugin.py:103-106 | CurrentFrame returns start_frame = end_frame = the host's current frame |
| `TimeRange.LabelOf` | capture_gui/plugins/timeplugin.py:63-80 | every label starts with "Time Range (" and ends with ")", with something in between |
| `TimeRange.LabelDescribesOutputs` | capture_gui/plugins/timeplugin.py:63-80 | for each of the three modes, the label reads back as exactly the range get_outputs resolves: two numbers for Time Slider and Start/End, one for CurrentFrame |
| `TimeRange.UnknownModeLabelsCurrentFrame` | capture_gui/plugins/timeplugin.py:73-77 | any other mode text gets the single current-frame label and disabled spin boxes, while get_outputs raises UnsupportedMode for it |
| `TimeRange.LabelExamples` | capture_gui/plugins/timeplugin.py:76-80 | the exact label strings for sample values: "Time Range (24, 48)", "Time Range (20, -3)", "Time Range (55)" |
| `TimeRange.GetInputs` | capture_gui/plugins/timeplugin.py:115-118 | the captured record has exactly the keys time, start_frame and end_frame, and needs no host query |
| `TimeRange.ApplyInputs` | capture_gui/plugins/timeplugin.py:120-129 | a non-string mode raises TypeError and leaves the widget untouched; it never raises UnsupportedMode; it raises nothing exactly when the mode is a string and both frames (defaults 1 and 120) pass int(), and then the widget becomes the looked-up mode position and the two converted frames, whatever it held before |
| `TimeRange.ApplyInputsRestoresGetInputs` | capture_gui/plugins/timeplugin.py:115-129 | applying a captured record restores its mode, start and end, whatever the widget held before, and raises nothing |
| `TimeRange.ApplyInputsDefaults` | capture_gui/plugins/timeplugin.py:122-124 | a record with no keys restores Time Slider, 1 and 120 |
| `TimeRange.ApplyInputsCoercesTextFrames` | capture_gui/plugins/timeplugin.py:128-129 | frame values given as decimal strings are turned by int() into the numbers they spell |
| `TimeRange.ApplyInputsUnknownModeSelectsNothing` | capture_gui/plugins/timeplugin.py:122-127 | an unrecognised mode name gives no selection (index -1) and default frames, and get_outputs then fails with UnsupportedMode("") |
| `TimeRange.ApplyInputsBadStartKeepsNewMode` | capture_gui/plugins/timeplugin.py:127-128 | a start value int() rejects raises InvalidFrame after the mode is set and before start and end are changed |
| `Decimal.NatToString` | capture_gui/plugins/timeplugin.py:80 | the text of a non-negative frame number is non-empty, all digits, and has no leading zero |
| `Decimal.IntToString` | capture_gui/plugins/timeplugin.py:80 | the text of a frame number is non-empty, starts with '-' exactly for negative numbers, and contains no ',' or ')' |
| `Decimal.ParseIntOfIntToString` | capture_gui/plugins/timeplugin.py:128-129 | int() of the decimal text of any integer gives that integer back |
| `Plugin.Host.Subscribe` | capture_gui/plugins/timeplugin.py:147-150 | adding a callback returns an id never handed out before: the host holds no such id and no earlier subscription carries it; the host now holds it and records the event name |
| `Plugin.Host.Unsubscribe` | capture_gui/plugins/timeplugin.py:159 | removal succeeds exactly when the host holds the id; afterwards the host does not hold it, and the attempt is recorded |
| `Plugin.FailedRemovalsOfDistinct` | capture_gui/plugins/timeplugin.py:155-161 | when no id repeats, the removals that fail are exactly the ids the host no longer holds, in list order |
| `Plugin.RemovingUnheldFailsEach` | capture_gui/plugins/timeplugin.py:155-161 | removing ids the host no longer holds fails on every one of them, in order |
| `Plugin.TimePlugin.constructor` | capture_gui/plugins/timeplugin.py:24-51 | a new widget has the first mode selected, start and end 0, no callbacks (so its list agrees with the host), disabled spin boxes, and has signalled its Time Slider label and one options change |
| `Plugin.TimePlugin.OnModeChanged` | capture_gui/plugins/timeplugin.py:53-84 | sets the label for the selected mode from this call's host answers and the spin boxes' enabled flags; signals exactly one label; signals an options change if and only if emit is set; changes nothing else |
| `Plugin.TimePlugin.OnHostEvent` | capture_gui/plugins/timeplugin.py:144 | the callback for host events refreshes the label and the enabled flags for the selected mode, signals one label and no options change, and changes nothing else |
| `Plugin.TimePlugin.GetOutputs` | capture_gui/plugins/timeplugin.py:86-113 | by combo box position: the host's time slider range, the spin box values, the host's current frame twice, or UnsupportedMode("") when nothing is selected |
| `Plugin.TimePlugin.GetInputs` | capture_gui/plugins/timeplugin.py:115-118 | the record holds exactly the selected text and the two spin box values |
| `Plugin.TimePlugin.ApplyInputs` | capture_gui/plugins/timeplugin.py:120-129 | the new mode, start and end, and the error raised if any, are those of the pure ApplyInputs on the old state; label, enabled flags, callbacks, signals and log are untouched |
| `Plugin.TimePlugin.RestoreCapturedInputs` | capture_gui/plugins/timeplugin.py:115-129 | applying the object's own captured record changes nothing and raises nothing |
| `Plugin.TimePlugin.RegisterCallbacks` | capture_gui/plugins/timeplugin.py:137-153 | appends two fresh ids to the stored list, the "timeChanged" one first and then the "playbackRangeChanged" one, keeping the ids already there; widget fields and log are untouched |
| `Plugin.TimePlugin.RemoveCallbacks` | capture_gui/plugins/timeplugin.py:155-161 | attempts the removal of every stored id in order; the host afterwards holds none of them; exactly the failed removals are logged; the list itself is unchanged |
| `Plugin.TimePlugin.Initialize` | capture_gui/plugins/timeplugin.py:131-132 | registers two fresh ids, appended to the list, and records the two subscriptions; widget fields, label, host answers and log are untouched |
| `Plugin.TimePlugin.Uninitialize` | capture_gui/plugins/timeplugin.py:134-135 | attempts every stored id; the ids the host no longer held are logged; the list is kept; widget fields, label, host answers and subscriptions are untouched |
| `Plugin.Reinitialize` | capture_gui/plugins/timeplugin.py:131-161 | initialize, uninitialize, initialize, uninitialize on a new widget leaves four ids in the list and none held by the host |
| `Plugin.SecondCycle` | capture_gui/plugins/timeplugin.py:131-161 | the second cycle appends ids 2 and 3, attempts 0, 1, 2 and 3, and logs the failures for the stale ids 0 and 1 |

## Left out

- Qt widget construction and layout (capture_gui/plugins/timeplugin.py:29-45). These are presentation only. The combo box is an index and the spin boxes are integer fields.
- The signal connections at capture_gui/plugins/timeplugin.py:49-51 are not modelled. The model does not re-run `OnModeChanged` when the user edits a field or when `ApplyInputs` sets one. Qt passes the new index or value as the slot's first argument, so that argument arrives in the `emit` position. The class's `OnModeChanged` takes `emit` as a plain parameter.
- The spin-box range `-sys.maxint..sys.maxint` (capture_gui/plugins/timeplugin.py:39-41) and Qt clamping values into it are not modelled. Frame numbers are unbounded integers. Python 2 `long` formatting of huge values is left out for the same reason.
- Maya's `om.MEventMessage` is modelled by `Host`, whose removal fails exactly when the id is not held. Other host failures, the host's event dispatch, and the closure passed to the host are not modelled. `OnHostEvent` is the body of that closure.
- Logging (capture_gui/plugins/timeplugin.py:10, 161). Only the id whose removal failed is recorded, not the message.
- The plugin base class, the `id`/`section`/`order` attributes, and the `capture_gui.lib` query implementations are not part of this model. The unused `panel` and `as_preset` parameters are dropped.
- Float host values and the `int()` casts of them at capture_gui/plugins/timeplugin.py:68 and 77. Host answers are integers already, so `GetOutputs` in Time Slider mode and the label agree.
- TimeRange.ApplyInputs: `int()` of a string is modelled only for an optional '-' followed by decimal digits. Surrounding whitespace, a leading '+' and float values are not covered. A non-string mode value is modelled as a TypeError from `findText`.
