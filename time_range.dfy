/**
 * The pure part of the time plugin: the three range modes and the combo box
 * that holds them, the resolution of a mode into a frame range (get_outputs),
 * the label shown for it (on_mode_changed), and the settings record that
 * captures and restores the widget (get_inputs, apply_inputs).
 */
module TimeRange {
  import opened Wrappers
  import opened Decimal

  // ---------------------------------------------------------------------------
  // Modes and the combo box that holds them
  // ---------------------------------------------------------------------------

  const RangeTimeSlider: string := "Time Slider"
  const RangeStartEnd: string := "Start/End"
  const CurrentFrame: string := "CurrentFrame"

  /** The combo box entries, in the order they are added. */
  const ModeItems: seq<string> := [RangeTimeSlider, RangeStartEnd, CurrentFrame]

  predicate IsMode(mode: string) {
    mode == RangeTimeSlider || mode == RangeStartEnd || mode == CurrentFrame
  }

  /** A combo box position: one of the three entries, or -1 for no selection. */
  type ComboIndex = i: int | -1 <= i < 3

  /** The combo box's currentText(): the selected entry, or "" when none is selected. */
  function CurrentText(index: ComboIndex): (text: string)
    ensures IsMode(text) <==> index != -1
    ensures index == -1 ==> text == ""
  {
    if index == -1 then "" else ModeItems[index]
  }

  /** The combo box's findText(): the position of the entry equal to text, or -1. */
  function FindText(text: string): (index: ComboIndex)
    ensures index == -1 <==> !IsMode(text)
    ensures index != -1 ==> ModeItems[index] == text
  {
    if text == RangeTimeSlider then 0
    else if text == RangeStartEnd then 1
    else if text == CurrentFrame then 2
    else -1
  }

  /** Looking up the selected text finds the same position, including "no selection". */
  lemma FindTextOfCurrentText(index: ComboIndex)
    ensures FindText(CurrentText(index)) == index
  {
  }

  // ---------------------------------------------------------------------------
  // Host queries and settings records
  // ---------------------------------------------------------------------------

  /** The answers of the host's two queries at the moment of a call. */
  datatype Queries = Queries(timeSliderRange: (int, int), currentFrame: int)

  /** A value in a settings dictionary: a string or an integer. */
  datatype Value = Text(text: string) | Number(number: int)

  type Record = map<string, Value>

  const TimeKey: string := "time"
  const StartFrameKey: string := "start_frame"
  const EndFrameKey: string := "end_frame"

  /** What the plugin's operations raise. */
  datatype Error =
    | UnsupportedMode(mode: string)   // NotImplementedError from get_outputs
    | ModeNotText(number: int)        // TypeError: findText given a non-string
    | InvalidFrame(text: string)      // ValueError: int() of a non-numeric string

  function OutputRecord(startFrame: int, endFrame: int): Record {
    map[StartFrameKey := Number(startFrame), EndFrameKey := Number(endFrame)]
  }

  // ---------------------------------------------------------------------------
  // Range resolution (get_outputs)
  // ---------------------------------------------------------------------------

  /**
   * get_outputs: the frame range for the mode text, read from the host's
   * answers on this call or from the widget's start and end values.
   */
  function GetOutputs(mode: string, start: int, end: int, q: Queries): (r: Result<Record, Error>)
    ensures r.Success? <==> IsMode(mode)
    ensures r.Failure? ==> r.error == UnsupportedMode(mode)
    ensures r.Success? ==> r.value.Keys == {StartFrameKey, EndFrameKey}
                           && r.value[StartFrameKey].Number? && r.value[EndFrameKey].Number?
  {
    if mode == RangeTimeSlider then
      Success(OutputRecord(q.timeSliderRange.0, q.timeSliderRange.1))
    else if mode == RangeStartEnd then
      Success(OutputRecord(start, end))
    else if mode == CurrentFrame then
      Success(OutputRecord(q.currentFrame, q.currentFrame))
    else
      Failure(UnsupportedMode(mode))
  }

  /** Start/End gives the widget's values exactly, even reversed, whatever the host reports. */
  lemma StartEndIsVerbatim(start: int, end: int, q: Queries)
    ensures GetOutputs(RangeStartEnd, start, end, q) == Success(OutputRecord(start, end))
  {
  }

  /** Time Slider gives the range the host reports on this call, so two calls with different answers differ. */
  lemma TimeSliderIsQueriedEachCall(start: int, end: int, q1: Queries, q2: Queries)
    ensures GetOutputs(RangeTimeSlider, start, end, q1)
            == Success(OutputRecord(q1.timeSliderRange.0, q1.timeSliderRange.1))
    ensures q1.timeSliderRange != q2.timeSliderRange ==>
            GetOutputs(RangeTimeSlider, start, end, q1) != GetOutputs(RangeTimeSlider, start, end, q2)
  {
  }

  /** CurrentFrame gives a one-frame range at the host's current frame. */
  lemma CurrentFrameIsSingleFrame(start: int, end: int, q: Queries)
    ensures GetOutputs(CurrentFrame, start, end, q) == Success(OutputRecord(q.currentFrame, q.currentFrame))
  {
  }

  // ---------------------------------------------------------------------------
  // The label (on_mode_changed)
  // ---------------------------------------------------------------------------

  const LabelPrefix: string := "Time Range "

  /** str() of a pair of integers: "(a, b)". */
  function PairText(a: int, b: int): string {
    "(" + IntToString(a) + ", " + IntToString(b) + ")"
  }

  /** The text of a single frame as on_mode_changed formats it: "(f)". */
  function SingleText(f: int): string {
    "(" + IntToString(f) + ")"
  }

  /**
   * The label on_mode_changed builds. Unlike GetOutputs, every text other than
   * "Time Slider" and "Start/End" takes the current-frame form.
   */
  function LabelOf(mode: string, start: int, end: int, q: Queries): (text: string)
    ensures |text| > |LabelPrefix| + 2
    ensures text[..|LabelPrefix| + 1] == LabelPrefix + "(" && text[|text| - 1] == ')'
  {
    if mode == RangeTimeSlider then LabelPrefix + PairText(q.timeSliderRange.0, q.timeSliderRange.1)
    else if mode == RangeStartEnd then LabelPrefix + PairText(start, end)
    else LabelPrefix + SingleText(q.currentFrame)
  }

  /** The start and end spin boxes are editable only in Start/End mode. */
  predicate SpinBoxesEnabled(mode: string) {
    mode == RangeStartEnd
  }

  /** Position of the first comma in s, or |s| when there is none. */
  function FirstComma(s: string): (k: nat)
    ensures k <= |s|
    ensures k < |s| ==> s[k] == ','
    ensures forall j :: 0 <= j < k ==> s[j] != ','
    decreases |s|
  {
    if s == [] || s[0] == ',' then 0 else 1 + FirstComma(s[1..])
  }

  /** Reads back the frames a label shows: one number, or two separated by ", ". */
  function ParseLabel(text: string): Option<seq<int>> {
    var n := |LabelPrefix|;
    if |text| < n + 2 || text[..n + 1] != LabelPrefix + "(" || text[|text| - 1] != ')' then None
    else ParseFrames(text[n + 1..|text| - 1])
  }

  /** Reads back the frames between the label's parentheses. */
  function ParseFrames(body: string): Option<seq<int>> {
    var k := FirstComma(body);
    if k == |body| then
      match ParseInt(body)
      case Some(f) => Some([f])
      case None => None
    else if k + 1 < |body| && body[k + 1] == ' ' then
      match (ParseInt(body[..k]), ParseInt(body[k + 2..]))
      case (Some(a), Some(b)) => Some([a, b])
      case _ => None
    else None
  }

  lemma {:induction false} FirstCommaAfter(a: string, rest: string)
    requires forall j :: 0 <= j < |a| ==> a[j] != ','
    requires |rest| > 0 && rest[0] == ','
    ensures FirstComma(a + rest) == |a|
    decreases |a|
  {
    if a != [] {
      assert (a + rest)[1..] == a[1..] + rest;
      FirstCommaAfter(a[1..], rest);
    }
  }

  lemma ParseLabelOfBody(body: string)
    ensures ParseLabel(LabelPrefix + "(" + body + ")") == ParseFrames(body)
  {
  }

  lemma ParseFramesOfPair(sa: string, sb: string, a: int, b: int)
    requires forall j :: 0 <= j < |sa| ==> sa[j] != ','
    requires ParseInt(sa) == Some(a) && ParseInt(sb) == Some(b)
    ensures ParseFrames(sa + ", " + sb) == Some([a, b])
  {
    var body := sa + ", " + sb;
    assert body == sa + (", " + sb);
    FirstCommaAfter(sa, ", " + sb);
    assert body[..|sa|] == sa;
    assert body[|sa| + 2..] == sb;
  }

  lemma ParsePairLabel(a: int, b: int)
    ensures ParseLabel(LabelPrefix + PairText(a, b)) == Some([a, b])
  {
    var sa, sb := IntToString(a), IntToString(b);
    assert LabelPrefix + PairText(a, b) == LabelPrefix + "(" + (sa + ", " + sb) + ")";
    ParseLabelOfBody(sa + ", " + sb);
    ParseIntOfIntToString(a);
    ParseIntOfIntToString(b);
    ParseFramesOfPair(sa, sb, a, b);
  }

  lemma ParseSingleLabel(f: int)
    ensures ParseLabel(LabelPrefix + SingleText(f)) == Some([f])
  {
    var sf := IntToString(f);
    assert LabelPrefix + SingleText(f) == LabelPrefix + "(" + sf + ")";
    ParseLabelOfBody(sf);
    ParseIntOfIntToString(f);
  }

  /**
   * For each of the three modes the label shows exactly the range GetOutputs
   * resolves: both frames for Time Slider and Start/End, the single frame for
   * CurrentFrame.
   */
  lemma LabelDescribesOutputs(mode: string, start: int, end: int, q: Queries)
    requires IsMode(mode)
    ensures var out := GetOutputs(mode, start, end, q).value;
            var s, e := out[StartFrameKey].number, out[EndFrameKey].number;
            ParseLabel(LabelOf(mode, start, end, q)) == Some(if mode == CurrentFrame then [s] else [s, e])
  {
    if mode == RangeTimeSlider {
      ParsePairLabel(q.timeSliderRange.0, q.timeSliderRange.1);
    } else if mode == RangeStartEnd {
      ParsePairLabel(start, end);
    } else {
      ParseSingleLabel(q.currentFrame);
    }
  }

  /**
   * A text outside the three modes still gets a label, in the current-frame
   * form, while GetOutputs raises for it.
   */
  lemma UnknownModeLabelsCurrentFrame(mode: string, start: int, end: int, q: Queries)
    requires !IsMode(mode)
    ensures GetOutputs(mode, start, end, q) == Failure(UnsupportedMode(mode))
    ensures ParseLabel(LabelOf(mode, start, end, q)) == Some([q.currentFrame])
    ensures !SpinBoxesEnabled(mode)
  {
    ParseSingleLabel(q.currentFrame);
  }

  /** The labels for the three modes, written out for sample values, reversed and negative ones included. */
  lemma LabelExamples(q: Queries)
    ensures LabelOf(RangeTimeSlider, 0, 0, Queries((24, 48), q.currentFrame)) == "Time Range (24, 48)"
    ensures LabelOf(RangeStartEnd, 20, -3, q) == "Time Range (20, -3)"
    ensures LabelOf(CurrentFrame, 10, 20, Queries(q.timeSliderRange, 55)) == "Time Range (55)"
  {
  }

  // ---------------------------------------------------------------------------
  // Settings capture and restore (get_inputs, apply_inputs)
  // ---------------------------------------------------------------------------

  /** The widget's editable state: combo box position and the two spin box values. */
  datatype Widget = Widget(modeIndex: ComboIndex, start: int, end: int)

  /** get_inputs: the widget state as a record, read without any host query. */
  function GetInputs(w: Widget): (r: Record)
    ensures r.Keys == {TimeKey, StartFrameKey, EndFrameKey}
  {
    map[TimeKey := Text(CurrentText(w.modeIndex)), StartFrameKey := Number(w.start), EndFrameKey := Number(w.end)]
  }

  /** dict.get(key, default). */
  function Get(r: Record, key: string, default: Value): Value {
    if key in r then r[key] else default
  }

  /** int(v): an integer stays as it is; a string is parsed or raises ValueError. */
  function ToInt(v: Value): Result<int, Error> {
    match v
    case Number(n) => Success(n)
    case Text(t) =>
      match ParseInt(t)
      case Some(n) => Success(n)
      case None => Failure(InvalidFrame(t))
  }

  /** The widget after apply_inputs, and the error it raised, if any. */
  datatype Applied = Applied(widget: Widget, error: Option<Error>)

  /**
   * apply_inputs on widget state w. The mode is looked up first; then the
   * mode, start and end are set in that order, so a bad start value leaves
   * the new mode in place, and a bad end value leaves the new mode and start.
   */
  function ApplyInputs(w: Widget, settings: Record): (a: Applied)
    ensures Get(settings, TimeKey, Text(RangeTimeSlider)).Number? <==> a.error.Some? && a.error.value.ModeNotText?
    ensures Get(settings, TimeKey, Text(RangeTimeSlider)).Number? ==> a.widget == w
    ensures a.error.Some? ==> !a.error.value.UnsupportedMode?
    ensures a.error.None? <==>
              Get(settings, TimeKey, Text(RangeTimeSlider)).Text?
              && ToInt(Get(settings, StartFrameKey, Number(1))).Success?
              && ToInt(Get(settings, EndFrameKey, Number(120))).Success?
    ensures a.error.None? ==>
              a.widget == Widget(FindText(Get(settings, TimeKey, Text(RangeTimeSlider)).text),
                                 ToInt(Get(settings, StartFrameKey, Number(1))).value,
                                 ToInt(Get(settings, EndFrameKey, Number(120))).value)
  {
    var time := Get(settings, TimeKey, Text(RangeTimeSlider));
    match time
    case Number(n) => Applied(w, Some(ModeNotText(n)))
    case Text(t) =>
      var startFrame := Get(settings, StartFrameKey, Number(1));
      var endFrame := Get(settings, EndFrameKey, Number(120));
      var withMode := w.(modeIndex := FindText(t));
      match ToInt(startFrame)
      case Failure(err) => Applied(withMode, Some(err))
      case Success(s) =>
        var withStart := withMode.(start := s);
        match ToInt(endFrame)
        case Failure(err) => Applied(withStart, Some(err))
        case Success(e) => Applied(withStart.(end := e), None)
  }

  /** Restoring a captured record gives back the captured state, whatever the widget held before. */
  lemma ApplyInputsRestoresGetInputs(w: Widget, before: Widget)
    ensures ApplyInputs(before, GetInputs(w)) == Applied(w, None)
  {
  }

  /** A record with no keys restores the defaults Time Slider, 1 and 120. */
  lemma ApplyInputsDefaults(before: Widget)
    ensures ApplyInputs(before, map[]) == Applied(Widget(0, 1, 120), None)
  {
  }

  /** Frame values given as decimal strings are coerced by int() to the numbers they spell. */
  lemma ApplyInputsCoercesTextFrames(before: Widget, mode: ComboIndex, s: int, e: int)
    ensures ApplyInputs(before, map[TimeKey := Text(CurrentText(mode)),
                                    StartFrameKey := Text(IntToString(s)),
                                    EndFrameKey := Text(IntToString(e))])
            == Applied(Widget(mode, s, e), None)
  {
    FindTextOfCurrentText(mode);
    ParseIntOfIntToString(s);
    ParseIntOfIntToString(e);
  }

  /**
   * An unrecognised mode name selects nothing in the combo box: the frames still
   * apply, and resolving the range afterwards raises UnsupportedMode("").
   */
  lemma ApplyInputsUnknownModeSelectsNothing(before: Widget, t: string, q: Queries)
    requires !IsMode(t)
    ensures var a := ApplyInputs(before, map[TimeKey := Text(t)]);
            && a == Applied(Widget(-1, 1, 120), None)
            && GetOutputs(CurrentText(a.widget.modeIndex), a.widget.start, a.widget.end, q)
               == Failure(UnsupportedMode(""))
  {
  }

  /** A start value int() rejects raises after the mode is set and before either frame is. */
  lemma ApplyInputsBadStartKeepsNewMode(before: Widget, mode: ComboIndex, bad: string)
    requires ParseInt(bad).None?
    ensures ApplyInputs(before, map[TimeKey := Text(CurrentText(mode)), StartFrameKey := Text(bad)])
            == Applied(before.(modeIndex := mode), Some(InvalidFrame(bad)))
  {
    FindTextOfCurrentText(mode);
  }
}
