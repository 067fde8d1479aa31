/**
 * The stateful part of the time plugin: the host it subscribes to, and the
 * widget object whose methods update its mode, start, end, label and list of
 * callback handles in place.
 */
module Plugin {
  import opened Wrappers
  import opened TimeRange

  /** A host callback id, as returned when a callback is added. */
  type Handle = nat

  const TimeChangedEvent: string := "timeChanged"
  const PlaybackRangeChangedEvent: string := "playbackRangeChanged"

  /**
   * The host application as the plugin sees it: two queries, and an event
   * registry that hands out fresh ids and refuses to remove an id it no
   * longer holds.
   */
  class Host {
    var timeSliderRange: (int, int)
    var currentFrame: int
    var nextId: nat
    var live: set<Handle>
    ghost var subscriptions: seq<(string, Handle)>  // every add, in order
    ghost var removals: seq<Handle>                 // every removal attempt, in order

    /** Every id held or ever handed out lies below the next id to be issued. */
    ghost predicate Valid()
      reads this
    {
      && (forall h :: h in live ==> h < nextId)
      && (forall p :: p in subscriptions ==> p.1 < nextId)
    }

    constructor (timeSliderRange: (int, int), currentFrame: int)
      ensures Valid()
      ensures this.timeSliderRange == timeSliderRange && this.currentFrame == currentFrame
      ensures nextId == 0 && live == {} && subscriptions == [] && removals == []
    {
      this.timeSliderRange := timeSliderRange;
      this.currentFrame := currentFrame;
      nextId := 0;
      live := {};
      subscriptions := [];
      removals := [];
    }

    /** The answers the two host queries give now. */
    function Query(): Queries
      reads this
    {
      Queries(timeSliderRange, currentFrame)
    }

    /** Adds a callback for the event and returns an id never handed out before. */
    method Subscribe(event: string) returns (h: Handle)
      requires Valid()
      modifies this
      ensures Valid()
      ensures h == old(nextId) && h !in old(live) && nextId == old(nextId) + 1
      ensures forall p :: p in old(subscriptions) ==> p.1 != h
      ensures live == old(live) + {h}
      ensures subscriptions == old(subscriptions) + [(event, h)]
      ensures removals == old(removals) && Query() == old(Query())
    {
      h := nextId;
      nextId := nextId + 1;
      live := live + {h};
      subscriptions := subscriptions + [(event, h)];
    }

    /** Removes a callback; fails (the RuntimeError case) when the id is not held. */
    method Unsubscribe(h: Handle) returns (ok: bool)
      requires Valid()
      modifies this
      ensures Valid()
      ensures ok <==> h in old(live)
      ensures live == old(live) - {h}
      ensures removals == old(removals) + [h]
      ensures nextId == old(nextId) && subscriptions == old(subscriptions) && Query() == old(Query())
    {
      ok := h in live;
      live := live - {h};
      removals := removals + [h];
    }
  }

  // ---------------------------------------------------------------------------
  // What removing a list of callbacks does
  // ---------------------------------------------------------------------------

  function SetOf(hs: seq<Handle>): set<Handle> {
    set h | h in hs
  }

  /**
   * The handles whose removal fails when hs is removed in order from a host
   * holding live: those it never held, and repeats of one already removed.
   */
  function FailedRemovals(live: set<Handle>, hs: seq<Handle>): seq<Handle>
    decreases |hs|
  {
    if hs == [] then []
    else
      var init, h := hs[..|hs| - 1], hs[|hs| - 1];
      FailedRemovals(live, init) + (if h in live && h !in init then [] else [h])
  }

  /** The handles of hs the host does not hold, in order. */
  function Unheld(live: set<Handle>, hs: seq<Handle>): seq<Handle>
    decreases |hs|
  {
    if hs == [] then [] else (if hs[0] in live then [] else [hs[0]]) + Unheld(live, hs[1..])
  }

  predicate Distinct(hs: seq<Handle>) {
    forall i, j :: 0 <= i < j < |hs| ==> hs[i] != hs[j]
  }

  predicate Increasing(hs: seq<Handle>) {
    forall i, j :: 0 <= i < j < |hs| ==> hs[i] < hs[j]
  }

  lemma {:induction false} UnheldAppend(live: set<Handle>, hs: seq<Handle>, h: Handle)
    ensures Unheld(live, hs + [h]) == Unheld(live, hs) + (if h in live then [] else [h])
    decreases |hs|
  {
    if hs != [] {
      assert (hs + [h])[1..] == hs[1..] + [h];
      UnheldAppend(live, hs[1..], h);
    } else {
      assert [h][1..] == [];
    }
  }

  /** With no repeated handle, exactly the handles the host does not hold fail. */
  lemma {:induction false} FailedRemovalsOfDistinct(live: set<Handle>, hs: seq<Handle>)
    requires Distinct(hs)
    ensures FailedRemovals(live, hs) == Unheld(live, hs)
    decreases |hs|
  {
    if hs != [] {
      var init, h := hs[..|hs| - 1], hs[|hs| - 1];
      assert h !in init by {
        forall k | 0 <= k < |init| ensures init[k] != h { assert hs[k] == init[k]; }
      }
      FailedRemovalsOfDistinct(live, init);
      UnheldAppend(live, init, h);
      assert init + [h] == hs;
    }
  }

  /** Removing handles none of which the host holds fails on every one of them. */
  lemma {:induction false} RemovingUnheldFailsEach(live: set<Handle>, hs: seq<Handle>)
    requires forall h :: h in hs ==> h !in live
    ensures FailedRemovals(live, hs) == hs
    decreases |hs|
  {
    if hs != [] {
      var init := hs[..|hs| - 1];
      assert forall h :: h in init ==> h in hs;
      RemovingUnheldFailsEach(live, init);
      assert init + [hs[|hs| - 1]] == hs;
    }
  }

  // ---------------------------------------------------------------------------
  // The widget
  // ---------------------------------------------------------------------------

  class TimePlugin {
    var modeIndex: ComboIndex         // the mode combo box
    var start: int                    // the start spin box
    var end: int                      // the end spin box
    var startEnabled: bool
    var endEnabled: bool
    var labelText: string             // self.label
    var eventCallbacks: seq<Handle>
    ghost var labelsEmitted: seq<string>  // every label-changed signal, in order
    ghost var optionsChanged: nat         // how many options-changed signals were raised
    ghost var errorsLogged: seq<Handle>   // every removal failure reported to the log

    function ModeText(): string
      reads this
    {
      CurrentText(modeIndex)
    }

    function State(): Widget
      reads this
    {
      Widget(modeIndex, start, end)
    }

    /** The callbacks all came from this host, each added after the one before it. */
    ghost predicate CallbacksFrom(host: Host)
      reads this, host
    {
      host.Valid() && Increasing(eventCallbacks) && forall h :: h in eventCallbacks ==> h < host.nextId
    }

    /**
     * A new widget: the first mode selected, both spin boxes at Qt's initial 0,
     * no callbacks, and one on_mode_changed run with emit left at True.
     */
    constructor (host: Host)
      requires host.Valid()
      ensures CallbacksFrom(host)
      ensures modeIndex == 0 && start == 0 && end == 0 && eventCallbacks == []
      ensures !startEnabled && !endEnabled
      ensures labelText == LabelOf(RangeTimeSlider, 0, 0, host.Query())
      ensures labelsEmitted == [labelText] && optionsChanged == 1 && errorsLogged == []
    {
      modeIndex, start, end := 0, 0, 0;
      startEnabled, endEnabled := false, false;
      labelText := "";
      eventCallbacks := [];
      labelsEmitted, optionsChanged, errorsLogged := [], 0, [];
      new;
      OnModeChanged(host, true);
    }

    /**
     * on_mode_changed: sets the spin boxes' enabled state and the label for the
     * selected mode, signals the label, and signals an options change only
     * when emit is set.
     */
    method OnModeChanged(host: Host, emit: bool)
      modifies this
      ensures State() == old(State()) && eventCallbacks == old(eventCallbacks)
      ensures errorsLogged == old(errorsLogged)
      ensures startEnabled == endEnabled == SpinBoxesEnabled(ModeText())
      ensures labelText == LabelOf(ModeText(), start, end, host.Query())
      ensures labelsEmitted == old(labelsEmitted) + [labelText]
      ensures optionsChanged == old(optionsChanged) + (if emit then 1 else 0)
    {
      var mode := ModeText();
      var modeValues: string;
      if mode == RangeTimeSlider {
        var range := host.timeSliderRange;
        startEnabled, endEnabled := false, false;
        modeValues := PairText(range.0, range.1);
      } else if mode == RangeStartEnd {
        startEnabled, endEnabled := true, true;
        modeValues := PairText(start, end);
      } else {
        startEnabled, endEnabled := false, false;
        modeValues := SingleText(host.currentFrame);
      }
      labelText := LabelPrefix + modeValues;
      labelsEmitted := labelsEmitted + [labelText];
      if emit {
        optionsChanged := optionsChanged + 1;
      }
    }

    /** The callback added for both host events: a silent on_mode_changed. */
    method OnHostEvent(host: Host)
      modifies this
      ensures State() == old(State()) && eventCallbacks == old(eventCallbacks)
      ensures errorsLogged == old(errorsLogged)
      ensures startEnabled == endEnabled == SpinBoxesEnabled(ModeText())
      ensures labelText == LabelOf(ModeText(), start, end, host.Query())
      ensures labelsEmitted == old(labelsEmitted) + [labelText]
      ensures optionsChanged == old(optionsChanged)
    {
      OnModeChanged(host, false);
    }

    /**
     * get_outputs on the current widget state and the host's current answers:
     * by combo box position, the host's time slider range, the spin box values,
     * the host's current frame, or UnsupportedMode("") when nothing is selected.
     */
    function GetOutputs(host: Host): (r: Result<Record, Error>)
      reads this, host
      ensures modeIndex == 0 ==> r == Success(OutputRecord(host.timeSliderRange.0, host.timeSliderRange.1))
      ensures modeIndex == 1 ==> r == Success(OutputRecord(start, end))
      ensures modeIndex == 2 ==> r == Success(OutputRecord(host.currentFrame, host.currentFrame))
      ensures modeIndex == -1 ==> r == Failure(UnsupportedMode(""))
    {
      TimeRange.GetOutputs(ModeText(), start, end, host.Query())
    }

    /** get_inputs on the current widget state: the selected text and the two spin box values. */
    function GetInputs(): (r: Record)
      reads this
      ensures r.Keys == {TimeKey, StartFrameKey, EndFrameKey}
      ensures r[TimeKey] == Text(ModeText())
      ensures r[StartFrameKey] == Number(start) && r[EndFrameKey] == Number(end)
    {
      TimeRange.GetInputs(State())
    }

    /** apply_inputs(get_inputs()) on the object: nothing changes and nothing is raised. */
    method RestoreCapturedInputs() returns (error: Option<Error>)
      modifies this
      ensures State() == old(State()) && error == None
      ensures labelText == old(labelText) && eventCallbacks == old(eventCallbacks)
      ensures startEnabled == old(startEnabled) && endEnabled == old(endEnabled)
      ensures labelsEmitted == old(labelsEmitted) && optionsChanged == old(optionsChanged)
      ensures errorsLogged == old(errorsLogged)
    {
      ApplyInputsRestoresGetInputs(State(), State());
      error := ApplyInputs(GetInputs());
    }

    /**
     * apply_inputs: looks the mode up, then sets mode, start and end in that
     * order; an error stops it where it is raised.
     */
    method ApplyInputs(settings: Record) returns (error: Option<Error>)
      modifies this
      ensures State() == TimeRange.ApplyInputs(old(State()), settings).widget
      ensures error == TimeRange.ApplyInputs(old(State()), settings).error
      ensures labelText == old(labelText) && eventCallbacks == old(eventCallbacks)
      ensures startEnabled == old(startEnabled) && endEnabled == old(endEnabled)
      ensures labelsEmitted == old(labelsEmitted) && optionsChanged == old(optionsChanged)
      ensures errorsLogged == old(errorsLogged)
    {
      var time := Get(settings, TimeKey, Text(RangeTimeSlider));
      if time.Number? {
        return Some(ModeNotText(time.number));
      }
      var index := FindText(time.text);
      var startFrame := Get(settings, StartFrameKey, Number(1));
      var endFrame := Get(settings, EndFrameKey, Number(120));
      modeIndex := index;
      var s := ToInt(startFrame);
      if s.Failure? {
        return Some(s.error);
      }
      start := s.value;
      var e := ToInt(endFrame);
      if e.Failure? {
        return Some(e.error);
      }
      end := e.value;
      error := None;
    }

    /**
     * _register_callbacks: adds the silent callback for "timeChanged" and then
     * for "playbackRangeChanged", and appends both ids to the list, keeping
     * any ids already there.
     */
    method RegisterCallbacks(host: Host)
      requires CallbacksFrom(host)
      modifies this, host
      ensures CallbacksFrom(host)
      ensures eventCallbacks == old(eventCallbacks) + [old(host.nextId), old(host.nextId) + 1]
      ensures host.live == old(host.live) + {old(host.nextId), old(host.nextId) + 1}
      ensures host.nextId == old(host.nextId) + 2
      ensures host.subscriptions == old(host.subscriptions)
                                    + [(TimeChangedEvent, old(host.nextId)),
                                       (PlaybackRangeChangedEvent, old(host.nextId) + 1)]
      ensures host.removals == old(host.removals) && host.Query() == old(host.Query())
      ensures State() == old(State()) && labelText == old(labelText) && errorsLogged == old(errorsLogged)
      ensures startEnabled == old(startEnabled) && endEnabled == old(endEnabled)
      ensures labelsEmitted == old(labelsEmitted) && optionsChanged == old(optionsChanged)
    {
      var currentFrame := host.Subscribe(TimeChangedEvent);
      var timeRange := host.Subscribe(PlaybackRangeChangedEvent);
      ghost var before := eventCallbacks;
      eventCallbacks := eventCallbacks + [currentFrame];
      eventCallbacks := eventCallbacks + [timeRange];
      assert forall k :: 0 <= k < |before| ==> eventCallbacks[k] == before[k] && before[k] in before;
    }

    /**
     * _remove_callbacks: tries to remove every stored id in order; a failure is
     * logged and the loop goes on. The list itself is left as it was.
     */
    method RemoveCallbacks(host: Host)
      requires host.Valid()
      modifies this, host
      ensures host.Valid()
      ensures eventCallbacks == old(eventCallbacks)
      ensures host.removals == old(host.removals) + eventCallbacks
      ensures host.live == old(host.live) - SetOf(eventCallbacks)
      ensures errorsLogged == old(errorsLogged) + FailedRemovals(old(host.live), eventCallbacks)
      ensures host.nextId == old(host.nextId) && host.subscriptions == old(host.subscriptions)
      ensures host.Query() == old(host.Query())
      ensures State() == old(State()) && labelText == old(labelText)
      ensures startEnabled == old(startEnabled) && endEnabled == old(endEnabled)
      ensures labelsEmitted == old(labelsEmitted) && optionsChanged == old(optionsChanged)
    {
      for i := 0 to |eventCallbacks|
        invariant eventCallbacks == old(eventCallbacks) && State() == old(State()) && labelText == old(labelText)
        invariant host.removals == old(host.removals) + eventCallbacks[..i]
        invariant host.live == old(host.live) - SetOf(eventCallbacks[..i])
        invariant errorsLogged == old(errorsLogged) + FailedRemovals(old(host.live), eventCallbacks[..i])
        invariant host.nextId == old(host.nextId) && host.subscriptions == old(host.subscriptions)
        invariant host.Query() == old(host.Query()) && host.Valid()
        invariant startEnabled == old(startEnabled) && endEnabled == old(endEnabled)
        invariant labelsEmitted == old(labelsEmitted) && optionsChanged == old(optionsChanged)
      {
        var callback := eventCallbacks[i];
        assert eventCallbacks[..i + 1] == eventCallbacks[..i] + [callback];
        var ok := host.Unsubscribe(callback);
        if !ok {
          errorsLogged := errorsLogged + [callback];
        }
      }
      assert eventCallbacks[..|eventCallbacks|] == eventCallbacks;
    }

    /** initialize: registers the host callbacks. */
    method Initialize(host: Host)
      requires CallbacksFrom(host)
      modifies this, host
      ensures CallbacksFrom(host)
      ensures eventCallbacks == old(eventCallbacks) + [old(host.nextId), old(host.nextId) + 1]
      ensures host.live == old(host.live) + {old(host.nextId), old(host.nextId) + 1}
      ensures host.nextId == old(host.nextId) + 2 && host.removals == old(host.removals)
      ensures host.subscriptions == old(host.subscriptions)
                                    + [(TimeChangedEvent, old(host.nextId)),
                                       (PlaybackRangeChangedEvent, old(host.nextId) + 1)]
      ensures host.Query() == old(host.Query())
      ensures State() == old(State()) && labelText == old(labelText) && errorsLogged == old(errorsLogged)
      ensures startEnabled == old(startEnabled) && endEnabled == old(endEnabled)
      ensures labelsEmitted == old(labelsEmitted) && optionsChanged == old(optionsChanged)
    {
      RegisterCallbacks(host);
    }

    /** uninitialize: removes the host callbacks. */
    method Uninitialize(host: Host)
      requires CallbacksFrom(host)
      modifies this, host
      ensures CallbacksFrom(host)
      ensures eventCallbacks == old(eventCallbacks)
      ensures host.removals == old(host.removals) + eventCallbacks
      ensures host.live == old(host.live) - SetOf(eventCallbacks)
      ensures errorsLogged == old(errorsLogged) + Unheld(old(host.live), eventCallbacks)
      ensures host.nextId == old(host.nextId) && host.subscriptions == old(host.subscriptions)
      ensures host.Query() == old(host.Query())
      ensures State() == old(State()) && labelText == old(labelText)
      ensures startEnabled == old(startEnabled) && endEnabled == old(endEnabled)
      ensures labelsEmitted == old(labelsEmitted) && optionsChanged == old(optionsChanged)
    {
      RemoveCallbacks(host);
      FailedRemovalsOfDistinct(old(host.live), eventCallbacks);
    }
  }

  /**
   * One widget over a host that nobody else subscribes to, initialised and
   * uninitialised twice. The list of ids only grows, and at the end the host
   * holds none of them.
   */
  method Reinitialize() returns (callbacks: seq<Handle>, held: set<Handle>)
    ensures callbacks == [0, 1, 2, 3]
    ensures held == {}
  {
    var host := new Host((1, 120), 1);
    var plugin := new TimePlugin(host);
    plugin.Initialize(host);
    assert host.live == {0, 1} && plugin.eventCallbacks == [0, 1] && plugin.errorsLogged == [];
    plugin.Uninitialize(host);
    assert host.live == {} && host.nextId == 2 by {
      assert SetOf([0, 1]) == {0, 1};
    }
    assert plugin.errorsLogged == [] by {
      assert Unheld({0, 1}, [0, 1]) == [];
    }
    SecondCycle(plugin, host);
    callbacks, held := plugin.eventCallbacks, host.live;
  }

  /**
   * The second initialize/uninitialize of Reinitialize: it appends two new ids,
   * then attempts all four, and the two stale ids from the first cycle fail
   * and are logged.
   */
  method SecondCycle(plugin: TimePlugin, host: Host)
    requires plugin.CallbacksFrom(host) && plugin.eventCallbacks == [0, 1] && plugin.errorsLogged == []
    requires host.live == {} && host.nextId == 2
    modifies plugin, host
    ensures plugin.eventCallbacks == [0, 1, 2, 3] && host.live == {}
    ensures plugin.errorsLogged == [0, 1]
    ensures host.removals == old(host.removals) + [0, 1, 2, 3]
  {
    plugin.Initialize(host);
    assert host.live == {2, 3} && plugin.eventCallbacks == [0, 1, 2, 3];
    plugin.Uninitialize(host);
    assert plugin.errorsLogged == [0, 1] by {
      assert Unheld({2, 3}, [0, 1, 2, 3]) == [0, 1];
    }
    assert host.live == {} by {
      assert SetOf([0, 1, 2, 3]) == {0, 1, 2, 3};
    }
  }
}
