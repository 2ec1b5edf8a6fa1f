/**
  The typing-session engine of src/hooks/useTypingEngine.ts.

  One call of `handleType` is one atomic step. Instead of calling `onStart`
  and `onFinish` and playing audio, a step returns the events it would
  trigger, in order. `TypeStep` is the step as a function of the hook's
  props and state; the class `Engine` holds that state in fields and its
  methods are proved to perform exactly `TypeStep` and the reset.
*/
module TypingEngine {
  import opened Segmentation
  import opened Comparator

  /** The three sound-engine cues: `playKeystroke`, `playError`, `playComplete`. */
  datatype Cue = Keystroke | Error | Complete

  /** What a step triggers: the `onStart` and `onFinish` callbacks and the sound cues. */
  datatype Event = OnStart | OnFinish | Play(cue: Cue)

  /** The props the hook reads. */
  datatype Props = Props(passage: Text, soundEnabled: bool, segmenter: Segmenter)

  /** `typedText`, `isActive`, `isFinished` and `startedRef.current`. */
  datatype EngineState = EngineState(typedText: Text, isActive: bool, isFinished: bool, started: bool)

  datatype Step = Step(next: EngineState, events: seq<Event>)

  /** The state of a fresh or reset engine. */
  const Idle := EngineState([], false, false, false)

  /** Whether unit `i` of `value` equals the passage unit at `i`
      (an index past the passage compares with `undefined`). */
  predicate UnitMatches(valueUnits: seq<Text>, passageUnits: seq<Text>, i: nat)
    requires i < |valueUnits|
  {
    i < |passageUnits| && valueUnits[i] == passageUnits[i]
  }

  /** The keystroke cue, if any: only with sound on and only when the unit
      count grew; the last new unit decides between correct and error. */
  function KeystrokeCue(p: Props, oldText: Text, value: Text): (r: seq<Event>)
    ensures |r| <= 1
    ensures r != [] <==> p.soundEnabled && |Segments(p.segmenter, value)| > |Segments(p.segmenter, oldText)|
    ensures r != [] ==> r[0] == Play(Keystroke) || r[0] == Play(Error)
    ensures r != [] ==> (r[0] == Play(Keystroke) <==>
      UnitMatches(Segments(p.segmenter, value), Segments(p.segmenter, p.passage), |Segments(p.segmenter, value)| - 1))
  {
    var valueUnits := Segments(p.segmenter, value);
    if p.soundEnabled && |valueUnits| > |Segments(p.segmenter, oldText)| then
      var last := |valueUnits| - 1;
      if UnitMatches(valueUnits, Segments(p.segmenter, p.passage), last) then [Play(Keystroke)] else [Play(Error)]
    else []
  }

  /** `onStart` fires on this call: not finished, not yet started, and the
      raw value is non-empty. */
  predicate StartsOn(s: EngineState, value: Text)
  {
    !s.isFinished && !s.started && |value| > 0
  }

  /** The session finishes on this call: not finished, and the value has at
      least as many units as the passage. */
  predicate FinishesOn(p: Props, s: EngineState, value: Text)
  {
    !s.isFinished && |Segments(p.segmenter, value)| >= |Segments(p.segmenter, p.passage)|
  }

  /** `onFinish()`, then the completion cue when sound is on. */
  function FinishEvents(p: Props): seq<Event>
  {
    [OnFinish] + (if p.soundEnabled then [Play(Complete)] else [])
  }

  /** One call of `handleType(value)`. */
  function TypeStep(p: Props, s: EngineState, value: Text): (r: Step)
    // a finished session drops the input and triggers nothing
    ensures s.isFinished ==> r == Step(s, [])
    // otherwise the value is stored
    ensures !s.isFinished ==> r.next.typedText == value
    ensures r.next.started <==> s.started || StartsOn(s, value)
    ensures r.next.isFinished <==> s.isFinished || FinishesOn(p, s, value)
    ensures FinishesOn(p, s, value) ==> !r.next.isActive
    ensures !s.isFinished && !FinishesOn(p, s, value) ==> r.next.isActive == (s.isActive || StartsOn(s, value))
  {
    if s.isFinished then Step(s, [])
    else
      var startNow := StartsOn(s, value);
      var s1 := if startNow then s.(started := true, isActive := true) else s;
      var cue := KeystrokeCue(p, s.typedText, value);
      var done := FinishesOn(p, s, value);
      var s2 := if done then s1.(typedText := value, isFinished := true, isActive := false)
                else s1.(typedText := value);
      var events := (if startNow then [OnStart] else []) + cue + (if done then FinishEvents(p) else []);
      Step(s2, events)
  }

  function Count(events: seq<Event>, e: Event): nat
  {
    multiset(events)[e]
  }

  /** Where an event stands in the order `handleType` triggers events:
      `onStart`, the keystroke cue, `onFinish`, the completion cue. */
  function Rank(e: Event): nat
  {
    match e
    case OnStart => 0
    case Play(Keystroke) => 1
    case Play(Error) => 1
    case OnFinish => 2
    case Play(Complete) => 3
  }

  /** The events of a call come in that order, each kind at most once:
      `onStart` first, at most one keystroke or error cue, then `onFinish`
      and the completion cue. */
  lemma EventsInOrder(p: Props, s: EngineState, value: Text)
    ensures var events := TypeStep(p, s, value).events;
      forall i, j :: 0 <= i < j < |events| ==> Rank(events[i]) < Rank(events[j])
  {
    if !s.isFinished {
      var a := if StartsOn(s, value) then [OnStart] else [];
      var b := KeystrokeCue(p, s.typedText, value);
      var c := if FinishesOn(p, s, value) then FinishEvents(p) else [];
      assert TypeStep(p, s, value).events == a + b + c;
      assert b == [] || b == [b[0]];
      RankedSegments(a, b, c);
    }
  }

  /** Each of the three parts `handleType` can trigger is in rank order
      and ranked below the next, so their concatenation is in rank order. */
  lemma RankedSegments(a: seq<Event>, b: seq<Event>, c: seq<Event>)
    requires a == [] || a == [OnStart]
    requires b == [] || b == [Play(Keystroke)] || b == [Play(Error)]
    requires c == [] || c == [OnFinish] || c == [OnFinish, Play(Complete)]
    ensures var events := a + b + c;
      forall i, j :: 0 <= i < j < |events| ==> Rank(events[i]) < Rank(events[j])
  {
    var events := a + b + c;
    assert forall k :: 0 <= k < |events| ==>
      Rank(events[k]) == if k < |a| then 0 else if k < |a| + |b| then 1 else 2 + (k - |a| - |b|);
  }

  /** The events `handleType` triggers before the keystroke cue. */
  function StartPart(s: EngineState, value: Text): (r: seq<Event>)
    ensures r == [] || r == [OnStart]
  {
    if StartsOn(s, value) then [OnStart] else []
  }

  /** The events `handleType` triggers after the keystroke cue. */
  function FinishPart(p: Props, s: EngineState, value: Text): (r: seq<Event>)
    ensures r == [] || r == [OnFinish] || r == [OnFinish, Play(Complete)]
  {
    if FinishesOn(p, s, value) then FinishEvents(p) else []
  }

  /** An open session's events are its start part, its keystroke cue and its
      finish part, in that order. */
  lemma StepParts(p: Props, s: EngineState, value: Text)
    requires !s.isFinished
    ensures TypeStep(p, s, value).events ==
      StartPart(s, value) + KeystrokeCue(p, s.typedText, value) + FinishPart(p, s, value)
    ensures var cue := KeystrokeCue(p, s.typedText, value);
      cue == [] || cue == [Play(Keystroke)] || cue == [Play(Error)]
  {
    var cue := KeystrokeCue(p, s.typedText, value);
    assert cue == [] || cue == [cue[0]];
  }

  /** `onStart` fires exactly once on the call that starts the session, and
      before anything else; on every other call it does not fire. */
  lemma StartEvent(p: Props, s: EngineState, value: Text)
    ensures Count(TypeStep(p, s, value).events, OnStart) == (if StartsOn(s, value) then 1 else 0)
    ensures StartsOn(s, value) ==> TypeStep(p, s, value).events[0] == OnStart
  {
    if !s.isFinished {
      StepParts(p, s, value);
      StartCount(StartPart(s, value), KeystrokeCue(p, s.typedText, value), FinishPart(p, s, value));
    }
  }

  lemma StartCount(a: seq<Event>, cue: seq<Event>, c: seq<Event>)
    requires a == [] || a == [OnStart]
    requires cue == [] || cue == [Play(Keystroke)] || cue == [Play(Error)]
    requires c == [] || c == [OnFinish] || c == [OnFinish, Play(Complete)]
    ensures Count(a + cue + c, OnStart) == |a|
  {
    assert multiset(a + cue + c) == multiset(a) + multiset(cue) + multiset(c);
  }

  /** `onFinish` fires exactly once on the call that finishes the session,
      and the completion cue with it exactly when sound is on. */
  lemma FinishEvent(p: Props, s: EngineState, value: Text)
    ensures Count(TypeStep(p, s, value).events, OnFinish) == (if FinishesOn(p, s, value) then 1 else 0)
    ensures Count(TypeStep(p, s, value).events, Play(Complete)) ==
      (if FinishesOn(p, s, value) && p.soundEnabled then 1 else 0)
  {
    if !s.isFinished {
      StepParts(p, s, value);
      FinishCounts(StartPart(s, value), KeystrokeCue(p, s.typedText, value), FinishPart(p, s, value));
    }
  }

  lemma FinishCounts(a: seq<Event>, cue: seq<Event>, c: seq<Event>)
    requires a == [] || a == [OnStart]
    requires cue == [] || cue == [Play(Keystroke)] || cue == [Play(Error)]
    requires c == [] || c == [OnFinish] || c == [OnFinish, Play(Complete)]
    ensures Count(a + cue + c, OnFinish) == (if c == [] then 0 else 1)
    ensures Count(a + cue + c, Play(Complete)) == (if |c| == 2 then 1 else 0)
  {
    assert multiset(a + cue + c) == multiset(a) + multiset(cue) + multiset(c);
  }

  /** The keystroke cue of a call: while the session is open and sound is
      on, a call that adds units plays the keystroke sound once when the
      last unit matches the passage unit at its index, and the error sound
      once when it does not; otherwise neither plays. */
  lemma CueEvent(p: Props, s: EngineState, value: Text)
    ensures var units := Segments(p.segmenter, value);
      var grew := !s.isFinished && p.soundEnabled && |units| > |Segments(p.segmenter, s.typedText)|;
      && Count(TypeStep(p, s, value).events, Play(Keystroke)) ==
           (if grew && UnitMatches(units, Segments(p.segmenter, p.passage), |units| - 1) then 1 else 0)
      && Count(TypeStep(p, s, value).events, Play(Error)) ==
           (if grew && !UnitMatches(units, Segments(p.segmenter, p.passage), |units| - 1) then 1 else 0)
  {
    if !s.isFinished {
      StepParts(p, s, value);
      CueCounts(StartPart(s, value), KeystrokeCue(p, s.typedText, value), FinishPart(p, s, value));
    }
  }

  lemma CueCounts(a: seq<Event>, cue: seq<Event>, c: seq<Event>)
    requires a == [] || a == [OnStart]
    requires cue == [] || cue == [Play(Keystroke)] || cue == [Play(Error)]
    requires c == [] || c == [OnFinish] || c == [OnFinish, Play(Complete)]
    ensures Count(a + cue + c, Play(Keystroke)) == (if cue == [Play(Keystroke)] then 1 else 0)
    ensures Count(a + cue + c, Play(Error)) == (if cue == [Play(Error)] then 1 else 0)
  {
    assert multiset(a + cue + c) == multiset(a) + multiset(cue) + multiset(c);
  }

  /** The page reacts to `onStart` and `onFinish` by their presence: each is
      among the events exactly when the call starts, or finishes, the
      session. */
  lemma EventsSignalStartAndFinish(p: Props, s: EngineState, value: Text)
    ensures OnStart in TypeStep(p, s, value).events <==> StartsOn(s, value)
    ensures OnFinish in TypeStep(p, s, value).events <==> FinishesOn(p, s, value)
  {
    var events := TypeStep(p, s, value).events;
    StartEvent(p, s, value);
    FinishEvent(p, s, value);
    assert OnStart in events <==> multiset(events)[OnStart] > 0;
    assert OnFinish in events <==> multiset(events)[OnFinish] > 0;
  }

  /** The hook's state invariant: active only after starting and before
      finishing, and text only after starting. */
  ghost predicate Consistent(s: EngineState)
  {
    && (s.isActive ==> s.started && !s.isFinished)
    && (s.typedText != [] ==> s.started)
  }

  lemma TypeStepKeepsConsistent(p: Props, s: EngineState, value: Text)
    requires Consistent(s)
    ensures Consistent(TypeStep(p, s, value).next)
  {
  }

  /** A sequence of `handleType` calls. */
  function Run(p: Props, s: EngineState, values: seq<Text>): Step
    decreases |values|
  {
    if values == [] then Step(s, [])
    else
      var first := TypeStep(p, s, values[0]);
      var rest := Run(p, first.next, values[1..]);
      Step(rest.next, first.events + rest.events)
  }

  /** Once finished, every later call is dropped: the state never leaves
      Finished and nothing more is triggered. */
  lemma {:induction false} FinishedIsTerminal(p: Props, s: EngineState, values: seq<Text>)
    requires s.isFinished
    ensures Run(p, s, values) == Step(s, [])
  {
    if values != [] {
      FinishedIsTerminal(p, s, values[1..]);
    }
  }

  /** `onStart` fires at most once per session (never if the session had
      already started), and it fired iff the session is now started. */
  lemma {:induction false} StartFiresAtMostOnce(p: Props, s: EngineState, values: seq<Text>)
    ensures Count(Run(p, s, values).events, OnStart) <= (if s.started then 0 else 1)
    ensures Run(p, s, values).next.started <==> s.started || Count(Run(p, s, values).events, OnStart) == 1
    decreases |values|
  {
    if values != [] {
      var first := TypeStep(p, s, values[0]);
      StartFiresAtMostOnce(p, first.next, values[1..]);
      StartEvent(p, s, values[0]);
    }
  }

  /** `onFinish` fires at most once per session, and it fired iff the
      session is now finished. */
  lemma {:induction false} FinishFiresAtMostOnce(p: Props, s: EngineState, values: seq<Text>)
    ensures Count(Run(p, s, values).events, OnFinish) <= (if s.isFinished then 0 else 1)
    ensures Run(p, s, values).next.isFinished <==> s.isFinished || Count(Run(p, s, values).events, OnFinish) == 1
    decreases |values|
  {
    if values != [] {
      var first := TypeStep(p, s, values[0]);
      FinishFiresAtMostOnce(p, first.next, values[1..]);
      if first.next.isFinished {
        FinishedIsTerminal(p, first.next, values[1..]);
      }
      FinishEvent(p, s, values[0]);
    }
  }

  /** Any sequence of calls keeps the state invariant. */
  lemma {:induction false} RunKeepsConsistent(p: Props, s: EngineState, values: seq<Text>)
    requires Consistent(s)
    ensures Consistent(Run(p, s, values).next)
    decreases |values|
  {
    if values != [] {
      TypeStepKeepsConsistent(p, s, values[0]);
      RunKeepsConsistent(p, TypeStep(p, s, values[0]).next, values[1..]);
    }
  }

  /** The hook's state and props. */
  class Engine {
    var passage: Text
    var soundEnabled: bool
    const segmenter: Segmenter
    var typedText: Text
    var isActive: bool
    var isFinished: bool
    var started: bool

    function Config(): Props
      reads this
    {
      Props(passage, soundEnabled, segmenter)
    }

    function State(): EngineState
      reads this
    {
      EngineState(typedText, isActive, isFinished, started)
    }

    /** `correctChars` (line 55) for the current text. */
    function CorrectChars(): nat
      reads this
    {
      CorrectCount(Segments(segmenter, typedText), Segments(segmenter, passage))
    }

    constructor (passage: Text, soundEnabled: bool, segmenter: Segmenter)
      ensures Config() == Props(passage, soundEnabled, segmenter)
      ensures State() == Idle
    {
      this.passage := passage;
      this.soundEnabled := soundEnabled;
      this.segmenter := segmenter;
      typedText, isActive, isFinished, started := [], false, false, false;
    }

    /** A re-render with new `passage` and `soundEnabled` props: the typing
        state is kept. */
    method SetProps(passage: Text, soundEnabled: bool)
      modifies this
      ensures Config() == Props(passage, soundEnabled, segmenter)
      ensures State() == old(State())
    {
      this.passage := passage;
      this.soundEnabled := soundEnabled;
    }

    /** `handleType(value)`. */
    method HandleType(value: Text) returns (events: seq<Event>)
      modifies this
      ensures Config() == old(Config())
      ensures State() == TypeStep(old(Config()), old(State()), value).next
      ensures events == TypeStep(old(Config()), old(State()), value).events
    {
      ghost var before, props := State(), Config();
      ghost var expected := TypeStep(props, before, value);
      if isFinished {
        return [];
      }
      events := [];
      if !started && |value| > 0 {
        started := true;
        isActive := true;
        events := [OnStart];
      }
      var previousUnits := |Segments(segmenter, typedText)|;
      typedText := value;
      var passageUnits := Segments(segmenter, passage);
      var valueUnits := Segments(segmenter, value);
      var cue := [];
      if soundEnabled && |valueUnits| > previousUnits {
        var last := |valueUnits| - 1;
        var isCorrect := last < |passageUnits| && valueUnits[last] == passageUnits[last];
        cue := [if isCorrect then Play(Keystroke) else Play(Error)];
      }
      assert cue == KeystrokeCue(props, before.typedText, value);
      assert events == StartPart(before, value);
      events := events + cue;
      var finish := [];
      if |valueUnits| >= |passageUnits| {
        isFinished := true;
        isActive := false;
        finish := [OnFinish] + (if soundEnabled then [Play(Complete)] else []);
      }
      assert finish == FinishPart(props, before, value);
      events := events + finish;
      StepParts(props, before, value);
      assert State() == expected.next;
    }

    /** `reset()`. */
    method Reset()
      modifies this
      ensures Config() == old(Config())
      ensures State() == Idle
    {
      typedText := [];
      isActive := false;
      isFinished := false;
      started := false;
    }
  }
}
