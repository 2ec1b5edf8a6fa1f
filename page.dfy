/**
  The `Home` page of src/app/page.tsx: it owns the session configuration,
  wires the typing engine's `onStart` / `onFinish` to the countdown and the
  elapsed-seconds counter, and saves one result to storage per session.

  React state and refs of the page are the fields of `Home`; the hooks it
  uses are the objects `engine`, `timer` and `storage`. One call of a method
  is one event handler together with the effects it triggers, run to
  completion. The clock and `Math.random` are parameters: a `Stamp` carries
  `Date.now().toString()` and `new Date().toISOString()`, and a passage
  change takes the passage `getRandomPassage` returned.
*/
module Page {
  import opened Common
  import opened Segmentation
  import opened Comparator
  import opened TypingEngine
  import opened Stats
  import opened Countdown
  import opened Storage
  import opened TypingArea
  import opened FontSelector

  /** The durations the timer selector offers (src/components/TimerSelector.tsx:5). */
  const DURATION_OPTIONS: seq<int> := [30, 60, 120]

  const INITIAL_DURATION: int := 60

  /** The id and the ISO date of the moment a result is saved. */
  datatype Stamp = Stamp(id: string, date: string)

  /** The `accuracy` the page shows: correct grapheme units over typed UTF-16
      code units (`totalTyped: typedText.length`). */
  function SessionAccuracy(seg: Segmenter, passage: Text, typed: Text): int
  {
    Accuracy(CorrectCount(Segments(seg, typed), Segments(seg, passage)), |typed|)
  }

  /** With a well-formed segmenter there are never more correct units than
      typed code units, so the shown accuracy is a percentage. */
  lemma SessionAccuracyIsPercentage(seg: Segmenter, passage: Text, typed: Text)
    requires WellFormed(seg)
    ensures 0 <= SessionAccuracy(seg, passage, typed) <= 100
  {
    SegmentCountBound(seg, typed);
    AccuracyIsPercentage(CorrectCount(Segments(seg, typed), Segments(seg, passage)), |typed|);
  }

  /** Without a segmenter every unit is one code unit, and an error-free run
      (the typed text a prefix of the passage) shows 100%. */
  lemma FallbackPerfectRunIsExact(passage: Text, typed: Text)
    requires typed <= passage
    ensures SessionAccuracy(Unavailable, passage, typed) == 100
  {
    assert SplitUnits(typed) <= SplitUnits(passage);
    AllCorrectIffPrefix(SplitUnits(typed), SplitUnits(passage));
    AccuracyIsPercentage(|typed|, |typed|);
  }

  /** A segmenter that keeps the Devanagari syllable "कि" (KA U+0915, vowel
      sign I U+093F) together as one grapheme cluster, as Unicode Standard
      Annex #29 does, and splits anything else into code units. */
  function KiSegment(t: Text): seq<Text>
  {
    if t == [0x915, 0x93F] then [t] else SplitUnits(t)
  }

  /** That segmenter is well-formed. */
  lemma KiSegmenterWellFormed()
    ensures WellFormed(Grapheme(KiSegment))
  {
    forall t: Text ensures Partitions(KiSegment(t), t) {
      if t == [0x915, 0x93F] {
        assert Concat([t][1..]) == [];
      } else {
        SplitUnitsPartitions(t);
      }
    }
  }

  /** Typing the passage "कि" without a single mistake shows 50% accuracy:
      one correct grapheme over two code units. The segmenter used is a
      genuine one: `KiSegmenterWellFormed` shows it partitions every text. */
  lemma PerfectDevanagariRunShowsHalf()
    ensures SessionAccuracy(Grapheme(KiSegment), [0x915, 0x93F], [0x915, 0x93F]) == 50
    ensures CorrectCount(KiSegment([0x915, 0x93F]), KiSegment([0x915, 0x93F])) == 1
  {
    var t: Text := [0x915, 0x93F];
    assert KiSegment(t) == [t];
    assert CorrectCount([t], [t]) == CorrectCount([t][..0], [t]) + 1;
  }

  /** `Math.min(100, (typedText.length / passage.length) * 100)`; `None` is
      NaN (0 / 0), and a non-empty text against an empty passage is
      Infinity, capped to 100. */
  function Progress(typedLength: nat, passageLength: nat): (r: Option<real>)
    ensures r.None? <==> typedLength == 0 && passageLength == 0
    ensures r.Some? ==> 0.0 <= r.value <= 100.0
    ensures r.Some? && typedLength >= passageLength ==> r.value == 100.0
    ensures typedLength < passageLength ==>
      r.Some? && r.value * (passageLength as real) == (typedLength as real) * 100.0
  {
    if passageLength == 0 then
      (if typedLength == 0 then None else Some(100.0))
    else
      var p := (typedLength as real) / (passageLength as real) * 100.0;
      Some(if p < 100.0 then p else 100.0)
  }

  /** The save effect's two storage calls: the entry as a high-score
      candidate, then into the history. */
  method SaveResult(ls: LocalStorage, entry: Score) returns (isNew: bool)
    modifies ls
    ensures isNew == IsNewHighScore(GetHighScores(old(ls.items)), entry)
    ensures GetHighScores(ls.items) == UpdatedHighScores(GetHighScores(old(ls.items)), entry)
    ensures GetHistory(ls.items) == UpdatedHistory(GetHistory(old(ls.items)), entry)
  {
    isNew := SaveHighScore(ls, entry);
    SaveHistory(ls, entry);
  }

  /** The page's own state variables, as one value. */
  datatype HomeState = HomeState(
    language: Language, duration: int, selectedFont: string, soundEnabled: bool,
    passage: Text, showResult: bool, isNewHighScore: bool,
    highScores: seq<Score>, history: seq<Score>,
    hasStarted: bool, elapsedSeconds: int, elapsedRunning: bool)

  /** The page's state. */
  class Home {
    var language: Language
    var duration: int
    var selectedFont: string
    var soundEnabled: bool
    var passage: Text
    var showResult: bool
    var isNewHighScore: bool
    var highScores: seq<Score>
    var history: seq<Score>
    var hasStarted: bool
    var elapsedSeconds: int
    /** `elapsedRef.current` is set. */
    var elapsedRunning: bool
    const engine: Engine
    const timer: Timer
    const storage: LocalStorage

    /** Every state variable of the page at once. */
    ghost function Snapshot(): HomeState
      reads this
    {
      HomeState(language, duration, selectedFont, soundEnabled, passage, showResult, isNewHighScore,
                highScores, history, hasStarted, elapsedSeconds, elapsedRunning)
    }

    /** The props the page hands to its hooks are its own state. */
    ghost predicate PropsAgree()
      reads this`passage, this`soundEnabled, this`duration, engine`passage, engine`soundEnabled, timer`duration
    {
      engine.passage == passage && engine.soundEnabled == soundEnabled && timer.duration == duration
    }

    /** The countdown and the elapsed counter run together, and only during
        a started session. */
    ghost predicate ClocksAgree()
      reads this`duration, this`elapsedSeconds, this`elapsedRunning, this`showResult, this`hasStarted, engine, timer
    {
      && duration in DURATION_OPTIONS
      && 0 <= timer.timeLeft <= duration
      && (timer.running ==> timer.timeLeft > 0)
      && Consistent(engine.State())
      && timer.running == elapsedRunning
      && (elapsedRunning ==> engine.isActive)
      && (!engine.started ==> !timer.running && timer.timeLeft == duration && elapsedSeconds == 0)
      && (showResult ==> !timer.running && (engine.isFinished || timer.timeLeft == 0))
      && (engine.typedText != [] ==> hasStarted)
      && elapsedSeconds >= 0
    }

    /** The two panels show what storage holds. */
    ghost predicate ListsAgree()
      reads this`highScores, this`history, storage
    {
      highScores == GetHighScores(storage.items) && history == GetHistory(storage.items)
    }

    /** What holds between events. */
    ghost predicate Valid()
      reads this, engine, timer, storage
    {
      PropsAgree() && ClocksAgree() && ListsAgree()
    }

    /** The page after mount: Nepali, 60 seconds, the "noto" font, sound on,
        a first passage, and the stored lists loaded. The engine's segmenter
        is created once, for the first render's language. */
    constructor (storage: LocalStorage, segmenter: Segmenter, firstPassage: Text)
      ensures Valid()
      ensures this.storage == storage && storage.items == old(storage.items)
      ensures engine.segmenter == segmenter && engine.State() == Idle
      ensures language == Nepali && duration == INITIAL_DURATION && selectedFont == "noto" && soundEnabled
      ensures passage == firstPassage && !hasStarted && !showResult && !isNewHighScore
      ensures highScores == GetHighScores(storage.items) && history == GetHistory(storage.items)
      ensures timer.timeLeft == INITIAL_DURATION && !timer.running
    {
      language := Nepali;
      duration := INITIAL_DURATION;
      selectedFont := "noto";
      soundEnabled := true;
      passage := firstPassage;
      showResult := false;
      isNewHighScore := false;
      highScores := GetHighScores(storage.items);
      history := GetHistory(storage.items);
      hasStarted := false;
      elapsedSeconds := 0;
      elapsedRunning := false;
      engine := new Engine(firstPassage, true, segmenter);
      timer := new Timer(INITIAL_DURATION);
      this.storage := storage;
    }

    /** `correctChars` as the engine reports it. */
    function CorrectChars(): nat
      reads engine
    {
      engine.CorrectChars()
    }

    /** The shown `wpm`. */
    function ShownWpm(): int
      reads this`elapsedSeconds, engine
    {
      Wpm(CorrectChars(), elapsedSeconds)
    }

    /** The shown `accuracy`. */
    function ShownAccuracy(): int
      reads engine
    {
      SessionAccuracy(engine.segmenter, engine.passage, engine.typedText)
    }

    /** The history entry built when the result card opens. */
    function Entry(stamp: Stamp): (r: Score)
      reads this`elapsedSeconds, this`language, this`duration, engine
      ensures r.wpm == ShownWpm() && r.accuracy == ShownAccuracy()
      ensures r.language == language && r.duration == duration
      ensures r.date == stamp.date && r.id == Some(stamp.id)
    {
      Score(ShownWpm(), ShownAccuracy(), language, duration, stamp.date, Some(stamp.id))
    }

    /** The typing area's `isFinished` prop: the engine finished or the
        countdown ran out. */
    predicate AreaFinished()
      reads engine, timer
    {
      engine.isFinished || timer.timeLeft == 0
    }

    /** The font class of the passage text (page.tsx:178-179). */
    function FontClass(): (r: string)
      reads this
      ensures language == English ==> r == "font-sans"
      ensures language == Nepali ==> r == GetFontClass(selectedFont)
    {
      if language == Nepali then GetFontClass(selectedFont) else "font-sans"
    }

    /** The start overlay's button: unlocks the typing area. */
    method ClickStart()
      requires Valid()
      modifies this
      ensures Valid()
      ensures Snapshot() == old(Snapshot()).(hasStarted := old(hasStarted) || !AreaFinished())
      ensures unchanged(engine) && unchanged(timer) && unchanged(storage)
    {
      if !hasStarted && !AreaFinished() {
        hasStarted := true;
      }
    }

    /** `handleStart`: start the countdown and the elapsed counter. */
    method HandleStart()
      modifies this, timer
      ensures timer.running
      ensures timer.timeLeft == old(timer.timeLeft) && timer.duration == old(timer.duration)
      ensures Snapshot() == old(Snapshot()).(elapsedRunning := true)
    {
      timer.Start();
      elapsedRunning := true;
    }

    /** `finishSession` and the save effect it triggers: stop both
        intervals and open the result card; the first time the card opens
        the entry is saved. */
    method FinishSession(stamp: Stamp)
      modifies this, timer, storage
      ensures !timer.running
      ensures timer.timeLeft == old(timer.timeLeft) && timer.duration == old(timer.duration)
      ensures old(showResult) ==>
        storage.items == old(storage.items) && Snapshot() == old(Snapshot()).(elapsedRunning := false)
      ensures !old(showResult) ==>
        && GetHighScores(storage.items) == UpdatedHighScores(GetHighScores(old(storage.items)), old(Entry(stamp)))
        && GetHistory(storage.items) == UpdatedHistory(GetHistory(old(storage.items)), old(Entry(stamp)))
        && Snapshot() == old(Snapshot()).(
             showResult := true, elapsedRunning := false,
             isNewHighScore := IsNewHighScore(GetHighScores(old(storage.items)), old(Entry(stamp))),
             highScores := GetHighScores(storage.items), history := GetHistory(storage.items))
    {
      var entry := Entry(stamp);
      timer.Stop();
      elapsedRunning := false;
      if !showResult {
        OpenResult(entry);
      }
    }

    /** The save effect on the card's opening: save the entry, remember
        whether it was a new best, and reload both lists. */
    method OpenResult(entry: Score)
      modifies this, storage
      ensures GetHighScores(storage.items) == UpdatedHighScores(GetHighScores(old(storage.items)), entry)
      ensures GetHistory(storage.items) == UpdatedHistory(GetHistory(old(storage.items)), entry)
      ensures Snapshot() == old(Snapshot()).(
                showResult := true,
                isNewHighScore := IsNewHighScore(GetHighScores(old(storage.items)), entry),
                highScores := GetHighScores(storage.items), history := GetHistory(storage.items))
    {
      ghost var scores := GetHighScores(storage.items);
      showResult := true;
      var isNew := SaveResult(storage, entry);
      assert isNew == IsNewHighScore(scores, entry);
      isNewHighScore := isNew;
      highScores := GetHighScores(storage.items);
      history := GetHistory(storage.items);
    }

    /** The textarea's `onChange`: ignored while the area is locked or
        finished; otherwise `handleType(value)`. */
    method Type(value: Text, stamp: Stamp)
      requires Valid()
      modifies this, engine, timer, storage
      ensures Valid()
      ensures !old(hasStarted) || old(AreaFinished()) ==>
        unchanged(this) && unchanged(engine) && unchanged(timer) && unchanged(storage)
      ensures old(hasStarted) && !old(AreaFinished()) ==>
        && engine.State() == TypeStep(old(engine.Config()), old(engine.State()), value).next
        && (StartsOn(old(engine.State()), value) && !FinishesOn(old(engine.Config()), old(engine.State()), value) ==>
              timer.running)
        && (FinishesOn(old(engine.Config()), old(engine.State()), value) ==>
              && !timer.running
              && GetHighScores(storage.items) == UpdatedHighScores(GetHighScores(old(storage.items)), Entry(stamp))
              && GetHistory(storage.items) == UpdatedHistory(GetHistory(old(storage.items)), Entry(stamp))
              && Snapshot() == old(Snapshot()).(
                   showResult := true, elapsedRunning := false,
                   isNewHighScore := IsNewHighScore(GetHighScores(old(storage.items)), Entry(stamp)),
                   highScores := GetHighScores(storage.items), history := GetHistory(storage.items)))
        && (!FinishesOn(old(engine.Config()), old(engine.State()), value) ==>
              && storage.items == old(storage.items)
              && Snapshot() == old(Snapshot()).(
                   elapsedRunning := old(elapsedRunning) || StartsOn(old(engine.State()), value)))
      ensures engine.Config() == old(engine.Config())
      ensures timer.timeLeft == old(timer.timeLeft) && timer.duration == old(timer.duration)
      ensures (old(hasStarted) && !old(AreaFinished()) && !StartsOn(old(engine.State()), value)
               && !FinishesOn(old(engine.Config()), old(engine.State()), value)) ==>
        timer.running == old(timer.running)
    {
      var forwarded := Forwarded(value, AreaFinished(), !hasStarted);
      if forwarded.Some? {
        HandleType(forwarded.value, stamp);
      }
    }

    /** `handleType(value)` on an open typing area, with its `onStart`
        starting the clocks and its `onFinish` finishing the session. */
    method HandleType(value: Text, stamp: Stamp)
      requires Valid() && hasStarted && !AreaFinished()
      modifies this, engine, timer, storage
      ensures Valid()
      ensures engine.State() == TypeStep(old(engine.Config()), old(engine.State()), value).next
      ensures engine.Config() == old(engine.Config())
      ensures StartsOn(old(engine.State()), value) && !FinishesOn(old(engine.Config()), old(engine.State()), value) ==>
        timer.running
      ensures FinishesOn(old(engine.Config()), old(engine.State()), value) ==>
        && !timer.running
        && GetHighScores(storage.items) == UpdatedHighScores(GetHighScores(old(storage.items)), Entry(stamp))
        && GetHistory(storage.items) == UpdatedHistory(GetHistory(old(storage.items)), Entry(stamp))
        && Snapshot() == old(Snapshot()).(
             showResult := true, elapsedRunning := false,
             isNewHighScore := IsNewHighScore(GetHighScores(old(storage.items)), Entry(stamp)),
             highScores := GetHighScores(storage.items), history := GetHistory(storage.items))
      ensures !FinishesOn(old(engine.Config()), old(engine.State()), value) ==>
        && storage.items == old(storage.items)
        && Snapshot() == old(Snapshot()).(
             elapsedRunning := old(elapsedRunning) || StartsOn(old(engine.State()), value))
      ensures timer.timeLeft == old(timer.timeLeft) && timer.duration == old(timer.duration)
      ensures !StartsOn(old(engine.State()), value) && !FinishesOn(old(engine.Config()), old(engine.State()), value) ==>
        timer.running == old(timer.running)
    {
      ghost var before, props := engine.State(), engine.Config();
      ghost var starts, finishes := StartsOn(before, value), FinishesOn(props, before, value);
      assert !showResult;
      var events := engine.HandleType(value);
      EventsSignalStartAndFinish(props, before, value);
      TypeStepKeepsConsistent(props, before, value);
      if OnFinish in events {
        if OnStart in events {
          HandleStart();
        }
        FinishSession(stamp);
      } else if OnStart in events {
        HandleStart();
        assert engine.isActive && timer.timeLeft == duration;
      }
    }

    /** One firing of the countdown interval; at expiry `onExpire` runs
        `finishSession`. */
    method TimerTick(stamp: Stamp)
      requires Valid() && timer.running
      modifies this, timer, storage
      ensures Valid()
      ensures timer.Now() == TickStep(old(timer.Now())).clock
      ensures TickStep(old(timer.Now())).expired ==>
        && GetHighScores(storage.items) == UpdatedHighScores(GetHighScores(old(storage.items)), Entry(stamp))
        && GetHistory(storage.items) == UpdatedHistory(GetHistory(old(storage.items)), Entry(stamp))
        && Snapshot() == old(Snapshot()).(
             showResult := true, elapsedRunning := false,
             isNewHighScore := IsNewHighScore(GetHighScores(old(storage.items)), Entry(stamp)),
             highScores := GetHighScores(storage.items), history := GetHistory(storage.items))
      ensures !TickStep(old(timer.Now())).expired ==>
        storage.items == old(storage.items) && Snapshot() == old(Snapshot())
      ensures unchanged(engine)
    {
      var expired := timer.Tick();
      if expired {
        FinishSession(stamp);
      }
    }

    /** One firing of the elapsed-seconds interval. */
    method ElapsedTick()
      requires Valid() && elapsedRunning
      modifies this
      ensures Valid()
      ensures Snapshot() == old(Snapshot()).(elapsedSeconds := old(elapsedSeconds) + 1)
      ensures unchanged(engine) && unchanged(timer) && unchanged(storage)
    {
      elapsedSeconds := elapsedSeconds + 1;
    }

    /** Clears the session state shared by the three reset handlers. */
    method ResetSession(newPassage: Text)
      modifies this, engine, timer
      ensures engine.State() == Idle && engine.Config() == Props(newPassage, soundEnabled, engine.segmenter)
      ensures !timer.running && timer.timeLeft == old(timer.duration) && timer.duration == old(timer.duration)
      ensures Snapshot() == old(Snapshot()).(
                passage := newPassage, showResult := false, hasStarted := false,
                elapsedSeconds := 0, elapsedRunning := false)
    {
      engine.Reset();
      timer.Reset();
      elapsedSeconds := 0;
      showResult := false;
      hasStarted := false;
      passage := newPassage;
      engine.SetProps(newPassage, soundEnabled);
      elapsedRunning := false;
    }

    /** `handleRestart`: a fresh session on a new passage of the same
        language. */
    method Restart(newPassage: Text)
      requires Valid()
      modifies this, engine, timer
      ensures Valid()
      ensures engine.State() == Idle
      ensures !timer.running && timer.timeLeft == duration
      ensures Snapshot() == old(Snapshot()).(
                passage := newPassage, showResult := false, isNewHighScore := false, hasStarted := false,
                elapsedSeconds := 0, elapsedRunning := false)
      ensures unchanged(storage)
    {
      ResetSession(newPassage);
      isNewHighScore := false;
    }

    /** `handleLanguageChange`; the toggle is disabled while a session is
        active. */
    method LanguageChange(lang: Language, newPassage: Text)
      requires Valid() && !engine.isActive
      modifies this, engine, timer
      ensures Valid()
      ensures engine.State() == Idle
      ensures !timer.running && timer.timeLeft == duration
      ensures Snapshot() == old(Snapshot()).(
                language := lang, passage := newPassage, showResult := false, hasStarted := false,
                elapsedSeconds := 0, elapsedRunning := false)
      ensures unchanged(storage)
    {
      language := lang;
      ResetSession(newPassage);
    }

    /** `handleDurationChange`; the selector is disabled while a session is
        active. The timer is reset with the old duration, then the hook's
        duration effect sets `timeLeft` to the new one. */
    method DurationChange(d: int, newPassage: Text)
      requires Valid() && !engine.isActive && d in DURATION_OPTIONS
      modifies this, engine, timer
      ensures Valid()
      ensures timer.timeLeft == d && !timer.running && engine.State() == Idle
      ensures Snapshot() == old(Snapshot()).(
                duration := d, passage := newPassage, showResult := false, hasStarted := false,
                elapsedSeconds := 0, elapsedRunning := false)
      ensures unchanged(storage)
    {
      ResetSession(newPassage);
      duration := d;
      timer.SyncDuration(d);
    }

    /** The sound toggle. */
    method ToggleSound()
      requires Valid()
      modifies this, engine
      ensures Valid()
      ensures Snapshot() == old(Snapshot()).(soundEnabled := !old(soundEnabled))
      ensures engine.Config() == old(engine.Config()).(soundEnabled := soundEnabled)
      ensures engine.State() == old(engine.State()) && unchanged(timer) && unchanged(storage)
    {
      soundEnabled := !soundEnabled;
      engine.SetProps(passage, soundEnabled);
    }

    /** The font selector. */
    method SelectFont(font: string)
      requires Valid()
      modifies this
      ensures Valid()
      ensures Snapshot() == old(Snapshot()).(selectedFont := font)
      ensures unchanged(engine) && unchanged(timer) && unchanged(storage)
    {
      selectedFont := font;
    }

    /** `handleClearHistory` */
    method ClearHistory()
      requires Valid()
      modifies this, storage
      ensures Valid()
      ensures GetHistory(storage.items) == [] && GetHighScores(storage.items) == GetHighScores(old(storage.items))
      ensures Snapshot() == old(Snapshot()).(history := [])
      ensures unchanged(engine) && unchanged(timer)
    {
      Storage.ClearHistory(storage);
      history := [];
    }
  }
}
