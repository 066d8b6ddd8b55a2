/**
 The home screen as a state machine. The screen holds the text being edited,
 whether a conversion is under way, whether audio is ready, the selected
 language, whether playback runs, and the playback progress. Button presses,
 the end of the simulated conversion and the ticks of the progress interval
 are the events; the visibility and enablement of the controls are views of
 the state.

 Progress is kept as a whole number of ticks: each tick adds 0.02, so
 progress is `ticks / 50` and reaches 1 after 50 ticks, exactly.
 */
module Home {
  import opened Text

  /** Ticks from progress 0 to progress 1 (1 / 0.02). */
  const TicksToEnd := 50

  datatype Language = English | Turkish

  /** The screen's state. `timerLive` records that the progress interval is
      scheduled and has not been cleared. */
  datatype State = State(text: string, loading: bool, audioAvailable: bool, language: Language,
                         isPlaying: bool, ticks: nat, timerLive: bool)

  /** The state when the screen mounts. */
  const Initial := State("", false, false, English, false, 0, false)

  /** Playback progress as a fraction of the clip. */
  function Progress(s: State): real {
    s.ticks as real / TicksToEnd as real
  }

  /** The states the screen can be in: progress within [0, 1], the interval
      scheduled exactly while playing, and never loading with audio ready. */
  predicate Inv(s: State) {
    && s.ticks <= TicksToEnd
    && s.timerLive == s.isPlaying
    && !(s.loading && s.audioAvailable)
  }

  lemma InvBoundsProgress(s: State)
    requires Inv(s)
    ensures 0.0 <= Progress(s) <= 1.0
  {
  }

  // ---------------------------------------------------------------- views

  /** The convert button is disabled, and the convert handler does nothing,
      when the trimmed text is empty or a conversion is under way. */
  predicate ConvertDisabled(s: State)
    ensures ConvertDisabled(s) <==> AllSpace(s.text) || s.loading
  {
    TrimEmptyIffAllSpace(s.text);
    Trim(s.text) == [] || s.loading
  }

  /** The caption of the convert button. */
  function ConvertCaption(s: State): string {
    if s.loading then "Converting..." else "Convert to Speech"
  }

  /** The activity indicator. */
  predicate SpinnerVisible(s: State) {
    s.loading
  }

  /** The audio box (play button, waveform) and the download button. */
  predicate PlayerVisible(s: State) {
    s.audioAvailable && !s.loading
  }

  /** The play button can be pressed: it is shown and not disabled. */
  predicate PlayEnabled(s: State) {
    PlayerVisible(s) && !s.isPlaying
  }

  /** The hint to press convert. */
  predicate EmptyStateVisible(s: State) {
    !s.audioAvailable && !s.loading && Trim(s.text) != []
  }

  /** The three status areas below the convert button exclude each other, and
      the hint shows only when the convert button can be pressed. */
  lemma StatusAreasExclusive(s: State)
    ensures !(SpinnerVisible(s) && PlayerVisible(s))
    ensures !(SpinnerVisible(s) && EmptyStateVisible(s))
    ensures !(PlayerVisible(s) && EmptyStateVisible(s))
    ensures EmptyStateVisible(s) ==> !ConvertDisabled(s)
    ensures ConvertCaption(s) == "Converting..." <==> SpinnerVisible(s)
  {
  }

  // ---------------------------------------------------------------- handlers

  /** Typing into the text field. */
  function EditText(s: State, t: string): (r: State)
    ensures r.text == t
    ensures r.(text := s.text) == s
  {
    s.(text := t)
  }

  /** Pressing a language button. */
  function SelectLanguage(s: State, l: Language): (r: State)
    ensures r.language == l
    ensures r.(language := s.language) == s
  {
    s.(language := l)
  }

  /** Pressing convert: ignored when the trimmed text is empty or a conversion
      is under way; otherwise a conversion starts and the old audio is
      withdrawn. Text, language and playback are left alone. */
  function Convert(s: State): (r: State)
    ensures AllSpace(s.text) || s.loading ==> r == s
    ensures !AllSpace(s.text) && !s.loading ==>
              r.loading && !r.audioAvailable && r.(loading := s.loading, audioAvailable := s.audioAvailable) == s
  {
    if ConvertDisabled(s) then s else s.(loading := true, audioAvailable := false)
  }

  /** The simulated conversion completes: audio becomes available. */
  function ConversionDone(s: State): (r: State)
    ensures !r.loading && r.audioAvailable
    ensures r.(loading := s.loading, audioAvailable := s.audioAvailable) == s
  {
    s.(loading := false, audioAvailable := true)
  }

  /** Pressing play. Setting `isPlaying` to true when it already is changes
      nothing; otherwise the effect on `isPlaying` resets progress and
      schedules the interval. */
  function Play(s: State): (r: State)
    ensures r.isPlaying
    ensures s.isPlaying ==> r == s
    ensures !s.isPlaying ==> r.timerLive && Progress(r) == 0.0 && r.(isPlaying := false, ticks := s.ticks, timerLive := s.timerLive) == s
  {
    if s.isPlaying then s else s.(isPlaying := true, ticks := 0, timerLive := true)
  }

  /** One firing of the progress interval: below 1 progress grows by 0.02; at
      1 it stays 1, playback stops and the interval is cleared. Without a
      scheduled interval nothing fires. */
  function Tick(s: State): (r: State)
    ensures !s.timerLive ==> r == s
    ensures s.timerLive && Progress(s) < 1.0 ==> Progress(r) == Progress(s) + 0.02 && r.(ticks := s.ticks) == s
    ensures s.timerLive && Progress(s) >= 1.0 ==>
              Progress(r) == 1.0 && !r.isPlaying && !r.timerLive
              && r.(ticks := s.ticks, isPlaying := s.isPlaying, timerLive := s.timerLive) == s
  {
    if !s.timerLive then s
    else if s.ticks >= TicksToEnd then s.(ticks := TicksToEnd, isPlaying := false, timerLive := false)
    else s.(ticks := s.ticks + 1)
  }

  /** Unmounting the screen: the effect's cleanup clears the interval, so no
      tick fires afterwards. */
  function Teardown(s: State): (r: State)
    ensures !r.timerLive && Tick(r) == r
    ensures r.(timerLive := s.timerLive) == s
  {
    s.(timerLive := false)
  }

  // ---------------------------------------------------------------- runs

  datatype Event = TypeText(t: string) | PickLanguage(l: Language) | PressConvert | ConversionFinished | PressPlay | IntervalFires

  /** Whether the event can happen in the state: a disabled button cannot be
      pressed, the conversion timeout is pending exactly while loading, and the
      interval fires only while scheduled. */
  predicate CanOccur(s: State, e: Event) {
    match e
    case TypeText(_) => true
    case PickLanguage(_) => true
    case PressConvert => !ConvertDisabled(s)
    case ConversionFinished => s.loading
    case PressPlay => PlayEnabled(s)
    case IntervalFires => s.timerLive
  }

  function Apply(s: State, e: Event): State {
    match e
    case TypeText(t) => EditText(s, t)
    case PickLanguage(l) => SelectLanguage(s, l)
    case PressConvert => Convert(s)
    case ConversionFinished => ConversionDone(s)
    case PressPlay => Play(s)
    case IntervalFires => Tick(s)
  }

  /** One step: an event that cannot happen leaves the state as it is. */
  function Next(s: State, e: Event): State {
    if CanOccur(s, e) then Apply(s, e) else s
  }

  /** The state after a sequence of events. */
  function Run(s: State, es: seq<Event>): State
    decreases |es|
  {
    if es == [] then s else Run(Next(s, es[0]), es[1..])
  }

  /** Every event keeps the invariant. */
  lemma NextKeepsInv(s: State, e: Event)
    requires Inv(s)
    ensures Inv(Next(s, e))
  {
  }

  /** Every state reached from a good state is good. */
  lemma {:induction false} RunKeepsInv(s: State, es: seq<Event>)
    requires Inv(s)
    ensures Inv(Run(s, es))
    decreases |es|
  {
    if es != [] {
      NextKeepsInv(s, es[0]);
      RunKeepsInv(Next(s, es[0]), es[1..]);
    }
  }

  /** From the mounted screen, whatever happens: never loading with audio
      ready, progress within [0, 1], and the interval live exactly while
      playing. */
  lemma ReachableStatesAreGood(es: seq<Event>)
    ensures var s := Run(Initial, es);
            && !(s.loading && s.audioAvailable)
            && 0.0 <= Progress(s) <= 1.0
            && (s.timerLive <==> s.isPlaying)
  {
    RunKeepsInv(Initial, es);
  }

  /** Playback starts only from a shown, enabled play button, and it starts
      at progress 0. */
  lemma PlayStartsOnlyWhenReady(s: State)
    ensures Next(s, PressPlay).isPlaying && !s.isPlaying ==>
              s.audioAvailable && !s.loading && Progress(Next(s, PressPlay)) == 0.0
  {
  }

  /** Ticks never lower progress and never lift it above 1. */
  lemma TickMonotone(s: State)
    requires Inv(s)
    ensures Progress(s) <= Progress(Next(s, IntervalFires)) <= 1.0
  {
  }

  /** `n` firings of the interval. */
  function Ticks(s: State, n: nat): State
    decreases n
  {
    if n == 0 then s else Ticks(Next(s, IntervalFires), n - 1)
  }

  /** While below the end, each firing adds one tick and nothing else changes. */
  lemma {:induction false} TicksAdvance(s: State, n: nat)
    requires s.timerLive && s.ticks + n <= TicksToEnd
    ensures Ticks(s, n) == s.(ticks := s.ticks + n)
    decreases n
  {
    if n > 0 {
      TicksAdvance(s.(ticks := s.ticks + 1), n - 1);
    }
  }

  /** A full playback: 50 firings after play reach progress 1 still playing,
      and the 51st stops playback and clears the interval, leaving the play
      button enabled again. */
  lemma FullPlayback(s: State)
    requires Inv(s) && PlayEnabled(s)
    ensures var p := Next(s, PressPlay);
            && Progress(Ticks(p, TicksToEnd)) == 1.0 && Ticks(p, TicksToEnd).isPlaying
            && Progress(Ticks(p, TicksToEnd + 1)) == 1.0
            && !Ticks(p, TicksToEnd + 1).isPlaying && !Ticks(p, TicksToEnd + 1).timerLive
            && PlayEnabled(Ticks(p, TicksToEnd + 1))
  {
    var p := Next(s, PressPlay);
    TicksAdvance(p, TicksToEnd);
    var q := Ticks(p, TicksToEnd);
    assert Ticks(p, TicksToEnd + 1) == Ticks(q, 1) by {
      TicksSplit(p, TicksToEnd, 1);
    }
  }

  lemma {:induction false} TicksSplit(s: State, m: nat, n: nat)
    ensures Ticks(s, m + n) == Ticks(Ticks(s, m), n)
    decreases m
  {
    if m > 0 {
      TicksSplit(Next(s, IntervalFires), m - 1, n);
    }
  }

  /** A convert press followed by the end of the conversion shows the player,
      whatever was shown before. */
  lemma ConvertThenDoneShowsPlayer(s: State)
    requires Inv(s) && !ConvertDisabled(s)
    ensures var c := Next(s, PressConvert);
            && SpinnerVisible(c) && !PlayerVisible(c)
            && PlayerVisible(Next(c, ConversionFinished))
            && Next(c, ConversionFinished).text == s.text
  {
  }
}
