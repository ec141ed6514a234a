/**
 * The live analysis gate (`analyzeLive`): an `isTyping` flag that throttles
 * re-classification while the user types. Input that arrives while a timer
 * is armed is dropped, not rescheduled, and the text classified when the
 * timer fires is the one captured when it was armed. Timers are an explicit
 * queue of armed callbacks, each holding its captured text; wall-clock time
 * is not modelled.
 */
module LiveAnalysis {
  import opened Wrappers
  import opened Classifier
  import ClassifierLaws

  /** Inputs shorter than this are ignored. */
  const MinLength: nat := 3

  /** The typing flag and the texts captured by the timers still to fire. */
  datatype LiveState = LiveState(isTyping: bool, armed: seq<string>)

  const Idle: LiveState := LiveState(false, [])

  /** At most one timer is armed, and the flag is set exactly while one is. */
  predicate Valid(s: LiveState) {
    |s.armed| <= 1 && (s.isTyping <==> |s.armed| == 1)
  }

  /** `analyzeLive(query)`. */
  function OnInput(s: LiveState, text: string): (r: LiveState)
    ensures Valid(s) ==> Valid(r)
    ensures |text| < MinLength || s.isTyping ==> r == s
    ensures Valid(s) && |text| >= MinLength && !s.isTyping ==> r == LiveState(true, [text])
  {
    if |text| < MinLength || s.isTyping then s
    else LiveState(true, s.armed + [text])
  }

  /**
   * The earliest armed timer fires: its captured text is classified, the
   * indicator is asked for when the confidence exceeds 0.6, and the flag is
   * cleared. With no timer armed nothing happens.
   */
  function Fire(s: LiveState): (r: (LiveState, bool))
    ensures Valid(s) ==> Valid(r.0) && r.0 == Idle
    ensures r.1 <==> |s.armed| > 0 && Analyze(s.armed[0]).Detected?
  {
    if |s.armed| == 0 then (s, false)
    else
      var a := Analyze(s.armed[0]);
      ClassifierLaws.ConfidentIffDetected(a);
      (LiveState(false, s.armed[1..]), Confident(a))
  }

  /** A burst of keystrokes with no timer firing in between. */
  function InputAll(s: LiveState, texts: seq<string>): LiveState
    decreases |texts|
  {
    if |texts| == 0 then s else InputAll(OnInput(s, texts[0]), texts[1..])
  }

  /** The first text of a burst long enough to be considered. */
  function FirstLong(texts: seq<string>): Option<string>
    decreases |texts|
  {
    if |texts| == 0 then None
    else if |texts[0]| >= MinLength then Some(texts[0])
    else FirstLong(texts[1..])
  }

  /** While a timer is armed every keystroke is dropped. */
  lemma {:induction false} BusyDropsInput(s: LiveState, texts: seq<string>)
    requires s.isTyping
    ensures InputAll(s, texts) == s
    decreases |texts|
  {
    if |texts| > 0 {
      BusyDropsInput(s, texts[1..]);
    }
  }

  /**
   * Throttle, not debounce: a burst typed from idle arms exactly one timer,
   * holding the burst's first long-enough text rather than its last; a
   * burst with no such text arms nothing.
   */
  lemma {:induction false} BurstKeepsFirst(s: LiveState, texts: seq<string>)
    requires Valid(s) && !s.isTyping
    ensures FirstLong(texts).None? ==> InputAll(s, texts) == s
    ensures FirstLong(texts).Some? ==> InputAll(s, texts) == LiveState(true, [FirstLong(texts).value])
    decreases |texts|
  {
    if |texts| > 0 {
      var s1 := OnInput(s, texts[0]);
      if |texts[0]| >= MinLength {
        BusyDropsInput(s1, texts[1..]);
      } else {
        BurstKeepsFirst(s1, texts[1..]);
      }
    }
  }

  /**
   * A burst from idle followed by the timer firing classifies at most one
   * text, the burst's first long-enough one, and returns to idle.
   */
  lemma BurstThenFire(texts: seq<string>)
    ensures Fire(InputAll(Idle, texts)).0 == Idle
    ensures Fire(InputAll(Idle, texts)).1 <==>
              FirstLong(texts).Some? && Analyze(FirstLong(texts).value).Detected?
  {
    BurstKeepsFirst(Idle, texts);
  }
}
