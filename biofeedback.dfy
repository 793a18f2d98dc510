/** The guided-breathing screen: every second the on-screen counter counts
    down from 4, the phase moves on (inhale, hold, exhale, inhale, ...) on
    the tick after the counter showed 1, and a five-minute countdown runs
    beside it. */
module Biofeedback {
  import opened Text

  datatype Phase = Inhale | Hold | Exhale

  /** The label shown for each phase. */
  function PhaseLabel(p: Phase): string {
    match p
    case Inhale => "Inhala"
    case Hold => "Mantén"
    case Exhale => "Exhala"
  }

  /** The phase that follows `p`. */
  function NextPhase(p: Phase): (r: Phase)
    ensures r != p
  {
    match p
    case Inhale => Hold
    case Hold => Exhale
    case Exhale => Inhale
  }

  lemma PhaseCycle(p: Phase)
    ensures NextPhase(NextPhase(NextPhase(p))) == p
  {
  }

  /** The phase and the number on the counter. */
  datatype Breath = Breath(phase: Phase, counter: int)

  const SecondsPerPhase := 4
  const SessionSeconds := 300

  predicate InRange(b: Breath) {
    1 <= b.counter <= SecondsPerPhase
  }

  /** The counter updater of one tick: at 1 the phase moves on and the
      counter is reset, otherwise it counts down. */
  function Advance(b: Breath): (r: Breath)
    ensures InRange(b) ==> InRange(r)
    ensures r.phase != b.phase <==> b.counter == 1
    ensures b.counter == 1 ==> r == Breath(NextPhase(b.phase), SecondsPerPhase)
  {
    if b.counter == 1 then Breath(NextPhase(b.phase), SecondsPerPhase)
    else Breath(b.phase, b.counter - 1)
  }

  /** The time updater of one tick: down by one, never below zero. */
  function Countdown(t: int): (r: int)
    ensures t > 0 ==> r == t - 1
    ensures t <= 0 ==> r == 0
  {
    if t > 0 then t - 1 else 0
  }

  /** The state after `n` ticks. */
  function AdvanceN(b: Breath, n: nat): Breath
    decreases n
  {
    if n == 0 then b else AdvanceN(Advance(b), n - 1)
  }

  function CountdownN(t: int, n: nat): int
    decreases n
  {
    if n == 0 then t else CountdownN(Countdown(t), n - 1)
  }

  /** After `n` ticks the countdown shows `t - n`, or zero once it ran out. */
  lemma {:induction false} CountdownAfter(t: int, n: nat)
    requires t >= 0
    ensures CountdownN(t, n) == if t >= n then t - n else 0
    decreases n
  {
    if n > 0 {
      CountdownAfter(Countdown(t), n - 1);
    }
  }

  /** Ticks compose. */
  lemma {:induction false} AdvanceAdd(b: Breath, m: nat, n: nat)
    ensures AdvanceN(b, m + n) == AdvanceN(AdvanceN(b, m), n)
    decreases m
  {
    if m > 0 {
      AdvanceAdd(Advance(b), m - 1, n);
    }
  }

  /** While the counter is above 1 the phase stays and the counter drops by
      one per tick. */
  lemma {:induction false} CountDownWithinPhase(b: Breath, k: nat)
    requires k < b.counter
    ensures AdvanceN(b, k) == Breath(b.phase, b.counter - k)
    decreases k
  {
    if k > 0 {
      CountDownWithinPhase(Advance(b), k - 1);
    }
  }

  /** A phase entered with a full counter lasts exactly four ticks. */
  lemma PhaseLastsFourTicks(p: Phase)
    ensures AdvanceN(Breath(p, SecondsPerPhase), SecondsPerPhase) == Breath(NextPhase(p), SecondsPerPhase)
  {
    var b := Breath(p, SecondsPerPhase);
    CountDownWithinPhase(b, 3);
    AdvanceAdd(b, 3, 1);
  }

  /** Every twelve ticks the exercise is back where it was. */
  lemma BreathingCycle(b: Breath)
    requires InRange(b)
    ensures AdvanceN(b, 3 * SecondsPerPhase) == b
  {
    var c := b.counter;
    var p := b.phase;
    // The current phase runs out.
    CountDownWithinPhase(b, c - 1);
    AdvanceAdd(b, c - 1, 1);
    assert AdvanceN(b, c) == Breath(NextPhase(p), SecondsPerPhase);
    // Two full phases.
    PhaseLastsFourTicks(NextPhase(p));
    PhaseLastsFourTicks(NextPhase(NextPhase(p)));
    AdvanceAdd(b, c, 4);
    AdvanceAdd(b, c + 4, 4);
    PhaseCycle(p);
    assert AdvanceN(b, c + 8) == Breath(p, SecondsPerPhase);
    // Back into the first phase up to the same counter.
    CountDownWithinPhase(Breath(p, SecondsPerPhase), 4 - c);
    AdvanceAdd(b, c + 8, 4 - c);
  }

  /** The screen's state. */
  class Breathing {
    var phase: Phase
    var counter: int
    var timeLeft: int

    ghost predicate Valid()
      reads this
    {
      InRange(Breath(phase, counter)) && 0 <= timeLeft <= SessionSeconds
    }

    constructor ()
      ensures Valid()
      ensures phase == Inhale && counter == SecondsPerPhase && timeLeft == SessionSeconds
    {
      phase := Inhale;
      counter := SecondsPerPhase;
      timeLeft := SessionSeconds;
    }

    /** One interval callback. */
    method Tick()
      requires Valid()
      modifies this
      ensures Valid()
      ensures Breath(phase, counter) == Advance(Breath(old(phase), old(counter)))
      ensures timeLeft == Countdown(old(timeLeft))
    {
      if counter == 1 {
        if phase == Inhale {
          phase := Hold;
        } else if phase == Hold {
          phase := Exhale;
        } else {
          phase := Inhale;
        }
        counter := SecondsPerPhase;
      } else {
        counter := counter - 1;
      }
      timeLeft := if timeLeft > 0 then timeLeft - 1 else 0;
    }
  }

  /** `formatTime`: zero-padded minutes and seconds joined by ':'. */
  function FormatTime(seconds: nat): string {
    Pad2(seconds / 60) + ":" + Pad2(seconds % 60)
  }

  /** Below 100 minutes the text is "MM:SS" and reading both fields back
      gives the number of seconds. */
  lemma FormatTimeReadsBack(seconds: nat)
    requires seconds < 6000
    ensures |FormatTime(seconds)| == 5 && FormatTime(seconds)[2] == ':'
    ensures DigitsValue(FormatTime(seconds)[..2]) * 60 + DigitsValue(FormatTime(seconds)[3..]) == seconds
  {
    var m, s := seconds / 60, seconds % 60;
    Pad2Value(m);
    Pad2Value(s);
    var t := FormatTime(seconds);
    assert t[..2] == Pad2(m);
    assert t[3..] == Pad2(s);
  }

  /** After the 300th tick the clock reads zero and stays there. */
  lemma SessionRunsOut(n: nat)
    requires n >= SessionSeconds
    ensures CountdownN(SessionSeconds, n) == 0
  {
    CountdownAfter(SessionSeconds, n);
  }

  /** The clock starts at "05:00". */
  lemma StartsAtFiveMinutes()
    ensures FormatTime(SessionSeconds) == "05:00"
  {
    assert Pad2(5) == "05";
    assert Pad2(0) == "00";
  }
}
