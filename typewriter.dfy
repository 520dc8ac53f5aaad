/** `TerminalText` (App.tsx:142-162): a text revealed one character per
    interval tick after an initial timeout. Time is abstract: the timeout
    firing and each interval tick are steps the environment takes. */
module Typewriter {

  /** Which timer of the current effect run is live. */
  datatype Phase =
    | Waiting   // the initial `setTimeout` is pending
    | Ticking   // the `setInterval` is running
    | Stopped   // the interval was cleared, or the component unmounted

  function Min(a: int, b: int): int { if a <= b then a else b }

  /** `s.slice(0, n)` for a non-negative `n`: the end is clamped to the
      length. */
  function SlicePrefix(s: string, n: nat): (r: string)
    ensures |r| == Min(n, |s|) && r <= s
  {
    s[..Min(n, |s|)]
  }

  class TerminalText {
    /** The `text` prop of the current effect run. */
    var text: string
    /** The `displayed` state: it survives effect re-runs. */
    var displayed: string
    /** The effect run's local `index` counter. */
    var index: nat
    var phase: Phase

    /** Once a tick has happened in this run, `displayed` is the first
        `index` characters of the text (all of it once `index` passes the
        end); the interval only runs while characters remain (an empty text
        gets its one tick); the timeout only waits before the first tick. */
    ghost predicate Valid()
      reads this
    {
      && (index <= |text| || (text == [] && index == 1))
      && (index > 0 ==> displayed == text[..Min(index, |text|)])
      && (phase == Ticking ==> index < |text| || index == 0)
      && (phase == Waiting ==> index == 0)
    }

    /** Mounting: `displayed` starts empty and the effect schedules the
        initial timeout. */
    constructor (t: string)
      ensures Valid()
      ensures text == t && displayed == "" && index == 0 && phase == Waiting
    {
      text := t;
      displayed := "";
      index := 0;
      phase := Waiting;
    }

    /** The initial timeout fires and starts the interval; a cleared
        timeout never fires. */
    method TimeoutFires()
      requires Valid()
      modifies this
      ensures Valid()
      ensures phase == (if old(phase) == Waiting then Ticking else old(phase))
      ensures text == old(text) && displayed == old(displayed) && index == old(index)
    {
      if phase == Waiting {
        phase := Ticking;
      }
    }

    /** One interval tick: show one more character, advance, and clear the
        interval once the end is reached. A cleared interval never fires,
        so then nothing changes. */
    method IntervalFires()
      requires Valid()
      modifies this
      ensures Valid()
      ensures text == old(text)
      ensures old(phase) != Ticking ==> displayed == old(displayed) && index == old(index) && phase == old(phase)
      ensures old(phase) == Ticking ==>
        && index == old(index) + 1
        && displayed == SlicePrefix(text, index)
        && (phase == Stopped <==> index >= |text|)
        && (phase == Ticking <==> index < |text|)
    {
      if phase == Ticking {
        displayed := SlicePrefix(text, index + 1);
        index := index + 1;
        if index >= |text| {
          phase := Stopped;
        }
      }
    }

    /** A new `text` (or `delay`, `speed`) re-runs the effect: the old
        timers are cleared and a fresh run starts from index 0, but
        `displayed` keeps its old value until the new run's first tick. */
    method ChangeText(t: string)
      requires Valid()
      modifies this
      ensures Valid()
      ensures text == t && index == 0 && phase == Waiting
      ensures displayed == old(displayed)
    {
      text := t;
      index := 0;
      phase := Waiting;
    }

    /** Unmounting clears both timers. */
    method Unmount()
      requires Valid()
      modifies this
      ensures Valid()
      ensures phase == Stopped
      ensures text == old(text) && displayed == old(displayed) && index == old(index)
    {
      phase := Stopped;
    }
  }

  /** After the timeout and `k` ticks, at most the length of the text (at
      least one), the shown text is the first `k` characters and the
      interval is cleared exactly when the whole text is shown. */
  method RevealTicks(t: string, k: nat) returns (shown: string, cleared: bool)
    requires 1 <= k <= |t| || (t == [] && k == 1)
    ensures shown == t[..Min(k, |t|)]
    ensures cleared <==> k >= |t|
  {
    var tt := new TerminalText(t);
    tt.TimeoutFires();
    var n := 0;
    while n < k
      invariant tt.Valid() && tt.text == t
      invariant n <= k && tt.index == n
      invariant tt.phase == (if n > 0 && n >= |t| then Stopped else Ticking)
      decreases k - n
    {
      tt.IntervalFires();
      n := n + 1;
    }
    shown := tt.displayed;
    cleared := tt.phase == Stopped;
  }
}
