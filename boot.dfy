/** `BootScreen` (App.tsx:184-236): seven boot lines revealed on a jittered
    timeline, then `onComplete` 800 ms after the last one. Time is an
    abstract clock; the browser's timer queue is a list of pending timers,
    and the environment's only moves are "the earliest timer fires",
    "the effect runs" and "the effect is torn down". */
module Boot {

  /** Line `i` of `bootLines`. */
  function BootLine(i: nat): string {
    if i == 0 then "INITIALIZING KERNEL..."
    else if i == 1 then "LOADING SHADER MODULES [OK]"
    else if i == 2 then "MOUNTING FILE SYSTEM..."
    else if i == 3 then "CONNECTING TO VIBE_NET..."
    else if i == 4 then "ESTABLISHING SECURE UPLINK..."
    else if i == 5 then "LOADING USER PROFILE..."
    else "SYSTEM READY."
  }

  /** The first `n` lines of `bootLines`. */
  function Shown(n: nat): (s: seq<string>)
    ensures |s| == n
  {
    seq(n, i requires 0 <= i < n => BootLine(i))
  }

  /** `bootLines`. */
  function Script(): (lines: seq<string>)
    ensures |lines| == LineCount
    ensures lines[0] == "INITIALIZING KERNEL..." && lines[LineCount - 1] == "SYSTEM READY."
    ensures forall k :: 0 <= k < LineCount - 1 ==> lines[k] != lines[LineCount - 1]
  {
    Shown(LineCount)
  }

  const LineCount: nat := 7

  /** The lines shown so far are a prefix of the script, and each further
      line extends it by the next script line. */
  lemma ShownIsScriptPrefix(n: nat)
    requires n <= LineCount
    ensures Shown(n) <= Script()
    ensures n < LineCount ==> Shown(n + 1) == Shown(n) + [Script()[n]]
  {
  }

  /** The delay of the completion timer scheduled by the last line. */
  const CompleteDelay: real := 800.0

  /** One draw of `Math.random() * 300 + 100` per line: a value in
      [100, 400). */
  predicate ValidJitter(jitter: seq<real>) {
    |jitter| == LineCount && forall i :: 0 <= i < |jitter| ==> 100.0 <= jitter[i] < 400.0
  }

  function Sum(s: seq<real>): real {
    if s == [] then 0.0 else Sum(s[..|s| - 1]) + s[|s| - 1]
  }

  /** The value of `delay` when line `i` is scheduled: the sum of the
      jitter drawn after the earlier lines. */
  function Offsets(jitter: seq<real>): (offs: seq<real>)
    ensures |offs| == |jitter|
  {
    seq(|jitter|, i requires 0 <= i < |jitter| => Sum(jitter[..i]))
  }

  /** Line 0 is scheduled at offset 0, each later line 100 to 400 ms after
      the one before, so the offsets strictly increase. */
  lemma OffsetsIncrease(jitter: seq<real>)
    requires ValidJitter(jitter)
    ensures Offsets(jitter)[0] == 0.0
    ensures forall i :: 0 < i < LineCount ==>
      Offsets(jitter)[i] == Offsets(jitter)[i - 1] + jitter[i - 1]
      && 100.0 <= Offsets(jitter)[i] - Offsets(jitter)[i - 1] < 400.0
    ensures forall i, k :: 0 <= i < k < LineCount ==> Offsets(jitter)[i] < Offsets(jitter)[k]
  {
    var offs := Offsets(jitter);
    assert jitter[..0] == [];
    forall i | 0 < i < LineCount
      ensures offs[i] == offs[i - 1] + jitter[i - 1]
    {
      assert jitter[..i][..i - 1] == jitter[..i - 1];
    }
    forall i, k | 0 <= i < k < LineCount
      ensures offs[i] < offs[k]
    {
      OffsetsChain(jitter, i, k);
    }
  }

  lemma {:induction false} OffsetsChain(jitter: seq<real>, i: nat, k: nat)
    requires ValidJitter(jitter) && i < k < LineCount
    requires forall m :: 0 < m < LineCount ==>
      Offsets(jitter)[m] == Offsets(jitter)[m - 1] + jitter[m - 1]
    ensures Offsets(jitter)[i] < Offsets(jitter)[k]
    decreases k - i
  {
    if i + 1 < k {
      OffsetsChain(jitter, i + 1, k);
    }
  }

  /** What a pending timer does when it fires. */
  datatype Action = ShowLine(index: nat) | Complete

  datatype Timer = Timer(handle: nat, due: real, action: Action)

  /** The line timers of one effect run still pending once `from` lines
      have been shown: handles `first + from ...`, due at the run's start
      plus each line's offset. */
  function LineTimers(first: nat, start: real, offs: seq<real>, from: nat): seq<Timer>
    requires from <= LineCount == |offs|
  {
    seq(LineCount - from, k requires 0 <= k < LineCount - from =>
      Timer(first + from + k, start + offs[from + k], ShowLine(from + k)))
  }

  /** The handles `first, first + 1, ..., first + n - 1`. */
  function Handles(first: nat, n: nat): seq<nat> {
    seq(n, k requires 0 <= k < n => first + k)
  }

  /** Firing the first of the pending line timers leaves the rest. */
  lemma LineTimersStep(first: nat, start: real, offs: seq<real>, from: nat)
    requires from < LineCount == |offs|
    ensures LineTimers(first, start, offs, from)[0] == Timer(first + from, start + offs[from], ShowLine(from))
    ensures LineTimers(first, start, offs, from)[1..] == LineTimers(first, start, offs, from + 1)
  {
  }

  /** The position of the timer that fires next: the earliest due time,
      the first scheduled among equals. */
  method EarliestIndex(ts: seq<Timer>) returns (i: nat)
    requires ts != []
    ensures i < |ts|
    ensures forall j :: 0 <= j < |ts| ==> ts[i].due <= ts[j].due
    ensures forall j :: 0 <= j < i ==> ts[i].due < ts[j].due
  {
    i := 0;
    var j := 1;
    while j < |ts|
      invariant 1 <= j <= |ts| && i < j
      invariant forall m :: 0 <= m < j ==> ts[i].due <= ts[m].due
      invariant forall m :: 0 <= m < i ==> ts[i].due < ts[m].due
    {
      if ts[j].due < ts[i].due {
        i := j;
      }
      j := j + 1;
    }
  }

  lemma HeadIsMember(ts: seq<Timer>)
    ensures ts != [] ==> ts[0] in ts
  {
  }

  /** `ts` with the timer whose handle is `h` (if any) removed. */
  function Cleared(ts: seq<Timer>, h: nat): (r: seq<Timer>)
    ensures forall t :: t in r <==> t in ts && t.handle != h
  {
    if ts == [] then []
    else if ts[0].handle == h then Cleared(ts[1..], h)
    else [ts[0]] + Cleared(ts[1..], h)
  }

  /** The effect's `forEach` over the script: line `i` is scheduled at
      the current `delay`, which then grows by the `i`-th jitter; the
      timers get consecutive handles from `firstHandle`. */
  method ScheduleLines(jitter: seq<real>, now: real, firstHandle: nat) returns (scheduled: seq<Timer>, handles: seq<nat>)
    requires ValidJitter(jitter)
    ensures scheduled == LineTimers(firstHandle, now, Offsets(jitter), 0)
    ensures handles == Handles(firstHandle, LineCount)
  {
    ghost var offs := Offsets(jitter);
    scheduled := [];
    handles := [];
    var h := firstHandle;
    var delay: real := 0.0;
    var i: nat := 0;
    while i < LineCount
      invariant i <= LineCount
      invariant delay == Sum(jitter[..i])
      invariant h == firstHandle + i
      invariant |scheduled| == i && |handles| == i
      invariant forall k :: 0 <= k < i ==> scheduled[k] == Timer(firstHandle + k, now + offs[k], ShowLine(k))
      invariant forall k :: 0 <= k < i ==> handles[k] == firstHandle + k
    {
      scheduled := scheduled + [Timer(h, now + delay, ShowLine(i))];
      handles := handles + [h];
      h := h + 1;
      assert jitter[..i + 1][..i] == jitter[..i];
      delay := delay + jitter[i];
      i := i + 1;
    }
  }

  /** The bookkeeping of one effect run: the lines shown before it
      started, how many of its lines have been shown, its start time, line
      offsets and first handle, whether its completion timer has fired, and
      the completion count before it started. */
  datatype Run = Run(
    base: seq<string>,
    revealed: nat,
    start: real,
    offsets: seq<real>,
    first: nat,
    completeFired: bool,
    baseCompletions: nat)

  /** A run's offsets strictly increase, and its completion fires only
      after all of its lines. */
  ghost predicate WellFormed(r: Run) {
    && r.revealed <= LineCount
    && |r.offsets| == LineCount
    && (forall i, k :: 0 <= i < k < LineCount ==> r.offsets[i] < r.offsets[k])
    && (r.completeFired ==> r.revealed == LineCount)
  }

  /** The completion timer a run schedules from its last line. */
  function CompletionTimer(r: Run): Timer
    requires |r.offsets| == LineCount
  {
    Timer(r.first + LineCount, r.start + r.offsets[LineCount - 1] + CompleteDelay, Complete)
  }

  /** The timers of a run still pending: the unshown lines in order, then
      the completion timer once the last line was shown and until it
      fires. */
  function Pending(r: Run): seq<Timer>
    requires WellFormed(r)
  {
    LineTimers(r.first, r.start, r.offsets, r.revealed)
    + (if r.revealed == LineCount && !r.completeFired then [CompletionTimer(r)] else [])
  }

  /** The handles in a run's `timeouts` array: its line timers', then its
      completion timer's once the last line was shown. */
  function RunHandles(r: Run): seq<nat> {
    Handles(r.first, LineCount + (if r.revealed == LineCount then 1 else 0))
  }

  /** The due time of a run's next timer. */
  function NextDue(r: Run): real
    requires WellFormed(r)
  {
    if r.revealed < LineCount then r.start + r.offsets[r.revealed]
    else r.start + r.offsets[LineCount - 1] + CompleteDelay
  }

  /** A line of a run fires: the rest of its timers stay pending, and the
      last line adds the completion timer and its handle. */
  lemma LineStep(r: Run)
    requires WellFormed(r) && r.revealed < LineCount
    ensures var r' := r.(revealed := r.revealed + 1);
      && WellFormed(r')
      && Pending(r)[0] == Timer(r.first + r.revealed, r.start + r.offsets[r.revealed], ShowLine(r.revealed))
      && Pending(r') == Pending(r)[1..] + (if r'.revealed == LineCount then [CompletionTimer(r)] else [])
      && RunHandles(r') == RunHandles(r) + (if r'.revealed == LineCount then [r.first + LineCount] else [])
      && Pending(r)[0].due < NextDue(r')
  {
    LineTimersStep(r.first, r.start, r.offsets, r.revealed);
  }

  /** The completion of a run fires: nothing of it stays pending. */
  lemma CompletionStep(r: Run)
    requires WellFormed(r) && r.revealed == LineCount && !r.completeFired
    ensures var r' := r.(completeFired := true);
      && WellFormed(r')
      && Pending(r) == [CompletionTimer(r)] && Pending(r') == []
      && RunHandles(r') == RunHandles(r)
  {
  }

  /** The pending timers of a run are in strictly increasing order of due
      time, the first due at `NextDue`, and every handle is in the run's
      `timeouts`. */
  lemma PendingOrdered(r: Run)
    requires WellFormed(r)
    ensures forall i, j :: 0 <= i < j < |Pending(r)| ==> Pending(r)[i].due < Pending(r)[j].due
    ensures Pending(r) != [] ==> Pending(r)[0].due == NextDue(r)
    ensures Pending(r) == [] <==> r.completeFired
    ensures Pending(r) != [] ==>
      Pending(r)[0].action == (if r.revealed < LineCount then ShowLine(r.revealed) else Complete)
    ensures forall t :: t in Pending(r) ==> t.handle in RunHandles(r)
  {
    var p := Pending(r);
    forall t | t in p ensures t.handle in RunHandles(r) {
      var k :| 0 <= k < |p| && p[k] == t;
      if k < LineCount - r.revealed {
        assert t.handle == RunHandles(r)[r.revealed + k];
      } else {
        assert t.handle == RunHandles(r)[LineCount];
      }
    }
  }

  class BootScreen {
    /** The abstract clock, in milliseconds. */
    var now: real
    /** The browser's pending timers of this component. */
    var timers: seq<Timer>
    /** The next handle `setTimeout` returns. */
    var nextHandle: nat
    /** The current effect run's `timeouts` array. */
    var timeouts: seq<nat>
    /** The `lines` state. */
    var lines: seq<string>
    /** `mountedRef.current`. */
    var mounted: bool
    /** How many times `onComplete` has been called. */
    var completions: nat

    /** An effect run is live (set up and not yet torn down). */
    ghost var running: bool
    /** The bookkeeping of the latest effect run. */
    ghost var run: Run

    /** `lines` is what was shown before the latest run plus that run's
        lines so far, in script order; nothing is pending without a live
        run; during a live run the ref is set and the pending timers,
        `timeouts`, the clock and the completion count are those of the
        run's bookkeeping. */
    ghost predicate Valid()
      reads this
    {
      && run.revealed <= LineCount
      && lines == run.base + Shown(run.revealed)
      && (!running ==> timers == [])
      && (running ==>
           && mounted
           && WellFormed(run)
           && run.start <= now <= NextDue(run)
           && timers == Pending(run)
           && timeouts == RunHandles(run)
           && nextHandle == run.first + |timeouts|
           && completions == run.baseCompletions + (if run.completeFired then 1 else 0))
    }

    /** Mounting, before the effect has run: nothing shown, no timer, the
        ref initialised to `true`. */
    constructor ()
      ensures Valid() && !running
      ensures lines == [] && timers == [] && mounted && completions == 0 && now == 0.0
    {
      now := 0.0;
      timers := [];
      nextHandle := 0;
      timeouts := [];
      lines := [];
      mounted := true;
      completions := 0;
      running := false;
      run := Run([], 0, 0.0, [], 0, false, 0);
    }

    /** The effect body: set the ref, schedule the seven line timers and
        keep their handles in a fresh `timeouts` array. `lines` is left as
        it is, so lines shown by an earlier run stay. */
    method RunEffect(jitter: seq<real>)
      requires Valid() && !running && ValidJitter(jitter)
      modifies this
      ensures Valid() && running && mounted
      ensures lines == old(lines) && completions == old(completions) && now == old(now)
      ensures timers == LineTimers(old(nextHandle), now, Offsets(jitter), 0)
      ensures timeouts == Handles(old(nextHandle), LineCount)
      ensures run == Run(lines, 0, now, Offsets(jitter), old(nextHandle), false, completions)
    {
      OffsetsIncrease(jitter);
      mounted := true;
      var scheduled, ts := ScheduleLines(jitter, now, nextHandle);
      running := true;
      run := Run(lines, 0, now, Offsets(jitter), nextHandle, false, completions);
      timers := scheduled;
      timeouts := ts;
      nextHandle := nextHandle + LineCount;
    }

    /** The effect's cleanup: clear the ref, then clear every handle in
        `timeouts`. Nothing of this component is left pending. */
    method Teardown()
      requires Valid()
      modifies this
      ensures Valid() && !running && !mounted && timers == []
      ensures lines == old(lines) && completions == old(completions) && now == old(now)
    {
      if running {
        PendingOrdered(run);
      }
      mounted := false;
      var remaining := timers;
      var i := 0;
      while i < |timeouts|
        invariant i <= |timeouts|
        invariant forall t :: t in remaining <==> t in timers && t.handle !in timeouts[..i]
      {
        remaining := Cleared(remaining, timeouts[i]);
        assert timeouts[..i + 1] == timeouts[..i] + [timeouts[i]];
        i := i + 1;
      }
      assert timeouts[..i] == timeouts;
      HeadIsMember(remaining);
      timers := remaining;
      running := false;
    }

    /** The earliest pending timer fires. A line callback that finds the
        ref set appends its line, and the last line's callback schedules
        the completion 800 ms later; the completion callback calls
        `onComplete` if the ref is still set. With nothing pending nothing
        happens. */
    method FireNext()
      requires Valid()
      modifies this
      ensures Valid() && running == old(running) && mounted == old(mounted)
      ensures old(timers) == [] ==>
        now == old(now) && timers == [] && lines == old(lines) && completions == old(completions)
        && run == old(run)
      ensures old(timers) != [] ==> now == old(timers)[0].due && old(now) <= now
      ensures old(timers) != [] && old(timers)[0].action.ShowLine? ==>
        && old(timers)[0].action.index == old(run.revealed)
        && run == old(run).(revealed := old(run.revealed) + 1)
        && lines == old(lines) + [BootLine(old(run.revealed))]
        && completions == old(completions)
        && timers == old(timers)[1..] +
             (if run.revealed == LineCount then [Timer(old(nextHandle), now + CompleteDelay, Complete)] else [])
      ensures old(timers) != [] && old(timers)[0].action.Complete? ==>
        && old(run.revealed) == LineCount && !old(run.completeFired)
        && run == old(run).(completeFired := true)
        && lines == old(lines) && completions == old(completions) + 1 && timers == old(timers)[1..]
    {
      if timers == [] {
        return;
      }
      PendingOrdered(run);
      var i := EarliestIndex(timers);
      assert i == 0;
      if timers[i].action.ShowLine? {
        LineFires();
      } else {
        CompletionFires();
      }
    }

    /** A line timer fires: `setLines(prev => [...prev, line])`, and for
        the last line the completion timer is scheduled and its handle
        pushed onto `timeouts`. */
    method LineFires()
      requires Valid() && running && timers != [] && timers[0].action.ShowLine?
      modifies this
      ensures Valid() && running && mounted
      ensures now == old(timers)[0].due
      ensures old(timers)[0].action.index == old(run.revealed)
      ensures run == old(run).(revealed := old(run.revealed) + 1)
      ensures lines == old(lines) + [BootLine(old(run.revealed))]
      ensures completions == old(completions)
      ensures timers == old(timers)[1..] +
        (if run.revealed == LineCount then [Timer(old(nextHandle), now + CompleteDelay, Complete)] else [])
    {
      ghost var r := run;
      PendingOrdered(r);
      LineStep(r);
      ghost var r' := r.(revealed := r.revealed + 1);
      var t := timers[0];
      var k := t.action.index;
      assert k == r.revealed && t.due == r.start + r.offsets[k];
      assert Shown(r'.revealed) == Shown(r.revealed) + [BootLine(k)];
      timers := timers[1..];
      now := t.due;
      if mounted {
        lines := lines + [BootLine(k)];
        run := r';
        if k == LineCount - 1 {
          var h := nextHandle;
          assert h == r.first + LineCount;
          assert Timer(h, now + CompleteDelay, Complete) == CompletionTimer(r);
          nextHandle := nextHandle + 1;
          timers := timers + [Timer(h, now + CompleteDelay, Complete)];
          timeouts := timeouts + [h];
        }
      }
    }

    /** The completion timer fires: `onComplete()` if the ref is set. */
    method CompletionFires()
      requires Valid() && running && timers != [] && timers[0].action.Complete?
      modifies this
      ensures Valid() && running && mounted
      ensures now == old(timers)[0].due
      ensures old(run.revealed) == LineCount && !old(run.completeFired)
      ensures run == old(run).(completeFired := true)
      ensures lines == old(lines) && completions == old(completions) + 1 && timers == old(timers)[1..]
    {
      PendingOrdered(run);
      CompletionStep(run);
      var t := timers[0];
      timers := timers[1..];
      now := t.due;
      if mounted {
        completions := completions + 1;
      }
      run := run.(completeFired := true);
    }
  }

  /** Once the effect is torn down, however many times the environment
      is asked to fire a timer, no line is appended and `onComplete` is not
      called. */
  method QuietAfterTeardown(b: BootScreen, n: nat)
    requires b.Valid() && !b.running
    modifies b
    ensures b.Valid() && !b.running && b.timers == []
    ensures b.lines == old(b.lines) && b.completions == old(b.completions)
  {
    var k := 0;
    while k < n
      invariant b.Valid() && !b.running && b.timers == []
      invariant b.lines == old(b.lines) && b.completions == old(b.completions)
    {
      b.FireNext();
      k := k + 1;
    }
  }

  /** A whole boot with nothing torn down: after the seven line timers and
      the completion timer have fired, all seven lines are shown in script
      order, `onComplete` was called once, and the clock stands 800 ms after
      the last line's offset. */
  method BootToCompletion(jitter: seq<real>) returns (shown: seq<string>, completed: nat, finish: real)
    requires ValidJitter(jitter)
    ensures shown == Script()
    ensures completed == 1
    ensures finish == Offsets(jitter)[LineCount - 1] + CompleteDelay
  {
    var b := new BootScreen();
    b.RunEffect(jitter);
    var n := 0;
    while n < LineCount + 1
      invariant n <= LineCount + 1
      invariant b.Valid() && b.running
      invariant b.run.start == 0.0 && b.run.offsets == Offsets(jitter)
      invariant b.run.base == [] && b.run.baseCompletions == 0
      invariant b.run.revealed == (if n <= LineCount then n else LineCount)
      invariant b.run.completeFired <==> n == LineCount + 1
      invariant n > 0 ==> b.now == (if n <= LineCount then b.run.offsets[n - 1] else b.run.offsets[LineCount - 1] + CompleteDelay)
    {
      PendingOrdered(b.run);
      b.FireNext();
      n := n + 1;
    }
    shown := b.lines;
    completed := b.completions;
    finish := b.now;
  }
}
