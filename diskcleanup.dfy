/**
 * The Disk Cleanup panel: a five-step wizard (0 start, 1 scanning, 2 results,
 * 3 cleaning, 4 done) whose scanning and cleaning steps run a progress bar
 * that a 100 ms interval advances by 5 until it has shown 100 for one tick.
 * Each interval tick is an explicit event here.
 */
module DiskCleanup {

  datatype Cleanup = Cleanup(step: nat, progress: nat)

  const Initial: Cleanup := Cleanup(0, 0)

  /** Steps during which the interval runs. */
  predicate Busy(c: Cleanup)
  {
    c.step == 1 || c.step == 3
  }

  /** The states the wizard can be in: a step up to 4 and a progress bar in fives up to 100. */
  predicate Valid(c: Cleanup)
  {
    c.step <= 4 && c.progress <= 100 && c.progress % 5 == 0
  }

  /** Entering a busy step resets the bar to 0 and starts the interval. */
  function Enter(step: nat): (c: Cleanup)
    ensures c.step == step && c.progress == 0
  {
    Cleanup(step, 0)
  }

  /** The Scan Disk button, shown only at the start. */
  function ScanClicked(c: Cleanup): (r: Cleanup)
    ensures c.step == 0 ==> Busy(r) && r == Cleanup(1, 0)
    ensures c.step != 0 ==> r == c
  {
    if c.step == 0 then Enter(1) else c
  }

  /** The Clean up button, shown only on the results page. */
  function CleanClicked(c: Cleanup): (r: Cleanup)
    ensures c.step == 2 ==> Busy(r) && r == Cleanup(3, 0)
    ensures c.step != 2 ==> r == c
  {
    if c.step == 2 then Enter(3) else c
  }

  /**
   * One interval tick: below 100 the bar grows by 5; at 100 the interval
   * stops and the wizard moves on with the bar left full. Without a running
   * interval nothing happens.
   */
  function Tick(c: Cleanup): (r: Cleanup)
    ensures !Busy(c) ==> r == c
    ensures Busy(c) && c.progress < 100 ==> r.step == c.step && r.progress == c.progress + 5
    ensures Busy(c) && c.progress >= 100 ==> r.step == c.step + 1 && r.progress == 100
  {
    if !Busy(c) then c
    else if c.progress >= 100 then Cleanup(c.step + 1, 100)
    else Cleanup(c.step, c.progress + 5)
  }

  datatype Event = Scan | Clean | TickEvent

  /** One event; a valid wizard stays valid and never goes back a step. */
  function Step(c: Cleanup, e: Event): (r: Cleanup)
    ensures Valid(c) ==> Valid(r) && r.step >= c.step
  {
    match e
    case Scan => ScanClicked(c)
    case Clean => CleanClicked(c)
    case TickEvent => Tick(c)
  }

  function Run(c: Cleanup, events: seq<Event>): Cleanup
    decreases |events|
  {
    if events == [] then c else Run(Step(c, events[0]), events[1..])
  }

  /** Every event keeps the wizard in a valid state, and the step never goes back. */
  lemma {:induction false} RunKeepsValid(c: Cleanup, events: seq<Event>)
    requires Valid(c)
    ensures Valid(Run(c, events)) && Run(c, events).step >= c.step
    decreases |events|
  {
    if events != [] {
      RunKeepsValid(Step(c, events[0]), events[1..]);
    }
  }

  /** `n` ticks in a row. */
  function Ticks(c: Cleanup, n: nat): Cleanup
    decreases n
  {
    if n == 0 then c else Ticks(Tick(c), n - 1)
  }

  /** While the bar has room, each tick adds 5 and the step stays. */
  lemma {:induction false} TicksFill(c: Cleanup, n: nat)
    requires Busy(c) && c.progress + 5 * n <= 100
    ensures Ticks(c, n) == Cleanup(c.step, c.progress + 5 * n)
    decreases n
  {
    if n > 0 {
      TicksFill(Tick(c), n - 1);
    }
  }

  /**
   * A busy step entered with an empty bar takes exactly 21 ticks: twenty to
   * fill the bar and one more to move on. After 20 the step has not changed.
   */
  lemma BusyStepTakes21Ticks(step: nat)
    requires step == 1 || step == 3
    ensures Ticks(Enter(step), 20) == Cleanup(step, 100)
    ensures Ticks(Enter(step), 21) == Cleanup(step + 1, 100)
  {
    TicksFill(Enter(step), 20);
    TicksAppend(Enter(step), 20, 1);
  }

  lemma {:induction false} TicksAppend(c: Cleanup, m: nat, n: nat)
    ensures Ticks(c, m + n) == Ticks(Ticks(c, m), n)
    decreases m
  {
    if m > 0 {
      TicksAppend(Tick(c), m - 1, n);
    }
  }

  /** Scan, 21 ticks, clean, 21 ticks: the wizard is done with a full bar. */
  lemma WholeRun()
    ensures Ticks(CleanClicked(Ticks(ScanClicked(Initial), 21)), 21) == Cleanup(4, 100)
  {
    BusyStepTakes21Ticks(1);
    BusyStepTakes21Ticks(3);
  }

  /** Once done, no event changes anything. */
  lemma DoneIsFinal(c: Cleanup, e: Event)
    requires c.step == 4
    ensures Step(c, e) == c
  {
  }
}
