/**
 * The integer jitter of the live monitors: the Resource Monitor's per-process
 * CPU figure and the Server Manager's per-server CPU and memory figures. Each
 * interval tick adds a random integer offset and clamps the result. The
 * random draw is a parameter: `roll` stands for `Math.floor(Math.random() * k)`,
 * an integer in 0..k-1.
 */
module Monitors {

  /** `Math.max(lo, Math.min(hi, v))`. */
  function Clamp(lo: int, hi: int, v: int): (r: int)
    requires lo <= hi
    ensures lo <= r <= hi
    ensures lo <= v <= hi ==> r == v
    ensures v < lo ==> r == lo
    ensures v > hi ==> r == hi
  {
    if v < lo then lo else if v > hi then hi else v
  }

  /** Clamping never moves a value further than it was asked to move. */
  lemma ClampStep(lo: int, hi: int, v: int, d: int)
    requires lo <= v <= hi
    ensures var r := Clamp(lo, hi, v + d);
      (d >= 0 ==> v <= r <= v + d) && (d <= 0 ==> v + d <= r <= v)
  {
  }

  /** Clamping is monotone. */
  lemma ClampMonotone(lo: int, hi: int, v: int, w: int)
    requires lo <= hi && v <= w
    ensures Clamp(lo, hi, v) <= Clamp(lo, hi, w)
  {
  }

  // ---------------------------------------------------------------------
  // Resource Monitor

  type Roll5 = r: nat | r < 5
  type Roll7 = r: nat | r < 7

  datatype Process = Process(name: string, pid: nat, cpu: int)

  /** A process's CPU after one tick: moved by -2..+2, kept within 0..100. */
  function CpuJitter(cpu: int, roll: Roll5): (r: int)
    ensures 0 <= r <= 100
    ensures 0 <= cpu <= 100 ==> cpu - 2 <= r <= cpu + 2
    ensures 0 <= cpu + roll as int - 2 <= 100 ==> r == cpu + roll as int - 2
  {
    Clamp(0, 100, cpu + roll as int - 2)
  }

  /** One tick of the process table: every process jitters, nothing else changes. */
  function ProcessesTick(ps: seq<Process>, rolls: seq<Roll5>): (r: seq<Process>)
    requires |rolls| == |ps|
    ensures |r| == |ps|
    ensures forall i :: 0 <= i < |ps| ==>
      r[i].name == ps[i].name && r[i].pid == ps[i].pid && 0 <= r[i].cpu <= 100
      && (0 <= ps[i].cpu <= 100 ==> ps[i].cpu - 2 <= r[i].cpu <= ps[i].cpu + 2)
    ensures forall i :: 0 <= i < |ps| ==> r[i] == ps[i].(cpu := CpuJitter(ps[i].cpu, rolls[i]))
  {
    seq(|ps|, i requires 0 <= i < |ps| => ps[i].(cpu := CpuJitter(ps[i].cpu, rolls[i])))
  }

  // ---------------------------------------------------------------------
  // Server Manager

  datatype ServerStatus = Online | Warning | Offline

  datatype Server = Server(name: string, status: ServerStatus, cpu: int, mem: int)

  /**
   * One server after one tick: an offline server is left as it is; any other
   * has its CPU moved by -3..+3 and its memory by -2..+2, both kept within 10..99.
   */
  function ServerTick(s: Server, cpuRoll: Roll7, memRoll: Roll5): (r: Server)
    ensures s.status == Offline ==> r == s
    ensures s.status != Offline ==>
      && r.name == s.name && r.status == s.status
      && 10 <= r.cpu <= 99 && 10 <= r.mem <= 99
      && (10 <= s.cpu <= 99 ==> s.cpu - 3 <= r.cpu <= s.cpu + 3)
      && (10 <= s.mem <= 99 ==> s.mem - 2 <= r.mem <= s.mem + 2)
      && (10 <= s.cpu + cpuRoll as int - 3 <= 99 ==> r.cpu == s.cpu + cpuRoll as int - 3)
      && (10 <= s.mem + memRoll as int - 2 <= 99 ==> r.mem == s.mem + memRoll as int - 2)
  {
    if s.status == Offline then s
    else s.(cpu := Clamp(10, 99, s.cpu + cpuRoll as int - 3), mem := Clamp(10, 99, s.mem + memRoll as int - 2))
  }

  function ServersTick(ss: seq<Server>, cpuRolls: seq<Roll7>, memRolls: seq<Roll5>): (r: seq<Server>)
    requires |cpuRolls| == |ss| && |memRolls| == |ss|
    ensures |r| == |ss|
    ensures forall i :: 0 <= i < |ss| ==> r[i] == ServerTick(ss[i], cpuRolls[i], memRolls[i])
  {
    seq(|ss|, i requires 0 <= i < |ss| => ServerTick(ss[i], cpuRolls[i], memRolls[i]))
  }

  /** The Server Manager's fleet when it opens. */
  const InitialServers: seq<Server> := [
    Server("PN2-WEB-01", Online, 34, 68),
    Server("PN2-WEB-02", Online, 28, 75),
    Server("PN2-DB-01", Warning, 88, 92),
    Server("PN2-CACHE-01", Offline, 0, 0)]

  /** Readings are in range when every server that is not offline reads 10..99 on both gauges. */
  predicate InRange(ss: seq<Server>)
  {
    forall i :: 0 <= i < |ss| && ss[i].status != Offline ==>
      10 <= ss[i].cpu <= 99 && 10 <= ss[i].mem <= 99
  }

  /**
   * Over any number of ticks the gauges of live servers stay within 10..99,
   * an offline server keeps its readings, and no server changes its name or
   * status.
   */
  lemma {:induction false} TicksKeepRange(ss: seq<Server>, cpuRolls: seq<seq<Roll7>>, memRolls: seq<seq<Roll5>>)
    requires InRange(ss)
    requires |cpuRolls| == |memRolls|
    requires forall t :: 0 <= t < |cpuRolls| ==> |cpuRolls[t]| == |ss| && |memRolls[t]| == |ss|
    ensures var r := ServersRun(ss, cpuRolls, memRolls);
      && |r| == |ss| && InRange(r)
      && forall i :: 0 <= i < |ss| ==>
           r[i].name == ss[i].name && r[i].status == ss[i].status
           && (ss[i].status == Offline ==> r[i] == ss[i])
    decreases |cpuRolls|
  {
    if cpuRolls != [] {
      var next := ServersTick(ss, cpuRolls[0], memRolls[0]);
      TicksKeepRange(next, cpuRolls[1..], memRolls[1..]);
    }
  }

  /** Several ticks, one batch of rolls per tick. */
  function ServersRun(ss: seq<Server>, cpuRolls: seq<seq<Roll7>>, memRolls: seq<seq<Roll5>>): seq<Server>
    requires |cpuRolls| == |memRolls|
    requires forall t :: 0 <= t < |cpuRolls| ==> |cpuRolls[t]| == |ss| && |memRolls[t]| == |ss|
    decreases |cpuRolls|
  {
    if cpuRolls == [] then ss
    else ServersRun(ServersTick(ss, cpuRolls[0], memRolls[0]), cpuRolls[1..], memRolls[1..])
  }

  lemma InitialInRange()
    ensures InRange(InitialServers)
  {
  }
}
