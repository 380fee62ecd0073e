/** The car-part wear simulation of src/OOPS-application.ts, as pure values:
    how one `operate`, one `drive`, a whole `run` and a `report` change the
    health of every part and what they write to the console. The classes in
    module CarSimulation are proved to behave as these functions say. */
module CarModel {
  import opened Decimal

  /** The health a part starts with when none is given. */
  const DefaultHealth := 10

  /** The number of tires the factory fits. */
  const TireCount := 4

  const DriveHeader := "\n--- driving ---"
  const ReportHeader := "\n--- Car Health Report ---"

  /** The three concrete parts. */
  datatype PartKind = Engine | Gearbox | Tire

  /** How much health one `operate` of a part that still works takes away. */
  function Wear(kind: PartKind): (w: nat)
    ensures 0 < w < DefaultHealth
  {
    match kind
    case Engine => 5
    case Gearbox => 3
    case Tire => 2
  }

  /** What a working part prints when it operates; the tire prints nothing. */
  function RunningMessage(kind: PartKind): (m: seq<string>)
    ensures |m| <= 1
    ensures m == [] <==> kind == Tire
  {
    match kind
    case Engine => ["Engine running"]
    case Gearbox => ["gear changed"]
    case Tire => []
  }

  /** What a broken part prints when asked to operate; no working part ever
      prints it. */
  function BrokenMessage(kind: PartKind): (m: string)
    ensures forall k :: m !in RunningMessage(k)
  {
    match kind
    case Engine => "Engine dead. Car cannot move."
    case Gearbox => "Gearbox failed. stoped."
    case Tire => "Tire blown. No grip."
  }

  /** Each part's failure line names that part alone. */
  lemma BrokenMessagesDistinct(a: PartKind, b: PartKind)
    ensures BrokenMessage(a) == BrokenMessage(b) <==> a == b
  {
  }

  /** Health after `damage(amount)`: subtract, then clamp at zero. */
  function Damaged(health: int, amount: int): (r: int)
    ensures r >= 0
    ensures r == 0 <==> health <= amount
    ensures r > 0 ==> r == health - amount
  {
    if health - amount < 0 then 0 else health - amount
  }

  /** Health after one `operate`: a broken part (health 0) keeps its health,
      any other part takes its wear. */
  function Operated(kind: PartKind, health: int): (r: int)
    ensures health >= 0 ==> 0 <= r <= health
    ensures r == 0 <==> health <= Wear(kind)
    ensures r > 0 ==> r == health - Wear(kind)
  {
    if health == 0 then health else Damaged(health, Wear(kind))
  }

  /** The lines one `operate` prints. */
  function OperateOutput(kind: PartKind, health: int): (r: seq<string>)
    ensures health == 0 ==> r == [BrokenMessage(kind)]
    ensures |r| == (if kind == Tire && health != 0 then 0 else 1)
  {
    if health == 0 then [BrokenMessage(kind)] else RunningMessage(kind)
  }

  /** The health of every part of a car, tires in the order of the car's array. */
  datatype CarState = CarState(engine: int, gearbox: int, tires: seq<int>)

  /** The car `CarFactory.createCar` builds. */
  function FreshCar(): (s: CarState)
    ensures |s.tires| == TireCount
  {
    CarState(DefaultHealth, DefaultHealth, seq(TireCount, _ => DefaultHealth))
  }

  function OperateTires(healths: seq<int>): (r: seq<int>)
    ensures |r| == |healths|
  {
    seq(|healths|, i requires 0 <= i < |healths| => Operated(Tire, healths[i]))
  }

  /** The lines the tires print when operated one after another. */
  function TiresOutput(healths: seq<int>): (r: seq<string>)
    ensures |r| <= |healths|
  {
    if healths == [] then []
    else TiresOutput(healths[..|healths| - 1]) + OperateOutput(Tire, healths[|healths| - 1])
  }

  /** The state after one `drive`: every part is operated once. */
  function Drive(s: CarState): (r: CarState)
    ensures |r.tires| == |s.tires|
    ensures s.engine == 0 ==> r.engine == 0
    ensures s.gearbox == 0 ==> r.gearbox == 0
    ensures forall i :: 0 <= i < |s.tires| && s.tires[i] == 0 ==> r.tires[i] == 0
  {
    CarState(Operated(Engine, s.engine), Operated(Gearbox, s.gearbox), OperateTires(s.tires))
  }

  /** The lines one `drive` prints: the header, then the engine, the gearbox
      and the tires in array order. */
  function DriveOutput(s: CarState): (r: seq<string>)
    ensures 3 <= |r| <= 3 + |s.tires|
    ensures r[0] == DriveHeader
  {
    [DriveHeader] + OperateOutput(Engine, s.engine) + OperateOutput(Gearbox, s.gearbox)
    + TiresOutput(s.tires)
  }

  /** The state after `n` drives. */
  function DriveTimes(s: CarState, n: nat): (r: CarState)
    ensures |r.tires| == |s.tires|
  {
    if n == 0 then s else Drive(DriveTimes(s, n - 1))
  }

  /** The lines `n` drives print. */
  function CyclesOutput(s: CarState, n: nat): (r: seq<string>)
    ensures 3 * n <= |r|
  {
    if n == 0 then [] else CyclesOutput(s, n - 1) + DriveOutput(DriveTimes(s, n - 1))
  }

  /** The report's engine line; `console.log("Engine:", h)` puts a space
      between its arguments. */
  function EngineLine(health: int): (line: string)
    ensures |line| > |"Engine: "| && line[..|"Engine: "|] == "Engine: "
  {
    "Engine: " + IntToDecimal(health)
  }

  function GearboxLine(health: int): (line: string)
    ensures |line| > |"Gearbox: "| && line[..|"Gearbox: "|] == "Gearbox: "
  {
    "Gearbox: " + IntToDecimal(health)
  }

  /** "tire <number>: <health>", numbered from 1. */
  function TireLine(number: nat, health: int): (line: string)
    ensures |line| > |"tire "| + |NatToDecimal(number)| + |": "|
    ensures line[..|"tire "|] == "tire "
  {
    "tire " + NatToDecimal(number) + ": " + IntToDecimal(health)
  }

  /** One report line per tire, in array order. */
  function TireLines(healths: seq<int>): (lines: seq<string>)
    ensures |lines| == |healths|
    ensures forall i :: 0 <= i < |healths| ==> lines[i] == TireLine(i + 1, healths[i])
  {
    seq(|healths|, i requires 0 <= i < |healths| => TireLine(i + 1, healths[i]))
  }

  /** The number in the report's engine and gearbox lines reads back as that
      part's health. */
  lemma PartLinesReadBack(health: nat)
    ensures var t := EngineLine(health)[|"Engine: "|..];
      IsDigits(t) && DecimalValue(t) == health
    ensures var t := GearboxLine(health)[|"Gearbox: "|..];
      IsDigits(t) && DecimalValue(t) == health
  {
    DecimalRoundTrip(health);
    assert EngineLine(health)[|"Engine: "|..] == NatToDecimal(health);
    assert GearboxLine(health)[|"Gearbox: "|..] == NatToDecimal(health);
  }

  /** Where the tire number ends in `TireLine(number, _)`. */
  function NumberEnd(number: nat): nat {
    |"tire "| + |NatToDecimal(number)|
  }

  /** The tire number in a report's tire line reads back as that number, and
      ": " follows it. */
  lemma TireNumberReadsBack(number: nat, health: int)
    ensures IsDigits(TireLine(number, health)[|"tire "|..NumberEnd(number)])
    ensures DecimalValue(TireLine(number, health)[|"tire "|..NumberEnd(number)]) == number
    ensures TireLine(number, health)[NumberEnd(number)..NumberEnd(number) + 2] == ": "
  {
    var n := NatToDecimal(number);
    DecimalRoundTrip(number);
    PiecesOfConcat("tire ", n, ": " + IntToDecimal(health));
    assert TireLine(number, health) == "tire " + n + (": " + IntToDecimal(health));
  }

  lemma PiecesOfConcat<T>(a: seq<T>, b: seq<T>, c: seq<T>)
    ensures (a + b + c)[|a|..|a| + |b|] == b
    ensures (a + b + c)[|a| + |b|..] == c
  {
  }

  /** The health in a report's tire line, after the number and ": ", reads
      back as the tire's health. */
  lemma TireHealthReadsBack(number: nat, health: nat)
    ensures IsDigits(TireLine(number, health)[NumberEnd(number) + 2..])
    ensures DecimalValue(TireLine(number, health)[NumberEnd(number) + 2..]) == health
  {
    var d := NatToDecimal(health);
    DecimalRoundTrip(health);
    var head := "tire " + NatToDecimal(number) + ": ";
    assert TireLine(number, health) == head + d;
    assert |head| == NumberEnd(number) + 2;
  }

  /** The lines `report` prints. */
  function ReportOutput(s: CarState): (r: seq<string>)
    ensures |r| == 3 + |s.tires|
    ensures r[0] == ReportHeader
  {
    [ReportHeader, EngineLine(s.engine), GearboxLine(s.gearbox)]
    + TireLines(s.tires)
  }

  /** The number of drives `run(cycles)` performs: its `for` loop does not
      run at all for a count below one. */
  function Cycles(cycles: int): nat
  {
    if cycles < 0 then 0 else cycles
  }

  /** `run`'s loop `for (let i = 0; i < cycles; i++)` drives once for each
      `i` from 0 while `i < cycles`: `cycles` times, and never for a count
      below one. */
  lemma CyclesCountsIterations(cycles: int)
    ensures Cycles(cycles) == 0 <==> cycles <= 0
    ensures Cycles(cycles) > 0 ==> Cycles(cycles) == cycles
  {
  }

  /** Everything `run(cycles)` prints. */
  function RunOutput(s: CarState, cycles: int): (r: seq<string>)
    ensures 3 * Cycles(cycles) + 3 + |s.tires| <= |r|
    ensures r[|r| - 3 - |s.tires|] == ReportHeader
  {
    CyclesOutput(s, Cycles(cycles)) + ReportOutput(DriveTimes(s, Cycles(cycles)))
  }

  // ---------------------------------------------------------------------
  // Health stays in [0, initial]
  // ---------------------------------------------------------------------

  predicate NonNegative(s: CarState) {
    s.engine >= 0 && s.gearbox >= 0 && forall i :: 0 <= i < |s.tires| ==> s.tires[i] >= 0
  }

  /** Every part of `s` is within [0, its health in `bound`]. */
  predicate Within(s: CarState, bound: CarState) {
    && NonNegative(s)
    && |s.tires| == |bound.tires|
    && s.engine <= bound.engine && s.gearbox <= bound.gearbox
    && forall i :: 0 <= i < |s.tires| ==> s.tires[i] <= bound.tires[i]
  }

  /** One operate never raises health and never makes it negative, and it
      strictly lowers the health of a part that still works. */
  lemma OperateBounds(kind: PartKind, health: int)
    requires health >= 0
    ensures 0 <= Operated(kind, health) <= health
    ensures health > 0 ==> Operated(kind, health) < health
  {
  }

  /** However many drives, every part's health stays between zero and the
      health it started with. */
  lemma {:induction false} HealthStaysWithinInitial(s: CarState, n: nat)
    requires NonNegative(s)
    ensures Within(DriveTimes(s, n), s)
  {
    if n > 0 {
      HealthStaysWithinInitial(s, n - 1);
      var p := DriveTimes(s, n - 1);
      var q := Drive(p);
      forall i | 0 <= i < |q.tires|
        ensures 0 <= q.tires[i] <= s.tires[i]
      {
        OperateBounds(Tire, p.tires[i]);
      }
    }
  }

  // ---------------------------------------------------------------------
  // Once broken, always broken
  // ---------------------------------------------------------------------

  /** A part that is broken after `k` drives is still broken after any later
      number of drives. */
  lemma {:induction false} BrokenStaysBroken(s: CarState, k: nat, n: nat)
    requires k <= n
    ensures DriveTimes(s, k).engine == 0 ==> DriveTimes(s, n).engine == 0
    ensures DriveTimes(s, k).gearbox == 0 ==> DriveTimes(s, n).gearbox == 0
    ensures forall i :: 0 <= i < |s.tires| && DriveTimes(s, k).tires[i] == 0 ==>
              DriveTimes(s, n).tires[i] == 0
  {
    if k < n {
      BrokenStaysBroken(s, k, n - 1);
    }
  }

  // ---------------------------------------------------------------------
  // Exact wear
  // ---------------------------------------------------------------------

  /** In one drive, each part loses exactly its wear, or all that is left
      when less remains; a broken part loses nothing. */
  lemma DriveWearIsExact(s: CarState)
    requires NonNegative(s)
    ensures s.engine - Drive(s).engine == Min(s.engine, Wear(Engine))
    ensures s.gearbox - Drive(s).gearbox == Min(s.gearbox, Wear(Gearbox))
    ensures forall i :: 0 <= i < |s.tires| ==>
              s.tires[i] - Drive(s).tires[i] == Min(s.tires[i], Wear(Tire))
  {
  }

  function Min(a: int, b: int): int {
    if a <= b then a else b
  }

  /** Operating a part whose health is what `m` wears left gives what `m + 1`
      wears leave. */
  lemma OperateAfterWear(kind: PartKind, health: int, m: nat)
    requires health >= 0
    ensures Operated(kind, Damaged(health, Wear(kind) * m)) == Damaged(health, Wear(kind) * (m + 1))
  {
    assert Wear(kind) * (m + 1) == Wear(kind) * m + Wear(kind);
  }

  /** After `n` drives every part has lost `n` times its wear, clamped at
      zero: the engine 5n, the gearbox 3n, each tire 2n. */
  lemma {:induction false} DriveTimesWear(s: CarState, n: nat)
    requires NonNegative(s)
    ensures DriveTimes(s, n).engine == Damaged(s.engine, Wear(Engine) * n)
    ensures DriveTimes(s, n).gearbox == Damaged(s.gearbox, Wear(Gearbox) * n)
    ensures forall i :: 0 <= i < |s.tires| ==>
              DriveTimes(s, n).tires[i] == Damaged(s.tires[i], Wear(Tire) * n)
  {
    if n > 0 {
      DriveTimesWear(s, n - 1);
      OperateAfterWear(Engine, s.engine, n - 1);
      OperateAfterWear(Gearbox, s.gearbox, n - 1);
      forall i | 0 <= i < |s.tires|
        ensures DriveTimes(s, n).tires[i] == Damaged(s.tires[i], Wear(Tire) * n)
      {
        OperateAfterWear(Tire, s.tires[i], n - 1);
      }
    }
  }

  // ---------------------------------------------------------------------
  // What is printed
  // ---------------------------------------------------------------------

  function BlownTires(healths: seq<int>): nat {
    if healths == [] then 0
    else BlownTires(healths[..|healths| - 1]) + (if healths[|healths| - 1] == 0 then 1 else 0)
  }

  /** Working tires print nothing; every broken tire prints its failure line. */
  lemma {:induction false} TiresOutputIsBlownLines(healths: seq<int>)
    ensures |TiresOutput(healths)| == BlownTires(healths)
    ensures forall k :: 0 <= k < |TiresOutput(healths)| ==>
              TiresOutput(healths)[k] == BrokenMessage(Tire)
  {
    if healths != [] {
      TiresOutputIsBlownLines(healths[..|healths| - 1]);
    }
  }

  /** Tires that all still work print nothing at all. */
  lemma {:induction false} WorkingTiresAreSilent(healths: seq<int>)
    requires forall i :: 0 <= i < |healths| ==> healths[i] != 0
    ensures TiresOutput(healths) == []
  {
    if healths != [] {
      WorkingTiresAreSilent(healths[..|healths| - 1]);
    }
  }

  /** A drive always prints its header first and then exactly one line for
      the engine and one for the gearbox, running or broken. */
  lemma DriveOutputShape(s: CarState)
    ensures |DriveOutput(s)| == 3 + BlownTires(s.tires)
    ensures DriveOutput(s)[0] == DriveHeader
    ensures DriveOutput(s)[1] == EngineRunLine(s.engine)
    ensures DriveOutput(s)[2] == GearboxRunLine(s.gearbox)
    ensures DriveOutput(s)[3..] == TiresOutput(s.tires)
  {
    TiresOutputIsBlownLines(s.tires);
  }

  /** The report has one line per tire after the engine and gearbox lines,
      the tire at index `i` being announced as number `i + 1`. */
  lemma ReportOutputShape(s: CarState)
    ensures |ReportOutput(s)| == 3 + |s.tires|
    ensures ReportOutput(s)[0] == ReportHeader
    ensures ReportOutput(s)[1] == EngineLine(s.engine) && ReportOutput(s)[2] == GearboxLine(s.gearbox)
    ensures forall i :: 0 <= i < |s.tires| ==> ReportOutput(s)[3 + i] == TireLine(i + 1, s.tires[i])
  {
  }

  // ---------------------------------------------------------------------
  // The runs of a fresh car
  // ---------------------------------------------------------------------

  /** Health of every part of a fresh car after 0, 1, 2, 3, 4 and 6 drives. */
  lemma FreshCarScenarios()
    ensures DriveTimes(FreshCar(), 0) == CarState(10, 10, [10, 10, 10, 10])
    ensures DriveTimes(FreshCar(), 1) == CarState(5, 7, [8, 8, 8, 8])
    ensures DriveTimes(FreshCar(), 2) == CarState(0, 4, [6, 6, 6, 6])
    ensures DriveTimes(FreshCar(), 3) == CarState(0, 1, [4, 4, 4, 4])
    ensures DriveTimes(FreshCar(), 4) == CarState(0, 0, [2, 2, 2, 2])
    ensures DriveTimes(FreshCar(), 6) == CarState(0, 0, [0, 0, 0, 0])
  {
    var s := FreshCar();
    assert s == CarState(10, 10, [10, 10, 10, 10]);
    forall n: nat | n in {1, 2, 3, 4, 6}
      ensures |DriveTimes(s, n).tires| == 4
      ensures DriveTimes(s, n).engine == Damaged(10, 5 * n)
      ensures DriveTimes(s, n).gearbox == Damaged(10, 3 * n)
      ensures forall i :: 0 <= i < 4 ==> DriveTimes(s, n).tires[i] == Damaged(10, 2 * n)
    {
      DriveTimesWear(s, n);
    }
  }

  /** Everything the program's `run(4)` prints. */
  const FourCycleTranscript: seq<string> := [
    DriveHeader, "Engine running", "gear changed",
    DriveHeader, "Engine running", "gear changed",
    DriveHeader, "Engine dead. Car cannot move.", "gear changed",
    DriveHeader, "Engine dead. Car cannot move.", "gear changed",
    ReportHeader, "Engine: 0", "Gearbox: 0",
    "tire 1: 2", "tire 2: 2", "tire 3: 2", "tire 4: 2"
  ]

  /** While every tire still works, a drive prints exactly three lines: the
      header, the engine's line and the gearbox's line. */
  lemma DriveOutputWithWorkingTires(s: CarState)
    requires forall i :: 0 <= i < |s.tires| ==> s.tires[i] != 0
    ensures DriveOutput(s) == [DriveHeader, EngineRunLine(s.engine), GearboxRunLine(s.gearbox)]
  {
    WorkingTiresAreSilent(s.tires);
  }

  /** The engine's line of a drive: what its `operate` prints. */
  function EngineRunLine(health: int): (line: string)
    ensures [line] == OperateOutput(Engine, health)
  {
    if health == 0 then BrokenMessage(Engine) else "Engine running"
  }

  /** The gearbox's line of a drive: what its `operate` prints. */
  function GearboxRunLine(health: int): (line: string)
    ensures [line] == OperateOutput(Gearbox, health)
  {
    if health == 0 then BrokenMessage(Gearbox) else "gear changed"
  }

  const RunningCycle := [DriveHeader, "Engine running", "gear changed"]
  const DeadEngineCycle := [DriveHeader, "Engine dead. Car cannot move.", "gear changed"]

  /** What each of the first four drives of a fresh car prints. */
  lemma FreshCarDriveOutputs(s: CarState)
    requires s == FreshCar()
    ensures DriveOutput(DriveTimes(s, 0)) == RunningCycle
    ensures DriveOutput(DriveTimes(s, 1)) == RunningCycle
    ensures DriveOutput(DriveTimes(s, 2)) == DeadEngineCycle
    ensures DriveOutput(DriveTimes(s, 3)) == DeadEngineCycle
  {
    FreshCarScenarios();
    DriveOutputWithWorkingTires(CarState(10, 10, [10, 10, 10, 10]));
    DriveOutputWithWorkingTires(CarState(5, 7, [8, 8, 8, 8]));
    DriveOutputWithWorkingTires(CarState(0, 4, [6, 6, 6, 6]));
    DriveOutputWithWorkingTires(CarState(0, 1, [4, 4, 4, 4]));
  }

  /** The four drive cycles print their headers, the engine's running line
      twice and then its failure line twice, and four gear changes. */
  lemma FourCycleDrives(s: CarState)
    requires s == FreshCar()
    ensures CyclesOutput(s, 4) == FourCycleTranscript[..12]
  {
    FreshCarDriveOutputs(s);
    assert CyclesOutput(s, 2) == RunningCycle + RunningCycle;
    assert CyclesOutput(s, 4) == RunningCycle + RunningCycle + DeadEngineCycle + DeadEngineCycle;
  }

  lemma FourCycleReport()
    ensures ReportOutput(CarState(0, 0, [2, 2, 2, 2])) == FourCycleTranscript[12..]
  {
    var hs := [2, 2, 2, 2];
    assert IntToDecimal(0) == "0" && IntToDecimal(2) == "2";
    assert NatToDecimal(1) == "1" && NatToDecimal(3) == "3" && NatToDecimal(4) == "4";
    assert TireLine(1, 2) == "tire 1: 2" && TireLine(2, 2) == "tire 2: 2";
    assert TireLine(3, 2) == "tire 3: 2" && TireLine(4, 2) == "tire 4: 2";
    assert TireLines(hs) == ["tire 1: 2", "tire 2: 2", "tire 3: 2", "tire 4: 2"];
    assert EngineLine(0) == "Engine: 0" && GearboxLine(0) == "Gearbox: 0";
    assert FourCycleTranscript[12..] == [ReportHeader, "Engine: 0", "Gearbox: 0"] + TireLines(hs);
  }

  /** The program's `run(4)` on a fresh car: the engine and the gearbox end
      broken, every tire at 2, and this is exactly what is printed. */
  lemma FourCycleRun(s: CarState)
    requires s == FreshCar()
    ensures DriveTimes(s, Cycles(4)) == CarState(0, 0, [2, 2, 2, 2])
    ensures RunOutput(s, 4) == FourCycleTranscript
  {
    FreshCarScenarios();
    FourCycleDrives(s);
    FourCycleReport();
  }
}
