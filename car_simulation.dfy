/** The objects of src/OOPS-application.ts: parts whose health changes in
    place, the car that owns them, the factory, the simulation and the
    program's entry point. Every method is proved to do what the matching
    function of module CarModel says, and to print what it says. */
module CarSimulation {
  import opened CarModel

  /** Standard output: every `console.log` call appends one entry. */
  class Console {
    var lines: seq<string>

    constructor ()
      ensures lines == []
    {
      lines := [];
    }

    method Log(line: string)
      modifies this
      ensures lines == old(lines) + [line]
    {
      lines := lines + [line];
    }
  }

  /** A `CarPart`; `kind` says which of Engine, Gearbox and Tire it is. */
  class CarPart {
    const kind: PartKind
    var health: int

    constructor (kind: PartKind, health: int := DefaultHealth)
      ensures this.kind == kind && this.health == health
    {
      this.kind := kind;
      this.health := health;
    }

    /** `damage(amount)`: subtract, then clamp at zero. */
    method Damage(amount: int)
      modifies this
      ensures health == Damaged(old(health), amount)
    {
      health := health - amount;
      if health < 0 {
        health := 0;
      }
    }

    function IsBroken(): (broken: bool)
      reads this
      ensures broken <==> health == 0
    {
      health == 0
    }

    function GetHealth(): (h: int)
      reads this
      ensures h == health
    {
      health
    }

    /** The `operate` of each of the three subclasses. */
    method Operate(console: Console)
      modifies this, console
      ensures health == Operated(kind, old(health))
      ensures console.lines == old(console.lines) + OperateOutput(kind, old(health))
    {
      match kind
      case Engine =>
        if IsBroken() {
          console.Log("Engine dead. Car cannot move.");
          return;
        }
        console.Log("Engine running");
        Damage(5);
      case Tire =>
        if IsBroken() {
          console.Log("Tire blown. No grip.");
          return;
        }
        Damage(2);
      case Gearbox =>
        if IsBroken() {
          console.Log("Gearbox failed. stoped.");
          return;
        }
        console.Log("gear changed");
        Damage(3);
    }
  }

  /** A car owns one engine, one gearbox and an array of tires. */
  class Car {
    const engine: CarPart
    const gearbox: CarPart
    const tires: seq<CarPart>

    /** Each part is of the kind its place needs and no tire appears twice,
        so operating one part never touches another. */
    ghost predicate Valid() {
      && engine.kind == Engine
      && gearbox.kind == Gearbox
      && (forall i :: 0 <= i < |tires| ==> tires[i].kind == Tire)
      && engine !in tires && gearbox !in tires
      && (forall i, j :: 0 <= i < j < |tires| ==> tires[i] != tires[j])
    }

    ghost function Repr(): set<object> {
      {engine, gearbox} + set i | 0 <= i < |tires| :: tires[i]
    }

    constructor (engine: CarPart, gearbox: CarPart, tires: seq<CarPart>)
      ensures this.engine == engine && this.gearbox == gearbox && this.tires == tires
    {
      this.engine := engine;
      this.gearbox := gearbox;
      this.tires := tires;
    }

    function TireHealths(): (hs: seq<int>)
      reads tires
      ensures |hs| == |tires|
      ensures forall i :: 0 <= i < |tires| ==> hs[i] == tires[i].health
    {
      seq(|tires|, i reads tires requires 0 <= i < |tires| => tires[i].health)
    }

    /** The health of every part, as a value. */
    function State(): (s: CarState)
      reads engine, gearbox, tires
    {
      CarState(engine.health, gearbox.health, TireHealths())
    }

    /** One drive cycle: the header, then every part operated in order. */
    method Drive(console: Console)
      requires Valid()
      modifies Repr(), console
      ensures State() == CarModel.Drive(old(State()))
      ensures console.lines == old(console.lines) + DriveOutput(old(State()))
    {
      ghost var s := State();
      ghost var start := console.lines;
      ghost var header, e, g := [DriveHeader], OperateOutput(Engine, s.engine), OperateOutput(Gearbox, s.gearbox);
      console.Log(DriveHeader);
      engine.Operate(console);
      AppendAssoc(start, header, e);
      gearbox.Operate(console);
      AppendAssoc(start, header + e, g);
      assert TireHealths() == s.tires;
      OperateEachTire(console);
      AppendAssoc(start, header + e + g, TiresOutput(s.tires));
      assert engine.health == Operated(Engine, s.engine);
      assert gearbox.health == Operated(Gearbox, s.gearbox);
    }

    /** The `forEach` over the tires in `drive`. */
    method OperateEachTire(console: Console)
      requires Valid()
      modifies tires, console
      ensures TireHealths() == OperateTires(old(TireHealths()))
      ensures console.lines == old(console.lines) + TiresOutput(old(TireHealths()))
    {
      ghost var hs := TireHealths();
      var i := 0;
      while i < |tires|
        invariant 0 <= i <= |tires|
        invariant forall j :: 0 <= j < i ==> tires[j].health == Operated(Tire, hs[j])
        invariant forall j :: i <= j < |tires| ==> tires[j].health == hs[j]
        invariant console.lines == old(console.lines) + TiresOutput(hs[..i])
      {
        assert hs[..i + 1][..i] == hs[..i];
        tires[i].Operate(console);
        AppendAssoc(old(console.lines), TiresOutput(hs[..i]), OperateOutput(Tire, hs[i]));
        i := i + 1;
      }
      assert hs[..|tires|] == hs;
    }

    /** Prints the health of every part; changes no part. */
    method Report(console: Console)
      modifies console
      ensures console.lines == old(console.lines) + ReportOutput(old(State()))
      ensures State() == old(State())
    {
      ghost var start := console.lines;
      ghost var s := State();
      console.Log(ReportHeader);
      console.Log(EngineLine(engine.GetHealth()));
      console.Log(GearboxLine(gearbox.GetHealth()));
      ghost var head := [ReportHeader, EngineLine(s.engine), GearboxLine(s.gearbox)];
      assert console.lines == start + head;
      ReportEachTire(console);
      AppendAssoc(start, head, TireLines(s.tires));
    }

    /** The `forEach` over the tires in `report`, numbering them from 1. */
    method ReportEachTire(console: Console)
      modifies console
      ensures console.lines == old(console.lines) + TireLines(old(TireHealths()))
    {
      ghost var hs := TireHealths();
      var i := 0;
      while i < |tires|
        invariant 0 <= i <= |tires|
        invariant console.lines == old(console.lines) + TireLines(hs[..i])
      {
        assert TireLines(hs[..i + 1]) == TireLines(hs[..i]) + [TireLine(i + 1, hs[i])];
        console.Log(TireLine(i + 1, tires[i].GetHealth()));
        AppendAssoc(old(console.lines), TireLines(hs[..i]), [TireLine(i + 1, hs[i])]);
        i := i + 1;
      }
      assert hs[..|tires|] == hs;
    }
  }

  class CarFactory {
    /** A car with a fresh engine, a fresh gearbox and four fresh tires. */
    static method CreateCar() returns (car: Car)
      ensures car.Valid() && fresh(car) && fresh(car.Repr())
      ensures |car.tires| == TireCount
      ensures car.State() == FreshCar()
    {
      var engine := new CarPart(Engine);
      var gearbox := new CarPart(Gearbox);
      var t1 := new CarPart(Tire);
      var t2 := new CarPart(Tire);
      var t3 := new CarPart(Tire);
      var t4 := new CarPart(Tire);
      car := new Car(engine, gearbox, [t1, t2, t3, t4]);
    }
  }

  class Simulation {
    const car: Car

    constructor (car: Car)
      ensures this.car == car
    {
      this.car := car;
    }

    /** `cycles` drives, then one report. */
    method Run(cycles: int, console: Console)
      requires car.Valid()
      modifies car.Repr(), console
      ensures car.State() == DriveTimes(old(car.State()), Cycles(cycles))
      ensures console.lines == old(console.lines) + RunOutput(old(car.State()), cycles)
    {
      ghost var s := car.State();
      DriveEachCycle(cycles, console);
      ghost var n := Cycles(cycles);
      car.Report(console);
      AppendAssoc(old(console.lines), CyclesOutput(s, n), ReportOutput(DriveTimes(s, n)));
    }

    /** The `for` loop of `run`: one drive per cycle. */
    method DriveEachCycle(cycles: int, console: Console)
      requires car.Valid()
      modifies car.Repr(), console
      ensures car.State() == DriveTimes(old(car.State()), Cycles(cycles))
      ensures console.lines == old(console.lines) + CyclesOutput(old(car.State()), Cycles(cycles))
    {
      ghost var s := car.State();
      var i := 0;
      while i < cycles
        invariant 0 <= i <= Cycles(cycles)
        invariant car.State() == DriveTimes(s, i)
        invariant console.lines == old(console.lines) + CyclesOutput(s, i)
      {
        car.Drive(console);
        AppendAssoc(old(console.lines), CyclesOutput(s, i), DriveOutput(DriveTimes(s, i)));
        i := i + 1;
      }
      assert i == Cycles(cycles);
    }
  }

  lemma AppendAssoc<T>(a: seq<T>, b: seq<T>, c: seq<T>)
    ensures a + b + c == a + (b + c)
  {
  }

  /** The program: build a car, run the simulation for four cycles. Returns
      what was printed and the health of every part at the end. */
  method Program() returns (output: seq<string>, final: CarState)
    ensures output == FourCycleTranscript
    ensures final == CarState(0, 0, [2, 2, 2, 2])
  {
    var console := new Console();
    var car := CarFactory.CreateCar();
    var simulation := new Simulation(car);
    ghost var initial := car.State();
    simulation.Run(4, console);
    output, final := console.lines, car.State();
    FourCycleRun(initial);
  }
}
