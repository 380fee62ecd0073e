# ts-lab car simulation, in Dafny

This project models the runtime behaviour of the ts-lab TypeScript
learning repository, and the main part is its car-part wear simulation
(`src/OOPS-application.ts`). A car has one engine, one gearbox and an array
of tires. Each part holds an integer `health`, 10 by default. `damage`
subtracts an amount and clamps the result at zero. Each part's `operate` does
nothing but print a failure line once the part is broken (health 0).
Otherwise the part wears itself: the engine by 5, the gearbox by 3 and a tire
by 2. The engine prints "Engine running" and the gearbox "gear changed", and a
tire prints nothing. `drive` prints a header and then operates the engine, the
gearbox and every tire in array order. `report` prints every health value. The
factory builds a car with four fresh tires, and `Simulation.run(n)` drives `n`
times and then reports once. The program runs four cycles.

The simulation is written twice:

- `car_model.dfy` (module `CarModel`) gives it as pure functions on a
  `CarState` value. These are one `operate`, one `drive`, `n` drives, the
  report and everything that is printed. It also holds the lemmas: health
  stays within [0, initial], a broken part stays broken, the wear is exact
  (`n` drives cost `n` times the wear, clamped at zero), the print
  order, and the exact results of the program's four-cycle run.
- `car_simulation.dfy` (module `CarSimulation`) gives the objects:
  - `CarPart` has a mutable `health` field.
  - `Car` owns its parts.
  - `CarFactory` and `Simulation` are as in the source.
  - `Console` stands for standard output. It is a sequence of lines, one per
    `console.log` call.

  Each method is proved to change state and print exactly as the matching
  `CarModel` function says. `Program` is the program's entry point: it returns
  what it printed and the final health values.

Engine, Gearbox and Tire are one class `CarPart` here, with a constant `kind`.
`Operate` has one branch per subclass, copied from that subclass's `operate`.
The table of wear amounts and messages in `CarModel` (`Wear`,
`RunningMessage`, `BrokenMessage`) is written separately, and `Operate` is
proved against it.

The other files model the small stateful classes and pure helpers of the
teaching files:

- `dependency_injection.dfy`: `MemoryLogger`, `Service` and the token
  `Container`. The container's `get` fails when a token is unbound or bound
  to `undefined`.
- `interfaces.dfy`: the string-to-string `MemoryStore`.
- `generics.dfy`: `identity`, `first`, and the generic append-only
  `MemoryStore<T>`, whose `all()` returns a fresh copy.
- `nullables.dfy`: `lenOrZero`, `greet`, `findById` and `getParentId`.

`wrappers.dfy` holds `Option` (for `T | undefined`) and `Result` (for a
value or a thrown error). `decimal.dfy` holds the decimal text that
`console.log` prints for a number, with a round-trip lemma.

The model follows the code in three places where the code is more general
than the program's use of it:

- `Car` accepts any number of tires. Only the factory fixes the count at four.
  Parts shared within one car are not modelled (see "Left out").
- A part may start at any integer health, because the constructor takes an
  initial health and nothing checks it. The program only uses the default
  of 10, and the bounds lemmas assume a non-negative start. Only
  whole-number health is modelled (see "Left out").
- `run(cycles)` with a negative count drives zero times (`Cycles`). This is
  what the `for` loop does.

## Model

| member | source | states |
|---|---|---|
| `CarModel.Damaged` | src/OOPS-application.ts:8-11 | health after `damage(a)` is never negative; it is 0 exactly when `a` is at least the health, and otherwise it is health minus `a` |
| `CarSimulation.Console.constructor` | src/OOPS-application.ts:118 | nothing has been printed when the program starts |
| `CarSimulation.Console.Log` | src/OOPS-application.ts:69 | one `console.log` call appends exactly its line to what was printed |
| `CarSimulation.CarPart.Damage` | src/OOPS-application.ts:8-11 | the field `health` is updated in place to `Damaged(old health, amount)` |
| `CarSimulation.CarPart.IsBroken` | src/OOPS-application.ts:13-15 | true exactly when health is 0 |
| `CarSimulation.CarPart.GetHealth` | src/OOPS-application.ts:17-19 | returns the health and, being a reads-only function, changes nothing |
| `CarSimulation.CarPart.constructor` | src/OOPS-application.ts:4 | a new part has the given kind and health, 10 when none is given |
| `CarSimulation.CarPart.Operate` | src/OOPS-application.ts:22-58 | a broken part keeps health 0 and prints only its own failure line; a working part takes its wear (engine 5, gearbox 3, tire 2), clamped at 0, and prints "Engine running", "gear changed" or nothing |
| `CarModel.OperateBounds` | src/OOPS-application.ts:22-58 | from a non-negative health, one operate never raises health and never makes it negative, and it strictly lowers the health of a part that works |
| `CarSimulation.Car.constructor` | src/OOPS-application.ts:62-66 | the car keeps the engine, gearbox and tire array it is given |
| `CarSimulation.Car.TireHealths` | src/OOPS-application.ts:79-81 | one health per tire, in array order |
| `CarModel.OperateTires` | src/OOPS-application.ts:72 | operating every tire keeps the number of tires |
| `CarSimulation.Car.Drive` | src/OOPS-application.ts:68-73 | prints the header, then operates engine, gearbox and every tire in array order; the new health of every part is `CarModel.Drive` of the old state, so a broken part does not stop later parts |
| `CarSimulation.Car.OperateEachTire` | src/OOPS-application.ts:72 | every tire is operated once, in array order, and only the tires and the console change |
| `CarSimulation.Car.Report` | src/OOPS-application.ts:75-82 | prints the report header, the engine line, the gearbox line and one line per tire; no health value changes |
| `CarSimulation.Car.ReportEachTire` | src/OOPS-application.ts:79-81 | prints "tire i: h" for each tire, numbered from 1 in array order |
| `CarSimulation.CarFactory.CreateCar` | src/OOPS-application.ts:89-101 | a fresh car of fresh, distinct parts: engine, gearbox and exactly 4 tires, all at health 10 |
| `CarSimulation.Simulation.Run` | src/OOPS-application.ts:108-113 | drives exactly `cycles` times (none for a count below 1), then reports once; the final state and the whole printed text are those of `CarModel.RunOutput` |
| `CarSimulation.Simulation.DriveEachCycle` | src/OOPS-application.ts:109-111 | the `for` loop drives the car `Cycles(cycles)` times; the state becomes `DriveTimes` of the old state and the printed lines are `CyclesOutput` of it |
| `CarSimulation.Simulation.constructor` | src/OOPS-application.ts:106 | the simulation drives the car it is given |
| `CarSimulation.Program` | src/OOPS-application.ts:118-121 | the program prints exactly the 19 entries (one per `console.log` call) of the four-cycle run and ends with engine 0, gearbox 0 and every tire at 2 |
| `CarModel.Wear` | src/OOPS-application.ts:22-58 | the amount one `operate` of a working part takes away (engine 5, gearbox 3, tire 2) is positive and below the default health 10, so a fresh part survives its first operate |
| `CarModel.RunningMessage` | src/OOPS-application.ts:22-58 | a working part prints at most one line, and prints none exactly when it is a tire (the tire's line is commented out at line 42) |
| `CarModel.BrokenMessage` | src/OOPS-application.ts:22-58 | a broken part's failure line is never one that a working part prints |
| `CarModel.BrokenMessagesDistinct` | src/OOPS-application.ts:26-52 | the failure lines of the engine, the gearbox and a tire are pairwise different, so each names its part |
| `CarModel.EngineRunLine` | src/OOPS-application.ts:24-31 | the engine's line in a drive is exactly the one line the engine's `operate` prints |
| `CarModel.GearboxRunLine` | src/OOPS-application.ts:50-57 | the gearbox's line in a drive is exactly the one line the gearbox's `operate` prints |
| `CarModel.EngineLine` | src/OOPS-application.ts:77 | the report's engine line is "Engine: " followed by at least one character (the printed health) |
| `CarModel.GearboxLine` | src/OOPS-application.ts:78 | the report's gearbox line is "Gearbox: " followed by at least one character (the printed health) |
| `CarModel.PartLinesReadBack` | src/OOPS-application.ts:77-78 | for a non-negative health, the text after "Engine: " or "Gearbox: " is all decimal digits and reads back as the health |
| `CarModel.TireLine` | src/OOPS-application.ts:80 | a report tire line starts with "tire " and is longer than "tire ", the number and ": " together, so a health always follows |
| `CarModel.TireNumberReadsBack` | src/OOPS-application.ts:80 | the digits after "tire " read back as the tire's number, and ": " follows them |
| `CarModel.TireHealthReadsBack` | src/OOPS-application.ts:80 | for a non-negative health, the text after the number and ": " is all digits and reads back as the health |
| `CarModel.TireLines` | src/OOPS-application.ts:79-81 | one line per tire, in array order, the tire at index `i` announced as number `i + 1` |
| `CarModel.Operated` | src/OOPS-application.ts:22-58 | the health after one `operate`: from a non-negative health it stays within [0, health]; it is 0 exactly when the health is at most the part's wear (a broken part included); otherwise it is the health minus the wear |
| `CarModel.OperateOutput` | src/OOPS-application.ts:22-58 | a broken part prints exactly its failure line; a working engine or gearbox prints one line; a working tire prints nothing |
| `CarModel.TiresOutput` | src/OOPS-application.ts:72 | the tires print at most one line each |
| `CarModel.Drive` | src/OOPS-application.ts:68-73 | one drive keeps the number of tires, and a part that is broken before the drive is still broken after it |
| `CarModel.DriveOutput` | src/OOPS-application.ts:68-73 | a drive prints at least the header, the engine line and the gearbox line, and at most one more line per tire, and the header comes first |
| `CarModel.CyclesOutput` | src/OOPS-application.ts:109-111 | `n` drives print at least `3n` lines |
| `CarModel.ReportOutput` | src/OOPS-application.ts:75-82 | the report prints three lines plus one per tire, the header first |
| `CarModel.CyclesCountsIterations` | src/OOPS-application.ts:109 | `Cycles`, the number of drives `run(cycles)` performs, is 0 exactly for a count below one and otherwise the count itself |
| `CarModel.RunOutput` | src/OOPS-application.ts:108-113 | `run(cycles)` prints at least three lines per drive plus the whole report, and the report's header comes exactly when the drives' lines end, so the report comes last |
| `CarModel.FreshCar` | src/OOPS-application.ts:89-101 | the factory's car has 4 tires |
| `CarModel.DriveTimes` | src/OOPS-application.ts:108-111 | driving never changes the number of tires |
| `CarModel.HealthStaysWithinInitial` | src/OOPS-application.ts:3-58 | after any number of drives every part's health is between 0 and the health it started with |
| `CarModel.BrokenStaysBroken` | src/OOPS-application.ts:25-28 | a part broken after `k` drives is still broken after any `n >= k` drives (engine, gearbox and every tire) |
| `CarModel.DriveWearIsExact` | src/OOPS-application.ts:68-73 | in one drive each part loses exactly min(health, its wear), so a broken part loses nothing |
| `CarModel.OperateAfterWear` | src/OOPS-application.ts:8-11 | operating a part once more after `m` wears leaves what `m + 1` wears leave |
| `CarModel.DriveTimesWear` | src/OOPS-application.ts:108-113 | after `n` drives the engine has lost 5n, the gearbox 3n and each tire 2n, each clamped at 0 |
| `CarModel.TiresOutputIsBlownLines` | src/OOPS-application.ts:36-45 | while driving, the tires print one "Tire blown. No grip." line per broken tire and nothing else |
| `CarModel.WorkingTiresAreSilent` | src/OOPS-application.ts:42-43 | tires that all still work print nothing |
| `CarModel.DriveOutputShape` | src/OOPS-application.ts:68-73 | a drive always prints the header first, then one engine line and one gearbox line (running or broken), then exactly the lines `TiresOutput` gives for the tires, and nothing else |
| `CarModel.DriveOutputWithWorkingTires` | src/OOPS-application.ts:68-73 | while all tires work, a drive prints exactly the header, the engine line and the gearbox line |
| `CarModel.ReportOutputShape` | src/OOPS-application.ts:75-82 | the report is the header, "Engine: h", "Gearbox: h", then one line per tire with the tire at index `i` numbered `i + 1` |
| `CarModel.FreshCarScenarios` | src/OOPS-application.ts:89-113 | a fresh car after 0, 1, 2, 3, 4 and 6 drives: (10,10,[10]*4), (5,7,[8]*4), (0,4,[6]*4), (0,1,[4]*4), (0,0,[2]*4), (0,0,[0]*4) |
| `CarModel.FreshCarDriveOutputs` | src/OOPS-application.ts:68-73 | the first two drives of a fresh car print "Engine running" and "gear changed"; the third and fourth print the engine's failure line and "gear changed" |
| `CarModel.FourCycleDrives` | src/OOPS-application.ts:118-121 | the four drive cycles of the program print exactly their 12 entries (one per `console.log` call) |
| `CarModel.FourCycleReport` | src/OOPS-application.ts:75-82 | the report of a car at (0,0,[2,2,2,2]) is exactly its 7 entries (one per `console.log` call) |
| `CarModel.FourCycleRun` | src/OOPS-application.ts:118-121 | `run(4)` on a fresh car ends at engine 0, gearbox 0, tires 2 and prints exactly the 19 entries (one per `console.log` call) of the transcript |
| `Decimal.NatToDecimal` | src/OOPS-application.ts:77-80 | a number is printed as a non-empty string of decimal digits with no leading zero |
| `Decimal.IntToDecimal` | src/OOPS-application.ts:77-80 | a negative number is printed with a leading minus sign and then digits |
| `Decimal.DecimalRoundTrip` | src/OOPS-application.ts:77-80 | reading the printed digits back gives the number, so the report shows each health faithfully |
| `DependencyInjection.MemoryLogger.Log` | src/18-dependency-injection.ts:46-52 | `log(m)` appends `m` at the end of `logs`; earlier entries are unchanged |
| `DependencyInjection.MemoryLogger.constructor` | src/18-dependency-injection.ts:48 | a new logger has no entries |
| `DependencyInjection.ServiceLine` | src/18-dependency-injection.ts:59 | the logged line is the prefix "Service: " followed by the message |
| `DependencyInjection.Service.constructor` | src/18-dependency-injection.ts:56 | the service keeps the logger injected into it |
| `DependencyInjection.Service.Run` | src/18-dependency-injection.ts:55-61 | `run(msg)` adds exactly one entry, "Service: " + msg, to the injected logger |
| `DependencyInjection.Lookup` | src/18-dependency-injection.ts:126-130 | `get` succeeds exactly when the token is bound to a value other than `undefined` and then returns that value; otherwise it fails with "no binding for <token>" |
| `DependencyInjection.Container.constructor` | src/18-dependency-injection.ts:120 | a new container has no bindings |
| `DependencyInjection.Container.Set` | src/18-dependency-injection.ts:122-124 | the binding of the token becomes the value; all other bindings stay |
| `DependencyInjection.Container.Get` | src/18-dependency-injection.ts:126-130 | returns or fails as `Lookup` says, and changes nothing |
| `DependencyInjection.GetAfterSet` | src/18-dependency-injection.ts:122-130 | `set(t, v)` followed by `get(t)` returns `v` |
| `DependencyInjection.GetUnbound` | src/18-dependency-injection.ts:126-128 | `get` on a token never set fails with "no binding for <token>" |
| `DependencyInjection.GetAfterSetUndefined` | src/18-dependency-injection.ts:127-128 | after `set(t, undefined)` the token is bound, yet `get(t)` fails |
| `DependencyInjection.SetReplaces` | src/18-dependency-injection.ts:140-142 | a second `set` on a token replaces the first binding |
| `DependencyInjection.SetLeavesOthers` | src/18-dependency-injection.ts:122-124 | `set` on one token leaves what every other token gives unchanged |
| `DependencyInjection.SwapBinding` | src/18-dependency-injection.ts:133-143 | bind "logger", get it, rebind it, get the new value; an unbound token fails |
| `Interfaces.Read` | src/13-interfaces.ts:227-230 | `get(id)` gives the stored value when `id` was set and `undefined` otherwise |
| `Interfaces.MemoryStore.constructor` | src/13-interfaces.ts:225 | a new store holds no ids |
| `Interfaces.MemoryStore.Get` | src/13-interfaces.ts:227-230 | returns what `Read` says and changes nothing |
| `Interfaces.MemoryStore.Set` | src/13-interfaces.ts:232-234 | the value under `id` becomes `value`; all other ids stay |
| `Interfaces.ReadAfterSet` | src/13-interfaces.ts:227-234 | `set(k, v)` followed by `get(k)` gives `v`, replacing any earlier value |
| `Interfaces.SetLeavesOthers` | src/13-interfaces.ts:232-234 | `set` on one key leaves what every other key gives unchanged |
| `Interfaces.EmptyReadsUndefined` | src/13-interfaces.ts:225-230 | a new store gives `undefined` for every id |
| `Interfaces.StoreRoundTrip` | src/13-interfaces.ts:237-239 | after `set("k1", "v1")`, `get("k1")` gives "v1" and an unset key gives `undefined` |
| `Generics.Identity` | src/16-generics.ts:19-21 | returns its argument |
| `Generics.First` | src/16-generics.ts:38-40 | `undefined` exactly for the empty list, otherwise the first item |
| `Generics.MemoryStore.constructor` | src/16-generics.ts:97 | a new store holds no items |
| `Generics.MemoryStore.Add` | src/16-generics.ts:99-101 | appends the item at the end; earlier items are unchanged |
| `Generics.MemoryStore.All` | src/16-generics.ts:103-105 | returns a newly allocated array holding the items in insertion order; the store is unchanged |
| `Generics.NumberStore` | src/16-generics.ts:108-111 | after adding 1 and 2, `all()` gives [1, 2]; writing into that copy does not change what `all()` gives next |
| `Nullables.LenOrZero` | src/12-nullables.ts:68-75 | 0 for `null` and `undefined`, the string's length otherwise |
| `Nullables.LenOrZeroExamples` | src/12-nullables.ts:77-79 | the values 0, 0 and 2 given in the comments |
| `Nullables.Greet` | src/12-nullables.ts:56-58 | "Hello there!" without a name, "Hello " + name + "!" with one |
| `Nullables.GreetExamples` | src/12-nullables.ts:59-60 | `greet()` and `greet("Alice")`; an empty name is greeted as given, since `??` only replaces a missing one |
| `Nullables.Find` | src/12-nullables.ts:163 | `find` returns a value exactly when some element satisfies the test, and then returns the first such element |
| `Nullables.FindById` | src/12-nullables.ts:162-164 | returns `id` when it occurs in `ids` and `undefined` otherwise |
| `Nullables.FindByIdExamples` | src/12-nullables.ts:166-167 | `findById([1, 2, 3], 2)` is 2; an absent id gives `undefined` |
| `Nullables.GetParentId` | src/12-nullables.ts:118-121 | the parent's id when there is a parent node, `undefined` when the parent is `null` or absent |
| `Nullables.GetParentIdExamples` | src/12-nullables.ts:115-129 | `getParentId(child)` is "root" and `getParentId(root)` is `undefined` |

## Left out

- Printing: `console.log` is the `Console` sequence of lines, one entry per call (the leading "\n" of a header stays inside its entry). `console.warn` and real standard output are not modelled.
- The `Logger` interface and `ConsoleLogger`: `Service` is modelled with a `MemoryLogger` only, because Dafny interfaces (traits) are not used here and `ConsoleLogger` only prints.
- `TightService`, `DefaultService`, `createService`, `createTestService` and `sendEmail` (src/18-dependency-injection.ts:20-29, 76-109, 151-160): printing and wiring only.
- The `as T` cast of `Container.get`: the container holds values of one type `T`, so the unchecked cast has no counterpart.
- `Interfaces.Read`, `Interfaces.MemoryStore.Get` and `Interfaces.EmptyReadsUndefined`: the store's `Record` is a plain object `{}`, and JavaScript's prototype lookup on it is not modelled. In the source an id that was never set but names an inherited member ("toString", "__proto__", "constructor", ...) gives that member, not `undefined`. Here it gives `undefined`.
- `Interfaces.MemoryStore.Set` and `Interfaces.ReadAfterSet`: in the source, `this.data["__proto__"] = value` calls the inherited `__proto__` setter, which ignores a string. So nothing is stored, and a later `get("__proto__")` gives `Object.prototype`. Here every id, "__proto__" included, is an ordinary key: `set` stores the value and `get` then returns it.
- `Nullables.LenOrZero`: the length is counted in Dafny characters (Unicode scalar values), not JavaScript's UTF-16 code units. The two differ only for characters outside the Basic Multilingual Plane.
- `Nullables.FindById`: numbers are modelled as integers, so `NaN` and `-0` are not covered.
- `normalize`, `printDisplayName`, `getParentIdUnsafe` and `Config` (src/12-nullables.ts:46-53, 82-85, 124-126, 138-150): a library `trim` call, printing, a crash on a missing parent, and a trivial class.
- `getId` and `pluck` (src/16-generics.ts:54-66): `String(...)` conversion, and `keyof` indexing, which has no generic Dafny counterpart.
- `CarSimulation.Car.Drive`, `CarSimulation.Car.OperateEachTire`, `CarSimulation.Simulation.Run` and `CarSimulation.Simulation.DriveEachCycle`: these require `Car.Valid()`, which asks every tire to be a different object and the engine and gearbox to be outside the tire list. The source's `Car` accepts any `Tire[]`, including one that repeats a tire, as in `new Car(e, g, [t, t])`. A drive of that car operates `t` twice per cycle, 10 → 8 → 6, while `CarModel.Drive` treats the two entries as separate tires. The model has no statement for a car with shared parts. The factory, the only place the program builds a car, always uses distinct parts (`CarFactory.CreateCar` ensures `Valid()`).
- `CarSimulation.CarPart.constructor`, `CarSimulation.Simulation.Run` and `Decimal.IntToDecimal`: the source's health and cycle count are JavaScript numbers, and here they are integers. Three cases cannot be represented:
  - A part constructed with health `NaN` never breaks (`NaN === 0` is false), so it prints its running line forever.
  - A fractional count such as `run(2.5)` drives 3 times.
  - `console.log` prints integers of 10^21 and above in exponent form, which `IntToDecimal` does not produce.

  None of these arises in the program, which uses the default health 10 and `run(4)`.
- Negative `damage` amounts: the source never passes one. `Damaged` still follows the code for them, so health goes up.
- The type-only and floating-point teaching files: they have no runtime logic that can be stated over integers.
