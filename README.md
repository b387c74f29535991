# Cargo containers and a container ship, modelled in Dafny

This project models the C# console program `ConsoleApp2` (file
`ConsoleApp2/ConsoleApp2/Program.cs`): a base `Container` that holds a
mutable cargo weight under a hard capacity, three variants (a liquid
container that warns about hazards, a refrigerated "BingChilling" container
tied to a product temperature table, a gas container that never refuses a
load and keeps a 5% residue when unloaded), the process-wide serial-number
counter they share, and a `ContainerShip` that keeps an ordered list of
container references under a count limit and an aggregate weight limit.

Modules:

- `Outcomes` (`outcomes.dfy`): the exceptions of the program as an `Error`
  datatype, with `Outcome` and `Result` wrappers.
- `Serials` (`serials.dfy`): the static counter as a `SerialCounter`
  object that starts at 1, the serial format `"KON-C-" + n`, and the proof
  that different counter values give different serials.
- `Containers` (`containers.dfy`): one `Container` class with a `Kind`
  field saying which C# class the object belongs to. The subclasses'
  `LoadCargo`/`UnloadCargo` hide the base methods rather than override them
  (the base methods are not virtual), so each variant's method is its own
  Dafny method (`LoadCargo`, `UnloadCargo`, `LiquidLoadCargo`,
  `GasLoadCargo`, `GasUnloadCargo`) and the caller picks one, as the static
  type does in C#. A call through a `Container` reference runs the base
  method whatever the kind, and so may `LoadCargo` here. A hazard
  notification is a returned boolean.
- `Ships` (`ships.dfy`): `ContainerShip` with its list as a `seq` field
  that the methods reassign; `List.Remove`, `FirstOrDefault` and `Sum` as
  recursive functions over sequences, with their properties proved.
- `Scenarios` (`scenarios.dfy`): client methods that run the program's demo
  from `Main` and the behaviours of its operations, proved from the
  contracts above alone.

Behaviours of the code kept as written, which a reader might not expect:

- A cargo weight can become negative: nothing checks that a loaded weight
  is positive, so `LoadCargo` with a negative weight is accepted and
  subtracts. The model has no `cargoWeight >= 0` invariant.
- A ship's list may hold the same container twice, and a container may be on
  several ships: `LoadContainer` does not look for it first.
- The aggregate weight limit holds only at the moment of a load
  (`LoadContainer` ensures it on success); containers are shared objects
  whose cargo may change after boarding, so it is not an invariant.
- The hazardous-liquid threshold compares with half the current cargo
  (`cargoWeight + weight > cargoWeight * 0.5`), not half the capacity; it
  is kept as written, and `HazardousDangerOnAnyPositiveLoad` shows that it
  fires on every positive load into a cargo that is not negative.
- `ReplaceContainer` and `MoveContainer` are not atomic: the container
  taken off is not put back when the following load fails.

## Model

| member | source | states |
|---|---|---|
| `Serials.Decimal` | ConsoleApp2/ConsoleApp2/Program.cs:36 | the counter's decimal text is non-empty, all digits, with no leading zero |
| `Serials.ParseDecimalInvertsDecimal` | ConsoleApp2/ConsoleApp2/Program.cs:36 | reading the decimal text back gives the number, so no two counter values print alike |
| `Serials.Serial` | ConsoleApp2/ConsoleApp2/Program.cs:36 | the serial of counter value n is "KON-C-" followed by the decimal text of n (its properties are stated by `Serials.SerialInjective` and `Serials.Decimal`) |
| `Containers.LiquidDanger` | ConsoleApp2/ConsoleApp2/Program.cs:77-90 | the hazard condition on the pre-load weight: above half the current cargo if hazardous, above 90% of capacity otherwise (used by `Containers.Container.LiquidLoadCargo`) |
| `Ships.TotalGross` | ConsoleApp2/ConsoleApp2/Program.cs:190 | the sum of cargo plus tare over the ship's list (its properties are stated by the `Ships.TotalGross*` lemmas) |
| `Ships.Admission` | ConsoleApp2/ConsoleApp2/Program.cs:186-193 | the count check, then the scaled weight check, in the source's order (characterised by `Ships.ContainerShip.LoadContainer`) |
| `Serials.SerialInjective` | ConsoleApp2/ConsoleApp2/Program.cs:24-36 | two serials `"KON-C-" + n` are equal exactly when their counter values are |
| `Serials.SerialCounter.constructor` | ConsoleApp2/ConsoleApp2/Program.cs:24 | the shared counter starts at 1 |
| `Containers.Container.Init` | ConsoleApp2/ConsoleApp2/Program.cs:34-38 | every construction takes serial `"KON-C-" + counter`, advances the counter by one, differs from every serial issued before, sets the capacity, and leaves cargo, tare, height and depth at 0 |
| `Containers.Container.LoadCargo` | ConsoleApp2/ConsoleApp2/Program.cs:39-47 | fails with Overflow exactly when cargo plus weight passes the capacity, leaving the cargo unchanged; otherwise the cargo grows by exactly the weight and stays within the capacity |
| `Containers.Container.UnloadCargo` | ConsoleApp2/ConsoleApp2/Program.cs:49-52 | the cargo is 0 afterwards, whatever it was (so unloading twice changes nothing more) |
| `Containers.Container.LiquidLoadCargo` | ConsoleApp2/ConsoleApp2/Program.cs:75-93 | notifies exactly when the hazard condition holds on the pre-load weight (half the current cargo if hazardous, 90% of capacity otherwise), and loads or overflows exactly as the base load does, so it can warn and still fail |
| `Containers.HazardousDangerOnAnyPositiveLoad` | ConsoleApp2/ConsoleApp2/Program.cs:77-83 | for a hazardous liquid, any positive load into a non-negative cargo triggers the warning |
| `Containers.Container.GasLoadCargo` | ConsoleApp2/ConsoleApp2/Program.cs:153-160 | never fails; the cargo grows by exactly the weight, and the warning is raised exactly when the new cargo passes the capacity |
| `Containers.Container.GasUnloadCargo` | ConsoleApp2/ConsoleApp2/Program.cs:147-152 | the cargo is 5% of the capacity afterwards, whatever it was, and within the capacity when the capacity is non-negative |
| `Containers.NewRefrigerated` | ConsoleApp2/ConsoleApp2/Program.cs:107-126 | uses up one serial number in every case; succeeds exactly for Bananas, Fish and Eggs, with the table's required temperature and the given current temperature, an empty cargo and zero tare, height and depth, and a well-formed refrigerated kind; otherwise fails with UnknownProduct |
| `Ships.FirstIndex` | ConsoleApp2/ConsoleApp2/Program.cs:199 | the position of the first occurrence, which is before the end exactly when the element is present, with no occurrence before it |
| `Ships.RemoveFirst` | ConsoleApp2/ConsoleApp2/Program.cs:199 | `List.Remove` deletes the first occurrence and keeps the rest in order, and leaves a list without the element unchanged |
| `Ships.RemoveFirstMultiset` | ConsoleApp2/ConsoleApp2/Program.cs:199 | removal takes away exactly one copy of the element, if there is one, and nothing else |
| `Ships.RemoveFirstOfSingle` | ConsoleApp2/ConsoleApp2/Program.cs:213-217 | a container on board at most once is no longer on board after removal |
| `Ships.TotalGrossConcat` | ConsoleApp2/ConsoleApp2/Program.cs:190 | the weight sum of two lists joined is the sum of their sums |
| `Ships.TotalGrossAppend` | ConsoleApp2/ConsoleApp2/Program.cs:190-194 | appending a container adds its cargo plus tare to the ship's sum |
| `Ships.TotalGrossRemoveFirst` | ConsoleApp2/ConsoleApp2/Program.cs:197-200 | unloading a container on board takes its cargo plus tare off the ship's sum |
| `Ships.FirstBySerial` | ConsoleApp2/ConsoleApp2/Program.cs:204 | none exactly when no container has the serial; otherwise a container on board with that serial, no container before its first occurrence having the serial |
| `Ships.ContainerShip.constructor` | ConsoleApp2/ConsoleApp2/Program.cs:176-182 | a new ship is empty and keeps its three limits |
| `Ships.ContainerShip.LoadContainer` | ConsoleApp2/ConsoleApp2/Program.cs:184-195 | CapacityExceeded exactly when the ship is full; otherwise WeightExceeded exactly when (sum + cargo + tare) × 1000 passes the limit; otherwise appends the container and nothing else changes; the count limit is preserved, and after a success the scaled sum is within the limit |
| `Ships.ContainerShip.UnloadContainer` | ConsoleApp2/ConsoleApp2/Program.cs:197-200 | removes the first occurrence of that very container, does nothing when it is absent, and lowers the weight sum by its gross weight |
| `Ships.ContainerShip.ReplaceContainer` | ConsoleApp2/ConsoleApp2/Program.cs:202-211 | NotFound with the list unchanged when no container has the serial; otherwise the first such container is removed and the new one loaded, and when that load fails the removed one stays off |
| `Ships.ContainerShip.MoveContainer` | ConsoleApp2/ConsoleApp2/Program.cs:213-217 | removes from this ship, then loads onto the destination (also when it is this ship); if the destination refuses, a container that was on board once and was not already on the destination is on neither ship |
| `Scenarios.SmallSerials` | ConsoleApp2/ConsoleApp2/Program.cs:36 | the first four serials are KON-C-1 to KON-C-4 |
| `Scenarios.MakeDemoContainers` | ConsoleApp2/ConsoleApp2/Program.cs:244-246 | the demo's three containers take serials 1, 2 and 3 and start with no cargo and no tare, so each weighs 0 in the ship's sum |
| `Scenarios.BoardThree` | ConsoleApp2/ConsoleApp2/Program.cs:250-252 | three empty containers board an empty ship for ten, in order |
| `Scenarios.ReplaceDemoBanana` | ConsoleApp2/ConsoleApp2/Program.cs:258-259 | replacing the banana container by serial succeeds and puts the fish container last |
| `Scenarios.ShipDemo` | ConsoleApp2/ConsoleApp2/Program.cs:244-259 | the demo loads KON-C-1, KON-C-2, KON-C-3; the replacement succeeds and leaves KON-C-1, KON-C-3, KON-C-4 |
| `Scenarios.RefrigeratedProducts` | ConsoleApp2/ConsoleApp2/Program.cs:107-126 | Eggs requires 2 degrees; Steel fails with UnknownProduct and still uses up a serial number |
| `Scenarios.GasOverload` | ConsoleApp2/ConsoleApp2/Program.cs:147-160 | a gas container for 150 takes 200 with a warning; unloading twice leaves 7.5 both times |
| `Scenarios.LiquidWarnings` | ConsoleApp2/ConsoleApp2/Program.cs:75-93 | a non-hazardous liquid container for 100 warns at 95 and loads, then warns and overflows at 105, keeping 95; a hazardous one warns on a load of 1 into 1000 |
| `Scenarios.ShipForOne` | ConsoleApp2/ConsoleApp2/Program.cs:184-208 | a ship for one refuses a second container with CapacityExceeded and keeps one; an unknown serial gives NotFound |
| `Scenarios.MoveOntoFullShip` | ConsoleApp2/ConsoleApp2/Program.cs:213-217 | a move onto a full ship fails with CapacityExceeded and the container is then on neither ship |

## Left out

- Console output: the warning text of both `NotifyDanger` methods (a
  notification is a returned boolean), `PrintContainerInfo` and
  `PrintShipInfo`.
- `GetContainerInfo` in all four classes: string building over
  culture-dependent `double.ToString`, a foreign call with no rule to check.
- IEEE-754 `double`: weights, capacities and limits are exact `real`
  numbers, so the rounding of `MaxLoad * 0.05`, of the ×1000 scaling and of
  the sums is not modelled.
- `Containers.Container.Init`: the counter is an unbounded natural number;
  the C# `int` would wrap to negative values after 2^31 - 1 constructions,
  which the model does not capture.
- The interfaces `IContainer` and `IHazardNotifier`: they only group
  members; there is no dispatch through them to model, and a variant's method
  requires an object of that kind, as the C# static type does.
- A refrigerated container whose product is unknown is allocated and then
  dropped when the constructor throws; only the serial number it used up is
  observable, and the model keeps that.
- `Temperature` has a setter and `RequiredTemperature` is a public mutable
  field, but nothing in the program writes either after construction, so
  both are kept as immutable parts of the refrigerated kind.
- `MaxSpeedInKnots` and `pressure` are carried as fields; no rule reads them.
- `Main`'s `try`/`catch` and printing; its scenario is `Scenarios.ShipDemo`.
