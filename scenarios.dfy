/** Client code built only on the contracts of the other modules: the
    program's demo and the behaviours of its operations, each stated
    as the results of a method that runs them. */
module Scenarios {
  import opened Outcomes
  import opened Serials
  import opened Containers
  import opened Ships

  function SerialsOf(cs: seq<Container>): seq<string> {
    seq(|cs|, i requires 0 <= i < |cs| => cs[i].serialNumber)
  }

  lemma SmallSerials()
    ensures Serial(1) == "KON-C-1" && Serial(2) == "KON-C-2"
    ensures Serial(3) == "KON-C-3" && Serial(4) == "KON-C-4"
  {
    assert Decimal(1) == "1" && Decimal(2) == "2" && Decimal(3) == "3" && Decimal(4) == "4";
  }

  /** The demo's containers, built in the demo's order on a fresh counter:
      a hazardous liquid container for 100, a banana container for 200 and
      a gas container for 150. */
  method MakeDemoContainers(counter: SerialCounter) returns (liquid: Container, banana: Container, gas: Container)
    requires counter.next == 1
    modifies counter
    ensures counter.next == 4
    ensures liquid.serialNumber == Serial(1) && banana.serialNumber == Serial(2) && gas.serialNumber == Serial(3)
    ensures liquid.cargoWeight == 0.0 && banana.cargoWeight == 0.0 && gas.cargoWeight == 0.0
    ensures liquid.containerWeight == 0.0 && banana.containerWeight == 0.0 && gas.containerWeight == 0.0
    ensures Gross(liquid) == 0.0 && Gross(banana) == 0.0 && Gross(gas) == 0.0
  {
    liquid := new Container.Init(100.0, Liquid(true), counter);
    var chilling := NewRefrigerated(200.0, "Bananas", 5.0, counter);
    banana := chilling.value;
    gas := new Container.Init(150.0, Gas(2.5), counter);
  }

  /** Three empty containers all fit, in order, on an empty ship that takes
      at least three containers and any non-negative weight. */
  method BoardThree(ship: ContainerShip, a: Container, b: Container, c: Container)
    requires ship.Valid() && ship.containers == []
    requires ship.maxContainerCount >= 3 && ship.maxTotalWeightInTons >= 0.0
    requires Gross(a) == 0.0 && Gross(b) == 0.0 && Gross(c) == 0.0
    modifies ship`containers
    ensures ship.Valid() && ship.containers == [a, b, c]
  {
    var r := ship.LoadContainer(a);
    assert r == Pass && ship.containers == [a];
    assert TotalGross(ship.containers) == 0.0 by {
      assert ship.containers[1..] == [];
    }
    r := ship.LoadContainer(b);
    assert r == Pass && ship.containers == [a, b];
    assert TotalGross(ship.containers) == 0.0 by {
      assert ship.containers[1..] == [b] && [b][1..] == [];
    }
    r := ship.LoadContainer(c);
    assert r == Pass;
  }

  /** The second half of the demo: the banana container, found by its
      serial, gives its place to a fish container, which goes last. */
  method ReplaceDemoBanana(ship: ContainerShip, liquid: Container, banana: Container, gas: Container, fish: Container)
    returns (r: Outcome)
    requires ship.Valid() && ship.containers == [liquid, banana, gas]
    requires ship.maxContainerCount == 10 && ship.maxTotalWeightInTons == 300.0
    requires liquid.serialNumber == Serial(1) && banana.serialNumber == Serial(2)
    requires Gross(liquid) == 0.0 && Gross(gas) == 0.0 && Gross(fish) == 0.0
    modifies ship`containers
    ensures r == Pass && ship.containers == [liquid, gas, fish]
  {
    assert FirstBySerial(ship.containers, banana.serialNumber) == Some(banana) by {
      SerialInjective(1, 2);
    }
    assert RemoveFirst(ship.containers, banana) == [liquid, gas];
    assert TotalGross([liquid, gas]) == 0.0 by {
      assert TotalGross([gas]) == 0.0 by {
        assert [gas][1..] == [];
      }
      assert [liquid, gas][1..] == [gas];
    }
    r := ship.ReplaceContainer(banana.serialNumber, fish);
  }

  /** The demo: three containers boarded in order, then the banana container
      replaced by a fish container, which ends up last. */
  method ShipDemo() returns (loaded: seq<string>, replaced: Outcome, afterReplace: seq<string>)
    ensures loaded == ["KON-C-1", "KON-C-2", "KON-C-3"]
    ensures replaced == Pass
    ensures afterReplace == ["KON-C-1", "KON-C-3", "KON-C-4"]
  {
    var counter := new SerialCounter();
    var liquid, banana, gas := MakeDemoContainers(counter);
    var ship := new ContainerShip(20.0, 10, 300.0);
    BoardThree(ship, liquid, banana, gas);
    loaded := SerialsOf(ship.containers);
    var fish := NewRefrigerated(180.0, "Fish", 4.5, counter);
    replaced := ReplaceDemoBanana(ship, liquid, banana, gas, fish.value);
    afterReplace := SerialsOf(ship.containers);
    SmallSerials();
    assert loaded == [Serial(1), Serial(2), Serial(3)];
    assert afterReplace == [Serial(1), Serial(3), Serial(4)];
  }

  /** Eggs are known (2 degrees required); steel is not, and its failed
      construction still uses up serial number 2. */
  method RefrigeratedProducts() returns (eggs: Result<Container>, steel: Result<Container>, nextSerial: nat)
    ensures eggs.Ok? && eggs.value.kind == Refrigerated("Eggs", 2.0, 3.5)
    ensures steel == Err(UnknownProduct)
    ensures nextSerial == 3
  {
    var counter := new SerialCounter();
    eggs := NewRefrigerated(50.0, "Eggs", 3.5, counter);
    steel := NewRefrigerated(50.0, "Steel", 3.5, counter);
    nextSerial := counter.next;
  }

  /** A gas container for 150 takes 200 with a warning; unloading twice leaves
      the same 5% residue. */
  method GasOverload() returns (notified: bool, loaded: real, firstUnload: real, secondUnload: real)
    ensures notified && loaded == 200.0
    ensures firstUnload == secondUnload == 7.5
  {
    var counter := new SerialCounter();
    var gas := new Container.Init(150.0, Gas(2.5), counter);
    notified := gas.GasLoadCargo(200.0);
    loaded := gas.cargoWeight;
    gas.GasUnloadCargo();
    firstUnload := gas.cargoWeight;
    gas.GasUnloadCargo();
    secondUnload := gas.cargoWeight;
  }

  /** A non-hazardous liquid container for 100 warns past 90 and still loads;
      a further load warns and then overflows, leaving the cargo as it was.
      A hazardous one warns on its very first kilogram. */
  method LiquidWarnings() returns (warned95: bool, warnedOver: bool, over: Outcome, kept: real, warnedHazard: bool)
    ensures warned95 && warnedOver && over == Fail(Overflow) && kept == 95.0
    ensures warnedHazard
  {
    var counter := new SerialCounter();
    var water := new Container.Init(100.0, Liquid(false), counter);
    var r;
    warned95, r := water.LiquidLoadCargo(95.0);
    warnedOver, over := water.LiquidLoadCargo(10.0);
    kept := water.cargoWeight;
    var acid := new Container.Init(1000.0, Liquid(true), counter);
    warnedHazard, r := acid.LiquidLoadCargo(1.0);
  }

  /** A ship for one container refuses a second and keeps the first; a
      replacement by a serial nobody has changes nothing. */
  method ShipForOne() returns (second: Outcome, missing: Outcome, aboard: nat)
    ensures second == Fail(CapacityExceeded)
    ensures missing == Fail(NotFound)
    ensures aboard == 1
  {
    var counter := new SerialCounter();
    var a := new Container.Init(10.0, Plain, counter);
    var b := new Container.Init(10.0, Plain, counter);
    var small := new ContainerShip(10.0, 1, 100.0);
    var r := small.LoadContainer(a);
    second := small.LoadContainer(b);
    assert small.containers == [a];
    assert FirstBySerial([a], "KON-C-99").None? by {
      assert |a.serialNumber| == 7;
    }
    missing := small.ReplaceContainer("KON-C-99", b);
    aboard := |small.containers|;
  }

  /** Moving a container onto a full ship fails after it has left its own
      ship, so it is on neither. */
  method MoveOntoFullShip() returns (moved: Outcome, lost: bool)
    ensures moved == Fail(CapacityExceeded)
    ensures lost
  {
    var counter := new SerialCounter();
    var a := new Container.Init(10.0, Plain, counter);
    var b := new Container.Init(10.0, Plain, counter);
    var full := new ContainerShip(10.0, 1, 100.0);
    var other := new ContainerShip(10.0, 5, 100.0);
    var r := full.LoadContainer(a);
    r := other.LoadContainer(b);
    assert other.containers == [b] && full.containers == [a];
    moved := other.MoveContainer(b, full);
    lost := b !in other.containers && b !in full.containers;
  }
}
