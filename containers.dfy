/** The container family. The C# program has a base class Container and three
    subclasses whose LoadCargo/UnloadCargo hide (they do not override) the base
    methods. Here one class carries a Kind that says which subclass an object
    is, and each variant's method is a method of its own; which one runs is
    chosen by the caller, as the static type chooses it in the source. */
module Containers {
  import opened Outcomes
  import opened Serials

  /** LiquidContainer carries isHazardous; BingChillingContainer (the
      refrigerated container) its product, required and current temperature;
      GasContainer its pressure. Plain is the base class itself. */
  datatype Kind =
    | Plain
    | Liquid(isHazardous: bool)
    | Refrigerated(productType: string, requiredTemperature: real, temperature: real)
    | Gas(pressure: real)

  /** The fixed product table of the refrigerated container. */
  const ProductTemperatures: map<string, real> :=
    map["Bananas" := 4.0, "Fish" := 6.0, "Eggs" := 2.0]

  /** The hazard condition of LiquidContainer.LoadCargo, evaluated on the
      weight before the load. For hazardous cargo the threshold is half the
      current cargo weight, not half the capacity: it is kept as written. */
  predicate LiquidDanger(isHazardous: bool, cargoWeight: real, weight: real, maxLoad: real) {
    if isHazardous then cargoWeight + weight > cargoWeight * 0.5
    else cargoWeight + weight > maxLoad * 0.9
  }

  /** As written, the hazardous threshold fires on every load of a positive
      weight into a container that is not over-drawn, however small the load
      and however large the capacity. */
  lemma HazardousDangerOnAnyPositiveLoad(cargoWeight: real, weight: real, maxLoad: real)
    requires cargoWeight >= 0.0 && weight > 0.0
    ensures LiquidDanger(true, cargoWeight, weight, maxLoad)
  {
  }

  /** A kind the program can actually build: a refrigerated container names a
      product of the table and carries that product's required temperature. */
  predicate WellFormedKind(kind: Kind) {
    kind.Refrigerated? ==>
      kind.productType in ProductTemperatures &&
      kind.requiredTemperature == ProductTemperatures[kind.productType]
  }

  class Container {
    const serialNumber: string
    const height: real
    const depth: real
    const containerWeight: real
    const maxLoad: real
    const kind: Kind
    var cargoWeight: real

    /** The base constructor, which every variant's constructor runs first:
        it takes the next serial number and sets the capacity. Height, depth
        and tare weight are never assigned, so they keep their default 0.
        The plain, liquid and gas constructors are this one with their kind;
        a refrigerated container is built only through NewRefrigerated,
        which checks the product against the table. */
    constructor Init(maxCapacity: real, kind: Kind, counter: SerialCounter)
      modifies counter
      ensures serialNumber == Serial(old(counter.next))
      ensures counter.next == old(counter.next) + 1
      ensures forall k: nat :: k < old(counter.next) ==> serialNumber != Serial(k)
      ensures maxLoad == maxCapacity && this.kind == kind
      ensures cargoWeight == 0.0
      ensures height == 0.0 && depth == 0.0 && containerWeight == 0.0
    {
      serialNumber := Serial(counter.next);
      maxLoad := maxCapacity;
      this.kind := kind;
      height, depth, containerWeight := 0.0, 0.0, 0.0;
      cargoWeight := 0.0;
      counter.next := counter.next + 1;
      new;
      forall k: nat | k < old(counter.next)
        ensures serialNumber != Serial(k)
      {
        SerialInjective(k, old(counter.next));
      }
    }

    /** Container.LoadCargo: refuses a load that would take the cargo past
        the capacity and otherwise adds it. */
    method LoadCargo(weight: real) returns (r: Outcome)
      modifies this`cargoWeight
      ensures r.Fail? <==> old(cargoWeight) + weight > maxLoad
      ensures r.Fail? ==> r.error == Overflow && cargoWeight == old(cargoWeight)
      ensures r.Pass? ==> cargoWeight == old(cargoWeight) + weight
      ensures r.Pass? ==> cargoWeight <= maxLoad
    {
      if cargoWeight + weight > maxLoad {
        return Fail(Overflow);
      }
      cargoWeight := cargoWeight + weight;
      r := Pass;
    }

    /** Container.UnloadCargo: empties the container. */
    method UnloadCargo()
      modifies this`cargoWeight
      ensures cargoWeight == 0.0
    {
      cargoWeight := 0.0;
    }

    /** LiquidContainer.LoadCargo: reports danger against the pre-load weight,
        then loads exactly as the base does, overflow included. */
    method LiquidLoadCargo(weight: real) returns (notified: bool, r: Outcome)
      requires kind.Liquid?
      modifies this`cargoWeight
      ensures notified <==> LiquidDanger(kind.isHazardous, old(cargoWeight), weight, maxLoad)
      ensures r.Fail? <==> old(cargoWeight) + weight > maxLoad
      ensures r.Fail? ==> r.error == Overflow && cargoWeight == old(cargoWeight)
      ensures r.Pass? ==> cargoWeight == old(cargoWeight) + weight
      ensures r.Pass? ==> cargoWeight <= maxLoad
    {
      if kind.isHazardous {
        notified := cargoWeight + weight > cargoWeight * 0.5;
      } else {
        notified := cargoWeight + weight > maxLoad * 0.9;
      }
      r := LoadCargo(weight);
    }

    /** GasContainer.LoadCargo: never refuses; it reports danger exactly when
        the load takes the cargo past the capacity. */
    method GasLoadCargo(weight: real) returns (notified: bool)
      requires kind.Gas?
      modifies this`cargoWeight
      ensures cargoWeight == old(cargoWeight) + weight
      ensures notified <==> cargoWeight > maxLoad
    {
      notified := cargoWeight + weight > maxLoad;
      cargoWeight := cargoWeight + weight;
    }

    /** GasContainer.UnloadCargo: empties through the base, then leaves 5% of
        the capacity behind, whatever was there before. */
    method GasUnloadCargo()
      requires kind.Gas?
      modifies this`cargoWeight
      ensures cargoWeight == maxLoad * 0.05
      ensures maxLoad >= 0.0 ==> 0.0 <= cargoWeight <= maxLoad
    {
      UnloadCargo();
      cargoWeight := maxLoad * 0.05;
    }
  }

  /** BingChillingContainer's constructor. The base constructor has already
      taken a serial number when the product is looked up, so an unknown
      product still uses up a number; the half-built object is dropped. */
  method NewRefrigerated(maxCapacity: real, productType: string, initialTemperature: real,
                         counter: SerialCounter) returns (r: Result<Container>)
    modifies counter
    ensures counter.next == old(counter.next) + 1
    ensures r.Ok? <==> productType in ProductTemperatures
    ensures r.Err? ==> r.error == UnknownProduct
    ensures r.Ok? ==> fresh(r.value) && r.value.serialNumber == Serial(old(counter.next))
    ensures r.Ok? ==> r.value.maxLoad == maxCapacity && r.value.cargoWeight == 0.0
    ensures r.Ok? ==> r.value.containerWeight == 0.0 && r.value.height == 0.0 && r.value.depth == 0.0
    ensures r.Ok? ==> WellFormedKind(r.value.kind)
    ensures r.Ok? ==> r.value.kind == Refrigerated(productType, ProductTemperatures[productType], initialTemperature)
  {
    var required := if productType in ProductTemperatures then ProductTemperatures[productType] else 0.0;
    var c := new Container.Init(maxCapacity, Refrigerated(productType, required, initialTemperature), counter);
    if productType !in ProductTemperatures {
      return Err(UnknownProduct);
    }
    r := Ok(c);
  }
}
