/** The container ship: an ordered list of container references, loaded under
    a count limit and an aggregate weight limit. */
module Ships {
  import opened Outcomes
  import opened Containers

  /** The index of the first occurrence of x in s, or |s| when x is absent. */
  function FirstIndex<T(==)>(s: seq<T>, x: T): (i: nat)
    ensures i <= |s|
    ensures i < |s| <==> x in s
    ensures i < |s| ==> s[i] == x
    ensures forall j :: 0 <= j < i ==> s[j] != x
  {
    if s == [] then 0
    else if s[0] == x then 0
    else 1 + FirstIndex(s[1..], x)
  }

  /** List<T>.Remove: deletes the first element equal to x (for containers,
      the same reference) and leaves the list alone when there is none. */
  function RemoveFirst<T(==)>(s: seq<T>, x: T): (r: seq<T>)
    ensures x !in s ==> r == s
    ensures x in s ==> r == s[..FirstIndex(s, x)] + s[FirstIndex(s, x) + 1..]
  {
    if s == [] then []
    else if s[0] == x then s[1..]
    else [s[0]] + RemoveFirst(s[1..], x)
  }

  /** Removing takes away exactly one copy of x when there is one. */
  lemma {:induction false} RemoveFirstMultiset<T>(s: seq<T>, x: T)
    ensures multiset(RemoveFirst(s, x)) == multiset(s) - multiset{x}
  {
    if s != [] {
      assert s == [s[0]] + s[1..];
      if s[0] != x {
        RemoveFirstMultiset(s[1..], x);
      }
    }
  }

  /** A container on board once is gone after it is removed. */
  lemma RemoveFirstOfSingle<T>(s: seq<T>, x: T)
    requires multiset(s)[x] <= 1
    ensures x !in RemoveFirst(s, x)
  {
    RemoveFirstMultiset(s, x);
    assert multiset(RemoveFirst(s, x))[x] == 0;
  }

  /** What one container weighs in the ship's sum: cargo plus tare. */
  function Gross(c: Container): real
    reads c
  {
    c.cargoWeight + c.containerWeight
  }

  /** Containers.Sum(c => c.CargoWeight + c.ContainerWeight). */
  function TotalGross(cs: seq<Container>): real
    reads cs
  {
    if cs == [] then 0.0 else Gross(cs[0]) + TotalGross(cs[1..])
  }

  lemma {:induction false} TotalGrossConcat(a: seq<Container>, b: seq<Container>)
    ensures TotalGross(a + b) == TotalGross(a) + TotalGross(b)
    decreases |a|
  {
    if a == [] {
      assert a + b == b;
    } else {
      assert (a + b)[0] == a[0];
      assert (a + b)[1..] == a[1..] + b;
      TotalGrossConcat(a[1..], b);
    }
  }

  /** Appending a container adds its gross weight to the ship's sum. */
  lemma TotalGrossAppend(cs: seq<Container>, c: Container)
    ensures TotalGross(cs + [c]) == TotalGross(cs) + Gross(c)
  {
    TotalGrossConcat(cs, [c]);
  }

  /** Removing a container on board takes its gross weight off the sum. */
  lemma TotalGrossRemoveFirst(cs: seq<Container>, c: Container)
    requires c in cs
    ensures TotalGross(RemoveFirst(cs, c)) == TotalGross(cs) - Gross(c)
  {
    var i := FirstIndex(cs, c);
    assert cs == cs[..i] + [c] + cs[i + 1..];
    TotalGrossConcat(cs[..i] + [c], cs[i + 1..]);
    TotalGrossConcat(cs[..i], [c]);
    TotalGrossConcat(cs[..i], cs[i + 1..]);
  }

  /** Containers.FirstOrDefault(c => c.SerialNumber == serial): the first
      container with that serial, or None (the C# null). */
  function FirstBySerial(cs: seq<Container>, serial: string): (r: Option<Container>)
    ensures r.None? <==> forall i :: 0 <= i < |cs| ==> cs[i].serialNumber != serial
    ensures r.Some? ==> r.value in cs && r.value.serialNumber == serial
    ensures r.Some? ==> forall j :: 0 <= j < FirstIndex(cs, r.value) ==> cs[j].serialNumber != serial
  {
    if cs == [] then None
    else if cs[0].serialNumber == serial then Some(cs[0])
    else FirstBySerial(cs[1..], serial)
  }

  /** The two checks of LoadContainer, in the order the source makes them:
      the count limit first, then the weight sum scaled by 1000 against the
      limit in tons. */
  function Admission(count: int, maxCount: int, total: real, incoming: real, maxTons: real): Outcome {
    if count >= maxCount then Fail(CapacityExceeded)
    else if (total + incoming) * 1000.0 > maxTons then Fail(WeightExceeded)
    else Pass
  }

  class ContainerShip {
    var containers: seq<Container>
    const maxSpeedInKnots: real
    const maxContainerCount: int
    const maxTotalWeightInTons: real

    /** The list never holds more containers than the ship allows (with a
        negative limit, nothing can be loaded, so the list stays empty). */
    ghost predicate Valid()
      reads this
    {
      containers == [] || |containers| <= maxContainerCount
    }

    constructor (maxSpeedInKnots: real, maxContainerCount: int, maxTotalWeightInTons: real)
      ensures Valid() && containers == []
      ensures this.maxSpeedInKnots == maxSpeedInKnots
      ensures this.maxContainerCount == maxContainerCount
      ensures this.maxTotalWeightInTons == maxTotalWeightInTons
    {
      this.maxSpeedInKnots := maxSpeedInKnots;
      this.maxContainerCount := maxContainerCount;
      this.maxTotalWeightInTons := maxTotalWeightInTons;
      containers := [];
    }

    /** Refuses when the ship is full, then when the weight would pass the
        limit; otherwise appends the container, even one already on board.
        The weight limit holds at the moment of loading only: the containers
        are shared and their cargo may change afterwards. */
    method LoadContainer(c: Container) returns (r: Outcome)
      requires Valid()
      modifies this`containers
      ensures Valid()
      ensures r == Fail(CapacityExceeded) <==> old(|containers|) >= maxContainerCount
      ensures r == Fail(WeightExceeded) <==>
        old(|containers|) < maxContainerCount &&
        (old(TotalGross(containers)) + c.cargoWeight + c.containerWeight) * 1000.0 > maxTotalWeightInTons
      ensures r.Fail? ==> r.error in {CapacityExceeded, WeightExceeded}
      ensures r == Admission(old(|containers|), maxContainerCount, old(TotalGross(containers)), Gross(c), maxTotalWeightInTons)
      ensures containers == if r.Pass? then old(containers) + [c] else old(containers)
      ensures r.Pass? ==> TotalGross(containers) * 1000.0 <= maxTotalWeightInTons
    {
      if |containers| >= maxContainerCount {
        return Fail(CapacityExceeded);
      }
      if (TotalGross(containers) + c.cargoWeight + c.containerWeight) * 1000.0 > maxTotalWeightInTons {
        return Fail(WeightExceeded);
      }
      TotalGrossAppend(containers, c);
      containers := containers + [c];
      r := Pass;
    }

    /** Takes the first occurrence of this very container off the ship; does
        nothing when it is not on board. */
    method UnloadContainer(c: Container)
      requires Valid()
      modifies this`containers
      ensures Valid()
      ensures containers == RemoveFirst(old(containers), c)
      ensures c in old(containers) ==> |containers| == old(|containers|) - 1
      ensures c in old(containers) ==> TotalGross(containers) == old(TotalGross(containers)) - Gross(c)
      ensures multiset(containers) == multiset(old(containers)) - multiset{c}
    {
      RemoveFirstMultiset(containers, c);
      if c in containers {
        TotalGrossRemoveFirst(containers, c);
      }
      containers := RemoveFirst(containers, c);
    }

    /** Fails with NotFound, changing nothing, when no container has the
        serial. Otherwise removes the first container that has it and then
        loads the new one; if that load fails the removed container is not
        put back. */
    method ReplaceContainer(serial: string, newContainer: Container) returns (r: Outcome)
      requires Valid()
      modifies this`containers
      ensures Valid()
      ensures FirstBySerial(old(containers), serial).None? ==>
        r == Fail(NotFound) && containers == old(containers)
      ensures FirstBySerial(old(containers), serial).Some? ==>
        var removed := FirstBySerial(old(containers), serial).value;
        var rest := RemoveFirst(old(containers), removed);
        r == Admission(|rest|, maxContainerCount, old(TotalGross(rest)), Gross(newContainer), maxTotalWeightInTons) &&
        containers == if r.Pass? then rest + [newContainer] else rest
    {
      var found := FirstBySerial(containers, serial);
      if found.None? {
        return Fail(NotFound);
      }
      ghost var rest := RemoveFirst(containers, found.value);
      ghost var restGross := TotalGross(rest);
      UnloadContainer(found.value);
      assert containers == rest && TotalGross(containers) == restGross;
      r := LoadContainer(newContainer);
    }

    /** Unloads from this ship, then loads onto the destination. If the
        destination refuses, the container stays off this ship too. */
    method MoveContainer(c: Container, destination: ContainerShip) returns (r: Outcome)
      requires Valid() && destination.Valid()
      modifies this`containers, destination`containers
      ensures Valid() && destination.Valid()
      ensures destination != this ==> containers == RemoveFirst(old(containers), c)
      ensures destination != this ==>
        r == Admission(old(|destination.containers|), destination.maxContainerCount,
                       old(TotalGross(destination.containers)), Gross(c), destination.maxTotalWeightInTons)
      ensures destination != this ==>
        destination.containers == if r.Pass? then old(destination.containers) + [c] else old(destination.containers)
      ensures destination == this ==>
        var rest := RemoveFirst(old(containers), c);
        r == Admission(|rest|, maxContainerCount, old(TotalGross(rest)), Gross(c), maxTotalWeightInTons) &&
        containers == if r.Pass? then rest + [c] else rest
      ensures destination != this && r.Fail? && multiset(old(containers))[c] <= 1 && c !in old(destination.containers) ==>
        c !in containers && c !in destination.containers
    {
      ghost var rest := RemoveFirst(containers, c);
      ghost var restGross := TotalGross(rest);
      ghost var destinationBefore := destination.containers;
      ghost var destinationGross := TotalGross(destinationBefore);
      if destination != this && multiset(containers)[c] <= 1 {
        RemoveFirstOfSingle(containers, c);
      }
      UnloadContainer(c);
      if destination == this {
        assert TotalGross(containers) == restGross;
      } else {
        assert destination.containers == destinationBefore;
        assert TotalGross(destination.containers) == destinationGross;
      }
      r := destination.LoadContainer(c);
    }
  }
}
