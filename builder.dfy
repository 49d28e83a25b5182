/** The Builder pattern: a `HouseBuilder` mutates a house under construction and
    hands it out on `build`, starting over with a fresh house. */
module Builders {
  import opened Common

  /** The three settings of a house, as plain values. */
  datatype Plan = Plan(windows: int, doors: int, hasGarage: bool)

  const DefaultPlan := Plan(0, 0, false)

  /** How `toString` renders a house with the given settings. */
  function Describe(p: Plan): string {
    "House(windows=" + IntToString(p.windows) + ", doors=" + IntToString(p.doors)
    + ", garage=" + BoolToString(p.hasGarage) + ")"
  }

  class House {
    var windows: int
    var doors: int
    var hasGarage: bool

    /** A new house has no windows, no doors and no garage. */
    constructor ()
      ensures Settings() == DefaultPlan
    {
      windows := 0;
      doors := 0;
      hasGarage := false;
    }

    function Settings(): Plan
      reads this
    {
      Plan(windows, doors, hasGarage)
    }

    function ToString(): string
      reads this
    {
      Describe(Settings())
    }
  }

  class HouseBuilder {
    var house: House

    constructor ()
      ensures fresh(house) && house.Settings() == DefaultPlan
    {
      house := new House();
    }

    /** Replaces the house in progress by a fresh default one. */
    method Reset() returns (self: HouseBuilder)
      modifies this
      ensures self == this
      ensures fresh(house) && house.Settings() == DefaultPlan
    {
      house := new House();
      return this;
    }

    /** Sets the window count and nothing else; returns the same builder. */
    method WithWindows(n: int) returns (self: HouseBuilder)
      modifies house
      ensures self == this && house == old(house)
      ensures house.Settings() == old(house.Settings()).(windows := n)
    {
      house.windows := n;
      return this;
    }

    /** Sets the door count and nothing else; returns the same builder. */
    method WithDoors(n: int) returns (self: HouseBuilder)
      modifies house
      ensures self == this && house == old(house)
      ensures house.Settings() == old(house.Settings()).(doors := n)
    {
      house.doors := n;
      return this;
    }

    /** Sets the garage flag and nothing else (`withGarage()` passes true). */
    method WithGarage(enabled: bool := true) returns (self: HouseBuilder)
      modifies house
      ensures self == this && house == old(house)
      ensures house.Settings() == old(house.Settings()).(hasGarage := enabled)
    {
      house.hasGarage := enabled;
      return this;
    }

    /** Hands out the house built so far and starts over with a fresh one. */
    method Build() returns (result: House)
      modifies this
      ensures result == old(house) && result.Settings() == old(house.Settings())
      ensures fresh(house) && house.Settings() == DefaultPlan
    {
      result := house;
      var _ := Reset();
    }
  }

  /** How the demo's small house renders. */
  lemma SmallHouseText()
    ensures Describe(Plan(2, 1, false)) == "House(windows=2, doors=1, garage=false)"
  {
    assert IntToString(2) == "2" && IntToString(1) == "1";
    assert "House(windows=" + "2" == "House(windows=2";
    assert "House(windows=2" + ", doors=" + "1" == "House(windows=2, doors=1";
    assert "House(windows=2, doors=1" + ", garage=" + "false" == "House(windows=2, doors=1, garage=false";
  }

  /** How the demo's big house renders. */
  lemma BigHouseText()
    ensures Describe(Plan(10, 4, true)) == "House(windows=10, doors=4, garage=true)"
  {
    assert IntToString(10) == "10" && IntToString(4) == "4";
    assert "House(windows=" + "10" == "House(windows=10";
    assert "House(windows=10" + ", doors=" + "4" == "House(windows=10, doors=4";
    assert "House(windows=10, doors=4" + ", garage=" + "true" == "House(windows=10, doors=4, garage=true";
  }

  /** The demo's two houses from one builder; the second build does not touch the first. */
  method DemoHouses() returns (small: House, big: House)
    ensures small != big
    ensures small.Settings() == Plan(2, 1, false) && big.Settings() == Plan(10, 4, true)
  {
    var b := new HouseBuilder();
    var b1 := b.WithWindows(2);
    var b2 := b1.WithDoors(1);
    small := b2.Build();
    var b3 := b.WithWindows(10);
    var b4 := b3.WithDoors(4);
    var b5 := b4.WithGarage();
    big := b5.Build();
  }

  /** The demo prints both houses in the order they were built. */
  method DemoBuilder(out: Console) returns (small: House, big: House)
    modifies out
    ensures small != big
    ensures small.Settings() == Plan(2, 1, false) && big.Settings() == Plan(10, 4, true)
    ensures out.lines == old(out.lines) + ["Builder pattern demo:",
      "House(windows=2, doors=1, garage=false)", "House(windows=10, doors=4, garage=true)"]
  {
    out.Log("Builder pattern demo:");
    small, big := DemoHouses();
    SmallHouseText();
    out.Log(small.ToString());
    BigHouseText();
    out.Log(big.ToString());
  }
}
