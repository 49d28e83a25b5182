/** The Flyweight pattern: a factory that shares one `TreeType` per key of the
    form `name-color`, creating it on first request. */
module Flyweights {
  import opened Common

  /** The shared, intrinsic state of a tree. */
  class TreeType {
    const name: string
    const color: string

    constructor (name: string, color: string)
      ensures this.name == name && this.color == color
    {
      this.name := name;
      this.color := color;
    }

    /** `draw`: prints the tree at the given position with its shared state. */
    method Draw(x: int, y: int, out: Console)
      modifies out
      ensures out.lines == old(out.lines) + [DrawLine(name, color, x, y)]
    {
      out.Log("draw " + name + " at " + IntToString(x) + "," + IntToString(y) + " color=" + color);
    }
  }

  function DrawLine(name: string, color: string, x: int, y: int): string {
    "draw " + name + " at " + IntToString(x) + "," + IntToString(y) + " color=" + color
  }

  /** The cache key: name and color joined by a dash. */
  function Key(name: string, color: string): (k: string)
    ensures |k| == |name| + 1 + |color|
    ensures k[..|name|] == name && k[|name|] == '-' && k[|name| + 1..] == color
  {
    name + "-" + color
  }

  /** Joining by a dash forgets where the dash was: a dash inside either part lets
      two different pairs share a key. */
  lemma {:induction false} KeysCollide(a: string, b: string, c: string)
    ensures Key(a + "-" + b, c) == Key(a, b + "-" + c)
  {
    assert (a + "-" + b) + "-" + c == a + "-" + (b + "-" + c);
  }

  /** Without dashes in the names, the key determines the pair. */
  lemma KeyInjectiveWithoutDashInName(n1: string, c1: string, n2: string, c2: string)
    requires '-' !in n1 && '-' !in n2
    requires Key(n1, c1) == Key(n2, c2)
    ensures n1 == n2 && c1 == c2
  {
  }

  class TreeFactory {
    var types: map<string, TreeType>

    constructor ()
      ensures types == map[]
    {
      types := map[];
    }

    /** Returns the cached type for the key, or creates, stores and returns a new
        one; existing entries are never removed or replaced. */
    method GetType(name: string, color: string) returns (t: TreeType)
      modifies this
      ensures var key := Key(name, color);
              && key in types && t == types[key]
              && (key in old(types) ==> t == old(types)[key] && types == old(types))
              && (key !in old(types) ==>
                    (&& fresh(t) && t.name == name && t.color == color
                     && types == old(types)[key := t]
                     && |types| == |old(types)| + 1))
      ensures forall k :: k in old(types) ==> k in types && types[k] == old(types)[k]
    {
      var key := name + "-" + color;
      if key in types {
        t := types[key];
      } else {
        t := new TreeType(name, color);
        types := types[key := t];
      }
    }
  }

  /** Two pairs with the same key get the first pair's instance, whose name and
      color are those of the first request. */
  method DemoCollision() returns (first: TreeType, second: TreeType)
    ensures first == second
    ensures second.name == "a-b" && second.color == "c"
  {
    var f := new TreeFactory();
    first := f.GetType("a-b", "c");
    KeysCollide("a", "b", "c");
    assert "a" + "-" + "b" == "a-b" && "b" + "-" + "c" == "b-c";
    second := f.GetType("a", "b-c");
  }

  /** The demo: two requests for the same tree return the identical instance. */
  method DemoFlyweight(out: Console) returns (same: bool)
    modifies out
    ensures same
    ensures out.lines == old(out.lines) + ["Flyweight pattern demo:", "same instance? true",
                                           DrawLine("oak", "green", 1, 2), DrawLine("oak", "green", 3, 4)]
  {
    out.Log("Flyweight pattern demo:");
    var f := new TreeFactory();
    var t1 := f.GetType("oak", "green");
    var t2 := f.GetType("oak", "green");
    same := t1 == t2;
    assert "same instance? " + BoolToString(same) == "same instance? true";
    out.Log("same instance? " + BoolToString(same));
    t1.Draw(1, 2, out);
    t2.Draw(3, 4, out);
  }
}
