/** The Composite pattern: leaves and composites share `print`, which renders a
    tree in preorder, each level indented two spaces deeper. The tree is a value. */
module Composites {

  datatype Component = Leaf(name: string) | Composite(name: string, children: seq<Component>)

  /** `add`: the composite with `child` appended after its existing children. */
  function Add(c: Component, child: Component): (r: Component)
    requires c.Composite?
    ensures r.Composite? && r.name == c.name && r.children == c.children + [child]
  {
    Composite(c.name, c.children + [child])
  }

  /** `print(indent)`: the lines the component writes, its own first. */
  function Print(c: Component, indent: string := ""): seq<string> {
    match c
    case Leaf(name) => [indent + name]
    case Composite(name, children) => [indent + name] + PrintAll(children, indent + "  ")
  }

  /** The loop of `Composite.print`: each child in order, one level deeper. */
  function PrintAll(cs: seq<Component>, indent: string): seq<string> {
    if cs == [] then [] else PrintAll(cs[..|cs| - 1], indent) + Print(cs[|cs| - 1], indent)
  }

  /** The number of nodes of a tree. */
  function Size(c: Component): nat {
    match c
    case Leaf(_) => 1
    case Composite(_, children) => 1 + SizeAll(children)
  }

  function SizeAll(cs: seq<Component>): nat {
    if cs == [] then 0 else SizeAll(cs[..|cs| - 1]) + Size(cs[|cs| - 1])
  }

  /** A node of the preorder listing: its depth below the root and its name. */
  datatype Entry = Entry(depth: nat, name: string)

  /** Reference listing: every node in preorder, with its depth. */
  function Outline(c: Component, depth: nat): seq<Entry> {
    match c
    case Leaf(name) => [Entry(depth, name)]
    case Composite(name, children) => [Entry(depth, name)] + OutlineAll(children, depth + 1)
  }

  function OutlineAll(cs: seq<Component>, depth: nat): seq<Entry> {
    if cs == [] then [] else OutlineAll(cs[..|cs| - 1], depth) + Outline(cs[|cs| - 1], depth)
  }

  /** `n` levels of indentation: two spaces each. */
  function Indent(n: nat): (s: string)
    ensures |s| == 2 * n
    ensures forall i :: 0 <= i < |s| ==> s[i] == ' '
  {
    if n == 0 then "" else Indent(n - 1) + "  "
  }

  /** The text of a listing under a base indentation. */
  function Render(es: seq<Entry>, indent: string): seq<string> {
    seq(|es|, i requires 0 <= i < |es| => indent + Indent(es[i].depth) + es[i].name)
  }

  lemma RenderAppend(es: seq<Entry>, fs: seq<Entry>, indent: string)
    ensures Render(es + fs, indent) == Render(es, indent) + Render(fs, indent)
  {
  }

  lemma IndentStep(indent: string, d: nat)
    ensures indent + Indent(d) + "  " == indent + Indent(d + 1)
  {
  }

  /** Printing is rendering the preorder listing: line k is the base indentation,
      two spaces per level of depth, and the k-th node's name. */
  lemma {:induction false} PrintIsRenderedOutline(c: Component, indent: string, d: nat)
    ensures Print(c, indent + Indent(d)) == Render(Outline(c, d), indent)
    decreases c
  {
    match c
    case Leaf(name) =>
    case Composite(name, children) =>
      IndentStep(indent, d);
      PrintAllIsRenderedOutline(children, indent, d + 1);
      RenderAppend([Entry(d, name)], OutlineAll(children, d + 1), indent);
  }

  lemma {:induction false} PrintAllIsRenderedOutline(cs: seq<Component>, indent: string, d: nat)
    ensures PrintAll(cs, indent + Indent(d)) == Render(OutlineAll(cs, d), indent)
    decreases cs
  {
    if cs != [] {
      PrintAllIsRenderedOutline(cs[..|cs| - 1], indent, d);
      PrintIsRenderedOutline(cs[|cs| - 1], indent, d);
      RenderAppend(OutlineAll(cs[..|cs| - 1], d), Outline(cs[|cs| - 1], d), indent);
    }
  }

  /** One line per node, the first being the component's own name. */
  lemma {:induction false} PrintLength(c: Component, indent: string)
    ensures |Print(c, indent)| == Size(c)
    ensures Print(c, indent)[0] == indent + c.name
    decreases c
  {
    match c
    case Leaf(_) =>
    case Composite(_, children) => PrintAllLength(children, indent + "  ");
  }

  lemma {:induction false} PrintAllLength(cs: seq<Component>, indent: string)
    ensures |PrintAll(cs, indent)| == SizeAll(cs)
    decreases cs
  {
    if cs != [] {
      PrintAllLength(cs[..|cs| - 1], indent);
      PrintLength(cs[|cs| - 1], indent);
    }
  }

  /** After `add`, the new child prints last, one level deeper, after everything
      the composite printed before. */
  lemma PrintAfterAdd(c: Component, child: Component, indent: string)
    requires c.Composite?
    ensures Print(Add(c, child), indent) == Print(c, indent) + Print(child, indent + "  ")
  {
    var cs := c.children + [child];
    var deeper := indent + "  ";
    assert cs[..|cs| - 1] == c.children && cs[|cs| - 1] == child;
    assert PrintAll(cs, deeper) == PrintAll(c.children, deeper) + Print(child, deeper);
    assert Print(c, indent) == [indent + c.name] + PrintAll(c.children, deeper);
    assert Print(Add(c, child), indent) == [indent + c.name] + PrintAll(cs, deeper);
  }

  /** The demo tree: a leaf, then a branch holding two leaves. */
  function DemoTree(): Component {
    Add(DemoRoot(), DemoBranch())
  }

  function DemoRoot(): Component {
    Add(Composite("root", []), Leaf("leaf-a"))
  }

  function DemoBranch(): Component {
    Add(Add(Composite("branch", []), Leaf("leaf-b1")), Leaf("leaf-b2"))
  }

  lemma DemoRootPrint()
    ensures Print(DemoRoot(), "") == ["root", "  leaf-a"]
  {
    assert "" + "root" == "root" && "" + "  " == "  " && "  " + "leaf-a" == "  leaf-a";
    assert Print(Composite("root", []), "") == ["root"];
    PrintAfterAdd(Composite("root", []), Leaf("leaf-a"), "");
  }

  lemma DemoBranchPrint()
    ensures Print(DemoBranch(), "  ") == ["  branch", "    leaf-b1", "    leaf-b2"]
  {
    var branch := Composite("branch", []);
    assert "  " + "branch" == "  branch" && "  " + "  " == "    ";
    assert "    " + "leaf-b1" == "    leaf-b1" && "    " + "leaf-b2" == "    leaf-b2";
    assert Print(branch, "  ") == ["  branch"];
    PrintAfterAdd(branch, Leaf("leaf-b1"), "  ");
    PrintAfterAdd(Add(branch, Leaf("leaf-b1")), Leaf("leaf-b2"), "  ");
  }

  /** The demo prints the root unindented, then each level two spaces deeper. */
  lemma DemoPrint()
    ensures Print(DemoTree()) == ["root", "  leaf-a", "  branch", "    leaf-b1", "    leaf-b2"]
  {
    DemoRootPrint();
    DemoBranchPrint();
    assert "" + "  " == "  ";
    PrintAfterAdd(DemoRoot(), DemoBranch(), "");
  }
}
