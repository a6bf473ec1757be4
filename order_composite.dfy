/**
 * Order trees of the Composite samples: a Product has a name and a price, a ProductBundle
 * has a name and an ordered list of child components that Add and Remove change in place.
 * One class stands for both kinds (`isBundle`); the base class's Add and Remove throw
 * NotImplementedException, which a Product does not override.
 *
 * Prices are C# decimals; here they are integers counted in the smallest unit the
 * prices use, so sums are exact as they are for decimal.
 *
 * The C# classes allow any object graph. The model is about trees: `depth` is a ghost
 * rank, a bundle only takes children of smaller rank, and every function over a tree
 * takes the ghost set `nodes` of the components it may read, closed under children.
 */
module OrderComposite {
  import opened Optional
  import opened Lists

  /** The exception the base OrderComponent.Add and Remove throw. */
  datatype Fault = NotImplemented

  class Component {
    const isBundle: bool
    const name: string
    /** A Product's Price; a bundle has none and keeps 0 here. */
    const price: int
    ghost const depth: nat
    /** A ProductBundle's child list; always empty for a Product. */
    var children: seq<Component>

    constructor Product(name: string, price: int)
      ensures !isBundle && this.name == name && this.price == price
      ensures depth == 0 && children == []
    {
      isBundle := false;
      this.name := name;
      this.price := price;
      depth := 0;
      children := [];
    }

    constructor Bundle(name: string, ghost depth: nat)
      ensures isBundle && this.name == name && price == 0
      ensures this.depth == depth && children == []
    {
      isBundle := true;
      this.name := name;
      price := 0;
      this.depth := depth;
      children := [];
    }

    /** GetChildren: a bundle's list, nothing for a product. */
    function Children(): seq<Component>
      reads this`children
    {
      if isBundle then children else []
    }

    /** CalculateTotal: a product's price, a bundle's sum over its children. */
    function CalculateTotal(ghost nodes: set<Component>): int
      requires this in nodes && Tree(nodes)
      reads nodes`children
      decreases depth, 1
    {
      if isBundle then SumOfTotals(nodes, children, depth) else price
    }

    /** Add: a bundle appends the component; a product throws. */
    method Add(component: Component, ghost nodes: set<Component>) returns (thrown: Option<Fault>)
      requires isBundle ==> component.depth < depth
      modifies this`children
      ensures !isBundle ==> thrown == Some(NotImplemented) && children == old(children)
      ensures isBundle ==> thrown == None && children == old(children) + [component]
      ensures isBundle && Tree(nodes) && this in nodes ==>
        CalculateTotal(nodes) == SumOfTotals(nodes, old(children), depth) + component.CalculateTotal(nodes)
    {
      if !isBundle {
        return Some(NotImplemented);
      }
      ghost var before := children;
      children := children + [component];
      thrown := None;
      if Tree(nodes) && this in nodes {
        assert forall x :: x in before ==> x in children;
        SumOfTotalsAppend(nodes, before, component, depth);
      }
    }

    /** Remove: a bundle drops the first occurrence of the component, if any (reference
        equality, as List.Remove uses for these classes); a product throws. */
    method Remove(component: Component, ghost nodes: set<Component>) returns (thrown: Option<Fault>)
      modifies this`children
      ensures !isBundle ==> thrown == Some(NotImplemented) && children == old(children)
      ensures isBundle ==> thrown == None && children == RemoveFirst(old(children), component)
      ensures isBundle && Tree(nodes) && this in nodes && component in nodes && component.depth < depth ==>
        CalculateTotal(nodes) == SumOfTotals(nodes, old(children), depth)
          - (if component in old(children) then component.CalculateTotal(nodes) else 0)
    {
      if !isBundle {
        return Some(NotImplemented);
      }
      ghost var before := children;
      children := RemoveFirst(children, component);
      thrown := None;
      if Tree(nodes) && this in nodes && component in nodes && component.depth < depth {
        SumOfTotalsRemoveFirst(nodes, before, component, depth);
      }
    }
  }

  /** Every child of a component in `nodes` is in `nodes` and of smaller rank: the
      components form a forest. */
  ghost predicate Tree(nodes: set<Component>)
    reads nodes`children
  {
    forall n, c :: n in nodes && c in n.children ==> c in nodes && c.depth < n.depth
  }

  /** The sum of the totals of `xs` (the LINQ Sum over a bundle's children). */
  function SumOfTotals(ghost nodes: set<Component>, xs: seq<Component>, ghost bound: nat): int
    requires Tree(nodes) && forall x :: x in xs ==> x in nodes && x.depth < bound
    reads nodes`children
    decreases bound, 0, |xs|
  {
    if xs == [] then 0 else xs[0].CalculateTotal(nodes) + SumOfTotals(nodes, xs[1..], bound)
  }

  /** Appending a component adds exactly its total. */
  lemma {:induction false} SumOfTotalsAppend(nodes: set<Component>, xs: seq<Component>, c: Component, bound: nat)
    requires Tree(nodes) && forall x :: x in xs ==> x in nodes && x.depth < bound
    requires c in nodes && c.depth < bound
    ensures SumOfTotals(nodes, xs + [c], bound) == SumOfTotals(nodes, xs, bound) + c.CalculateTotal(nodes)
  {
    if xs == [] {
      assert [c][1..] == [];
    } else {
      assert (xs + [c])[1..] == xs[1..] + [c];
      SumOfTotalsAppend(nodes, xs[1..], c, bound);
    }
  }

  /** Removing the first occurrence of a component subtracts its total once, and nothing
      when it is absent. */
  lemma {:induction false} SumOfTotalsRemoveFirst(nodes: set<Component>, xs: seq<Component>, c: Component, bound: nat)
    requires Tree(nodes) && forall x :: x in xs ==> x in nodes && x.depth < bound
    ensures SumOfTotals(nodes, RemoveFirst(xs, c), bound) ==
      SumOfTotals(nodes, xs, bound) - (if c in xs then c.CalculateTotal(nodes) else 0)
  {
    if xs != [] && xs[0] != c {
      assert xs == [xs[0]] + xs[1..];
      assert ([xs[0]] + RemoveFirst(xs[1..], c))[1..] == RemoveFirst(xs[1..], c);
      SumOfTotalsRemoveFirst(nodes, xs[1..], c, bound);
    }
  }

  /** The sample order: a laptop and a peripheral set of a mouse and a keyboard. */
  method ComputerSetDemo() returns (total: int)
    ensures total == 2500 + 99 + 149
  {
    var laptop := new Component.Product("MacBook Pro", 2500);
    var mouse := new Component.Product("Magic Mouse", 99);
    var keyboard := new Component.Product("Magic Keyboard", 149);
    var computerSet := new Component.Bundle("Computer Set", 2);
    var peripheralSet := new Component.Bundle("Peripheral Set", 1);
    ghost var nodes := {laptop, mouse, keyboard, computerSet, peripheralSet};
    var _ := peripheralSet.Add(mouse, nodes);
    var _ := peripheralSet.Add(keyboard, nodes);
    var _ := computerSet.Add(laptop, nodes);
    var _ := computerSet.Add(peripheralSet, nodes);
    ComputerSetTotal(nodes, laptop, mouse, keyboard, computerSet, peripheralSet);
    total := computerSet.CalculateTotal(nodes);
  }

  lemma ComputerSetTotal(nodes: set<Component>, laptop: Component, mouse: Component,
                         keyboard: Component, computerSet: Component, peripheralSet: Component)
    requires nodes == {laptop, mouse, keyboard, computerSet, peripheralSet}
    requires !laptop.isBundle && laptop.price == 2500 && laptop.depth == 0 && laptop.children == []
    requires !mouse.isBundle && mouse.price == 99 && mouse.depth == 0 && mouse.children == []
    requires !keyboard.isBundle && keyboard.price == 149 && keyboard.depth == 0 && keyboard.children == []
    requires peripheralSet.isBundle && peripheralSet.depth == 1 && peripheralSet.children == [mouse, keyboard]
    requires computerSet.isBundle && computerSet.depth == 2 && computerSet.children == [laptop, peripheralSet]
    ensures Tree(nodes) && computerSet in nodes
    ensures computerSet.CalculateTotal(nodes) == 2500 + 99 + 149
  {
    forall n, c | n in nodes && c in n.children
      ensures c in nodes && c.depth < n.depth
    {
    }
    assert SumOfTotals(nodes, [keyboard], 1) == 149 by {
      assert [keyboard][1..] == [];
    }
    assert SumOfTotals(nodes, [mouse, keyboard], 1) == 99 + 149 by {
      assert [mouse, keyboard][1..] == [keyboard];
    }
    assert SumOfTotals(nodes, [peripheralSet], 2) == 99 + 149 by {
      assert [peripheralSet][1..] == [];
    }
    assert [laptop, peripheralSet][1..] == [peripheralSet];
    assert SumOfTotals(nodes, [laptop, peripheralSet], 2) == 2500 + 99 + 149;
  }
}
