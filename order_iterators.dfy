/**
 * The iterators of the Iterator-with-Composite sample over order trees: a list iterator
 * over a bundle's child list, the null iterator of a product, the stack-based composite
 * iterator that a bundle creates, and the depth-first and breadth-first iterators.
 *
 * Every IOrderIterator starts before its first element; MoveNext advances and says
 * whether there is an element, and Current is that element or null (None here).
 */
module OrderIterators {
  import opened Optional
  import opened OrderComposite
  import opened Lists

  /* ---------------------------------------------------------------------------------
     Traversal orders
     --------------------------------------------------------------------------------- */

  /** FlattenComponents: the component first, then the flattening of each child, left
      to right (pre-order). */
  function Preorder(ghost nodes: set<Component>, c: Component): (r: seq<Component>)
    requires Tree(nodes) && c in nodes
    reads nodes`children
    ensures forall x :: x in r ==> x in nodes
    decreases c.depth, 1
  {
    [c] + PreorderFrom(nodes, c, 0)
  }

  /** The flattenings of the children of c from index i on. */
  function PreorderFrom(ghost nodes: set<Component>, c: Component, i: nat): (r: seq<Component>)
    requires Tree(nodes) && c in nodes
    reads nodes`children
    ensures forall x :: x in r ==> x in nodes
    decreases c.depth, 0, |c.Children()| - i
  {
    if i >= |c.Children()| then []
    else Preorder(nodes, c.Children()[i]) + PreorderFrom(nodes, c, i + 1)
  }

  /** The flattenings of a list of components, one after the other. */
  ghost function Flatten(nodes: set<Component>, xs: seq<Component>): seq<Component>
    requires Tree(nodes) && forall x :: x in xs ==> x in nodes
    reads nodes`children
  {
    if xs == [] then [] else Preorder(nodes, xs[0]) + Flatten(nodes, xs[1..])
  }

  /** The order in which a breadth-first traversal of `queue` dequeues components: the
      head, then the traversal of the rest of the queue with the head's children enqueued
      behind it. */
  ghost function LevelOrder(nodes: set<Component>, queue: seq<Component>): seq<Component>
    requires Tree(nodes) && forall x :: x in queue ==> x in nodes
    reads nodes`children
    decreases |Flatten(nodes, queue)|
  {
    if queue == [] then []
    else
      LevelStep(nodes, queue);
      [queue[0]] + LevelOrder(nodes, queue[1..] + queue[0].Children())
  }

  lemma {:induction false} FlattenAppend(nodes: set<Component>, a: seq<Component>, b: seq<Component>)
    requires Tree(nodes) && (forall x :: x in a ==> x in nodes) && (forall x :: x in b ==> x in nodes)
    ensures Flatten(nodes, a + b) == Flatten(nodes, a) + Flatten(nodes, b)
  {
    if a != [] {
      assert (a + b)[1..] == a[1..] + b;
      FlattenAppend(nodes, a[1..], b);
    } else {
      assert a + b == b;
    }
  }

  lemma {:induction false} FlattenChildren(nodes: set<Component>, c: Component, i: nat)
    requires Tree(nodes) && c in nodes && i <= |c.Children()|
    ensures Flatten(nodes, c.Children()[i..]) == PreorderFrom(nodes, c, i)
    decreases |c.Children()| - i
  {
    if i < |c.Children()| {
      assert c.Children()[i..][1..] == c.Children()[i + 1..];
      FlattenChildren(nodes, c, i + 1);
    }
  }

  /** One dequeue step of the breadth-first traversal: the head leaves the flattened
      queue, and its subtree below it moves behind the rest of the queue. */
  lemma LevelStep(nodes: set<Component>, queue: seq<Component>)
    requires Tree(nodes) && (forall x :: x in queue ==> x in nodes) && queue != []
    ensures forall x :: x in queue[1..] + queue[0].Children() ==> x in nodes
    ensures Flatten(nodes, queue) ==
      [queue[0]] + PreorderFrom(nodes, queue[0], 0) + Flatten(nodes, queue[1..])
    ensures Flatten(nodes, queue[1..] + queue[0].Children()) ==
      Flatten(nodes, queue[1..]) + PreorderFrom(nodes, queue[0], 0)
  {
    var c := queue[0];
    FlattenAppend(nodes, queue[1..], c.Children());
    FlattenChildren(nodes, c, 0);
    assert c.Children()[0..] == c.Children();
  }

  /** The breadth-first traversal visits exactly the components of the depth-first one,
      each as often. */
  lemma {:induction false} LevelOrderPermutesFlatten(nodes: set<Component>, queue: seq<Component>)
    requires Tree(nodes) && forall x :: x in queue ==> x in nodes
    ensures multiset(LevelOrder(nodes, queue)) == multiset(Flatten(nodes, queue))
    decreases |Flatten(nodes, queue)|
  {
    if queue != [] {
      LevelStep(nodes, queue);
      LevelOrderPermutesFlatten(nodes, queue[1..] + queue[0].Children());
    }
  }

  /** From a single root, breadth-first and depth-first order are permutations of each
      other, and both start at the root. */
  lemma BreadthFirstPermutesDepthFirst(nodes: set<Component>, root: Component)
    requires Tree(nodes) && root in nodes
    ensures multiset(LevelOrder(nodes, [root])) == multiset(Preorder(nodes, root))
    ensures LevelOrder(nodes, [root])[0] == root == Preorder(nodes, root)[0]
  {
    LevelOrderPermutesFlatten(nodes, [root]);
    assert [root][1..] == [];
  }

  /* ---------------------------------------------------------------------------------
     What the composite iterator shows, and the products among it
     --------------------------------------------------------------------------------- */

  /** Current at a component reached by a CompositeIterator: the product itself, null at
      a bundle (whose freshly pushed iterator stands before its first child). */
  function Shown(c: Component): Option<Component>
  {
    if c.isBundle then None else Some(c)
  }

  function ShownAll(xs: seq<Component>): seq<Option<Component>>
  {
    seq(|xs|, i requires 0 <= i < |xs| => Shown(xs[i]))
  }

  /** OfType<Product> over components. */
  function ProductsOf(xs: seq<Component>): (r: seq<Component>)
    ensures forall p :: p in r ==> p in xs && !p.isBundle
  {
    if xs == [] then [] else (if xs[0].isBundle then [] else [xs[0]]) + ProductsOf(xs[1..])
  }

  /** OfType<Product> over what an iterator yields: nulls and bundles are dropped. */
  function ProductsIn(ys: seq<Option<Component>>): seq<Component>
  {
    if ys == [] then []
    else (if ys[0].Some? && !ys[0].value.isBundle then [ys[0].value] else []) + ProductsIn(ys[1..])
  }

  /** Sum(product => product.Price). */
  function Prices(ps: seq<Component>): int
  {
    if ps == [] then 0 else ps[0].price + Prices(ps[1..])
  }

  lemma {:induction false} ProductsOfAppend(a: seq<Component>, b: seq<Component>)
    ensures ProductsOf(a + b) == ProductsOf(a) + ProductsOf(b)
  {
    if a != [] {
      assert (a + b)[1..] == a[1..] + b;
      ProductsOfAppend(a[1..], b);
    } else {
      assert a + b == b;
    }
  }

  lemma {:induction false} PricesAppend(a: seq<Component>, b: seq<Component>)
    ensures Prices(a + b) == Prices(a) + Prices(b)
  {
    if a != [] {
      assert (a + b)[1..] == a[1..] + b;
      PricesAppend(a[1..], b);
    } else {
      assert a + b == b;
    }
  }

  /** Keeping the products of what a composite iterator shows is keeping the products of
      the components it passes. */
  lemma {:induction false} ProductsInShown(xs: seq<Component>)
    ensures ProductsIn(ShownAll(xs)) == ProductsOf(xs)
  {
    if xs != [] {
      assert ShownAll(xs)[1..] == ShownAll(xs[1..]);
      ProductsInShown(xs[1..]);
    }
  }

  /** OfType<Product> keeps a shown element exactly when it is a product. */
  lemma ProductsInCons(y: Option<Component>, ys: seq<Option<Component>>)
    ensures ProductsIn([y] + ys) == ProductsIn([y]) + ProductsIn(ys)
    ensures ProductsIn([y]) == if y.Some? && !y.value.isBundle then [y.value] else []
  {
    assert ([y] + ys)[1..] == ys;
    assert [y][1..] == [];
  }

  /** One step of OfType<Product>: the element is kept exactly when it is a product. */
  lemma KeepIfProduct(products: seq<Component>, y: Option<Component>, ys: seq<Option<Component>>)
    ensures (if y.Some? && !y.value.isBundle then products + [y.value] else products) + ProductsIn(ys)
      == products + ProductsIn([y] + ys)
  {
    ProductsInCons(y, ys);
    if y.Some? && !y.value.isBundle {
      AppendAssociates(products, [y.value], ProductsIn(ys));
    } else {
      assert [] + ProductsIn(ys) == ProductsIn(ys);
    }
  }


  lemma ShownAllAppend(a: seq<Component>, b: seq<Component>)
    ensures ShownAll(a + b) == ShownAll(a) + ShownAll(b)
  {
  }

  /** CalculateTotal is the sum of the prices of the products in the component's
      flattening. */
  lemma {:induction false} TotalIsPriceOfProducts(nodes: set<Component>, c: Component)
    requires Tree(nodes) && c in nodes
    ensures c.CalculateTotal(nodes) == Prices(ProductsOf(Preorder(nodes, c)))
    decreases c.depth, 1
  {
    var below := PreorderFrom(nodes, c, 0);
    assert ProductsOf(Preorder(nodes, c)) == ProductsOf([c]) + ProductsOf(below) by {
      assert Preorder(nodes, c) == [c] + below;
      ProductsOfAppend([c], below);
    }
    assert ProductsOf([c]) == (if c.isBundle then [] else [c]) by {
      assert [c][1..] == [];
    }
    if c.isBundle {
      assert ProductsOf(Preorder(nodes, c)) == ProductsOf(below);
      SumIsPriceOfProducts(nodes, c, 0);
      assert c.children[0..] == c.children;
    } else {
      assert below == [];
      assert Prices([c]) == c.price by {
        assert [c][1..] == [];
      }
    }
  }

  lemma {:induction false} SumIsPriceOfProducts(nodes: set<Component>, b: Component, i: nat)
    requires Tree(nodes) && b in nodes && b.isBundle && i <= |b.children|
    ensures SumOfTotals(nodes, b.children[i..], b.depth) == Prices(ProductsOf(PreorderFrom(nodes, b, i)))
    decreases b.depth, 0, |b.children| - i
  {
    if i < |b.children| {
      var x := b.children[i];
      assert b.children[i..][1..] == b.children[i + 1..];
      TotalIsPriceOfProducts(nodes, x);
      SumIsPriceOfProducts(nodes, b, i + 1);
      ProductsOfAppend(Preorder(nodes, x), PreorderFrom(nodes, b, i + 1));
      PricesAppend(ProductsOf(Preorder(nodes, x)), ProductsOf(PreorderFrom(nodes, b, i + 1)));
    }
  }

  /* ---------------------------------------------------------------------------------
     Iterator states as values

     A CompositeIterator keeps a stack of the iterators it has opened: the list iterator
     of its bundle, and the composite iterators of nested bundles, each owned by it alone.
     Those inner iterators are values here; a ListCursor is a ListIterator over the child
     list of its owner bundle, read live from the heap.
     --------------------------------------------------------------------------------- */

  datatype Cursor =
    | ListCursor(owner: Component, position: int)
    | NullCursor
    | CompositeCursor(stack: seq<Cursor>)

  /** The result of MoveNext and the iterator state after it. */
  datatype Step = Step(moved: bool, cursor: Cursor)

  /** The result of a CompositeIterator's MoveNext and its stack after it (top last). */
  datatype StackStep = StackStep(moved: bool, stack: seq<Cursor>)

  /** The cursor reads only components of `nodes`, and list positions are never before
      the start. */
  ghost predicate CursorIn(nodes: set<Component>, cur: Cursor)
    decreases cur
  {
    match cur
    case ListCursor(o, p) => o in nodes && o.isBundle && p >= -1
    case NullCursor => true
    case CompositeCursor(s) => forall i :: 0 <= i < |s| ==> CursorIn(nodes, s[i])
  }

  /** The element at a list position, or null outside the list. */
  function Element(xs: seq<Component>, position: int): Option<Component>
  {
    if 0 <= position < |xs| then Some(xs[position]) else None
  }

  /** CreateIterator: a bundle's composite iterator over a fresh list iterator of its
      children; a product's null iterator. */
  function CreateIterator(c: Component): Cursor
  {
    if c.isBundle then CompositeCursor([ListCursor(c, -1)]) else NullCursor
  }

  /** Current of an iterator state; a composite's is its top iterator's. */
  function CurrentOf(ghost nodes: set<Component>, cur: Cursor): (r: Option<Component>)
    requires Tree(nodes) && CursorIn(nodes, cur)
    reads nodes`children
    ensures r.Some? ==> r.value in nodes
    decreases cur
  {
    match cur
    case ListCursor(o, p) => Element(o.children, p)
    case NullCursor => None
    case CompositeCursor(s) => if s == [] then None else CurrentOf(nodes, s[|s| - 1])
  }

  /** MoveNext of an iterator state. */
  function MoveNextOf(ghost nodes: set<Component>, cur: Cursor): (r: Step)
    requires Tree(nodes) && CursorIn(nodes, cur)
    reads nodes`children
    ensures CursorIn(nodes, r.cursor)
    decreases cur, 1
  {
    match cur
    case ListCursor(o, p) => Step(p + 1 < |o.children|, ListCursor(o, p + 1))
    case NullCursor => Step(false, NullCursor)
    case CompositeCursor(s) =>
      var r := MoveNextStack(nodes, s);
      Step(r.moved, CompositeCursor(r.stack))
  }

  /** CompositeIterator.MoveNext on a stack: advance the top; if it is exhausted pop it
      and try again, otherwise push the iterator of a bundle it reached. */
  function MoveNextStack(ghost nodes: set<Component>, s: seq<Cursor>): (r: StackStep)
    requires Tree(nodes) && forall i :: 0 <= i < |s| ==> CursorIn(nodes, s[i])
    reads nodes`children
    ensures forall i :: 0 <= i < |r.stack| ==> CursorIn(nodes, r.stack[i])
    ensures !r.moved ==> r.stack == []
    decreases s, 0
  {
    if s == [] then StackStep(false, [])
    else
      var top := MoveNextOf(nodes, s[|s| - 1]);
      if !top.moved then MoveNextStack(nodes, s[..|s| - 1])
      else
        var current := CurrentOf(nodes, top.cursor);
        var kept := s[..|s| - 1] + [top.cursor];
        if current.Some? && current.value.isBundle then
          StackStep(true, kept + [CreateIterator(current.value)])
        else
          StackStep(true, kept)
  }

  /** What the successive successful MoveNext calls of a state, inside a composite
      iterator, make Current. */
  ghost function PendingOf(nodes: set<Component>, cur: Cursor): seq<Option<Component>>
    requires Tree(nodes) && CursorIn(nodes, cur)
    reads nodes`children
    decreases cur, 1
  {
    match cur
    case ListCursor(o, p) => ShownAll(PreorderFrom(nodes, o, p + 1))
    case NullCursor => []
    case CompositeCursor(s) => PendingStack(nodes, s)
  }

  ghost function PendingStack(nodes: set<Component>, s: seq<Cursor>): seq<Option<Component>>
    requires Tree(nodes) && forall i :: 0 <= i < |s| ==> CursorIn(nodes, s[i])
    reads nodes`children
    decreases s, 0
  {
    if s == [] then [] else PendingOf(nodes, s[|s| - 1]) + PendingStack(nodes, s[..|s| - 1])
  }

  /** Current is never a bundle right after a successful composite MoveNext. */
  predicate NotBundle(c: Option<Component>)
  {
    c.None? || !c.value.isBundle
  }

  /** A composite MoveNext from stack s to r succeeds exactly when something is pending,
      and then Current is the first pending element, never a bundle, and the rest of what
      was pending is what is pending after it. */
  ghost predicate StepsThroughPending(nodes: set<Component>, s: seq<Cursor>, r: StackStep)
    requires Tree(nodes) && forall i :: 0 <= i < |s| ==> CursorIn(nodes, s[i])
    requires forall i :: 0 <= i < |r.stack| ==> CursorIn(nodes, r.stack[i])
    reads nodes`children
  {
    && (r.moved <==> PendingStack(nodes, s) != [])
    && (r.moved ==>
          && PendingStack(nodes, s) == [CurrentOf(nodes, CompositeCursor(r.stack))] + PendingStack(nodes, r.stack)
          && NotBundle(CurrentOf(nodes, CompositeCursor(r.stack))))
  }

  /** A composite iterator's MoveNext steps through what is pending. */
  lemma {:induction false} MoveNextStackPending(nodes: set<Component>, s: seq<Cursor>)
    requires Tree(nodes) && forall i :: 0 <= i < |s| ==> CursorIn(nodes, s[i])
    ensures StepsThroughPending(nodes, s, MoveNextStack(nodes, s))
    decreases s, 1
  {
    if s != [] {
      var top := s[|s| - 1];
      var rest := s[..|s| - 1];
      assert forall i :: 0 <= i < |rest| ==> CursorIn(nodes, rest[i]);
      match top
      case ListCursor(o, p) =>
        ListTopPending(nodes, s, o, p);
      case NullCursor =>
        MoveNextStackPending(nodes, rest);
      case CompositeCursor(t) =>
        CompositeTopPending(nodes, s, t);
    }
  }

  lemma {:induction false} ListTopPending(nodes: set<Component>, s: seq<Cursor>, o: Component, p: int)
    requires Tree(nodes) && forall i :: 0 <= i < |s| ==> CursorIn(nodes, s[i])
    requires s != [] && s[|s| - 1] == ListCursor(o, p)
    ensures StepsThroughPending(nodes, s, MoveNextStack(nodes, s))
    decreases s, 0
  {
    var rest := s[..|s| - 1];
    assert forall i :: 0 <= i < |rest| ==> CursorIn(nodes, rest[i]);
    assert CursorIn(nodes, s[|s| - 1]);
    if p + 1 < |o.children| {
      ListTopMoves(nodes, s, o, p);
    } else {
      assert PendingOf(nodes, ListCursor(o, p)) == [];
      MoveNextStackPending(nodes, rest);
    }
  }

  /** The top list iterator reaches child x: a product is shown, and a bundle is shown as
      null with its own iterator pushed on top. */
  lemma ListTopMoves(nodes: set<Component>, s: seq<Cursor>, o: Component, p: int)
    requires Tree(nodes) && forall i :: 0 <= i < |s| ==> CursorIn(nodes, s[i])
    requires s != [] && s[|s| - 1] == ListCursor(o, p) && p + 1 < |o.children|
    ensures StepsThroughPending(nodes, s, MoveNextStack(nodes, s))
  {
    var rest := s[..|s| - 1];
    assert forall i :: 0 <= i < |rest| ==> CursorIn(nodes, rest[i]);
    assert CursorIn(nodes, s[|s| - 1]);
    var k := p + 1;
    var x := o.children[k];
    var top := ListCursor(o, k);
    var kept := rest + [top];
    assert kept[..|kept| - 1] == rest;
    assert forall i :: 0 <= i < |kept| ==> CursorIn(nodes, kept[i]);
    ListTopUnfolds(nodes, s, o, p);
    assert MoveNextOf(nodes, s[|s| - 1]) == Step(true, top);
    assert CurrentOf(nodes, top) == Some(x);
    if x.isBundle {
      ListTopReachesBundle(nodes, s, kept, x);
      assert MoveNextStack(nodes, s) == StackStep(true, kept + [CreateIterator(x)]);
    } else {
      var r := MoveNextStack(nodes, s);
      assert r == StackStep(true, kept);
      assert PreorderFrom(nodes, x, 0) == [];
      assert ShownAll([]) == [];
      assert CurrentOf(nodes, CompositeCursor(r.stack)) == Some(x) == Shown(x);
    }
  }

  /** What is pending under a list iterator about to reach child x: x, then the rest of
      x's subtree, then what is pending once the list iterator stands on x. */
  lemma ListTopUnfolds(nodes: set<Component>, s: seq<Cursor>, o: Component, p: int)
    requires Tree(nodes) && forall i :: 0 <= i < |s| ==> CursorIn(nodes, s[i])
    requires s != [] && s[|s| - 1] == ListCursor(o, p) && -1 <= p && p + 1 < |o.children|
    ensures var kept := s[..|s| - 1] + [ListCursor(o, p + 1)];
      && (forall i :: 0 <= i < |kept| ==> CursorIn(nodes, kept[i]))
      && o.children[p + 1] in nodes
      && PendingStack(nodes, s) ==
         [Shown(o.children[p + 1])] + ShownAll(PreorderFrom(nodes, o.children[p + 1], 0)) + PendingStack(nodes, kept)
  {
    var rest := s[..|s| - 1];
    assert forall i :: 0 <= i < |rest| ==> CursorIn(nodes, rest[i]);
    assert o in nodes && o.isBundle by {
      assert CursorIn(nodes, s[|s| - 1]);
    }
    var k := p + 1;
    var x := o.children[k];
    var kept := rest + [ListCursor(o, k)];
    assert forall i :: 0 <= i < |kept| ==> CursorIn(nodes, kept[i]);
    var later := ShownAll(PreorderFrom(nodes, o, k + 1));
    var below := PreorderFrom(nodes, x, 0);
    assert PendingStack(nodes, kept) == later + PendingStack(nodes, rest) by {
      assert kept[..|kept| - 1] == rest;
    }
    assert PendingStack(nodes, s) == ShownAll(PreorderFrom(nodes, o, k)) + PendingStack(nodes, rest);
    assert ShownAll(PreorderFrom(nodes, o, k)) == [Shown(x)] + ShownAll(below) + later by {
      assert PreorderFrom(nodes, o, k) == [x] + below + PreorderFrom(nodes, o, k + 1);
      ShownAllAppend([x] + below, PreorderFrom(nodes, o, k + 1));
      ShownAllAppend([x], below);
    }
  }

  /** The stack after the top list iterator reached bundle x gets x's iterator pushed. */
  lemma ListTopReachesBundle(nodes: set<Component>, s: seq<Cursor>, kept: seq<Cursor>, x: Component)
    requires Tree(nodes) && forall i :: 0 <= i < |s| ==> CursorIn(nodes, s[i])
    requires forall i :: 0 <= i < |kept| ==> CursorIn(nodes, kept[i])
    requires x in nodes && x.isBundle
    requires PendingStack(nodes, s) == [Shown(x)] + ShownAll(PreorderFrom(nodes, x, 0)) + PendingStack(nodes, kept)
    ensures var stack := kept + [CreateIterator(x)];
      && (forall i :: 0 <= i < |stack| ==> CursorIn(nodes, stack[i]))
      && StepsThroughPending(nodes, s, StackStep(true, stack))
  {
    var pushed := CompositeCursor([ListCursor(x, -1)]);
    var stack := kept + [pushed];
    assert forall i :: 0 <= i < |stack| ==> CursorIn(nodes, stack[i]);
    assert PendingOf(nodes, pushed) == ShownAll(PreorderFrom(nodes, x, 0)) by {
      assert [ListCursor(x, -1)][..0] == [];
      assert PendingStack(nodes, [ListCursor(x, -1)]) == ShownAll(PreorderFrom(nodes, x, 0)) + PendingStack(nodes, []);
    }
    assert PendingStack(nodes, stack) == ShownAll(PreorderFrom(nodes, x, 0)) + PendingStack(nodes, kept) by {
      assert stack[..|stack| - 1] == kept;
    }
    assert CurrentOf(nodes, CompositeCursor(stack)) == None by {
      assert CurrentOf(nodes, pushed) == None;
    }
    assert Shown(x) == None;
    AppendAssociates([Shown(x)], ShownAll(PreorderFrom(nodes, x, 0)), PendingStack(nodes, kept));
    assert PendingStack(nodes, s) != [];
    assert PendingStack(nodes, s) == [CurrentOf(nodes, CompositeCursor(stack))] + PendingStack(nodes, stack);
    assert NotBundle(CurrentOf(nodes, CompositeCursor(stack)));
    assert StepsThroughPending(nodes, s, StackStep(true, stack));
  }

  lemma {:induction false} CompositeTopPending(nodes: set<Component>, s: seq<Cursor>, t: seq<Cursor>)
    requires Tree(nodes) && forall i :: 0 <= i < |s| ==> CursorIn(nodes, s[i])
    requires s != [] && s[|s| - 1] == CompositeCursor(t)
    ensures StepsThroughPending(nodes, s, MoveNextStack(nodes, s))
    decreases s, 0
  {
    var rest := s[..|s| - 1];
    assert forall i :: 0 <= i < |rest| ==> CursorIn(nodes, rest[i]);
    assert CursorIn(nodes, s[|s| - 1]);
    MoveNextStackPending(nodes, t);
    var inner := MoveNextStack(nodes, t);
    if inner.moved {
      var stack := rest + [CompositeCursor(inner.stack)];
      assert stack[..|stack| - 1] == rest;
    } else {
      MoveNextStackPending(nodes, rest);
    }
  }

  /** A bundle's composite iterator shows the bundle's flattening without the bundle
      itself: each product, and null at each nested bundle. */
  lemma CompositeIteratorShowsDescendants(nodes: set<Component>, b: Component)
    requires Tree(nodes) && b in nodes && b.isBundle
    ensures CursorIn(nodes, CreateIterator(b))
    ensures PendingOf(nodes, CreateIterator(b)) == ShownAll(Preorder(nodes, b)[1..])
  {
    var s := [ListCursor(b, -1)];
    assert s[..0] == [];
    assert PendingStack(nodes, s) == PendingOf(nodes, ListCursor(b, -1)) + PendingStack(nodes, []);
    assert PendingOf(nodes, ListCursor(b, -1)) == ShownAll(PreorderFrom(nodes, b, 0));
    assert Preorder(nodes, b)[1..] == PreorderFrom(nodes, b, 0);
  }

  /* ---------------------------------------------------------------------------------
     The iterator classes
     --------------------------------------------------------------------------------- */

  /** ListIterator over the child list of `owner` (the list is shared, not copied).
      This is the iterator a caller holds and steps in place. A ListCursor is the same
      state as a value, because the iterators on a CompositeIterator's stack are stepped
      by the function MoveNextStack, which cannot call a method. */
  class ListIterator {
    const owner: Component
    var position: int
    /** MoveNext calls since construction or the last Reset. */
    ghost var moves: nat

    ghost predicate Valid()
      reads this
    {
      position == moves - 1
    }

    constructor(owner: Component)
      ensures this.owner == owner && moves == 0 && Valid()
    {
      this.owner := owner;
      position := -1;
      moves := 0;
    }

    function Current(): Option<Component>
      reads this, owner`children
    {
      Element(owner.children, position)
    }

    /** The k-th MoveNext succeeds iff k <= Count, and then Current is element k - 1. */
    method MoveNext() returns (r: bool)
      requires Valid()
      modifies this`position, this`moves
      ensures Valid() && moves == old(moves) + 1
      ensures r <==> moves <= |owner.children|
      ensures r ==> Current() == Some(owner.children[moves - 1])
      ensures !r ==> Current() == None
    {
      position := position + 1;
      moves := moves + 1;
      r := position < |owner.children|;
    }

    method Reset()
      modifies this`position, this`moves
      ensures Valid() && moves == 0 && Current() == None
    {
      position := -1;
      moves := 0;
    }
  }

  /** The iterator of a product. */
  class NullIterator {
    constructor()
    {
    }

    function Current(): Option<Component>
    {
      None
    }

    method MoveNext() returns (r: bool)
      ensures !r
    {
      r := false;
    }

    /** Reset: there is nothing to rewind. */
    method Reset()
      ensures Current() == None
    {
    }
  }

  /** CompositeIterator: a stack of iterators, the top one last. */
  class CompositeIterator {
    ghost const nodes: set<Component>
    var stack: seq<Cursor>

    ghost predicate Valid()
      reads this, nodes`children
    {
      Tree(nodes) && forall i :: 0 <= i < |stack| ==> CursorIn(nodes, stack[i])
    }

    /** What the coming successful MoveNext calls make Current, in order. */
    ghost function Pending(): seq<Option<Component>>
      requires Valid()
      reads this, nodes`children
    {
      PendingStack(nodes, stack)
    }

    constructor(ghost nodes: set<Component>, top: Cursor)
      requires Tree(nodes) && CursorIn(nodes, top)
      ensures this.nodes == nodes && stack == [top] && Valid()
    {
      this.nodes := nodes;
      stack := [top];
    }

    function Current(): Option<Component>
      requires Valid()
      reads this, nodes`children
    {
      CurrentOf(nodes, CompositeCursor(stack))
    }

    method MoveNext() returns (r: bool)
      requires Valid()
      modifies this`stack
      ensures Valid()
      ensures StackStep(r, stack) == MoveNextStack(nodes, old(stack))
      ensures !r ==> stack == []
      decreases |stack|
    {
      if |stack| == 0 {
        return false;
      }
      var step := MoveNextOf(nodes, stack[|stack| - 1]);
      if !step.moved {
        stack := stack[..|stack| - 1];
        r := MoveNext();
        return;
      }
      stack := stack[..|stack| - 1] + [step.cursor];
      var current := CurrentOf(nodes, step.cursor);
      if current.Some? && current.value.isBundle {
        stack := stack + [CreateIterator(current.value)];
      }
      r := true;
    }

    method Reset()
      requires Valid()
      modifies this`stack
      ensures stack == [] && Valid() && Pending() == []
    {
      stack := [];
    }
  }

  /** DepthFirstIterator: walks the flattening computed when it is created. */
  class DepthFirstIterator {
    const components: seq<Component>
    var position: int
    ghost var moves: nat

    ghost predicate Valid()
      reads this
    {
      position == moves - 1
    }

    constructor(ghost nodes: set<Component>, component: Component)
      requires Tree(nodes) && component in nodes
      ensures components == Preorder(nodes, component) && moves == 0 && Valid()
    {
      components := Preorder(nodes, component);
      position := -1;
      moves := 0;
    }

    function Current(): Option<Component>
      reads this
    {
      Element(components, position)
    }

    /** The k-th MoveNext succeeds iff k is at most the number of components flattened,
        and then Current is the k-th of them. */
    method MoveNext() returns (r: bool)
      requires Valid()
      modifies this`position, this`moves
      ensures Valid() && moves == old(moves) + 1
      ensures r <==> moves <= |components|
      ensures r ==> Current() == Some(components[moves - 1])
      ensures !r ==> Current() == None
    {
      position := position + 1;
      moves := moves + 1;
      r := position < |components|;
    }

    method Reset()
      modifies this`position, this`moves
      ensures Valid() && moves == 0 && Current() == None
    {
      position := -1;
      moves := 0;
    }
  }

  /** BreadthFirstIterator: a queue of components still to visit. */
  class BreadthFirstIterator {
    ghost const nodes: set<Component>
    var queue: seq<Component>
    var current: Option<Component>

    ghost predicate Valid()
      reads this, nodes`children
    {
      Tree(nodes) && forall x :: x in queue ==> x in nodes
    }

    /** The components the coming successful MoveNext calls make Current, in order. */
    ghost function Pending(): seq<Component>
      requires Valid()
      reads this, nodes`children
    {
      LevelOrder(nodes, queue)
    }

    constructor(ghost nodes: set<Component>, component: Component)
      requires Tree(nodes) && component in nodes
      ensures this.nodes == nodes && queue == [component] && current == None && Valid()
    {
      this.nodes := nodes;
      queue := [component];
      current := None;
    }

    function Current(): Option<Component>
      reads this
    {
      current
    }

    method MoveNext() returns (r: bool)
      requires Valid()
      modifies this`queue, this`current
      ensures Valid()
      ensures r <==> old(queue) != []
      ensures !r ==> queue == old(queue) && current == old(current) && Pending() == []
      ensures r ==> current == Some(old(queue)[0]) && queue == old(queue)[1..] + old(queue)[0].Children()
      ensures r ==> old(Pending()) == [current.value] + Pending()
    {
      if |queue| == 0 {
        return false;
      }
      ghost var start := queue;
      ghost var pending := Pending();
      var c := queue[0];
      current := Some(c);
      queue := queue[1..];
      var children := c.Children();
      var i := 0;
      while i < |children|
        invariant 0 <= i <= |children|
        invariant queue == old(queue)[1..] + children[..i]
        invariant current == Some(c)
      {
        queue := queue + [children[i]];
        i := i + 1;
      }
      assert children[..i] == children;
      LevelStep(nodes, start);
      assert pending == [c] + Pending();
      r := true;
    }

    method Reset()
      requires Valid()
      modifies this`queue, this`current
      ensures queue == [] && current == None && Valid() && Pending() == []
    {
      queue := [];
      current := None;
    }
  }

  /* ---------------------------------------------------------------------------------
     OrderIteratorExtensions
     --------------------------------------------------------------------------------- */

  /** GetAllProducts: the products a component's iterator reaches, left to right. */
  method GetAllProducts(component: Component, ghost nodes: set<Component>) returns (products: seq<Component>)
    requires Tree(nodes) && component in nodes
    ensures products == ProductsOf(PreorderFrom(nodes, component, 0))
    ensures component.isBundle ==> products == ProductsOf(Preorder(nodes, component))
  {
    products := [];
    if !component.isBundle {
      // A product's composite is a NullIterator: MoveNext fails at once.
      return;
    }
    var composite := new CompositeIterator(nodes, ListCursor(component, -1));
    CompositeIteratorShowsDescendants(nodes, component);
    assert Preorder(nodes, component)[1..] == PreorderFrom(nodes, component, 0);
    ProductsInShown(PreorderFrom(nodes, component, 0));
    while true
      invariant composite.Valid() && composite.nodes == nodes
      invariant products + ProductsIn(composite.Pending()) == ProductsOf(PreorderFrom(nodes, component, 0))
      decreases |composite.Pending()|
    {
      ghost var pending := composite.Pending();
      MoveNextStackPending(nodes, composite.stack);
      var more := composite.MoveNext();
      if !more {
        assert pending == [];
        break;
      }
      var current := composite.Current();
      ghost var later := composite.Pending();
      assert pending == [current] + later;
      KeepIfProduct(products, current, later);
      if current.Some? && !current.value.isBundle {
        products := products + [current.value];
      }
    }
    assert ProductsOf(Preorder(nodes, component)) == ProductsOf(PreorderFrom(nodes, component, 0)) by {
      ProductsOfAppend([component], PreorderFrom(nodes, component, 0));
      assert [component][1..] == [];
    }
  }

  /** GetTotalPrice: the sum of the prices of those products; a bundle's total, and 0
      for a product (whose iterator reaches nothing). */
  method GetTotalPrice(component: Component, ghost nodes: set<Component>) returns (total: int)
    requires Tree(nodes) && component in nodes
    ensures component.isBundle ==> total == component.CalculateTotal(nodes)
    ensures !component.isBundle ==> total == 0
  {
    var products := GetAllProducts(component, nodes);
    total := Prices(products);
    if component.isBundle {
      TotalIsPriceOfProducts(nodes, component);
    }
  }
}
