/**
 * The Decorator sample: a ConcreteComponent and two decorators that wrap the result of
 * the component they hold in their own name and a pair of parentheses.
 *
 * A component is a value here: Decorated(kind, inner) is a ConcreteDecoratorA or
 * ConcreteDecoratorB holding inner, or holding null when inner is None. The class
 * Decorator is the one object whose wrapped component SetComponent replaces.
 */
module Decorators {
  import opened Optional
  import opened Lists

  datatype DecoratorKind = A | B

  datatype Component =
    | ConcreteComponent
    | Decorated(kind: DecoratorKind, inner: Option<Component>)

  const ConcreteText: string := "ConcreteComponent"
  const NameA: string := "ConcreteDecoratorA"
  const NameB: string := "ConcreteDecoratorB"

  function Name(kind: DecoratorKind): string
  {
    match kind
    case A => NameA
    case B => NameB
  }

  /** Component.Operation: the concrete component's text, or a decorator's name around what the
      base Decorator.Operation gives for its component ("" for null). */
  function OperationOf(c: Component): string
  {
    match c
    case ConcreteComponent => ConcreteText
    case Decorated(kind, None) => Name(kind) + "(" + ")"
    case Decorated(kind, Some(inner)) => Name(kind) + "(" + OperationOf(inner) + ")"
  }

  /** The base Decorator.Operation: the wrapped component's text, or "" for null. */
  function Delegate(component: Option<Component>): (r: string)
    ensures component == None ==> r == []
  {
    match component
    case None => ""
    case Some(c) => OperationOf(c)
  }

  /** The component after wrapping c in the decorators of kinds, first kind innermost. */
  function Wrap(c: Component, kinds: seq<DecoratorKind>): Component
  {
    if kinds == [] then c
    else Decorated(kinds[|kinds| - 1], Some(Wrap(c, kinds[..|kinds| - 1])))
  }

  /** The opening names of kinds, outermost (last applied) first. */
  function Openings(kinds: seq<DecoratorKind>): string
  {
    if kinds == [] then ""
    else Name(kinds[|kinds| - 1]) + "(" + Openings(kinds[..|kinds| - 1])
  }

  /** n closing parentheses. */
  function Closings(n: nat): string
  {
    if n == 0 then "" else Closings(n - 1) + ")"
  }


  /** Wrapping nests outermost first: each decorator's name opens before, and closes
      after, everything it wraps. */
  lemma {:induction false} WrapNests(c: Component, kinds: seq<DecoratorKind>)
    ensures OperationOf(Wrap(c, kinds)) == Openings(kinds) + OperationOf(c) + Closings(|kinds|)
    decreases |kinds|
  {
    if kinds != [] {
      var rest := kinds[..|kinds| - 1];
      var open := Name(kinds[|kinds| - 1]) + "(";
      WrapNests(c, rest);
      var middle := Openings(rest) + OperationOf(c) + Closings(|rest|);
      assert OperationOf(Wrap(c, kinds)) == open + middle + ")";
      assert Closings(|kinds|) == Closings(|rest|) + ")";
      assert open + middle == open + Openings(rest) + OperationOf(c) + Closings(|rest|) by {
        AppendAssociates(open, Openings(rest) + OperationOf(c), Closings(|rest|));
        AppendAssociates(open, Openings(rest), OperationOf(c));
      }
      assert Openings(kinds) == open + Openings(rest);
      AppendAssociates(Openings(kinds) + OperationOf(c), Closings(|rest|), ")");
    }
  }

  /** The number of decorators from the outside in. */
  function Layers(c: Component): nat
  {
    match c
    case ConcreteComponent => 0
    case Decorated(_, None) => 1
    case Decorated(_, Some(inner)) => 1 + Layers(inner)
  }

  /** The number of times ch occurs in s. */
  function Occurrences(s: string, ch: char): nat
  {
    if s == [] then 0 else Occurrences(s[..|s| - 1], ch) + (if s[|s| - 1] == ch then 1 else 0)
  }

  lemma {:induction false} OccurrencesAppend(s: string, t: string, ch: char)
    ensures Occurrences(s + t, ch) == Occurrences(s, ch) + Occurrences(t, ch)
    decreases |t|
  {
    if t == [] {
      assert s + t == s;
    } else {
      var init := t[..|t| - 1];
      assert (s + t)[..|s + t| - 1] == s + init;
      OccurrencesAppend(s, init, ch);
    }
  }

  lemma {:induction false} OccurrencesAbsent(s: string, ch: char)
    requires ch !in s
    ensures Occurrences(s, ch) == 0
    decreases |s|
  {
    if s != [] {
      assert ch !in s[..|s| - 1];
      OccurrencesAbsent(s[..|s| - 1], ch);
    }
  }

  /** No name contains a parenthesis. */
  lemma NamesHaveNoParentheses(kind: DecoratorKind)
    ensures Occurrences(Name(kind), '(') == 0 && Occurrences(Name(kind), ')') == 0
    ensures Occurrences(ConcreteText, '(') == 0 && Occurrences(ConcreteText, ')') == 0
  {
    OccurrencesAbsent(Name(kind), '(');
    OccurrencesAbsent(Name(kind), ')');
    OccurrencesAbsent(ConcreteText, '(');
    OccurrencesAbsent(ConcreteText, ')');
  }

  /** The text of a component has one opening and one closing parenthesis per decorator,
      so the parentheses always balance. */
  lemma {:induction false} ParenthesesCountLayers(c: Component)
    ensures Occurrences(OperationOf(c), '(') == Layers(c)
    ensures Occurrences(OperationOf(c), ')') == Layers(c)
  {
    match c
    case ConcreteComponent =>
      NamesHaveNoParentheses(A);
    case Decorated(kind, inner) =>
      NamesHaveNoParentheses(kind);
      var middle := Delegate(inner);
      assert OperationOf(c) == Name(kind) + "(" + middle + ")";
      assert Occurrences("(", '(') == 1 && Occurrences("(", ')') == 0;
      assert Occurrences(")", ')') == 1 && Occurrences(")", '(') == 0;
      OccurrencesAppend(Name(kind), "(", '(');
      OccurrencesAppend(Name(kind), "(", ')');
      OccurrencesAppend(Name(kind) + "(", middle, '(');
      OccurrencesAppend(Name(kind) + "(", middle, ')');
      OccurrencesAppend(Name(kind) + "(" + middle, ")", '(');
      OccurrencesAppend(Name(kind) + "(" + middle, ")", ')');
      match inner {
        case None =>
          assert Occurrences(middle, '(') == 0 && Occurrences(middle, ')') == 0;
        case Some(x) =>
          ParenthesesCountLayers(x);
      }
  }

  /** ConcreteDecoratorA or ConcreteDecoratorB with the component it currently wraps. */
  class Decorator {
    const kind: DecoratorKind
    var component: Option<Component>

    constructor(kind: DecoratorKind, component: Option<Component>)
      ensures this.kind == kind && this.component == component
    {
      this.kind := kind;
      this.component := component;
    }

    /** SetComponent: replace the wrapped component. */
    method SetComponent(component: Option<Component>)
      modifies this`component
      ensures this.component == component
    {
      this.component := component;
    }

    /** The decorator as a component value, for wrapping by another decorator. */
    function AsComponent(): Component
      reads this
    {
      Decorated(kind, component)
    }

    /** Operation: the name around the wrapped component's current text. */
    function Operation(): (r: string)
      reads this
      ensures r == Name(kind) + "(" + Delegate(component) + ")"
      ensures component == None ==> r == Name(kind) + "()"
    {
      OperationOf(AsComponent())
    }
  }

  /** After SetComponent, Operation reflects the new component and only it. */
  method ReplaceWrapped(d: Decorator, component: Component) returns (before: string, after: string)
    modifies d
    ensures before == Name(d.kind) + "(" + Delegate(old(d.component)) + ")"
    ensures after == Name(d.kind) + "(" + OperationOf(component) + ")"
  {
    before := d.Operation();
    d.SetComponent(Some(component));
    after := d.Operation();
  }

  /** The concrete component wrapped in A, then in B. */
  lemma BAroundA()
    ensures OperationOf(Wrap(ConcreteComponent, [A, B])) == NameB + "(" + NameA + "(" + ConcreteText + "))"
  {
    WrapNests(ConcreteComponent, [A, B]);
    assert [A, B][..1] == [A];
    assert [A][..0] == [];
    assert Openings([A, B]) == NameB + "(" + (NameA + "(" + "");
    assert Closings(2) == "" + ")" + ")";
  }
}
