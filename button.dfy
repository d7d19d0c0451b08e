/**
 * The `Button` atom: whether its children are only text (and so get wrapped
 * in a `Text`), and the style list its `Pressable` gets for a press state.
 */
module Button {
  import opened JsValues

  /** A `ReactNode`, as far as `isOnlyTextNode` looks at it. */
  datatype Node =
    | NullNode
    | UndefinedNode
    | BoolNode(b: bool)
    | StringNode(s: string)
    | NumberNode(n: real)
    | ArrayNode(items: seq<Node>)
    | Element(elementType: ElementType, children: Node)  // `children` is `props?.children`
    | PlainObject  // an object that is not a React element
    | OtherNode    // a function, symbol or bigint

  /** A React element's `type`: the fragment symbol, or anything else. */
  datatype ElementType = Fragment | Component(name: string)

  /** `isOnlyTextNode(node)` */
  predicate IsOnlyTextNode(node: Node)
    decreases node
  {
    match node
    case NullNode => true
    case UndefinedNode => true
    case BoolNode(_) => true
    case StringNode(_) => true
    case NumberNode(_) => true
    case ArrayNode(items) => forall i :: 0 <= i < |items| ==> IsOnlyTextNode(items[i])
    case Element(t, children) => if t == Fragment then IsOnlyTextNode(children) else false
    case PlainObject => false
    case OtherNode => false
  }

  /** A node React renders as text (or as nothing). */
  predicate IsPrimitive(node: Node)
  {
    node.NullNode? || node.UndefinedNode? || node.BoolNode? || node.StringNode? || node.NumberNode?
  }

  /** The nodes reached by opening every array and every fragment. */
  function Leaves(node: Node): seq<Node>
    decreases node, 1
  {
    match node
    case ArrayNode(items) => LeavesOf(items)
    case Element(Fragment, children) => Leaves(children)
    case _ => [node]
  }

  function LeavesOf(items: seq<Node>): seq<Node>
    decreases items, 0
  {
    if items == [] then [] else Leaves(items[0]) + LeavesOf(items[1..])
  }

  predicate AllPrimitive(nodes: seq<Node>)
  {
    forall i :: 0 <= i < |nodes| ==> IsPrimitive(nodes[i])
  }

  /** A node is only text iff every node reached through arrays and fragments is a primitive. */
  lemma {:induction false} OnlyTextIffPrimitiveLeaves(node: Node)
    ensures IsOnlyTextNode(node) <==> AllPrimitive(Leaves(node))
    decreases node, 1
  {
    match node
    case ArrayNode(items) =>
      OnlyTextIffPrimitiveLeavesOf(items);
    case Element(t, children) =>
      if t == Fragment {
        OnlyTextIffPrimitiveLeaves(children);
      } else {
        assert Leaves(node) == [node] && !IsPrimitive(Leaves(node)[0]);
      }
    case _ =>
      assert Leaves(node) == [node] && Leaves(node)[0] == node;
      assert IsOnlyTextNode(node) <==> IsPrimitive(node);
  }

  lemma {:induction false} OnlyTextIffPrimitiveLeavesOf(items: seq<Node>)
    ensures (forall i :: 0 <= i < |items| ==> IsOnlyTextNode(items[i])) <==> AllPrimitive(LeavesOf(items))
    decreases items, 0
  {
    if items != [] {
      OnlyTextIffPrimitiveLeaves(items[0]);
      OnlyTextIffPrimitiveLeavesOf(items[1..]);
      var a, b := Leaves(items[0]), LeavesOf(items[1..]);
      assert LeavesOf(items) == a + b;
      assert AllPrimitive(a + b) <==> AllPrimitive(a) && AllPrimitive(b) by {
        assert forall k :: 0 <= k < |a| ==> (a + b)[k] == a[k];
        assert forall k :: 0 <= k < |b| ==> (a + b)[|a| + k] == b[k];
      }
      assert forall i :: 1 <= i < |items| ==> items[i] == items[1..][i - 1];
    }
  }

  /**
   * The rule case by case: primitives are text, an array is the
   * conjunction of its elements (so `[]` is text), a fragment is what its
   * children are, and every other object or kind is not text.
   */
  lemma IsOnlyTextNodeCases(node: Node)
    ensures IsPrimitive(node) ==> IsOnlyTextNode(node)
    ensures IsOnlyTextNode(ArrayNode([]))
    ensures node.ArrayNode? ==>
      (IsOnlyTextNode(node) <==> forall i :: 0 <= i < |node.items| ==> IsOnlyTextNode(node.items[i]))
    ensures IsOnlyTextNode(Element(Fragment, node)) == IsOnlyTextNode(node)
    ensures forall name :: !IsOnlyTextNode(Element(Component(name), node))
    ensures !IsOnlyTextNode(PlainObject) && !IsOnlyTextNode(OtherNode)
  {
  }

  // ---------------------------------------------------------------------
  // Rendering

  datatype Variant = Primary | Secondary

  /** The entries of the component's style sheet. */
  datatype Style = ButtonStyle | PrimaryStyle | SecondaryStyle | PressedStyle | DisabledStyle | TextStyle | TextSecondaryStyle

  /** What the `Pressable` holds: the children wrapped in a `Text` with its style list, or the bare children. */
  datatype Content = Wrapped(textStyle: seq<Option<Style>>, wrapped: Node) | Bare(bare: Node)

  /** `variant = "primary"` */
  function VariantOrDefault(variant: Option<Variant>): Variant
  {
    if variant.Some? then variant.value else Primary
  }

  /** The `Pressable`'s contents for the given children and variant. */
  function ButtonContent(children: Node, variant: Option<Variant>): (c: Content)
    ensures c.Wrapped? <==> AllPrimitive(Leaves(children))
    ensures c.Wrapped? ==> c.wrapped == children
    ensures c.Wrapped? ==>
      c.textStyle == [Some(TextStyle), if variant == Some(Secondary) then Some(TextSecondaryStyle) else None]
    ensures c.Bare? ==> c.bare == children
  {
    OnlyTextIffPrimitiveLeaves(children);
    var wrapInText := IsOnlyTextNode(children);
    if wrapInText then
      Wrapped([Some(TextStyle), if VariantOrDefault(variant) == Secondary then Some(TextSecondaryStyle) else None], children)
    else Bare(children)
  }

  /** The `style` callback of the `Pressable`. */
  method PressableStyle(variant: Option<Variant>, pressed: bool, disabled: Option<bool>) returns (styles: seq<Style>)
    ensures var isDisabled := disabled == Some(true);
      |styles| == 2 + (if pressed then 1 else 0) + (if isDisabled then 1 else 0)
    ensures styles[0] == ButtonStyle
    ensures styles[1] == if variant == Some(Secondary) then SecondaryStyle else PrimaryStyle
    ensures PressedStyle in styles <==> pressed
    ensures DisabledStyle in styles <==> disabled == Some(true)
    ensures pressed ==> styles[2] == PressedStyle
    ensures disabled == Some(true) ==> styles[|styles| - 1] == DisabledStyle
  {
    var v := VariantOrDefault(variant);
    var isDisabled := if disabled.Some? then disabled.value else false;
    var baseStyles := [ButtonStyle, if v == Primary then PrimaryStyle else SecondaryStyle];
    if pressed {
      baseStyles := baseStyles + [PressedStyle];
    }
    if isDisabled {
      baseStyles := baseStyles + [DisabledStyle];
    }
    styles := baseStyles;
  }
}
