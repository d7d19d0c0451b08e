/**
 * The hamburger builder screen's list logic: toggling an ingredient in the
 * selection, the ingredient buttons' selected flags, the "Tu Hamburguesa"
 * tag list, and the route parameters of the checkout.
 */
module HamburgerBuilder {
  import opened JsValues

  /** A `HamburgerIngredient` name. */
  type Ingredient = string

  /** `INGREDIENTS_LIST`: the buttons of the screen, in order. */
  const IngredientsList: seq<Ingredient> := ["queso", "pepinillos", "lechuga", "carne"]

  ghost predicate NoDuplicates(s: seq<Ingredient>)
  {
    forall i, j :: 0 <= i < j < |s| ==> s[i] != s[j]
  }

  /** `a` is `b` with some elements left out, the rest in their order. */
  predicate IsSubsequence(a: seq<Ingredient>, b: seq<Ingredient>)
    decreases |b|
  {
    a == [] ||
    (b != [] && (IsSubsequence(a, b[1..]) || (a[0] == b[0] && IsSubsequence(a[1..], b[1..]))))
  }

  // ---------------------------------------------------------------------
  // toggleIngredient

  /** `prev.filter((i) => i !== ingredient)` */
  function RemoveAll(s: seq<Ingredient>, x: Ingredient): (r: seq<Ingredient>)
    ensures x !in r
    ensures multiset(r) == multiset(s)[x := 0]
    ensures |r| == |s| - multiset(s)[x]
  {
    if s == [] then []
    else
      assert s == [s[0]] + s[1..];
      (if s[0] == x then [] else [s[0]]) + RemoveAll(s[1..], x)
  }

  /** The filter keeps every other element in its original order. */
  lemma {:induction false} RemoveAllKeepsOrder(s: seq<Ingredient>, x: Ingredient)
    ensures IsSubsequence(RemoveAll(s, x), s)
  {
    if s != [] {
      RemoveAllKeepsOrder(s[1..], x);
      var rest := RemoveAll(s[1..], x);
      if s[0] != x {
        assert RemoveAll(s, x) == [s[0]] + rest;
        assert ([s[0]] + rest)[1..] == rest;
      } else {
        assert RemoveAll(s, x) == rest;
      }
    }
  }

  lemma RemoveAllKeepsOthers(s: seq<Ingredient>, x: Ingredient)
    ensures forall y :: y != x ==> (y in RemoveAll(s, x) <==> y in s)
  {
    var r := RemoveAll(s, x);
    forall y | y != x
      ensures y in r <==> y in s
    {
      assert y in r <==> y in multiset(r);
      assert y in s <==> y in multiset(s);
    }
  }

  /** `toggleIngredient(ingredient)` applied to the selection `prev`. */
  function Toggle(prev: seq<Ingredient>, x: Ingredient): (r: seq<Ingredient>)
    ensures x in r <==> x !in prev
    ensures forall y :: y != x ==> (y in r <==> y in prev)
  {
    if x in prev then
      RemoveAllKeepsOthers(prev, x);
      RemoveAll(prev, x)
    else prev + [x]
  }

  lemma {:induction false} RemoveAllOfAbsent(s: seq<Ingredient>, x: Ingredient)
    requires x !in s
    ensures RemoveAll(s, x) == s
  {
    if s != [] {
      RemoveAllOfAbsent(s[1..], x);
      assert s == [s[0]] + s[1..];
    }
  }

  lemma {:induction false} NoDuplicatesCountOne(s: seq<Ingredient>, x: Ingredient)
    requires NoDuplicates(s) && x in s
    ensures multiset(s)[x] == 1
  {
    assert s == [s[0]] + s[1..];
    assert NoDuplicates(s[1..]) by {
      forall i, j | 0 <= i < j < |s[1..]| ensures s[1..][i] != s[1..][j] {
        assert s[1..][i] == s[i + 1] && s[1..][j] == s[j + 1];
      }
    }
    if s[0] == x {
      assert x !in s[1..] by {
        forall k | 0 <= k < |s[1..]| ensures s[1..][k] != x {
          assert s[1..][k] == s[k + 1];
        }
      }
    } else {
      NoDuplicatesCountOne(s[1..], x);
    }
  }

  lemma {:induction false} RemoveAllKeepsNoDuplicates(s: seq<Ingredient>, x: Ingredient)
    requires NoDuplicates(s)
    ensures NoDuplicates(RemoveAll(s, x))
  {
    if s != [] {
      var tail := s[1..];
      assert NoDuplicates(tail) by {
        forall i, j | 0 <= i < j < |tail| ensures tail[i] != tail[j] {
          assert tail[i] == s[i + 1] && tail[j] == s[j + 1];
        }
      }
      RemoveAllKeepsNoDuplicates(tail, x);
      var rest := RemoveAll(tail, x);
      if s[0] != x {
        assert s[0] !in tail by {
          forall k | 0 <= k < |tail| ensures tail[k] != s[0] {
            assert tail[k] == s[k + 1];
          }
        }
        assert s[0] !in multiset(rest);
        var r := [s[0]] + rest;
        assert RemoveAll(s, x) == r;
        forall i, j | 0 <= i < j < |r| ensures r[i] != r[j] {
          if i == 0 {
            assert r[j] == rest[j - 1];
            assert r[j] in rest;
          } else {
            assert r[i] == rest[i - 1] && r[j] == rest[j - 1];
          }
        }
      }
    }
  }

  /** Toggling a present ingredient removes every occurrence and keeps the others in order. */
  lemma TogglePresentRemoves(s: seq<Ingredient>, x: Ingredient)
    requires x in s
    ensures Toggle(s, x) == RemoveAll(s, x)
    ensures x !in Toggle(s, x)
    ensures multiset(Toggle(s, x)) == multiset(s)[x := 0]
    ensures IsSubsequence(Toggle(s, x), s)
    ensures NoDuplicates(s) ==> |Toggle(s, x)| == |s| - 1
  {
    RemoveAllKeepsOrder(s, x);
    if NoDuplicates(s) {
      NoDuplicatesCountOne(s, x);
    }
  }

  /** Toggling an absent ingredient appends it, so the list grows by one. */
  lemma ToggleAbsentAppends(s: seq<Ingredient>, x: Ingredient)
    requires x !in s
    ensures Toggle(s, x) == s + [x]
    ensures |Toggle(s, x)| == |s| + 1
    ensures Toggle(s, x)[|s|] == x
  {
  }

  /** Toggling keeps a selection free of duplicates. */
  lemma TogglePreservesNoDuplicates(s: seq<Ingredient>, x: Ingredient)
    requires NoDuplicates(s)
    ensures NoDuplicates(Toggle(s, x))
  {
    if x in s {
      RemoveAllKeepsNoDuplicates(s, x);
    }
  }

  /**
   * Toggling the same ingredient twice restores the selection when it was
   * absent, and restores the set of selected ingredients (moving it to the
   * end) when it was present.
   */
  lemma ToggleTwice(s: seq<Ingredient>, x: Ingredient)
    ensures x !in s ==> Toggle(Toggle(s, x), x) == s
    ensures x in s ==> Toggle(Toggle(s, x), x) == RemoveAll(s, x) + [x]
    ensures forall y :: y in Toggle(Toggle(s, x), x) <==> y in s
    ensures NoDuplicates(s) ==> multiset(Toggle(Toggle(s, x), x)) == multiset(s)
  {
    if x !in s {
      assert Toggle(s, x) == s + [x];
      RemoveAllOfAbsent(s, x);
      RemoveAllConcat(s, [x], x);
      assert RemoveAll([x], x) == [];
      assert s + [] == s;
    } else if NoDuplicates(s) {
      NoDuplicatesCountOne(s, x);
    }
  }

  lemma {:induction false} RemoveAllConcat(a: seq<Ingredient>, b: seq<Ingredient>, x: Ingredient)
    ensures RemoveAll(a + b, x) == RemoveAll(a, x) + RemoveAll(b, x)
  {
    if a == [] {
      assert a + b == b;
    } else {
      assert (a + b)[0] == a[0] && (a + b)[1..] == a[1..] + b;
      RemoveAllConcat(a[1..], b, x);
    }
  }

  /** The selection after the given button presses, starting from `[]`. */
  function SelectionAfter(presses: seq<Ingredient>): seq<Ingredient>
    decreases |presses|
  {
    if presses == [] then []
    else Toggle(SelectionAfter(presses[..|presses| - 1]), presses[|presses| - 1])
  }

  /** Pressing only the screen's buttons selects only `INGREDIENTS_LIST` members, each at most once. */
  lemma {:induction false} ReachableSelections(presses: seq<Ingredient>)
    requires forall i :: 0 <= i < |presses| ==> presses[i] in IngredientsList
    ensures forall y :: y in SelectionAfter(presses) ==> y in IngredientsList
    ensures NoDuplicates(SelectionAfter(presses))
    decreases |presses|
  {
    if presses != [] {
      var before := presses[..|presses| - 1];
      ReachableSelections(before);
      TogglePreservesNoDuplicates(SelectionAfter(before), presses[|presses| - 1]);
    }
  }

  // ---------------------------------------------------------------------
  // Ingredient buttons

  /** One ingredient button: its ingredient and its `isSelected` flag. */
  datatype IngredientButton = IngredientButton(ingredient: Ingredient, isSelected: bool)

  /** `INGREDIENTS_LIST.map(...)`: one button per list entry, in order. */
  function IngredientButtons(selection: seq<Ingredient>): (r: seq<IngredientButton>)
    ensures |r| == |IngredientsList|
    ensures forall i :: 0 <= i < |r| ==> r[i].ingredient == IngredientsList[i]
    ensures forall i :: 0 <= i < |r| ==> (r[i].isSelected <==> IngredientsList[i] in selection)
  {
    seq(|IngredientsList|, i requires 0 <= i < |IngredientsList| =>
      IngredientButton(IngredientsList[i], IngredientsList[i] in selection))
  }

  /** Pressing button `k` flips its own flag and leaves every other button's flag as it was. */
  lemma PressFlipsOnlyThatButton(selection: seq<Ingredient>, k: nat)
    requires k < |IngredientsList|
    ensures var after := IngredientButtons(Toggle(selection, IngredientsList[k]));
      after[k].isSelected == !IngredientButtons(selection)[k].isSelected
    ensures var after := IngredientButtons(Toggle(selection, IngredientsList[k]));
      forall i :: 0 <= i < |IngredientsList| && i != k ==>
        after[i].isSelected == IngredientButtons(selection)[i].isSelected
  {
    var after := IngredientButtons(Toggle(selection, IngredientsList[k]));
    forall i | 0 <= i < |IngredientsList| && i != k
      ensures after[i].isSelected == IngredientButtons(selection)[i].isSelected
    {
      assert IngredientsList[i] != IngredientsList[k];
    }
  }

  // ---------------------------------------------------------------------
  // "Tu Hamburguesa" tags

  const BreadColor := "#D4A574"

  /** `colorMap` */
  const ColorMap: map<Ingredient, string> :=
    map["queso" := "#FFD700", "pepinillos" := "#90EE90", "lechuga" := "#7CFC00", "carne" := "#8B4513"]

  /** `colorMap[ingredient]`, undefined outside the map. */
  function ColorOf(i: Ingredient): Option<string>
  {
    if i in ColorMap then Some(ColorMap[i]) else None
  }

  /** An `IngredientTag`: a bread tag with its label, or an ingredient's tag. */
  datatype Tag =
    | BreadTag(caption: string, color: string)
    | IngredientTag(ingredient: Ingredient, ingredientColor: Option<string>)

  /** The tags of the section, or `None` when the section is not rendered. */
  function SelectedSection(selection: seq<Ingredient>): Option<seq<Tag>>
  {
    if |selection| > 0 then
      Some([BreadTag("Pan Superior", BreadColor)]
        + seq(|selection|, i requires 0 <= i < |selection| => IngredientTag(selection[i], ColorOf(selection[i])))
        + [BreadTag("Pan Inferior", BreadColor)])
    else None
  }

  /**
   * The section is shown iff the selection is non-empty; it holds the top
   * bread, one tag per selected ingredient in selection order, and the
   * bottom bread.
   */
  lemma SelectedSectionShape(selection: seq<Ingredient>)
    ensures SelectedSection(selection).Some? <==> selection != []
    ensures SelectedSection(selection).Some? ==>
      var tags := SelectedSection(selection).value;
      && |tags| == |selection| + 2
      && tags[0] == BreadTag("Pan Superior", BreadColor)
      && tags[|tags| - 1] == BreadTag("Pan Inferior", BreadColor)
      && forall i :: 0 <= i < |selection| ==> tags[i + 1].IngredientTag? && tags[i + 1].ingredient == selection[i]
  {
  }

  /** Each selected list member's tag carries its `colorMap` colour. */
  lemma TagsHaveColors(selection: seq<Ingredient>)
    requires selection != []
    requires forall y :: y in selection ==> y in IngredientsList
    ensures forall k :: 1 <= k <= |selection| ==>
      selection[k - 1] in ColorMap &&
      SelectedSection(selection).value[k] == IngredientTag(selection[k - 1], Some(ColorMap[selection[k - 1]]))
    ensures forall k :: 0 <= k < |SelectedSection(selection).value| && SelectedSection(selection).value[k].IngredientTag? ==>
      SelectedSection(selection).value[k].ingredientColor.Some?
  {
    var tags := SelectedSection(selection).value;
    assert forall y :: y in IngredientsList ==> y in ColorMap;
    forall k | 1 <= k <= |selection|
      ensures selection[k - 1] in ColorMap
      ensures tags[k] == IngredientTag(selection[k - 1], Some(ColorMap[selection[k - 1]]))
    {
      assert selection[k - 1] in selection;
    }
  }

  /** Every ingredient tag of a selection reached by pressing the buttons has a colour. */
  lemma {:induction false} ReachableTagsHaveColors(presses: seq<Ingredient>)
    requires forall i :: 0 <= i < |presses| ==> presses[i] in IngredientsList
    ensures var section := SelectedSection(SelectionAfter(presses));
      section.Some? ==> forall k :: 0 <= k < |section.value| && section.value[k].IngredientTag? ==>
        section.value[k].ingredientColor.Some?
  {
    ReachableSelections(presses);
    if SelectionAfter(presses) != [] {
      TagsHaveColors(SelectionAfter(presses));
    }
  }

  // ---------------------------------------------------------------------
  // handleBuy

  /** The route `handleBuy` pushes; `totalPrice` is not modelled. */
  datatype CheckoutRoute = CheckoutRoute(pathname: string, ingredients: string)

  function BuyRoute(selection: seq<Ingredient>): CheckoutRoute
  {
    CheckoutRoute("./hamburger-checkout", JsonStringArray(selection))
  }

  /** A string's characters with `"` and `\` escaped, as in a JSON string literal. */
  function Escape(x: string): string
  {
    if x == [] then []
    else (if x[0] == '"' || x[0] == '\\' then ['\\', x[0]] else [x[0]]) + Escape(x[1..])
  }

  function JsonElements(s: seq<string>): string
    decreases |s|
  {
    if s == [] then ""
    else if |s| == 1 then "\"" + Escape(s[0]) + "\""
    else "\"" + Escape(s[0]) + "\"" + "," + JsonElements(s[1..])
  }

  /** `JSON.stringify` of an array of strings. */
  function JsonStringArray(s: seq<string>): string
  {
    "[" + JsonElements(s) + "]"
  }

  /** Reads the rest of a JSON string literal: its content and what follows the closing quote. */
  function ParseStringBody(t: string): (r: Option<(string, string)>)
    ensures r.Some? ==> |r.value.1| < |t|
  {
    if t == [] then None
    else if t[0] == '"' then Some(("", t[1..]))
    else if t[0] == '\\' then
      if |t| < 2 || !(t[1] == '"' || t[1] == '\\' || t[1] == '/') then None
      else match ParseStringBody(t[2..])
        case None => None
        case Some(p) => Some(([t[1]] + p.0, p.1))
    else match ParseStringBody(t[1..])
      case None => None
      case Some(p) => Some(([t[0]] + p.0, p.1))
  }

  /** Reads one or more comma-separated JSON string literals. */
  function ParseElements(t: string): Option<seq<string>>
    decreases |t|
  {
    if t == [] || t[0] != '"' then None
    else match ParseStringBody(t[1..])
      case None => None
      case Some(p) =>
        if p.1 == [] then Some([p.0])
        else if p.1[0] != ',' then None
        else match ParseElements(p.1[1..])
          case None => None
          case Some(rest) => Some([p.0] + rest)
  }

  /** `JSON.parse` of a JSON array of strings (without whitespace). */
  function ParseJsonStringArray(t: string): Option<seq<string>>
  {
    if |t| < 2 || t[0] != '[' || t[|t| - 1] != ']' then None
    else if |t| == 2 then Some([])
    else ParseElements(t[1..|t| - 1])
  }

  lemma {:induction false} ParseEscaped(x: string, rest: string)
    ensures ParseStringBody(Escape(x) + "\"" + rest) == Some((x, rest))
  {
    if x == [] {
      assert Escape(x) + "\"" + rest == "\"" + rest;
    } else {
      ParseEscaped(x[1..], rest);
      var head := if x[0] == '"' || x[0] == '\\' then ['\\', x[0]] else [x[0]];
      var t := Escape(x) + "\"" + rest;
      assert t == head + (Escape(x[1..]) + "\"" + rest);
      if x[0] == '"' || x[0] == '\\' {
        assert t[2..] == Escape(x[1..]) + "\"" + rest;
      } else {
        assert t[1..] == Escape(x[1..]) + "\"" + rest;
      }
      assert [x[0]] + x[1..] == x;
    }
  }

  lemma {:induction false} ParseJsonElements(s: seq<string>)
    requires s != []
    ensures ParseElements(JsonElements(s)) == Some(s)
    decreases |s|
  {
    var t := JsonElements(s);
    if |s| == 1 {
      assert t == "\"" + (Escape(s[0]) + "\"" + "");
      ParseEscaped(s[0], "");
      assert t[1..] == Escape(s[0]) + "\"" + "";
      assert s == [s[0]];
    } else {
      var more := "," + JsonElements(s[1..]);
      assert t == "\"" + (Escape(s[0]) + "\"" + more);
      ParseEscaped(s[0], more);
      assert t[1..] == Escape(s[0]) + "\"" + more;
      assert more[1..] == JsonElements(s[1..]);
      ParseJsonElements(s[1..]);
      assert [s[0]] + s[1..] == s;
    }
  }

  /** The checkout reads back exactly the selection, in order, from the route parameter. */
  lemma {:induction false} CheckoutIngredientsRoundTrip(selection: seq<Ingredient>)
    ensures BuyRoute(selection).pathname == "./hamburger-checkout"
    ensures ParseJsonStringArray(BuyRoute(selection).ingredients) == Some(selection)
  {
    var t := JsonStringArray(selection);
    if selection == [] {
      assert t == "[]";
    } else {
      ParseJsonElements(selection);
      assert |JsonElements(selection)| > 0;
      assert t[1..|t| - 1] == JsonElements(selection);
    }
  }
}
