/**
 * src/components/PaperEffects.jsx: the list of active paper effects, the
 * checkbox handler that toggles one of them, and which overlay layers the
 * preview draws for a list.
 */
module PaperEffects {

  /** The effects the controls offer. */
  const Crumple: string := "crumple"
  const Stains: string := "stains"

  /** `effects.filter(e => e !== effect)`. */
  function Without(effects: seq<string>, effect: string): (r: seq<string>)
    ensures |r| <= |effects|
    ensures forall e :: e in r <==> e in effects && e != effect
  {
    if |effects| == 0 then []
    else
      var front := Without(effects[..|effects| - 1], effect);
      var last := effects[|effects| - 1];
      assert effects == effects[..|effects| - 1] + [last];
      if last != effect then front + [last] else front
  }

  lemma {:induction false} WithoutAppend(a: seq<string>, b: seq<string>, effect: string)
    ensures Without(a + b, effect) == Without(a, effect) + Without(b, effect)
    decreases |b|
  {
    if |b| == 0 {
      assert a + b == a;
    } else {
      assert (a + b)[..|a + b| - 1] == a + b[..|b| - 1];
      WithoutAppend(a, b[..|b| - 1], effect);
    }
  }

  lemma {:induction false} WithoutAbsent(effects: seq<string>, effect: string)
    requires effect !in effects
    ensures Without(effects, effect) == effects
  {
    if |effects| > 0 {
      assert effects == effects[..|effects| - 1] + [effects[|effects| - 1]];
      WithoutAbsent(effects[..|effects| - 1], effect);
    }
  }

  /**
   * `handleChange(effect)`: a present effect is removed, every occurrence of
   * it; an absent one is appended at the end.
   */
  function ToggleEffect(active: seq<string>, effect: string): (r: seq<string>)
    ensures effect in r <==> effect !in active
    ensures forall e :: e != effect ==> (e in r <==> e in active)
    ensures Without(r, effect) == Without(active, effect)
  {
    if effect in active then
      var r := Without(active, effect);
      WithoutAbsent(r, effect);
      r
    else
      WithoutAppend(active, [effect], effect);
      assert [effect][..0] == [];
      active + [effect]
  }

  /** Toggling an absent effect twice restores the list. */
  lemma ToggleTwiceAbsent(active: seq<string>, effect: string)
    requires effect !in active
    ensures ToggleEffect(ToggleEffect(active, effect), effect) == active
  {
    WithoutAppend(active, [effect], effect);
    assert [effect][..0] == [];
    WithoutAbsent(active, effect);
  }

  /**
   * Toggling a present effect twice does not restore the list: the effect
   * ends up once, at the end, and the others keep their order.
   */
  lemma ToggleTwicePresent(active: seq<string>, effect: string)
    requires effect in active
    ensures ToggleEffect(ToggleEffect(active, effect), effect) == Without(active, effect) + [effect]
  {
  }

  /** With both effects on, ticking "crumple" off and on again moves it behind "stains". */
  lemma ToggleTwiceMovesToEnd(first: string, second: string)
    requires first != second
    ensures ToggleEffect(ToggleEffect([first, second], first), first) == [second, first]
  {
    var both := [first, second];
    assert both[..1] == [first] && [first][..0] == [];
    assert Without([first], first) == [];
    assert Without(both, first) == [second];
    ToggleTwicePresent(both, first);
  }

  // ---------------------------------------------------------------------
  // What the preview draws

  /** The overlay layers of the paper. */
  datatype Layer = CrumpleFilter | Creases | FoldLines | DepthShadow | CoffeeStains

  /**
   * `PaperEffects`: the four crumple layers, in stacking order, when the
   * list includes "crumple"; the stain layer when it includes "stains".
   */
  function Layers(effects: seq<string>): (r: seq<Layer>)
    ensures CrumpleFilter in r <==> Crumple in effects
    ensures Creases in r <==> Crumple in effects
    ensures FoldLines in r <==> Crumple in effects
    ensures DepthShadow in r <==> Crumple in effects
    ensures CoffeeStains in r <==> Stains in effects
  {
    (if Crumple in effects then [CrumpleFilter, Creases, FoldLines, DepthShadow] else [])
    + (if Stains in effects then [CoffeeStains] else [])
  }

  /** The checkbox of an effect is ticked exactly when the effect is active. */
  predicate Checked(active: seq<string>, effect: string)
  {
    effect in active
  }

  /**
   * Ticking a box flips its own layers and leaves the other effect's layers
   * as they were.
   */
  lemma ToggleFlipsLayers(active: seq<string>)
    ensures var after := ToggleEffect(active, Crumple);
            && (CrumpleFilter in Layers(after) <==> !(CrumpleFilter in Layers(active)))
            && (CoffeeStains in Layers(after) <==> CoffeeStains in Layers(active))
    ensures var after := ToggleEffect(active, Stains);
            && (CoffeeStains in Layers(after) <==> !(CoffeeStains in Layers(active)))
            && (CrumpleFilter in Layers(after) <==> CrumpleFilter in Layers(active))
    ensures Checked(ToggleEffect(active, Crumple), Crumple) <==> !Checked(active, Crumple)
  {
  }
}
