/**
 * Drawing one draw thing (RenderThing in r_things.cc): the blend flags the
 * sprite is drawn with and the schedule of up to four passes, in which the
 * integer colour channels sampled at the sprite's four corners decide which
 * passes are drawn; and the crosshair's pulsating brightness counter.
 *
 * The colours come in already sampled (the shaders and light iterators are
 * not part of this model); so do the image's opacity and the map object's
 * flags.
 */
module ThingRender {

  /** The blend flags used here. */
  datatype BlendFlag = Masked | Less | Alpha | Add | NoZBuffer

  /**
   * A colour mixer: the modulate and add channels accumulated by the
   * lighting, as integers (255 is full intensity; modulate channels may
   * exceed it, which further passes then draw).
   */
  datatype ColorMixer = ColorMixer(modRed: int, modGreen: int, modBlue: int, addRed: int, addGreen: int, addBlue: int)

  /** A vertex colour, each channel as the fraction sent to the renderer. */
  datatype Rgb = Rgb(red: real, green: real, blue: real)

  /** One emitted render unit: its pass number, blending, whether it is the additive pass, its corner colours and alpha. */
  datatype Pass = Pass(index: nat, blending: set<BlendFlag>, additive: bool, colours: seq<Rgb>, alpha: real)

  function Max3(a: int, b: int, c: int): (m: int)
    ensures m >= a && m >= b && m >= c && (m == a || m == b || m == c)
  {
    if a >= b && a >= c then a else if b >= c then b else c
  }

  /** The largest modulate channel, or the largest add channel, of a mixer. */
  function ChannelMax(c: ColorMixer, additive: bool): int {
    if additive then Max3(c.addRed, c.addGreen, c.addBlue) else Max3(c.modRed, c.modGreen, c.modBlue)
  }

  /** The largest channel over a run of mixers, never below 0 (the accumulator starts at 0). */
  function MulticolMax(cs: seq<ColorMixer>, additive: bool): int {
    if |cs| == 0 then 0
    else
      var m := MulticolMax(cs[..|cs| - 1], additive);
      var x := ChannelMax(cs[|cs| - 1], additive);
      if x > m then x else m
  }

  /**
   * The maximum is at least 0 and at least every entry's channel maximum,
   * and it is 0 or one of them; it exceeds any x >= 0 exactly when some
   * entry's channel maximum does.
   */
  lemma {:induction false} MulticolMaxBounds(cs: seq<ColorMixer>, additive: bool, x: int)
    requires x >= 0
    ensures MulticolMax(cs, additive) >= 0
    ensures forall i :: 0 <= i < |cs| ==> MulticolMax(cs, additive) >= ChannelMax(cs[i], additive)
    ensures MulticolMax(cs, additive) == 0 || exists i :: 0 <= i < |cs| && MulticolMax(cs, additive) == ChannelMax(cs[i], additive)
    ensures MulticolMax(cs, additive) > x <==> exists i :: 0 <= i < |cs| && ChannelMax(cs[i], additive) > x
  {
    if |cs| > 0 {
      var init := cs[..|cs| - 1];
      MulticolMaxBounds(init, additive, x);
      assert forall i :: 0 <= i < |init| ==> cs[i] == init[i];
      var m := MulticolMax(cs, additive);
      if MulticolMax(init, additive) > x {
        var i :| 0 <= i < |init| && ChannelMax(init[i], additive) > x;
        assert ChannelMax(cs[i], additive) > x;
      }
      if m != 0 && m == MulticolMax(init, additive) {
        var i :| 0 <= i < |init| && MulticolMax(init, additive) == ChannelMax(init[i], additive);
        assert m == ChannelMax(cs[i], additive);
      }
    }
  }

  /**
   * GetMulticolMaxRGB: the largest modulate (or add) channel over the first
   * `num` mixers, starting from 0.
   */
  method GetMulticolMaxRGB(cols: array<ColorMixer>, num: int, additive: bool) returns (result: int)
    requires num <= cols.Length
    ensures result == MulticolMax(if num <= 0 then [] else cols[..num], additive)
  {
    result := 0;
    var i := 0;
    while i < num
      invariant 0 <= i <= if num <= 0 then 0 else num
      invariant result == MulticolMax(cols[..i], additive)
    {
      assert cols[..i + 1][..i] == cols[..i];
      var mx := if additive then Max3(cols[i].addRed, cols[i].addGreen, cols[i].addBlue)
                else Max3(cols[i].modRed, cols[i].modGreen, cols[i].modBlue);
      result := if result > mx then result else mx;
      i := i + 1;
    }
    if num <= 0 {
      assert cols[..i] == [];
    }
  }

  /**
   * The initial blend flags: Masked, replaced by Less when the thing is
   * visible enough (0.11) and its image is not of complex opacity; Alpha
   * added when it is translucent (below 0.99) or complex; NoZBuffer added
   * for things that must not update the depth buffer. Fuzzy things use
   * Masked and Alpha alone.
   */
  function BlendFlags(trans: real, complexOpacity: bool, noZUpdate: bool, fuzzy: bool): (b: set<BlendFlag>) {
    if fuzzy then {Masked, Alpha}
    else
      var base := if trans >= 0.11 && !complexOpacity then {Less} else {Masked};
      var withAlpha := if trans < 0.99 || complexOpacity then base + {Alpha} else base;
      if noZUpdate then withAlpha + {NoZBuffer} else withAlpha
  }

  /**
   * Each flag, flag by flag: exactly one of Masked and Less; Alpha and
   * NoZBuffer under their conditions; never Add before the second pass.
   */
  lemma BlendFlagsCases(trans: real, complexOpacity: bool, noZUpdate: bool, fuzzy: bool)
    ensures var b := BlendFlags(trans, complexOpacity, noZUpdate, fuzzy);
      Add !in b && (Masked in b <==> Less !in b) &&
      (fuzzy ==> b == {Masked, Alpha}) &&
      (!fuzzy ==>
         (Less in b <==> trans >= 0.11 && !complexOpacity) &&
         (Alpha in b <==> trans < 0.99 || complexOpacity) &&
         (NoZBuffer in b <==> noZUpdate))
  {
  }

  /** The corner colours a pass sends: black for fuzzy things, the add channels on the additive pass, else the modulate channels. */
  function PassColours(cs: seq<ColorMixer>, fuzzy: bool, additive: bool): (rgb: seq<Rgb>)
    ensures |rgb| == |cs|
  {
    seq(|cs|, i requires 0 <= i < |cs| =>
      if fuzzy then Rgb(0.0, 0.0, 0.0)
      else if !additive then Rgb(cs[i].modRed as real / 255.0, cs[i].modGreen as real / 255.0, cs[i].modBlue as real / 255.0)
      else Rgb(cs[i].addRed as real / 255.0, cs[i].addGreen as real / 255.0, cs[i].addBlue as real / 255.0))
  }

  /** A mixer with its modulate channels lowered by n times 256. */
  function Lowered(c: ColorMixer, n: int): ColorMixer {
    c.(modRed := c.modRed - 256 * n, modGreen := c.modGreen - 256 * n, modBlue := c.modBlue - 256 * n)
  }

  /** Every mixer lowered by n times 256. */
  function LowerAll(cs: seq<ColorMixer>, n: int): (r: seq<ColorMixer>)
    ensures |r| == |cs| && forall i :: 0 <= i < |cs| ==> r[i] == Lowered(cs[i], n)
  {
    seq(|cs|, i requires 0 <= i < |cs| => Lowered(cs[i], n))
  }

  /** The mixers after a drawn pass: a plain (non-fuzzy, non-additive) pass uses up 256 of every modulate channel. */
  function AfterPass(cs: seq<ColorMixer>, fuzzy: bool, additive: bool): seq<ColorMixer> {
    if fuzzy || additive then cs else LowerAll(cs, 1)
  }

  /**
   * The passes from `pass` on, out of `numPass`, and the mixers afterwards.
   * From pass 1 the blending drops Alpha and takes Add; the last pass
   * (when there is more than one) is the additive one; a middle pass is
   * skipped when no modulate channel is positive, the additive one when no
   * add channel is.
   */
  function PassesFrom(pass: nat, numPass: nat, cs: seq<ColorMixer>, blending: set<BlendFlag>, fuzzy: bool, alpha: real)
    : (seq<Pass>, seq<ColorMixer>)
    decreases numPass - pass
  {
    if pass >= numPass then ([], cs)
    else
      var b := if pass == 1 then blending - {Alpha} + {Add} else blending;
      var additive := pass > 0 && pass == numPass - 1;
      var skip := if pass > 0 && pass < numPass - 1 then MulticolMax(cs, false) <= 0
                  else additive && MulticolMax(cs, true) <= 0;
      if skip then PassesFrom(pass + 1, numPass, cs, b, fuzzy, alpha)
      else
        var rest := PassesFrom(pass + 1, numPass, AfterPass(cs, fuzzy, additive), b, fuzzy, alpha);
        ([Pass(pass, b, additive, PassColours(cs, fuzzy, additive), alpha)] + rest.0, rest.1)
  }

  /** The whole schedule of a visible thing: one pass when fuzzy, four candidate passes otherwise. */
  function Schedule(cs: seq<ColorMixer>, trans: real, complexOpacity: bool, noZUpdate: bool, fuzzy: bool)
    : (seq<Pass>, seq<ColorMixer>)
  {
    PassesFrom(0, if fuzzy then 1 else 4, cs, BlendFlags(trans, complexOpacity, noZUpdate, fuzzy), fuzzy,
               if fuzzy then 1.0 else trans)
  }

  /** A fuzzy thing is drawn in exactly one black, masked and alpha-blended pass at full alpha, leaving the mixers alone. */
  lemma FuzzySchedule(cs: seq<ColorMixer>, trans: real, complexOpacity: bool, noZUpdate: bool)
    ensures Schedule(cs, trans, complexOpacity, noZUpdate, true) ==
      ([Pass(0, {Masked, Alpha}, false, seq(|cs|, i => Rgb(0.0, 0.0, 0.0)), 1.0)], cs)
  {
    var expected := seq(|cs|, i => Rgb(0.0, 0.0, 0.0));
    assert PassColours(cs, true, false) == expected;
    assert BlendFlags(trans, complexOpacity, noZUpdate, true) == {Masked, Alpha};
    assert PassesFrom(1, 1, cs, {Masked, Alpha}, true, 1.0) == ([], cs);
    var p := Pass(0, {Masked, Alpha}, false, expected, 1.0);
    assert [p] + [] == [p];
  }

  /** Lowering by n and then by one more is lowering by n + 1. */
  lemma LowerAllTwice(cs: seq<ColorMixer>, n: int)
    ensures LowerAll(LowerAll(cs, n), 1) == LowerAll(cs, n + 1)
  {
  }

  /** Some mixer's lowered modulate maximum is positive exactly when the original maximum exceeds n times 256. */
  lemma LoweredMaxPositive(cs: seq<ColorMixer>, n: nat)
    ensures MulticolMax(LowerAll(cs, n), false) > 0 <==> MulticolMax(cs, false) > 256 * n
  {
    var low := LowerAll(cs, n);
    MulticolMaxBounds(low, false, 0);
    MulticolMaxBounds(cs, false, 256 * n);
    assert forall i :: 0 <= i < |cs| ==> ChannelMax(low[i], false) == ChannelMax(cs[i], false) - 256 * n;
  }

  /** Adding to the modulate channels leaves the add maximum as it was. */
  lemma LoweredAddMax(cs: seq<ColorMixer>, n: int)
    ensures MulticolMax(LowerAll(cs, n), true) > 0 <==> MulticolMax(cs, true) > 0
  {
    var low := LowerAll(cs, n);
    MulticolMaxBounds(low, true, 0);
    MulticolMaxBounds(cs, true, 0);
    assert forall i :: 0 <= i < |cs| ==> ChannelMax(low[i], true) == ChannelMax(cs[i], true);
  }

  /** Lowering the modulate channels leaves the colours of the additive pass unchanged. */
  lemma AddColoursUnchanged(cs: seq<ColorMixer>, n: int)
    ensures PassColours(LowerAll(cs, n), false, true) == PassColours(cs, false, true)
  {
    var low := LowerAll(cs, n);
    forall i | 0 <= i < |cs|
      ensures PassColours(low, false, true)[i] == PassColours(cs, false, true)[i]
    {
      assert low[i].addRed == cs[i].addRed && low[i].addGreen == cs[i].addGreen && low[i].addBlue == cs[i].addBlue;
    }
  }

  /** The last pass of four, on mixers already lowered n times. */
  lemma LastPass(low: seq<ColorMixer>, b: set<BlendFlag>, alpha: real)
    ensures PassesFrom(3, 4, low, b, false, alpha) ==
      if MulticolMax(low, true) > 0 then ([Pass(3, b, true, PassColours(low, false, true), alpha)], low) else ([], low)
  {
    assert PassesFrom(4, 4, low, b, false, alpha) == ([], low);
    if MulticolMax(low, true) > 0 {
      assert [Pass(3, b, true, PassColours(low, false, true), alpha)] + [] == [Pass(3, b, true, PassColours(low, false, true), alpha)];
    }
  }

  /** A middle pass of four: drawn, using up 256 of every modulate channel, exactly when some modulate channel is positive. */
  lemma MiddleStep(pass: nat, cs: seq<ColorMixer>, b: set<BlendFlag>, alpha: real)
    requires pass == 1 || pass == 2
    ensures var b' := if pass == 1 then b - {Alpha} + {Add} else b;
      var rest := PassesFrom(pass + 1, 4, LowerAll(cs, 1), b', false, alpha);
      PassesFrom(pass, 4, cs, b, false, alpha) ==
        if MulticolMax(cs, false) > 0 then ([Pass(pass, b', false, PassColours(cs, false, false), alpha)] + rest.0, rest.1)
        else PassesFrom(pass + 1, 4, cs, b', false, alpha)
  {
  }

  /** Pass 0 of four: always drawn, with the sampled modulate colours, using up 256 of each modulate channel. */
  lemma FirstPass(cs: seq<ColorMixer>, b: set<BlendFlag>, alpha: real)
    ensures var rest := PassesFrom(1, 4, LowerAll(cs, 1), b, false, alpha);
      PassesFrom(0, 4, cs, b, false, alpha) == ([Pass(0, b, false, PassColours(cs, false, false), alpha)] + rest.0, rest.1)
  {
  }

  /** Neither middle pass is drawn when no modulate channel exceeds 256. */
  lemma NoMiddlePass(cs: seq<ColorMixer>, b: set<BlendFlag>, b1: set<BlendFlag>, alpha: real)
    requires b1 == b - {Alpha} + {Add} && MulticolMax(cs, false) <= 256
    ensures PassesFrom(1, 4, LowerAll(cs, 1), b, false, alpha) == PassesFrom(3, 4, LowerAll(cs, 1), b1, false, alpha)
  {
    var l1 := LowerAll(cs, 1);
    LoweredMaxPositive(cs, 1);
    MiddleStep(1, l1, b, alpha);
    MiddleStep(2, l1, b1, alpha);
  }

  /** Only pass 1 is drawn when the largest modulate channel exceeds 256 but not 512. */
  lemma OneMiddlePass(cs: seq<ColorMixer>, b: set<BlendFlag>, b1: set<BlendFlag>, alpha: real)
    requires b1 == b - {Alpha} + {Add} && 256 < MulticolMax(cs, false) <= 512
    ensures var tail := PassesFrom(3, 4, LowerAll(cs, 2), b1, false, alpha);
      PassesFrom(1, 4, LowerAll(cs, 1), b, false, alpha) ==
        ([Pass(1, b1, false, PassColours(LowerAll(cs, 1), false, false), alpha)] + tail.0, tail.1)
  {
    var l1 := LowerAll(cs, 1);
    var l2 := LowerAll(cs, 2);
    LoweredMaxPositive(cs, 1);
    LoweredMaxPositive(cs, 2);
    LowerAllTwice(cs, 1);
    MiddleStep(1, l1, b, alpha);
    MiddleStep(2, l2, b1, alpha);
  }

  /** Both middle passes are drawn when the largest modulate channel exceeds 512. */
  lemma TwoMiddlePasses(cs: seq<ColorMixer>, b: set<BlendFlag>, b1: set<BlendFlag>, alpha: real)
    requires b1 == b - {Alpha} + {Add} && 512 < MulticolMax(cs, false)
    ensures var tail := PassesFrom(3, 4, LowerAll(cs, 3), b1, false, alpha);
      PassesFrom(1, 4, LowerAll(cs, 1), b, false, alpha) ==
        ([Pass(1, b1, false, PassColours(LowerAll(cs, 1), false, false), alpha),
          Pass(2, b1, false, PassColours(LowerAll(cs, 2), false, false), alpha)] + tail.0, tail.1)
  {
    var l1 := LowerAll(cs, 1);
    var l2 := LowerAll(cs, 2);
    var tail := PassesFrom(3, 4, LowerAll(cs, 3), b1, false, alpha);
    var p1 := Pass(1, b1, false, PassColours(l1, false, false), alpha);
    var p2 := Pass(2, b1, false, PassColours(l2, false, false), alpha);
    LoweredMaxPositive(cs, 1);
    LoweredMaxPositive(cs, 2);
    LowerAllTwice(cs, 1);
    LowerAllTwice(cs, 2);
    MiddleStep(1, l1, b, alpha);
    MiddleStep(2, l2, b1, alpha);
    assert PassesFrom(2, 4, l2, b1, false, alpha) == ([p2] + tail.0, tail.1);
    assert [p1] + ([p2] + tail.0) == [p1, p2] + tail.0;
  }

  /**
   * The schedule of a non-fuzzy thing in closed form, m being the largest
   * sampled modulate channel and a the largest add channel: pass 0 always,
   * with the sampled modulate colours; pass 1 exactly when m exceeds 256
   * and pass 2 exactly when it exceeds 512, each showing what the previous
   * pass left; the additive pass 3 exactly when a is positive; passes 1 to
   * 3 drop Alpha and take Add. Every drawn modulate pass uses up 256 of
   * every modulate channel.
   */
  lemma NonFuzzySchedule(cs: seq<ColorMixer>, trans: real, complexOpacity: bool, noZUpdate: bool)
    ensures var b := BlendFlags(trans, complexOpacity, noZUpdate, false);
      var b1 := b - {Alpha} + {Add};
      Schedule(cs, trans, complexOpacity, noZUpdate, false) ==
        ([Pass(0, b, false, PassColours(cs, false, false), trans)] + MiddleDrawn(cs, b1, trans) +
         (if MulticolMax(cs, true) > 0 then [Pass(3, b1, true, PassColours(cs, false, true), trans)] else []),
         LowerAll(cs, ModulatePasses(cs)))
  {
    FourPasses(cs, BlendFlags(trans, complexOpacity, noZUpdate, false), trans);
  }

  /** How many modulate passes a non-fuzzy thing draws: pass 0, and one more for each 256 its modulate maximum exceeds, up to 3. */
  function ModulatePasses(cs: seq<ColorMixer>): nat {
    var m := MulticolMax(cs, false);
    if m > 512 then 3 else if m > 256 then 2 else 1
  }

  /** The middle passes drawn. */
  function MiddleDrawn(cs: seq<ColorMixer>, b1: set<BlendFlag>, alpha: real): seq<Pass> {
    var m := MulticolMax(cs, false);
    (if m > 256 then [Pass(1, b1, false, PassColours(LowerAll(cs, 1), false, false), alpha)] else []) +
    (if m > 512 then [Pass(2, b1, false, PassColours(LowerAll(cs, 2), false, false), alpha)] else [])
  }

  /** Passes 1 and 2 in terms of the modulate maximum. */
  lemma MiddlePasses(cs: seq<ColorMixer>, b: set<BlendFlag>, b1: set<BlendFlag>, alpha: real)
    requires b1 == b - {Alpha} + {Add}
    ensures var tail := PassesFrom(3, 4, LowerAll(cs, ModulatePasses(cs)), b1, false, alpha);
      PassesFrom(1, 4, LowerAll(cs, 1), b, false, alpha) == (MiddleDrawn(cs, b1, alpha) + tail.0, tail.1)
  {
    var m := MulticolMax(cs, false);
    var p1 := Pass(1, b1, false, PassColours(LowerAll(cs, 1), false, false), alpha);
    var p2 := Pass(2, b1, false, PassColours(LowerAll(cs, 2), false, false), alpha);
    var tail := PassesFrom(3, 4, LowerAll(cs, ModulatePasses(cs)), b1, false, alpha);
    if m > 512 {
      assert MiddleDrawn(cs, b1, alpha) == [p1] + [p2] == [p1, p2];
      TwoMiddlePasses(cs, b, b1, alpha);
    } else if m > 256 {
      assert MiddleDrawn(cs, b1, alpha) == [p1] + [] == [p1];
      OneMiddlePass(cs, b, b1, alpha);
    } else {
      assert MiddleDrawn(cs, b1, alpha) == [] + [] == [];
      NoMiddlePass(cs, b, b1, alpha);
      assert [] + tail.0 == tail.0;
    }
  }

  /** The four candidate passes for initial blending b. */
  lemma FourPasses(cs: seq<ColorMixer>, b: set<BlendFlag>, trans: real)
    ensures var b1 := b - {Alpha} + {Add};
      var a := MulticolMax(cs, true);
      PassesFrom(0, 4, cs, b, false, trans) ==
        ([Pass(0, b, false, PassColours(cs, false, false), trans)] + MiddleDrawn(cs, b1, trans) +
         (if a > 0 then [Pass(3, b1, true, PassColours(cs, false, true), trans)] else []),
         LowerAll(cs, ModulatePasses(cs)))
  {
    var b1 := b - {Alpha} + {Add};
    var a := MulticolMax(cs, true);
    var used := ModulatePasses(cs);
    var low := LowerAll(cs, used);
    var p0 := Pass(0, b, false, PassColours(cs, false, false), trans);
    var mids := MiddleDrawn(cs, b1, trans);
    var last := if a > 0 then [Pass(3, b1, true, PassColours(cs, false, true), trans)] else [];
    var tail := PassesFrom(3, 4, low, b1, false, trans);
    var rest := PassesFrom(1, 4, LowerAll(cs, 1), b, false, trans);
    assert PassesFrom(0, 4, cs, b, false, trans) == ([p0] + rest.0, rest.1) by {
      FirstPass(cs, b, trans);
    }
    assert rest == (mids + tail.0, tail.1) by {
      MiddlePasses(cs, b, b1, trans);
    }
    assert tail == (last, low) by {
      LastPass(low, b1, trans);
      LoweredAddMax(cs, used);
      AddColoursUnchanged(cs, used);
    }
    assert [p0] + (mids + last) == [p0] + mids + last;
  }

  /** A non-fuzzy thing is drawn in one to four passes, always including pass 0. */
  lemma PassCountBounds(cs: seq<ColorMixer>, trans: real, complexOpacity: bool, noZUpdate: bool, fuzzy: bool)
    ensures var passes := Schedule(cs, trans, complexOpacity, noZUpdate, fuzzy).0;
      1 <= |passes| <= (if fuzzy then 1 else 4) && passes[0].index == 0 && !passes[0].additive
  {
    if fuzzy {
      FuzzySchedule(cs, trans, complexOpacity, noZUpdate);
    } else {
      NonFuzzySchedule(cs, trans, complexOpacity, noZUpdate);
    }
  }

  /**
   * Emit one pass: the corner colours of every vertex, and for a plain pass
   * lower every modulate channel by 256 afterwards.
   */
  method EmitPass(colors: array<ColorMixer>, fuzzy: bool, additive: bool) returns (rgb: seq<Rgb>)
    modifies colors
    ensures rgb == PassColours(old(colors[..]), fuzzy, additive)
    ensures colors[..] == AfterPass(old(colors[..]), fuzzy, additive)
  {
    ghost var cs := colors[..];
    rgb := [];
    var v := 0;
    while v < colors.Length
      invariant 0 <= v <= colors.Length
      invariant rgb == PassColours(cs, fuzzy, additive)[..v]
      invariant forall i :: 0 <= i < v ==> colors[i] == AfterPass(cs, fuzzy, additive)[i]
      invariant forall i :: v <= i < colors.Length ==> colors[i] == cs[i]
    {
      var c := colors[v];
      if fuzzy {
        rgb := rgb + [Rgb(0.0, 0.0, 0.0)];
      } else if !additive {
        rgb := rgb + [Rgb(c.modRed as real / 255.0, c.modGreen as real / 255.0, c.modBlue as real / 255.0)];
        colors[v] := c.(modRed := c.modRed - 256, modGreen := c.modGreen - 256, modBlue := c.modBlue - 256);
      } else {
        rgb := rgb + [Rgb(c.addRed as real / 255.0, c.addGreen as real / 255.0, c.addBlue as real / 255.0)];
      }
      v := v + 1;
    }
  }

  /**
   * One iteration of the pass loop: the blending switch at pass 1, the skip
   * test on the corner colours, and the pass drawn when not skipped.
   */
  method RunPass(colors: array<ColorMixer>, pass: nat, numPass: nat, blending: set<BlendFlag>, fuzzy: bool, trans: real)
    returns (emitted: seq<Pass>, blending': set<BlendFlag>)
    requires colors.Length == 4 && pass < numPass
    modifies colors
    ensures PassesFrom(pass, numPass, old(colors[..]), blending, fuzzy, trans) ==
      (emitted + PassesFrom(pass + 1, numPass, colors[..], blending', fuzzy, trans).0,
       PassesFrom(pass + 1, numPass, colors[..], blending', fuzzy, trans).1)
  {
    blending' := blending;
    if pass == 1 {
      blending' := blending' - {Alpha};
      blending' := blending' + {Add};
    }
    var isAdditive := pass > 0 && pass == numPass - 1;
    var skip := false;
    if pass > 0 && pass < numPass - 1 {
      var mx := GetMulticolMaxRGB(colors, 4, false);
      assert colors[..4] == colors[..];
      skip := mx <= 0;
    } else if isAdditive {
      var mx := GetMulticolMaxRGB(colors, 4, true);
      assert colors[..4] == colors[..];
      skip := mx <= 0;
    }
    emitted := [];
    if !skip {
      var rgb := EmitPass(colors, fuzzy, isAdditive);
      emitted := [Pass(pass, blending', isAdditive, rgb, trans)];
    } else {
      assert [] + PassesFrom(pass + 1, numPass, colors[..], blending', fuzzy, trans).0 ==
        PassesFrom(pass + 1, numPass, colors[..], blending', fuzzy, trans).0;
    }
  }

  /**
   * RenderThing's blending and pass loop. A thing of visibility 0 or less
   * draws nothing; otherwise the passes drawn and the mixers afterwards are
   * the schedule's.
   */
  method RenderThing(visibility: real, fuzzy: bool, complexOpacity: bool, noZUpdate: bool, colors: array<ColorMixer>)
    returns (passes: seq<Pass>)
    requires colors.Length == 4
    modifies colors
    ensures visibility <= 0.0 ==> passes == [] && colors[..] == old(colors[..])
    ensures visibility > 0.0 ==>
      (passes, colors[..]) == Schedule(old(colors[..]), visibility, complexOpacity, noZUpdate, fuzzy)
  {
    var trans := visibility;
    passes := [];
    if trans <= 0.0 {
      return;
    }
    var blending := {Masked};
    if trans >= 0.11 && !complexOpacity {
      blending := {Less};
    }
    if trans < 0.99 || complexOpacity {
      blending := blending + {Alpha};
    }
    if noZUpdate {
      blending := blending + {NoZBuffer};
    }
    if fuzzy {
      blending := {Masked, Alpha};
      trans := 1.0;
    }
    var numPass := if fuzzy then 1 else 4;
    passes := RunPasses(colors, numPass, blending, fuzzy, trans);
  }

  /** The pass loop: passes 0 to numPass - 1 from the given initial blending. */
  method RunPasses(colors: array<ColorMixer>, numPass: nat, blending0: set<BlendFlag>, fuzzy: bool, trans: real)
    returns (passes: seq<Pass>)
    requires colors.Length == 4
    modifies colors
    ensures (passes, colors[..]) == PassesFrom(0, numPass, old(colors[..]), blending0, fuzzy, trans)
  {
    ghost var cs := colors[..];
    var blending := blending0;
    passes := [];
    assert [] + PassesFrom(0, numPass, cs, blending, fuzzy, trans).0 == PassesFrom(0, numPass, cs, blending, fuzzy, trans).0;
    var pass := 0;
    while pass < numPass
      invariant 0 <= pass <= numPass
      invariant PassesFrom(0, numPass, cs, blending0, fuzzy, trans) ==
        (passes + PassesFrom(pass, numPass, colors[..], blending, fuzzy, trans).0,
         PassesFrom(pass, numPass, colors[..], blending, fuzzy, trans).1)
    {
      ghost var done, current := passes, PassesFrom(pass, numPass, colors[..], blending, fuzzy, trans);
      var emitted;
      emitted, blending := RunPass(colors, pass, numPass, blending, fuzzy, trans);
      passes := passes + emitted;
      Chain(PassesFrom(0, numPass, cs, blending0, fuzzy, trans), done, emitted, current,
            PassesFrom(pass + 1, numPass, colors[..], blending, fuzzy, trans));
      pass := pass + 1;
    }
    assert passes + [] == passes;
  }

  /** Passes drawn so far, then one more turn's passes, then the rest: the whole schedule. */
  lemma Chain(whole: (seq<Pass>, seq<ColorMixer>), done: seq<Pass>, emitted: seq<Pass>,
              current: (seq<Pass>, seq<ColorMixer>), next: (seq<Pass>, seq<ColorMixer>))
    requires whole == (done + current.0, current.1) && current == (emitted + next.0, next.1)
    ensures whole == ((done + emitted) + next.0, next.1)
  {
    assert done + (emitted + next.0) == (done + emitted) + next.0;
  }

  /**
   * The crosshair's pulsating counter: it climbs from 0 to 31 and back,
   * turning at either end, and the crosshair's brightness is 1 - count/100.
   */
  class CrosshairPulse {
    var count: int
    var dir: int

    ghost predicate Valid()
      reads this
    {
      0 <= count <= 31 && (dir == 1 || dir == -1)
    }

    constructor ()
      ensures Valid() && count == 0 && dir == 1
    {
      count := 0;
      dir := 1;
    }

    /** Advance the counter one frame and return the intensity it gives. */
    method Pulse() returns (intensity: real)
      requires Valid()
      modifies this
      ensures Valid()
      ensures (count, dir) == PulseStep(old(count), old(dir))
      ensures intensity == 1.0 - count as real / 100.0
    {
      if count == 31 {
        dir := -1;
      } else if count == 0 {
        dir := 1;
      }
      count := count + dir;
      intensity := 1.0 - count as real / 100.0;
    }
  }

  /** One step of the counter: turn down at 31, up at 0, then move. */
  function PulseStep(count: int, dir: int): (int, int) {
    var d := if count == 31 then -1 else if count == 0 then 1 else dir;
    (count + d, d)
  }

  /**
   * The counter never leaves 0..31, it moves by exactly one step each
   * frame, and it turns back at the ends; so the brightness stays between
   * 0.69 and 1.
   */
  lemma PulseStaysInRange(count: int, dir: int)
    requires 0 <= count <= 31 && (dir == 1 || dir == -1)
    ensures var (c, d) := PulseStep(count, dir);
      0 <= c <= 31 && (d == 1 || d == -1) && (c == count + 1 || c == count - 1) &&
      (count == 31 ==> c == 30) && (count == 0 ==> c == 1) &&
      0.69 <= 1.0 - c as real / 100.0 <= 1.0
  {
  }
}
