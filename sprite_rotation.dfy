/**
 * Sprite frame resolution (r_things.cc): which rotated image of a sprite
 * frame is drawn for a thing, given the direction from the viewer to the
 * thing and the direction the thing faces.
 *
 * Angles are binary angle measures (BAM): unsigned 32-bit integers where a
 * full turn is 2^32, so every sum and difference wraps modulo 2^32.
 */
module SpriteRotation {
  import opened Wrappers

  const AngleModulus: int := 0x1_0000_0000
  const Angle45: int := 0x2000_0000
  const Angle180: int := 0x8000_0000

  /** An unsigned 32-bit binary angle. */
  newtype BamAngle = x: int | 0 <= x < 0x1_0000_0000

  /**
   * Unsigned 32-bit wrap-around of the sum or difference of two or three
   * angles, which is never more than one turn out of range.
   */
  function Wrap(x: int): (a: BamAngle)
    requires -AngleModulus <= x < 2 * AngleModulus
    ensures a as int == x || a as int == x + AngleModulus || a as int == x - AngleModulus
  {
    if x < 0 then (x + AngleModulus) as BamAngle
    else if x < AngleModulus then x as BamAngle
    else (x - AngleModulus) as BamAngle
  }

  /** A reference to an image: the placeholder drawn for missing assets, or a real image. */
  datatype ImageRef = DummySprite | Picture(id: nat)

  /**
   * A sprite frame: its rotation count and, for each of the 16 rotation
   * slots, an optional image and a flip flag.
   */
  datatype SpriteFrame = SpriteFrame(rotations: int, images: seq<Option<nat>>, flips: seq<bool>)

  /** The slot arrays of a frame hold 16 entries. */
  predicate ValidFrame(f: SpriteFrame) {
    |f.images| == 16 && |f.flips| == 16
  }

  /** What the resolver hands back: no image at all, or an image and whether it is mirrored. */
  datatype SpriteChoice = NoImage | Chosen(image: ImageRef, flip: bool)

  /** The thing's facing measured from the viewer: from_view - angle + 180 degrees, wrapped. */
  function ViewRelativeAngle(fromView: BamAngle, angle: BamAngle): BamAngle {
    Wrap(fromView as int - angle as int + Angle180)
  }

  /**
   * The rotation slot of a frame. Frames with fewer than 8 rotations always
   * use slot 0; 16-rotation frames quantise into buckets of 22.5 degrees
   * (half a bucket of rounding, then the top 4 bits), all others into
   * buckets of 45 degrees (the top 3 bits).
   */
  function RotationSlot(rotations: int, fromView: BamAngle, angle: BamAngle): (rot: nat)
    ensures rot < 16
    ensures rotations < 8 ==> rot == 0
    ensures rotations != 16 ==> rot < 8
  {
    if rotations < 8 then 0
    else
      var ang := ViewRelativeAngle(fromView, angle);
      if rotations == 16 then Wrap(ang as int + Angle45 / 4) as int / 0x1000_0000
      else Wrap(ang as int + Angle45 / 2) as int / 0x2000_0000
  }

  /**
   * RendererGetThingSprite2: sprite 0 has no image; a missing frame, or a
   * missing image in the chosen slot, gives the dummy sprite unflipped;
   * otherwise the slot's image with the slot's flip flag.
   */
  function GetThingSprite(sprite: int, frame: Option<SpriteFrame>, fromView: BamAngle, angle: BamAngle): (c: SpriteChoice)
    requires frame.Some? ==> ValidFrame(frame.value)
    ensures c.NoImage? <==> sprite == 0
    ensures sprite != 0 && frame.None? ==> c == Chosen(DummySprite, false)
    ensures sprite != 0 && frame.Some? ==>
      var rot := RotationSlot(frame.value.rotations, fromView, angle);
      c == if frame.value.images[rot].None? then Chosen(DummySprite, false)
           else Chosen(Picture(frame.value.images[rot].value), frame.value.flips[rot])
  {
    if sprite == 0 then NoImage
    else match frame
      case None => Chosen(DummySprite, false)
      case Some(f) =>
        var rot := RotationSlot(f.rotations, fromView, angle);
        if f.images[rot].None? then Chosen(DummySprite, false)
        else Chosen(Picture(f.images[rot].value), f.flips[rot])
  }

  /** GetOtherSprite: like the thing resolver but always slot 0 (weapons, finale pictures). */
  function GetOtherSprite(sprite: int, frame: Option<SpriteFrame>): (c: SpriteChoice)
    requires frame.Some? ==> ValidFrame(frame.value)
    ensures c.NoImage? <==> sprite == 0
    ensures sprite != 0 && (frame.None? || frame.value.images[0].None?) ==> c == Chosen(DummySprite, false)
    ensures sprite != 0 && frame.Some? && frame.value.images[0].Some? ==>
      c == Chosen(Picture(frame.value.images[0].value), frame.value.flips[0])
  {
    if sprite == 0 then NoImage
    else if frame.None? || frame.value.images[0].None? then Chosen(DummySprite, false)
    else Chosen(Picture(frame.value.images[0].value), frame.value.flips[0])
  }

  /** The dummy sprite is never mirrored. */
  lemma DummyIsNeverFlipped(sprite: int, frame: Option<SpriteFrame>, fromView: BamAngle, angle: BamAngle)
    requires frame.Some? ==> ValidFrame(frame.value)
    ensures GetThingSprite(sprite, frame, fromView, angle).Chosen? &&
            GetThingSprite(sprite, frame, fromView, angle).image == DummySprite ==>
            !GetThingSprite(sprite, frame, fromView, angle).flip
    ensures GetOtherSprite(sprite, frame).Chosen? && GetOtherSprite(sprite, frame).image == DummySprite ==>
            !GetOtherSprite(sprite, frame).flip
  {
  }

  /** For frames without directional rotations both resolvers agree, whatever the angles. */
  lemma NonDirectionalFramesIgnoreAngles(sprite: int, f: SpriteFrame, fromView: BamAngle, angle: BamAngle)
    requires ValidFrame(f) && f.rotations < 8
    ensures GetThingSprite(sprite, Some(f), fromView, angle) == GetOtherSprite(sprite, Some(f))
  {
  }

  /** A thing that faces the viewer (its angle is from_view + 180 degrees) shows its front, slot 0. */
  lemma FacingViewerShowsFront(rotations: int, fromView: BamAngle)
    ensures RotationSlot(rotations, fromView, Wrap(fromView as int + Angle180)) == 0
  {
    var a := Wrap(fromView as int + Angle180);
    if rotations >= 8 {
      assert ViewRelativeAngle(fromView, a) == 0 by {
        var d := fromView as int - a as int + Angle180;
        assert a as int == fromView as int + Angle180 || a as int == fromView as int + Angle180 - AngleModulus;
        assert d == 0 || d == AngleModulus;
      }
    }
  }

  /**
   * Turning a 16-rotation thing by one bucket (22.5 degrees clockwise, that
   * is, subtracting from its angle) moves the chosen slot on by exactly one,
   * wrapping from 15 back to 0: the quantisation has no gaps and no overlaps.
   */
  lemma Turn16MovesOneSlot(fromView: BamAngle, angle: BamAngle)
    ensures RotationSlot(16, fromView, Wrap(angle as int - Angle45 / 2)) ==
            (RotationSlot(16, fromView, angle) + 1) % 16
  {
    var w := 0x1000_0000;
    var ang := ViewRelativeAngle(fromView, angle);
    TurnAddsToViewAngle(fromView, angle, w);
    var x := Wrap(ang as int + w / 2) as int;
    var x2 := Wrap(Wrap(ang as int + w) as int + w / 2) as int;
    WrapShift(ang as int, w, w / 2);
    assert x2 == Wrap(x + w) as int;
    WrapCases(x + w);
    if x + w < AngleModulus {
      DivShift16(x);
    } else {
      DivWrap16(x);
    }
  }

  /** Turning an 8-rotation thing by 45 degrees moves the chosen slot on by one, wrapping from 7 to 0. */
  lemma Turn8MovesOneSlot(rotations: int, fromView: BamAngle, angle: BamAngle)
    requires rotations >= 8 && rotations != 16
    ensures RotationSlot(rotations, fromView, Wrap(angle as int - Angle45)) ==
            (RotationSlot(rotations, fromView, angle) + 1) % 8
  {
    var w := 0x2000_0000;
    var ang := ViewRelativeAngle(fromView, angle);
    TurnAddsToViewAngle(fromView, angle, w);
    var x := Wrap(ang as int + w / 2) as int;
    var x2 := Wrap(Wrap(ang as int + w) as int + w / 2) as int;
    WrapShift(ang as int, w, w / 2);
    assert x2 == Wrap(x + w) as int;
    WrapCases(x + w);
    if x + w < AngleModulus {
      DivShift8(x);
    } else {
      DivWrap8(x);
    }
  }

  /** Wrapping an intermediate result that is at most one turn out of range. */
  lemma WrapCases(x: int)
    requires -AngleModulus <= x < 2 * AngleModulus
    ensures Wrap(x) as int == if x < 0 then x + AngleModulus else if x < AngleModulus then x else x - AngleModulus
  {
  }

  /** Wrapping commutes with adding in two steps. */
  lemma WrapShift(a: int, b: int, c: int)
    requires 0 <= a < AngleModulus && 0 <= b < AngleModulus && 0 <= c < AngleModulus
    ensures Wrap(Wrap(a + b) as int + c) == Wrap(Wrap(a + c) as int + b)
  {
    WrapCases(a + b);
    WrapCases(a + c);
    WrapCases(Wrap(a + b) as int + c);
    WrapCases(Wrap(a + c) as int + b);
  }

  /** Subtracting w from the thing's angle adds w to the view-relative angle. */
  lemma TurnAddsToViewAngle(fromView: BamAngle, angle: BamAngle, w: int)
    requires 0 <= w < AngleModulus
    ensures ViewRelativeAngle(fromView, Wrap(angle as int - w)) == Wrap(ViewRelativeAngle(fromView, angle) as int + w)
  {
    var turned := Wrap(angle as int - w);
    WrapCases(angle as int - w);
    WrapCases(fromView as int - angle as int + Angle180);
    WrapCases(fromView as int - turned as int + Angle180);
    WrapCases(ViewRelativeAngle(fromView, angle) as int + w);
  }

  lemma DivShift16(x: int)
    requires 0 <= x < AngleModulus - 0x1000_0000
    ensures (x + 0x1000_0000) / 0x1000_0000 == x / 0x1000_0000 + 1
    ensures x / 0x1000_0000 < 15
  {
  }

  lemma DivWrap16(x: int)
    requires AngleModulus - 0x1000_0000 <= x < AngleModulus
    ensures x / 0x1000_0000 == 15 && (x + 0x1000_0000 - AngleModulus) / 0x1000_0000 == 0
  {
  }

  lemma DivWrap8(x: int)
    requires AngleModulus - 0x2000_0000 <= x < AngleModulus
    ensures x / 0x2000_0000 == 7 && (x + 0x2000_0000 - AngleModulus) / 0x2000_0000 == 0
  {
  }

  lemma DivShift8(x: int)
    requires 0 <= x < AngleModulus - 0x2000_0000
    ensures (x + 0x2000_0000) / 0x2000_0000 == x / 0x2000_0000 + 1
    ensures x / 0x2000_0000 < 7
  {
  }
}
