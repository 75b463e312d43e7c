/**
 * Visiting one map object of a subsector (RendererWalkThing in
 * r_things.cc): decide whether it is seen at all, pick its sprite image,
 * place the sprite vertically, fix sprites that sink into the floor or
 * poke through the ceiling, and link the resulting draw thing into the
 * draw floor its middle lies in.
 *
 * View-space coordinates come in already transformed (the trigonometry of
 * the view and the frame interpolation are inputs), and so does the hover
 * offset of bobbing things.
 */
module ThingWalk {
  import opened Wrappers
  import opened SpriteRotation
  import opened DrawFloors

  /** Things at least this deep are rejected when they lie too far to the side. */
  const MinimumSpriteDistance: real := 4.0

  /** Where a sprite is anchored on its thing. */
  datatype YAlign = TopDown | Middle | BottomUp

  /** The per-frame attributes of a map object the walk reads but does not change. */
  datatype ThingInfo = ThingInfo(
    identity: int,
    visibility: real,
    fuzzy: bool,
    hover: bool,
    floorClip: bool,
    missile: bool,
    special: bool,
    corpse: bool,
    height: real,
    scale: real,
    ceilingZ: real,
    yAlign: YAlign,
    sprite: int,
    frame: Option<SpriteFrame>,
    angle: BamAngle)

  /** A map object: fixed attributes, and the teleport countdown the walk decrements. */
  class MapObject {
    const info: ThingInfo
    var teleportTic: int

    constructor (info: ThingInfo, teleportTic: int)
      ensures this.info == info && this.teleportTic == teleportTic
    {
      this.info := info;
      this.teleportTic := teleportTic;
    }

    /** The post-decrement of the teleport countdown: returns the value before. */
    method CountDownTeleport() returns (before: int)
      modifies this
      ensures before == old(teleportTic) && teleportTic == before - 1
    {
      before := teleportTic;
      teleportTic := teleportTic - 1;
    }
  }

  /**
   * The thing's position relative to the viewer: depth tz and sideways
   * offset tx in view space, its height mz and floor height fz, and the
   * angle from the viewer to it.
   */
  datatype ViewPlacement = ViewPlacement(tz: real, tx: real, mz: real, fz: real, fromView: BamAngle)

  /** The sector the thing stands in: its floor height and its sink and bob depths. */
  datatype SectorDepth = SectorDepth(floorHeight: real, sinkDepth: real, bobDepth: real)

  /** The scaled height and vertical offset of a sprite image. */
  datatype ImageMetrics = ImageMetrics(height: real, topOffset: real)

  /** The vertical extent of a sprite. */
  datatype Extent = Extent(top: real, bottom: real)

  /** The extent after fixing sprites that sit wrongly in the floor or ceiling, with the clip policy. */
  datatype Clipped = Clipped(policy: VerticalClip, top: real, bottom: real)

  function Abs(x: real): real {
    if x < 0.0 then -x else x
  }

  /**
   * The thing is in front of the view plane (or the view clips over a half
   * turn) and, when deep enough, not more than 32 times its depth to the side.
   */
  predicate InView(v: ViewPlacement, clipScopeIs180: bool) {
    (clipScopeIs180 || v.tz > 0.0) && !(v.tz >= MinimumSpriteDistance && Abs(v.tx) / 32.0 > v.tz)
  }

  /** Sink and bob depths apply only to a thing standing within one unit of its sector's floor. */
  function SinkBob(mz: real, sector: SectorDepth): (r: (real, real))
    ensures Abs(mz - sector.floorHeight) < 1.0 ==> r == (sector.sinkDepth, sector.bobDepth)
    ensures Abs(mz - sector.floorHeight) >= 1.0 ==> r == (0.0, 0.0)
  {
    if Abs(mz - sector.floorHeight) < 1.0 then (sector.sinkDepth, sector.bobDepth) else (0.0, 0.0)
  }

  /**
   * The vertical offset of hovering or bobbing things, `hoverDz` being the
   * hover function's value, minus half the thing's height times the sink depth.
   */
  function HoverDelta(info: ThingInfo, sink: real, bob: real, hoverDz: real): real {
    var dz := if info.hover || ((info.special || info.corpse) && bob > 0.0) then hoverDz else 0.0;
    if sink > 0.0 then dz - info.height * 0.5 * sink else dz
  }

  /**
   * The sprite's vertical extent by its alignment: hanging from the top of
   * the thing, centred on its middle, or standing on its base; the image's
   * offset moves it in each case.
   */
  function VerticalExtent(align: YAlign, mz: real, height: real, scale: real, m: ImageMetrics): (e: Extent)
    ensures e.top - e.bottom == m.height * scale
    ensures align == TopDown ==> e.top == mz + height + m.topOffset * scale
    ensures align == Middle ==> e.top + e.bottom == 2.0 * (mz + height * 0.5 + m.topOffset * scale)
    ensures align == BottomUp ==> e.bottom == mz + m.topOffset * scale
  {
    var span := m.height * scale;
    var offset := m.topOffset * scale;
    match align
    case TopDown =>
      var top := mz + height + offset;
      Extent(top, top - span)
    case Middle =>
      var middle := mz + height * 0.5 + offset;
      var dz := span * 0.5;
      Extent(middle + dz, middle - dz)
    case BottomUp =>
      var bottom := mz + offset;
      Extent(bottom + span, bottom)
  }

  /**
   * The clip policy and the floor and ceiling fix: fuzzy things and things
   * hovering without sinking are never clipped; floor-clipped and sinking
   * things are hard clipped; otherwise, unless sprite kludging is on, a
   * sprite below the floor (or else above the ceiling) is hard clipped when
   * it is a missile and moved back into the region when it is not.
   */
  function ClipToRegion(info: ThingInfo, sink: real, spriteKludge: int, fz: real, e: Extent): (c: Clipped)
    ensures c.top - c.bottom == e.top - e.bottom
  {
    if info.fuzzy || (info.hover && sink == 0.0) then Clipped(ClipNever, e.top, e.bottom)
    else if info.floorClip || sink > 0.0 then Clipped(ClipHard, e.top, e.bottom)
    else if spriteKludge == 0 && e.bottom < fz then
      if info.missile then Clipped(ClipHard, e.top, e.bottom)
      else Clipped(ClipSoft, e.top + (fz - e.bottom), fz)
    else if spriteKludge == 0 && e.top > info.ceilingZ then
      if info.missile then Clipped(ClipHard, e.top, e.bottom)
      else Clipped(ClipSoft, info.ceilingZ, e.bottom - (e.top - info.ceilingZ))
    else Clipped(ClipSoft, e.top, e.bottom)
  }

  /**
   * What the fix does: the sprite keeps its height; the policy is Never,
   * Hard or Soft exactly as the flags and the floor and ceiling decide; a
   * soft-clipped sprite that was below the floor now stands on it, one that
   * was above the ceiling now hangs from it, and any other is not moved.
   */
  lemma ClipToRegionCases(info: ThingInfo, sink: real, spriteKludge: int, fz: real, e: Extent)
    ensures var c := ClipToRegion(info, sink, spriteKludge, fz, e);
      (c.policy == ClipNever <==> info.fuzzy || (info.hover && sink == 0.0)) &&
      (c.policy == ClipHard <==>
         (!(info.fuzzy || (info.hover && sink == 0.0)) &&
          (info.floorClip || sink > 0.0 ||
           (spriteKludge == 0 && info.missile && (e.bottom < fz || e.top > info.ceilingZ))))) &&
      (c.policy != ClipSoft ==> c == Clipped(c.policy, e.top, e.bottom)) &&
      (c.policy == ClipSoft && spriteKludge == 0 && e.bottom < fz ==> c.bottom == fz) &&
      (c.policy == ClipSoft && spriteKludge == 0 && e.bottom >= fz && e.top > info.ceilingZ ==> c.top == info.ceilingZ) &&
      (c.policy == ClipSoft && (spriteKludge != 0 || (e.bottom >= fz && e.top <= info.ceilingZ)) ==>
         c == Clipped(ClipSoft, e.top, e.bottom))
  {
  }

  /**
   * The draw thing for the chosen image: its extent is placed by the
   * alignment, moved by the hover offset when the thing hovers, sinks or
   * bobs, and fixed against floor and ceiling; an empty extent gives None.
   */
  function PlaceSprite(info: ThingInfo, v: ViewPlacement, sink: real, bob: real, dz: real, spriteKludge: int,
                       image: ImageRef, flip: bool, m: ImageMetrics, properties: int): (r: Option<DrawThing>)
  {
    var e := VerticalExtent(info.yAlign, v.mz, info.height, info.scale, m);
    var lifted := if info.hover || sink > 0.0 || bob > 0.0 then Extent(e.top + dz, e.bottom + dz) else e;
    var c := ClipToRegion(info, sink, spriteKludge, v.fz, lifted);
    if c.bottom >= c.top then None
    else Some(DrawThing(info.identity, image, flip, v.tz, c.top, c.bottom, c.top, c.bottom, c.policy,
                        properties, NoThing, NoThing))
  }

  /** A sprite is placed exactly when its image has a positive scaled height, and its extent is that height. */
  lemma PlaceSpriteIff(info: ThingInfo, v: ViewPlacement, sink: real, bob: real, dz: real, spriteKludge: int,
                       image: ImageRef, flip: bool, m: ImageMetrics, properties: int)
    ensures var r := PlaceSprite(info, v, sink, bob, dz, spriteKludge, image, flip, m, properties);
      (r.Some? <==> m.height * info.scale > 0.0) &&
      (r.Some? ==>
         r.value.mapObject == info.identity && r.value.image == image && r.value.flip == flip &&
         r.value.translatedZ == v.tz && r.value.top - r.value.bottom == m.height * info.scale &&
         r.value.originalTop == r.value.top && r.value.originalBottom == r.value.bottom &&
         r.value.properties == properties && r.value.next == NoThing && r.value.previous == NoThing)
  {
    var e := VerticalExtent(info.yAlign, v.mz, info.height, info.scale, m);
    var lifted := if info.hover || sink > 0.0 || bob > 0.0 then Extent(e.top + dz, e.bottom + dz) else e;
    assert lifted.top - lifted.bottom == m.height * info.scale;
  }

  /**
   * The draw thing for a map object that got past the camera, visibility
   * and teleport checks, or None when it is not drawn: out of view, no
   * sprite, or an empty extent. `properties` is that of the subsector's
   * lowest floor, `metrics` gives each image's size.
   */
  function PlaceThing(info: ThingInfo, v: ViewPlacement, sector: SectorDepth, clipScopeIs180: bool,
                      spriteKludge: int, hoverDz: real, metrics: ImageRef -> ImageMetrics, properties: int)
    : (r: Option<DrawThing>)
    requires info.frame.Some? ==> ValidFrame(info.frame.value)
  {
    if !InView(v, clipScopeIs180) then None
    else
      var (sink, bob) := SinkBob(v.mz, sector);
      match GetThingSprite(info.sprite, info.frame, v.fromView, info.angle)
      case NoImage => None
      case Chosen(image, flip) =>
        PlaceSprite(info, v, sink, bob, HoverDelta(info, sink, bob, hoverDz), spriteKludge, image, flip,
                    metrics(image), properties)
  }

  /**
   * Exactly when a thing is drawn, and what is drawn: it must be in view,
   * have a sprite, and that image must have a positive scaled height. The
   * draw thing carries the chosen image and flip, the depth, a vertical
   * extent of exactly the scaled image height with original bounds equal to
   * the current ones, and no links yet.
   */
  lemma PlaceThingDrawsIff(info: ThingInfo, v: ViewPlacement, sector: SectorDepth, clipScopeIs180: bool,
                           spriteKludge: int, hoverDz: real, metrics: ImageRef -> ImageMetrics, properties: int)
    requires info.frame.Some? ==> ValidFrame(info.frame.value)
    ensures var r := PlaceThing(info, v, sector, clipScopeIs180, spriteKludge, hoverDz, metrics, properties);
      var choice := GetThingSprite(info.sprite, info.frame, v.fromView, info.angle);
      (r.Some? <==> InView(v, clipScopeIs180) && info.sprite != 0 && metrics(choice.image).height * info.scale > 0.0) &&
      (r.Some? ==>
         r.value.mapObject == info.identity && r.value.image == choice.image && r.value.flip == choice.flip &&
         r.value.translatedZ == v.tz && r.value.top - r.value.bottom == metrics(choice.image).height * info.scale &&
         r.value.originalTop == r.value.top && r.value.originalBottom == r.value.bottom &&
         r.value.properties == properties && r.value.next == NoThing && r.value.previous == NoThing)
  {
    if InView(v, clipScopeIs180) && info.sprite != 0 {
      PlaceThingChosen(info, v, sector, clipScopeIs180, spriteKludge, hoverDz, metrics, properties);
      var choice := GetThingSprite(info.sprite, info.frame, v.fromView, info.angle);
      var sb := SinkBob(v.mz, sector);
      PlaceSpriteIff(info, v, sb.0, sb.1, HoverDelta(info, sb.0, sb.1, hoverDz), spriteKludge, choice.image, choice.flip,
                     metrics(choice.image), properties);
      var r := PlaceThing(info, v, sector, clipScopeIs180, spriteKludge, hoverDz, metrics, properties);
      var ps := PlaceSprite(info, v, sb.0, sb.1, HoverDelta(info, sb.0, sb.1, hoverDz), spriteKludge, choice.image, choice.flip,
                     metrics(choice.image), properties);
      assert r == ps;
      assert r.Some? <==> metrics(choice.image).height * info.scale > 0.0;
    } else {
      assert PlaceThing(info, v, sector, clipScopeIs180, spriteKludge, hoverDz, metrics, properties).None?;
    }
  }

  /** A thing in view with a sprite is placed as its chosen image, after the sink, bob and hover offsets. */
  lemma PlaceThingChosen(info: ThingInfo, v: ViewPlacement, sector: SectorDepth, clipScopeIs180: bool,
                         spriteKludge: int, hoverDz: real, metrics: ImageRef -> ImageMetrics, properties: int)
    requires info.frame.Some? ==> ValidFrame(info.frame.value)
    requires InView(v, clipScopeIs180) && info.sprite != 0
    ensures var choice := GetThingSprite(info.sprite, info.frame, v.fromView, info.angle);
      var sb := SinkBob(v.mz, sector);
      PlaceThing(info, v, sector, clipScopeIs180, spriteKludge, hoverDz, metrics, properties) ==
      PlaceSprite(info, v, sb.0, sb.1, HoverDelta(info, sb.0, sb.1, hoverDz), spriteKludge, choice.image, choice.flip,
                  metrics(choice.image), properties)
  {
  }

  /** A thing standing on the floor of a non-sinking sector with sprite kludging off is never drawn below that floor. */
  lemma SoftClippedThingsStandOnTheFloor(info: ThingInfo, v: ViewPlacement, sector: SectorDepth, clipScopeIs180: bool,
                                         hoverDz: real, metrics: ImageRef -> ImageMetrics, properties: int)
    requires info.frame.Some? ==> ValidFrame(info.frame.value)
    requires PlaceThing(info, v, sector, clipScopeIs180, 0, hoverDz, metrics, properties).Some?
    requires PlaceThing(info, v, sector, clipScopeIs180, 0, hoverDz, metrics, properties).value.yClipping == ClipSoft
    ensures PlaceThing(info, v, sector, clipScopeIs180, 0, hoverDz, metrics, properties).value.bottom >= v.fz ||
            PlaceThing(info, v, sector, clipScopeIs180, 0, hoverDz, metrics, properties).value.top == info.ceilingZ
  {
    var (sink, bob) := SinkBob(v.mz, sector);
    var choice := GetThingSprite(info.sprite, info.frame, v.fromView, info.angle);
    var m := metrics(choice.image);
    var e := VerticalExtent(info.yAlign, v.mz, info.height, info.scale, m);
    var dz := HoverDelta(info, sink, bob, hoverDz);
    var lifted := if info.hover || sink > 0.0 || bob > 0.0 then Extent(e.top + dz, e.bottom + dz) else e;
    ClipToRegionCases(info, sink, 0, v.fz, lifted);
  }

  /** A thing a unit or more off its sector's floor is placed as if the sector neither sank nor bobbed. */
  lemma FarFromFloorIgnoresSinkBob(info: ThingInfo, v: ViewPlacement, sector: SectorDepth, clipScopeIs180: bool,
                                   spriteKludge: int, hoverDz: real, metrics: ImageRef -> ImageMetrics, properties: int)
    requires info.frame.Some? ==> ValidFrame(info.frame.value)
    requires Abs(v.mz - sector.floorHeight) >= 1.0
    ensures PlaceThing(info, v, sector, clipScopeIs180, spriteKludge, hoverDz, metrics, properties) ==
            PlaceThing(info, v, sector.(sinkDepth := 0.0, bobDepth := 0.0), clipScopeIs180, spriteKludge, hoverDz,
                       metrics, properties)
  {
    assert SinkBob(v.mz, sector) == SinkBob(v.mz, sector.(sinkDepth := 0.0, bobDepth := 0.0));
  }

  /**
   * A thing standing on the floor of a sinking sector is hard clipped,
   * unless it is fuzzy, and is drawn lower by half its height times the
   * sink depth than the same thing would be without sinking.
   */
  lemma SinkingThingsAreHardClipped(info: ThingInfo, v: ViewPlacement, sector: SectorDepth, clipScopeIs180: bool,
                                    spriteKludge: int, hoverDz: real, metrics: ImageRef -> ImageMetrics, properties: int)
    requires info.frame.Some? ==> ValidFrame(info.frame.value)
    requires Abs(v.mz - sector.floorHeight) < 1.0 && sector.sinkDepth > 0.0 && !info.fuzzy
    requires PlaceThing(info, v, sector, clipScopeIs180, spriteKludge, hoverDz, metrics, properties).Some?
    ensures var d := PlaceThing(info, v, sector, clipScopeIs180, spriteKludge, hoverDz, metrics, properties).value;
      var choice := GetThingSprite(info.sprite, info.frame, v.fromView, info.angle);
      var e := VerticalExtent(info.yAlign, v.mz, info.height, info.scale, metrics(choice.image));
      var bobDz := HoverDelta(info, 0.0, sector.bobDepth, hoverDz);
      d.yClipping == ClipHard && d.top == e.top + bobDz - info.height * 0.5 * sector.sinkDepth
  {
    assert InView(v, clipScopeIs180) && info.sprite != 0;
    PlaceThingChosen(info, v, sector, clipScopeIs180, spriteKludge, hoverDz, metrics, properties);
  }

  /**
   * Store a placed draw thing in pool slot `t` and link it into its nominal
   * region, as the walk does with every thing it places.
   */
  method StorePlaced(floors: seq<DrawFloor>, pool: array<DrawThing>, t: int, d: DrawThing, ghost lists: seq<seq<int>>)
    returns (k: int)
    requires |floors| > 0 && |lists| == |floors| && 0 <= t < pool.Length
    requires forall i, j :: 0 <= i < j < |floors| ==> floors[i] != floors[j]
    requires forall i :: 0 <= i < |floors| ==> IsThingList(pool[..], floors[i].things, lists[i]) && t !in lists[i]
    requires forall i, j :: 0 <= i < j < |floors| ==> Disjoint(lists[i], lists[j])
    modifies pool, set i | 0 <= i < |floors| :: floors[i]
    ensures IsNominalRegion(Tops(floors), (d.top + d.bottom) / 2.0, k)
    ensures 0 <= k < |floors|
    ensures pool[t] == d.(properties := floors[k].properties, next := old(floors[k].things), previous := NoThing)
    ensures (old(floors[k].things) == NoThing || 0 <= old(floors[k].things) < pool.Length) &&
      pool[..] == LinkFront(old(pool[..])[t := d], old(floors[k].things), t, floors[k].properties)
    ensures floors[k].things == t
    ensures forall i :: 0 <= i < |floors| && i != k ==> floors[i].things == old(floors[i].things)
    ensures forall i :: 0 <= i < |floors| ==>
      IsThingList(pool[..], floors[i].things, if i == k then [t] + lists[i] else lists[i])
  {
    ghost var before := pool[..];
    pool[t] := d;
    assert pool[..] == before[t := d];
    forall i | 0 <= i < |floors| ensures IsThingList(before[t := d], floors[i].things, lists[i]) {
      OverwriteKeepsList(before, floors[i].things, lists[i], t, d);
    }
    k := ClipSpriteVertically(floors, pool, t, lists);
  }

  /**
   * The part of RendererWalkThing after the camera, visibility and teleport
   * checks: place the thing and, when it is drawn, store and link it.
   */
  method WalkPlacedThing(info: ThingInfo, v: ViewPlacement, sector: SectorDepth, clipScopeIs180: bool,
                         spriteKludge: int, hoverDz: real, metrics: ImageRef -> ImageMetrics,
                         floors: seq<DrawFloor>, pool: array<DrawThing>, t: int, ghost lists: seq<seq<int>>)
    returns (region: Option<nat>)
    requires info.frame.Some? ==> ValidFrame(info.frame.value)
    requires |floors| > 0 && |lists| == |floors| && 0 <= t < pool.Length
    requires forall i, j :: 0 <= i < j < |floors| ==> floors[i] != floors[j]
    requires forall i :: 0 <= i < |floors| ==> IsThingList(pool[..], floors[i].things, lists[i]) && t !in lists[i]
    requires forall i, j :: 0 <= i < j < |floors| ==> Disjoint(lists[i], lists[j])
    modifies pool, set i | 0 <= i < |floors| :: floors[i]
    ensures var placed := PlaceThing(info, v, sector, clipScopeIs180, spriteKludge, hoverDz, metrics, floors[0].properties);
      region.Some? <==> placed.Some?
    ensures region.None? ==>
      (pool[..] == old(pool[..]) && forall i :: 0 <= i < |floors| ==> floors[i].things == old(floors[i].things))
    ensures region.Some? ==>
      var placed := PlaceThing(info, v, sector, clipScopeIs180, spriteKludge, hoverDz, metrics, floors[0].properties);
      var k := region.value;
      k < |floors| && IsNominalRegion(Tops(floors), (placed.value.top + placed.value.bottom) / 2.0, k) &&
      pool[t] == placed.value.(properties := floors[k].properties, next := old(floors[k].things)) &&
      (old(floors[k].things) == NoThing || 0 <= old(floors[k].things) < pool.Length) &&
      pool[..] == LinkFront(old(pool[..])[t := placed.value], old(floors[k].things), t, floors[k].properties) &&
      floors[k].things == t &&
      (forall i :: 0 <= i < |floors| && i != k ==> floors[i].things == old(floors[i].things)) &&
      (forall i :: 0 <= i < |floors| ==>
         IsThingList(pool[..], floors[i].things, if i == k then [t] + lists[i] else lists[i]))
  {
    var placed := PlaceThing(info, v, sector, clipScopeIs180, spriteKludge, hoverDz, metrics, floors[0].properties);
    if placed.None? {
      return None;
    }
    PlaceThingDrawsIff(info, v, sector, clipScopeIs180, spriteKludge, hoverDz, metrics, floors[0].properties);
    var k := StorePlaced(floors, pool, t, placed.value, lists);
    region := Some(k);
  }

  /**
   * RendererWalkThing. The camera and invisible things are skipped without
   * touching the teleport countdown; every other thing has it decremented,
   * and is skipped while it was still positive. A thing that is then placed
   * is written to pool slot `t` (the next free draw thing) and linked into
   * its nominal region; `region` says which, or None when nothing is drawn.
   */
  method RendererWalkThing(mo: MapObject, isCamera: bool, v: ViewPlacement, sector: SectorDepth, clipScopeIs180: bool,
                           spriteKludge: int, hoverDz: real, metrics: ImageRef -> ImageMetrics,
                           floors: seq<DrawFloor>, pool: array<DrawThing>, t: int, ghost lists: seq<seq<int>>)
    returns (region: Option<nat>)
    requires mo.info.frame.Some? ==> ValidFrame(mo.info.frame.value)
    requires |floors| > 0 && |lists| == |floors| && 0 <= t < pool.Length
    requires forall i, j :: 0 <= i < j < |floors| ==> floors[i] != floors[j]
    requires forall i :: 0 <= i < |floors| ==> IsThingList(pool[..], floors[i].things, lists[i]) && t !in lists[i]
    requires forall i, j :: 0 <= i < j < |floors| ==> Disjoint(lists[i], lists[j])
    modifies mo, pool, set i | 0 <= i < |floors| :: floors[i]
    ensures mo.teleportTic == if isCamera || mo.info.visibility == 0.0 then old(mo.teleportTic) else old(mo.teleportTic) - 1
    ensures var placed := PlaceThing(mo.info, v, sector, clipScopeIs180, spriteKludge, hoverDz, metrics, floors[0].properties);
      region.Some? <==> !isCamera && mo.info.visibility != 0.0 && old(mo.teleportTic) <= 0 && placed.Some?
    ensures region.None? ==>
      (pool[..] == old(pool[..]) && forall i :: 0 <= i < |floors| ==> floors[i].things == old(floors[i].things))
    ensures region.Some? ==>
      var placed := PlaceThing(mo.info, v, sector, clipScopeIs180, spriteKludge, hoverDz, metrics, floors[0].properties);
      var k := region.value;
      k < |floors| && IsNominalRegion(Tops(floors), (placed.value.top + placed.value.bottom) / 2.0, k) &&
      pool[t] == placed.value.(properties := floors[k].properties, next := old(floors[k].things)) &&
      (old(floors[k].things) == NoThing || 0 <= old(floors[k].things) < pool.Length) &&
      pool[..] == LinkFront(old(pool[..])[t := placed.value], old(floors[k].things), t, floors[k].properties) &&
      floors[k].things == t &&
      (forall i :: 0 <= i < |floors| && i != k ==> floors[i].things == old(floors[i].things)) &&
      (forall i :: 0 <= i < |floors| ==>
         IsThingList(pool[..], floors[i].things, if i == k then [t] + lists[i] else lists[i]))
  {
    if isCamera || mo.info.visibility == 0.0 {
      return None;
    }
    var tic := mo.CountDownTeleport();
    if tic > 0 {
      return None;
    }
    region := WalkPlacedThing(mo.info, v, sector, clipScopeIs180, spriteKludge, hoverDz, metrics, floors, pool, t, lists);
  }
}
