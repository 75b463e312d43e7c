/**
 * Draw things and draw floors (r_things.cc). Every visible thing of a
 * subsector becomes a draw thing, which is linked at the front of the thing
 * list of the draw floor (vertical region) its middle lies in.
 *
 * The engine's draw things live in a pool and point at each other; here the
 * pool is an array and a pointer is an index into it, with NoThing standing
 * for the null pointer.
 */
module DrawFloors {
  import opened SpriteRotation

  /** The null pointer of the thing lists. */
  const NoThing: int := -1

  /** How a sprite may be cut by the floor and ceiling of its region. */
  datatype VerticalClip = ClipNever | ClipSoft | ClipHard

  /**
   * One visible thing ready for drawing: the map object it shows (an
   * identity standing for the object's address), the chosen image, the
   * depth and vertical extent of the sprite, its clip policy, the region
   * properties it is lit by, and its links in the draw floor's list.
   */
  datatype DrawThing = DrawThing(
    mapObject: int,
    image: ImageRef,
    flip: bool,
    translatedZ: real,
    top: real,
    bottom: real,
    originalTop: real,
    originalBottom: real,
    yClipping: VerticalClip,
    properties: int,
    next: int,
    previous: int)

  /** A vertical region of a subsector, with the head of its thing list. */
  class DrawFloor {
    const topHeight: real
    const properties: int
    var things: int

    constructor (topHeight: real, properties: int)
      ensures this.topHeight == topHeight && this.properties == properties
      ensures things == NoThing
    {
      this.topHeight := topHeight;
      this.properties := properties;
      things := NoThing;
    }
  }

  /**
   * `s` is the thing list that starts at `head`: distinct pool indices,
   * chained forwards by `next` and backwards by `previous`, with NoThing at
   * both ends.
   */
  predicate IsThingList(pool: seq<DrawThing>, head: int, s: seq<int>) {
    (if |s| == 0 then head == NoThing else head == s[0]) &&
    (forall i :: 0 <= i < |s| ==> 0 <= s[i] < |pool|) &&
    (forall i, j :: 0 <= i < j < |s| ==> s[i] != s[j]) &&
    (forall i {:trigger pool[s[i]]} :: 0 <= i < |s| ==> pool[s[i]].next == (if i + 1 < |s| then s[i + 1] else NoThing)) &&
    (forall i {:trigger pool[s[i]]} :: 0 <= i < |s| ==> pool[s[i]].previous == (if i > 0 then s[i - 1] else NoThing))
  }

  /** The links of the thing at position i of a thing list. */
  lemma ThingListAt(pool: seq<DrawThing>, head: int, s: seq<int>, i: int)
    requires IsThingList(pool, head, s) && 0 <= i < |s|
    ensures 0 <= s[i] < |pool|
    ensures pool[s[i]].next == if i + 1 < |s| then s[i + 1] else NoThing
    ensures pool[s[i]].previous == if i > 0 then s[i - 1] else NoThing
  {
  }

  /** Two thing lists share no draw thing. */
  predicate Disjoint(a: seq<int>, b: seq<int>) {
    forall x :: x in a ==> x !in b
  }

  /**
   * The pool after linking thing `t` at the front of the list headed by
   * `head`: `t` takes the floor's properties and points at the old head,
   * and the old head points back at `t`.
   */
  function LinkFront(pool: seq<DrawThing>, head: int, t: int, properties: int): (p: seq<DrawThing>)
    requires 0 <= t < |pool| && (head == NoThing || 0 <= head < |pool|)
    ensures |p| == |pool|
    ensures head != t ==> p[t].next == head && p[t].previous == NoThing && p[t].properties == properties
  {
    var linked := pool[t := pool[t].(properties := properties, next := head, previous := NoThing)];
    if head == NoThing then linked else linked[head := linked[head].(previous := t)]
  }

  /** The draw thing at index n after LinkFront. */
  lemma LinkFrontAt(pool: seq<DrawThing>, head: int, t: int, properties: int, n: int)
    requires 0 <= t < |pool| && (head == NoThing || 0 <= head < |pool|) && head != t && 0 <= n < |pool|
    ensures |LinkFront(pool, head, t, properties)| == |pool|
    ensures LinkFront(pool, head, t, properties)[n] ==
      if n == t then pool[t].(properties := properties, next := head, previous := NoThing)
      else if n == head then pool[n].(previous := t)
      else pool[n]
  {
  }

  /**
   * Linking a thing that is not in the list yields the list with the thing
   * in front; the thing keeps everything but its properties and links, and
   * no draw thing other than the thing and the old head changes.
   */
  lemma LinkFrontPrepends(pool: seq<DrawThing>, head: int, s: seq<int>, t: int, properties: int)
    requires IsThingList(pool, head, s) && 0 <= t < |pool| && t !in s
    ensures IsThingList(LinkFront(pool, head, t, properties), t, [t] + s)
    ensures |LinkFront(pool, head, t, properties)| == |pool|
    ensures LinkFront(pool, head, t, properties)[t] == pool[t].(properties := properties, next := head, previous := NoThing)
    ensures forall n :: 0 <= n < |pool| && n != t && n != head ==> LinkFront(pool, head, t, properties)[n] == pool[n]
  {
    var p := LinkFront(pool, head, t, properties);
    var s' := [t] + s;
    assert head != t by {
      if head != NoThing { assert head == s[0]; }
    }
    LinkFrontAt(pool, head, t, properties, t);
    forall n | 0 <= n < |pool| && n != t && n != head ensures p[n] == pool[n] {
      LinkFrontAt(pool, head, t, properties, n);
    }
    assert forall i :: 0 <= i < |s'| ==> 0 <= s'[i] < |p| by {
      forall i | 0 <= i < |s'| ensures 0 <= s'[i] < |p| {
        if i > 0 { assert s'[i] == s[i - 1]; }
      }
    }
    assert forall i, j :: 0 <= i < j < |s'| ==> s'[i] != s'[j] by {
      forall i, j | 0 <= i < j < |s'| ensures s'[i] != s'[j] {
        assert s'[j] == s[j - 1];
        if i > 0 { assert s'[i] == s[i - 1]; }
        else { assert s'[j] in s; }
      }
    }
    forall i | 0 <= i < |s'| ensures p[s'[i]].next == (if i + 1 < |s'| then s'[i + 1] else NoThing) {
      if i > 0 {
        assert s'[i] == s[i - 1];
        PrependedAt(pool, head, s, t, properties, i);
        if i + 1 < |s'| { assert s'[i + 1] == s[i]; }
      } else if |s| > 0 {
        assert s'[1] == s[0];
      }
    }
    forall i | 0 <= i < |s'| ensures p[s'[i]].previous == (if i > 0 then s'[i - 1] else NoThing) {
      if i > 0 {
        assert s'[i] == s[i - 1];
        PrependedAt(pool, head, s, t, properties, i);
        if i > 1 { assert s'[i - 1] == s[i - 2]; }
      }
    }
    assert IsThingList(p, t, s');
  }

  /** The links of the entry at position i > 0 of the prepended list. */
  lemma PrependedAt(pool: seq<DrawThing>, head: int, s: seq<int>, t: int, properties: int, i: int)
    requires IsThingList(pool, head, s) && 0 <= t < |pool| && t !in s && 0 < i <= |s|
    ensures LinkFront(pool, head, t, properties)[s[i - 1]].next == (if i < |s| then s[i] else NoThing)
    ensures LinkFront(pool, head, t, properties)[s[i - 1]].previous == (if i > 1 then s[i - 2] else t)
  {
    var x := s[i - 1];
    assert head == s[0];
    ThingListAt(pool, head, s, i - 1);
    LinkFrontAt(pool, head, t, properties, x);
    if i > 1 {
      assert x != head;
    }
  }

  /** Linking into one floor leaves the list of a floor that shares no thing with it intact. */
  lemma LinkFrontKeepsOtherList(pool: seq<DrawThing>, head: int, s: seq<int>, t: int, properties: int,
                                otherHead: int, other: seq<int>)
    requires IsThingList(pool, head, s) && 0 <= t < |pool| && t !in s
    requires IsThingList(pool, otherHead, other) && t !in other && Disjoint(s, other)
    ensures IsThingList(LinkFront(pool, head, t, properties), otherHead, other)
  {
    var p := LinkFront(pool, head, t, properties);
    forall i | 0 <= i < |other|
      ensures p[other[i]] == pool[other[i]]
    {
      assert other[i] != t;
      if head != NoThing {
        assert head == s[0] && head in s;
        assert other[i] != head;
      }
    }
    assert forall i :: 0 <= i < |other| ==> pool[other[i]].next == p[other[i]].next;
  }

  /**
   * Floor k is the nominal region for height `z` among floors whose tops
   * are `tops`, ordered bottom to top: every lower floor's top is below
   * `z`, and floor k's top is at or above it unless k is the highest.
   */
  predicate IsNominalRegion(tops: seq<real>, z: real, k: int) {
    0 <= k < |tops| && (forall j :: 0 <= j < k ==> z > tops[j]) && (k == |tops| - 1 || z <= tops[k])
  }

  /** The nominal region as the scan computes it: the first floor whose top is at or above `z`, else the highest. */
  function NominalRegion(tops: seq<real>, z: real): (k: nat)
    requires |tops| > 0
    ensures IsNominalRegion(tops, z, k)
  {
    if |tops| == 1 || z <= tops[0] then 0 else 1 + NominalRegion(tops[1..], z)
  }

  /** The region is uniquely determined: any index with the characteristic property is the one chosen. */
  lemma NominalRegionUnique(tops: seq<real>, z: real, k: int)
    requires IsNominalRegion(tops, z, k)
    ensures NominalRegion(tops, z) == k
  {
  }

  /** The top heights of the floors. */
  function Tops(floors: seq<DrawFloor>): (tops: seq<real>)
    reads set i | 0 <= i < |floors| :: floors[i]
    ensures |tops| == |floors| && forall i :: 0 <= i < |floors| ==> tops[i] == floors[i].topHeight
  {
    seq(|floors|, i requires 0 <= i < |floors| reads floors => floors[i].topHeight)
  }

  /** LinkDrawThingIntoDrawFloor: push the draw thing at the front of the floor's thing list. */
  method LinkDrawThingIntoDrawFloor(dfloor: DrawFloor, pool: array<DrawThing>, t: int)
    requires 0 <= t < pool.Length
    requires dfloor.things == NoThing || 0 <= dfloor.things < pool.Length
    modifies dfloor, pool
    ensures pool[..] == LinkFront(old(pool[..]), old(dfloor.things), t, dfloor.properties)
    ensures dfloor.things == t
  {
    pool[t] := pool[t].(properties := dfloor.properties, next := dfloor.things, previous := NoThing);
    if dfloor.things != NoThing {
      pool[dfloor.things] := pool[dfloor.things].(previous := t);
    }
    dfloor.things := t;
  }

  /** Overwriting a draw thing that is in no list leaves every list intact. */
  lemma OverwriteKeepsList(pool: seq<DrawThing>, head: int, s: seq<int>, t: int, d: DrawThing)
    requires IsThingList(pool, head, s) && 0 <= t < |pool| && t !in s
    ensures IsThingList(pool[t := d], head, s)
  {
    assert forall i :: 0 <= i < |s| ==> pool[t := d][s[i]] == pool[s[i]];
  }

  /** The scan of RendererClipSpriteVertically for the floor whose top is at or above `z`. */
  method FindNominalFloor(floors: seq<DrawFloor>, z: real) returns (k: int)
    requires |floors| > 0
    ensures IsNominalRegion(Tops(floors), z, k)
  {
    k := 0;
    while k < |floors| - 1 && z > floors[k].topHeight
      invariant 0 <= k < |floors|
      invariant forall j :: 0 <= j < k ==> z > floors[j].topHeight
    {
      k := k + 1;
    }
  }

  /** Linking `t` into list k leaves every other list of a family of pairwise disjoint lists intact. */
  lemma LinkFrontKeepsOtherLists(pool: seq<DrawThing>, heads: seq<int>, lists: seq<seq<int>>, k: int, t: int, properties: int)
    requires |heads| == |lists| && 0 <= k < |lists| && 0 <= t < |pool|
    requires forall i :: 0 <= i < |lists| ==> IsThingList(pool, heads[i], lists[i]) && t !in lists[i]
    requires forall i, j :: 0 <= i < j < |lists| ==> Disjoint(lists[i], lists[j])
    ensures heads[k] == NoThing || 0 <= heads[k] < |pool|
    ensures forall i :: 0 <= i < |lists| && i != k ==> IsThingList(LinkFront(pool, heads[k], t, properties), heads[i], lists[i])
  {
    assert IsThingList(pool, heads[k], lists[k]);
    if heads[k] != NoThing {
      assert heads[k] == lists[k][0];
    }
    forall i | 0 <= i < |lists| && i != k
      ensures IsThingList(LinkFront(pool, heads[k], t, properties), heads[i], lists[i])
    {
      if i < k {
        assert Disjoint(lists[i], lists[k]);
        forall x | x in lists[k] ensures x !in lists[i] { }
      } else {
        assert Disjoint(lists[k], lists[i]);
      }
      LinkFrontKeepsOtherList(pool, heads[k], lists[k], t, properties, heads[i], lists[i]);
    }
  }

  /** The heads of the floors' thing lists. */
  function Heads(floors: seq<DrawFloor>): (heads: seq<int>)
    reads set i | 0 <= i < |floors| :: floors[i]
    ensures |heads| == |floors| && forall i :: 0 <= i < |floors| ==> heads[i] == floors[i].things
  {
    seq(|floors|, i requires 0 <= i < |floors| reads floors => floors[i].things)
  }

  /**
   * RendererClipSpriteVertically: find the nominal region of the draw thing
   * from the middle of its vertical extent and link it into that floor.
   * The floors' lists share no thing and do not yet hold `t`; afterwards
   * the chosen floor's list has `t` in front and every other list is as it
   * was.
   */
  method ClipSpriteVertically(floors: seq<DrawFloor>, pool: array<DrawThing>, t: int, ghost lists: seq<seq<int>>)
    returns (k: int)
    requires |floors| > 0 && |lists| == |floors| && 0 <= t < pool.Length
    requires forall i, j :: 0 <= i < j < |floors| ==> floors[i] != floors[j]
    requires forall i :: 0 <= i < |floors| ==> IsThingList(pool[..], floors[i].things, lists[i]) && t !in lists[i]
    requires forall i, j :: 0 <= i < j < |floors| ==> Disjoint(lists[i], lists[j])
    modifies pool, set i | 0 <= i < |floors| :: floors[i]
    ensures 0 <= k < |floors|
    ensures IsNominalRegion(Tops(floors), (old(pool[t].top) + old(pool[t].bottom)) / 2.0, k)
    ensures floors[k].things == t
    ensures forall i :: 0 <= i < |floors| && i != k ==> floors[i].things == old(floors[i].things)
    ensures forall i :: 0 <= i < |floors| ==>
      IsThingList(pool[..], floors[i].things, if i == k then [t] + lists[i] else lists[i])
    ensures pool[t] == old(pool[t]).(properties := floors[k].properties, next := old(floors[k].things), previous := NoThing)
    ensures (old(floors[k].things) == NoThing || 0 <= old(floors[k].things) < pool.Length) &&
      pool[..] == LinkFront(old(pool[..]), old(floors[k].things), t, floors[k].properties)
  {
    k := FindNominalFloor(floors, (pool[t].top + pool[t].bottom) / 2.0);
    ghost var before := pool[..];
    ghost var heads := Heads(floors);
    LinkFrontKeepsOtherLists(before, heads, lists, k, t, floors[k].properties);
    LinkFrontPrepends(before, heads[k], lists[k], t, floors[k].properties);
    LinkDrawThingIntoDrawFloor(floors[k], pool, t);
    assert forall i :: 0 <= i < |floors| && i != k ==> floors[i].things == heads[i];
  }
}
