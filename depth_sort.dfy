/**
 * Depth sorting of the things of one draw floor (SortRenderThings in
 * r_things.cc). The things are inserted one by one, in thing-list order,
 * into a binary search tree keyed on depth; each insertion also splices the
 * thing into a doubly linked drawing list next to its tree parent, so the
 * drawing list is always the in-order walk of the tree. Drawing then walks
 * that list from its first element, farthest thing first.
 *
 * The four render links of each draw thing are kept in an array parallel
 * to the draw-thing pool, indexed the same way.
 */
module DepthSort {
  import opened DrawFloors

  /** The tree children and drawing-list neighbours of one draw thing. */
  datatype RenderLinks = RenderLinks(left: int, right: int, previous: int, next: int)

  /**
   * The drawing order: `a` is drawn before `b` when it is farther away, or
   * equally far and its map object has the larger identity (the engine
   * breaks depth ties by the difference of the map-object addresses).
   */
  predicate DrawnBefore(a: DrawThing, b: DrawThing) {
    a.translatedZ > b.translatedZ || (a.translatedZ == b.translatedZ && a.mapObject > b.mapObject)
  }

  /** All entries of `s` index into the pool. */
  predicate InPool(pool: seq<DrawThing>, s: seq<int>) {
    forall i :: 0 <= i < |s| ==> 0 <= s[i] < |pool|
  }

  /** No thing of `s` is to be drawn before one that precedes it. */
  predicate Sorted(pool: seq<DrawThing>, s: seq<int>)
    requires InPool(pool, s)
  {
    forall i, j :: 0 <= i < j < |s| ==> !DrawnBefore(pool[s[j]], pool[s[i]])
  }

  /** Where a linear insertion sort puts `x` into `s`: before the first thing `x` is drawn before. */
  function InsertPos(pool: seq<DrawThing>, s: seq<int>, x: int): (q: nat)
    requires InPool(pool, s) && 0 <= x < |pool|
    ensures q <= |s|
  {
    if |s| == 0 || DrawnBefore(pool[x], pool[s[0]]) then 0 else 1 + InsertPos(pool, s[1..], x)
  }

  /** `x` put into `s` at position q. */
  function InsertAt(s: seq<int>, q: int, x: int): (r: seq<int>)
    requires 0 <= q <= |s|
    ensures |r| == |s| + 1 && multiset(r) == multiset(s) + multiset{x}
    ensures forall i {:trigger r[i]} :: 0 <= i < |r| ==> r[i] == if i < q then s[i] else if i == q then x else s[i - 1]
  {
    assert s == s[..q] + s[q..];
    s[..q] + [x] + s[q..]
  }

  /**
   * The reference drawing order of a thing list: insertion sort in list
   * order, each thing going before the first already sorted thing it is
   * drawn before (so ties keep list order).
   */
  function DepthOrder(pool: seq<DrawThing>, s: seq<int>): (r: seq<int>)
    requires InPool(pool, s)
    ensures |r| == |s| && multiset(r) == multiset(s)
    ensures InPool(pool, r)
  {
    if |s| == 0 then []
    else
      assert s == s[..|s| - 1] + [s[|s| - 1]];
      var sorted := DepthOrder(pool, s[..|s| - 1]);
      InsertAt(sorted, InsertPos(pool, sorted, s[|s| - 1]), s[|s| - 1])
  }

  /**
   * In a sorted list the insertion position splits it: `x` is drawn before
   * exactly the things from the position on.
   */
  lemma {:induction false} InsertPosSplits(pool: seq<DrawThing>, s: seq<int>, x: int)
    requires InPool(pool, s) && 0 <= x < |pool| && Sorted(pool, s)
    ensures forall j :: 0 <= j < InsertPos(pool, s, x) ==> !DrawnBefore(pool[x], pool[s[j]])
    ensures forall j :: InsertPos(pool, s, x) <= j < |s| ==> DrawnBefore(pool[x], pool[s[j]])
    decreases |s|
  {
    if |s| > 0 && !DrawnBefore(pool[x], pool[s[0]]) {
      InsertPosSplits(pool, s[1..], x);
      assert forall j :: 1 <= j < |s| ==> s[j] == s[1..][j - 1];
    }
  }

  /** Conversely, a position that splits the list that way is the insertion position. */
  lemma {:induction false} SplitIsInsertPos(pool: seq<DrawThing>, s: seq<int>, x: int, q: int)
    requires InPool(pool, s) && 0 <= x < |pool| && 0 <= q <= |s|
    requires forall j :: 0 <= j < q ==> !DrawnBefore(pool[x], pool[s[j]])
    requires forall j :: q <= j < |s| ==> DrawnBefore(pool[x], pool[s[j]])
    ensures InsertPos(pool, s, x) == q
    decreases |s|
  {
    if |s| > 0 && q > 0 {
      assert !DrawnBefore(pool[x], pool[s[0]]);
      assert forall j :: 0 <= j < |s| - 1 ==> s[1..][j] == s[j + 1];
      SplitIsInsertPos(pool, s[1..], x, q - 1);
    }
  }

  /** Inserting at the insertion position keeps a list sorted. */
  lemma InsertKeepsSorted(pool: seq<DrawThing>, s: seq<int>, x: int)
    requires InPool(pool, s) && 0 <= x < |pool| && Sorted(pool, s)
    ensures InPool(pool, InsertAt(s, InsertPos(pool, s, x), x))
    ensures Sorted(pool, InsertAt(s, InsertPos(pool, s, x), x))
  {
    var q := InsertPos(pool, s, x);
    InsertPosSplits(pool, s, x);
    SplitKeepsSorted(pool, s, x, q, InsertAt(s, q, x));
  }

  /** Putting `x` at a position that splits a sorted list as the insertion position does keeps it sorted. */
  lemma SplitKeepsSorted(pool: seq<DrawThing>, s: seq<int>, x: int, q: int, r: seq<int>)
    requires InPool(pool, s) && 0 <= x < |pool| && Sorted(pool, s) && 0 <= q <= |s|
    requires forall j :: 0 <= j < q ==> !DrawnBefore(pool[x], pool[s[j]])
    requires forall j :: q <= j < |s| ==> DrawnBefore(pool[x], pool[s[j]])
    requires |r| == |s| + 1
    requires forall i {:trigger r[i]} :: 0 <= i < |r| ==> r[i] == if i < q then s[i] else if i == q then x else s[i - 1]
    ensures InPool(pool, r) && Sorted(pool, r)
  {
    assert InPool(pool, r);
    forall i, j | 0 <= i < j < |r|
      ensures !DrawnBefore(pool[r[j]], pool[r[i]])
    {
      if i == q {
        assert DrawnBefore(pool[x], pool[s[j - 1]]);
      } else if j == q {
        assert !DrawnBefore(pool[x], pool[s[i]]);
      }
    }
  }

  /** The reference drawing order is sorted back to front. */
  lemma {:induction false} DepthOrderSorted(pool: seq<DrawThing>, s: seq<int>)
    requires InPool(pool, s)
    ensures Sorted(pool, DepthOrder(pool, s))
    decreases |s|
  {
    if |s| > 0 {
      DepthOrderSorted(pool, s[..|s| - 1]);
      InsertKeepsSorted(pool, DepthOrder(pool, s[..|s| - 1]), s[|s| - 1]);
    }
  }

  /** Extending the thing list by one thing inserts that thing into the drawing order. */
  lemma DepthOrderStep(pool: seq<DrawThing>, s: seq<int>, k: int)
    requires InPool(pool, s) && 0 <= k < |s|
    ensures InPool(pool, s[..k]) && InPool(pool, s[..k + 1])
    ensures DepthOrder(pool, s[..k + 1]) ==
      var sorted := DepthOrder(pool, s[..k]);
      InsertAt(sorted, InsertPos(pool, sorted, s[k]), s[k])
  {
    assert s[..k + 1][..k] == s[..k];
  }

  // ---------------------------------------------------------------------------
  // The tree and drawing list, described against the current drawing order L.
  // Each node n in L has its subtree occupying positions [lo[n], hi[n]) of L,
  // and pos[n] is its own position.
  // ---------------------------------------------------------------------------

  /** `n` is in the drawing order at the position `pos` records. */
  ghost predicate InOrder(order: seq<int>, pos: seq<int>, n: int) {
    0 <= n < |pos| && 0 <= pos[n] < |order| && order[pos[n]] == n
  }

  /** The left child of the node at position i covers its subtree's positions before i. */
  ghost predicate LeftOK(links: seq<RenderLinks>, order: seq<int>, lo: seq<int>, hi: seq<int>, pos: seq<int>, i: int)
    requires 0 <= i < |order| && 0 <= order[i] < |links| && |lo| == |links| && |hi| == |links| && |pos| == |links|
  {
    var n := order[i];
    var c := links[n].left;
    (c == NoThing <==> lo[n] == i) &&
    (c != NoThing ==> InOrder(order, pos, c) && lo[c] == lo[n] && hi[c] == i)
  }

  /** The right child of the node at position i covers its subtree's positions after i. */
  ghost predicate RightOK(links: seq<RenderLinks>, order: seq<int>, lo: seq<int>, hi: seq<int>, pos: seq<int>, i: int)
    requires 0 <= i < |order| && 0 <= order[i] < |links| && |lo| == |links| && |hi| == |links| && |pos| == |links|
  {
    var n := order[i];
    var c := links[n].right;
    (c == NoThing <==> hi[n] == i + 1) &&
    (c != NoThing ==> InOrder(order, pos, c) && lo[c] == i + 1 && hi[c] == hi[n])
  }

  /** The node at position i has consistent subtree bounds and children. */
  ghost predicate NodeOK(links: seq<RenderLinks>, order: seq<int>, lo: seq<int>, hi: seq<int>, pos: seq<int>, i: int)
    requires 0 <= i < |order| && 0 <= order[i] < |links| && |lo| == |links| && |hi| == |links| && |pos| == |links|
  {
    0 <= lo[order[i]] <= i < hi[order[i]] <= |order| &&
    LeftOK(links, order, lo, hi, pos, i) && RightOK(links, order, lo, hi, pos, i)
  }

  /** The render links form a search tree rooted at `root` whose in-order walk is `order`. */
  ghost predicate Tree(links: seq<RenderLinks>, order: seq<int>, lo: seq<int>, hi: seq<int>, pos: seq<int>, root: int) {
    NodesOK(links, order, lo, hi, pos) && InOrder(order, pos, root) && lo[root] == 0 && hi[root] == |order|
  }

  /** Every node of `order` is where `pos` says and has consistent subtree bounds and children. */
  ghost predicate NodesOK(links: seq<RenderLinks>, order: seq<int>, lo: seq<int>, hi: seq<int>, pos: seq<int>) {
    |lo| == |links| && |hi| == |links| && |pos| == |links| &&
    (forall i :: 0 <= i < |order| ==> 0 <= order[i] < |links| && pos[order[i]] == i) &&
    (forall i :: 0 <= i < |order| ==> NodeOK(links, order, lo, hi, pos, i))
  }

  /** The previous/next render links thread `order` as a doubly linked list. */
  predicate DrawingList(links: seq<RenderLinks>, order: seq<int>) {
    (forall i :: 0 <= i < |order| ==> 0 <= order[i] < |links|) &&
    forall i {:trigger links[order[i]]} :: 0 <= i < |order| ==>
      links[order[i]].previous == (if i > 0 then order[i - 1] else NoThing) &&
      links[order[i]].next == (if i + 1 < |order| then order[i + 1] else NoThing)
  }

  /** The neighbours of the thing at position i of a drawing list. */
  lemma DrawingListAt(links: seq<RenderLinks>, order: seq<int>, i: int)
    requires DrawingList(links, order) && 0 <= i < |order|
    ensures 0 <= order[i] < |links|
    ensures links[order[i]].previous == (if i > 0 then order[i - 1] else NoThing)
    ensures links[order[i]].next == (if i + 1 < |order| then order[i + 1] else NoThing)
  {
  }

  /** Moves a bound or position at or past t up by one. */
  function Shift(b: int, t: int): int {
    if b < t then b else b + 1
  }

  /** The bounds or positions after inserting one node: `curr` gets `v`, everything else is shifted. */
  function Reindex(vs: seq<int>, curr: int, v: int, t: int): (r: seq<int>)
    ensures |r| == |vs|
    ensures forall n :: 0 <= n < |vs| ==> r[n] == if n == curr then v else Shift(vs[n], t)
  {
    seq(|vs|, n requires 0 <= n < |vs| => if n == curr then v else Shift(vs[n], t))
  }

  /**
   * `after` is `before` with `curr` hung below `dt` (on the left when
   * `goLeft`) and spliced into the drawing list just before `dt` (left) or
   * just after it (right).
   */
  ghost predicate Spliced(before: seq<RenderLinks>, after: seq<RenderLinks>, dt: int, curr: int, goLeft: bool)
    requires 0 <= dt < |before| && 0 <= curr < |before|
  {
    var nb := if goLeft then before[dt].previous else before[dt].next;
    |after| == |before| &&
    (if goLeft then
       after[curr] == RenderLinks(NoThing, NoThing, before[dt].previous, dt) &&
       after[dt] == before[dt].(left := curr, previous := curr) &&
       (nb != NoThing ==> 0 <= nb < |before| && after[nb] == before[nb].(next := curr))
     else
       after[curr] == RenderLinks(NoThing, NoThing, dt, before[dt].next) &&
       after[dt] == before[dt].(right := curr, next := curr) &&
       (nb != NoThing ==> 0 <= nb < |before| && after[nb] == before[nb].(previous := curr))) &&
    forall n :: 0 <= n < |before| && n != curr && n != dt && n != nb ==> after[n] == before[n]
  }

  /** `order'` is `order` with `curr` inserted at position q. */
  ghost predicate Grown(order: seq<int>, order': seq<int>, curr: int, q: int) {
    0 <= q <= |order| && |order'| == |order| + 1 && order'[q] == curr &&
    forall j :: 0 <= j < |order| ==> order'[Shift(j, q)] == order[j]
  }

  lemma GrownByInsert(order: seq<int>, curr: int, q: int)
    requires 0 <= q <= |order|
    ensures Grown(order, order[..q] + [curr] + order[q..], curr, q)
  {
  }

  /** The facts shared by the steps of one insertion. */
  ghost predicate StepContext(links: seq<RenderLinks>, order: seq<int>, order': seq<int>, lo: seq<int>, hi: seq<int>,
                              pos: seq<int>, dt: int, curr: int, goLeft: bool)
  {
    |lo| == |links| && |hi| == |links| && |pos| == |links| &&
    (forall j :: 0 <= j < |order| ==> 0 <= order[j] < |links| && pos[order[j]] == j) &&
    0 <= curr < |links| && curr !in order && InOrder(order, pos, dt) &&
    (if goLeft then links[dt].left == NoThing && lo[dt] == pos[dt]
     else links[dt].right == NoThing && hi[dt] == pos[dt] + 1) &&
    Grown(order, order', curr, if goLeft then pos[dt] else pos[dt] + 1)
  }

  /** Nodes already in the order stay in it, at their shifted positions. */
  lemma InOrderStep(links: seq<RenderLinks>, order: seq<int>, order': seq<int>, lo: seq<int>, hi: seq<int>,
                    pos: seq<int>, dt: int, curr: int, goLeft: bool, c: int)
    requires StepContext(links, order, order', lo, hi, pos, dt, curr, goLeft)
    requires InOrder(order, pos, c)
    ensures InOrder(order', Reindex(pos, curr, if goLeft then pos[dt] else pos[dt] + 1, if goLeft then pos[dt] else pos[dt] + 1), c)
  {
    assert c != curr;
  }

  /** The left-child condition of a node already in the tree survives the insertion. */
  lemma LeftStep(links: seq<RenderLinks>, links': seq<RenderLinks>, order: seq<int>, order': seq<int>, lo: seq<int>,
                 hi: seq<int>, pos: seq<int>, dt: int, curr: int, goLeft: bool, i: int)
    requires StepContext(links, order, order', lo, hi, pos, dt, curr, goLeft) && |links'| == |links|
    requires 0 <= i < |order| && 0 <= lo[order[i]] <= i < hi[order[i]] <= |order|
    requires LeftOK(links, order, lo, hi, pos, i)
    requires links'[order[i]].left == if order[i] == dt && goLeft then curr else links[order[i]].left
    ensures
      var p := pos[dt];
      var q := if goLeft then p else p + 1;
      0 <= order'[Shift(i, q)] < |links'| &&
      LeftOK(links', order', Reindex(lo, curr, q, p + 1), Reindex(hi, curr, q + 1, p + 1), Reindex(pos, curr, q, q), Shift(i, q))
  {
    var p := pos[dt];
    var q := if goLeft then p else p + 1;
    var n := order[i];
    assert order'[Shift(i, q)] == n;
    var c := links[n].left;
    if n == dt && goLeft {
      assert i == p;
    } else if c != NoThing {
      InOrderStep(links, order, order', lo, hi, pos, dt, curr, goLeft, c);
    }
  }

  /** The right-child condition of a node already in the tree survives the insertion. */
  lemma RightStep(links: seq<RenderLinks>, links': seq<RenderLinks>, order: seq<int>, order': seq<int>, lo: seq<int>,
                  hi: seq<int>, pos: seq<int>, dt: int, curr: int, goLeft: bool, i: int)
    requires StepContext(links, order, order', lo, hi, pos, dt, curr, goLeft) && |links'| == |links|
    requires 0 <= i < |order| && 0 <= lo[order[i]] <= i < hi[order[i]] <= |order|
    requires RightOK(links, order, lo, hi, pos, i)
    requires links'[order[i]].right == if order[i] == dt && !goLeft then curr else links[order[i]].right
    ensures
      var p := pos[dt];
      var q := if goLeft then p else p + 1;
      0 <= order'[Shift(i, q)] < |links'| &&
      RightOK(links', order', Reindex(lo, curr, q, p + 1), Reindex(hi, curr, q + 1, p + 1), Reindex(pos, curr, q, q), Shift(i, q))
  {
    var p := pos[dt];
    var q := if goLeft then p else p + 1;
    var n := order[i];
    assert order'[Shift(i, q)] == n;
    var c := links[n].right;
    if n == dt && !goLeft {
      assert i == p;
    } else if c != NoThing {
      InOrderStep(links, order, order', lo, hi, pos, dt, curr, goLeft, c);
    }
  }

  /** All conditions of a node already in the tree survive the insertion. */
  lemma NodeStep(links: seq<RenderLinks>, links': seq<RenderLinks>, order: seq<int>, order': seq<int>, lo: seq<int>,
                 hi: seq<int>, pos: seq<int>, dt: int, curr: int, goLeft: bool, i: int)
    requires StepContext(links, order, order', lo, hi, pos, dt, curr, goLeft)
    requires 0 <= dt < |links| && Spliced(links, links', dt, curr, goLeft)
    requires 0 <= i < |order| && NodeOK(links, order, lo, hi, pos, i)
    ensures
      var p := pos[dt];
      var q := if goLeft then p else p + 1;
      var lo', hi', pos' := Reindex(lo, curr, q, p + 1), Reindex(hi, curr, q + 1, p + 1), Reindex(pos, curr, q, q);
      0 <= order'[Shift(i, q)] < |links'| && pos'[order'[Shift(i, q)]] == Shift(i, q) &&
      NodeOK(links', order', lo', hi', pos', Shift(i, q))
  {
    var p := pos[dt];
    var q := if goLeft then p else p + 1;
    var n := order[i];
    assert order'[Shift(i, q)] == n;
    assert n != curr;
    assert links'[n].left == if n == dt && goLeft then curr else links[n].left;
    assert links'[n].right == if n == dt && !goLeft then curr else links[n].right;
    LeftStep(links, links', order, order', lo, hi, pos, dt, curr, goLeft, i);
    RightStep(links, links', order, order', lo, hi, pos, dt, curr, goLeft, i);
  }

  /** The inserted node is a leaf whose subtree is its own position. */
  lemma CurrStep(links: seq<RenderLinks>, links': seq<RenderLinks>, order: seq<int>, order': seq<int>, lo: seq<int>,
                 hi: seq<int>, pos: seq<int>, dt: int, curr: int, goLeft: bool)
    requires StepContext(links, order, order', lo, hi, pos, dt, curr, goLeft)
    requires 0 <= dt < |links| && Spliced(links, links', dt, curr, goLeft)
    ensures
      var p := pos[dt];
      var q := if goLeft then p else p + 1;
      var lo', hi', pos' := Reindex(lo, curr, q, p + 1), Reindex(hi, curr, q + 1, p + 1), Reindex(pos, curr, q, q);
      0 <= order'[q] < |links'| && pos'[order'[q]] == q && NodeOK(links', order', lo', hi', pos', q)
  {
  }

  /** Every position of the grown order holds a node whose conditions hold. */
  lemma TreeNodeAt(links: seq<RenderLinks>, links': seq<RenderLinks>, order: seq<int>, order': seq<int>, lo: seq<int>,
                   hi: seq<int>, pos: seq<int>, dt: int, curr: int, goLeft: bool, i': int)
    requires StepContext(links, order, order', lo, hi, pos, dt, curr, goLeft)
    requires 0 <= dt < |links| && Spliced(links, links', dt, curr, goLeft)
    requires forall i :: 0 <= i < |order| ==> NodeOK(links, order, lo, hi, pos, i)
    requires 0 <= i' < |order'|
    ensures
      var p := pos[dt];
      var q := if goLeft then p else p + 1;
      var lo', hi', pos' := Reindex(lo, curr, q, p + 1), Reindex(hi, curr, q + 1, p + 1), Reindex(pos, curr, q, q);
      0 <= order'[i'] < |links'| && NodeOK(links', order', lo', hi', pos', i')
  {
    var q := if goLeft then pos[dt] else pos[dt] + 1;
    if i' == q {
      CurrStep(links, links', order, order', lo, hi, pos, dt, curr, goLeft);
    } else {
      var i := if i' < q then i' else i' - 1;
      assert Shift(i, q) == i';
      NodeStep(links, links', order, order', lo, hi, pos, dt, curr, goLeft, i);
    }
  }

  /** Every node of the grown order is at the position the new position map records. */
  lemma PositionsStep(links: seq<RenderLinks>, links': seq<RenderLinks>, order: seq<int>, order': seq<int>, lo: seq<int>,
                      hi: seq<int>, pos: seq<int>, dt: int, curr: int, goLeft: bool)
    requires StepContext(links, order, order', lo, hi, pos, dt, curr, goLeft) && |links'| == |links|
    ensures
      var q := if goLeft then pos[dt] else pos[dt] + 1;
      forall i' :: 0 <= i' < |order'| ==> 0 <= order'[i'] < |links'| && Reindex(pos, curr, q, q)[order'[i']] == i'
  {
    var q := if goLeft then pos[dt] else pos[dt] + 1;
    forall i' | 0 <= i' < |order'| ensures 0 <= order'[i'] < |links'| && Reindex(pos, curr, q, q)[order'[i']] == i' {
      if i' != q {
        var i := if i' < q then i' else i' - 1;
        assert Shift(i, q) == i';
        assert order'[i'] == order[i];
      }
    }
  }

  /**
   * Inserting `curr` next to its tree parent `dt` keeps the search tree:
   * `curr` enters the order at position q, and the bounds and positions are
   * shifted around it.
   */
  lemma TreeStep(links: seq<RenderLinks>, links': seq<RenderLinks>, order: seq<int>, lo: seq<int>, hi: seq<int>,
                 pos: seq<int>, root: int, dt: int, curr: int, goLeft: bool,
                 q: int, order': seq<int>, lo': seq<int>, hi': seq<int>, pos': seq<int>)
    requires Tree(links, order, lo, hi, pos, root)
    requires 0 <= curr < |links| && curr !in order && InOrder(order, pos, dt)
    requires if goLeft then links[dt].left == NoThing else links[dt].right == NoThing
    requires Spliced(links, links', dt, curr, goLeft)
    requires q == if goLeft then pos[dt] else pos[dt] + 1
    requires order' == order[..q] + [curr] + order[q..]
    requires lo' == Reindex(lo, curr, q, pos[dt] + 1) && hi' == Reindex(hi, curr, q + 1, pos[dt] + 1)
    requires pos' == Reindex(pos, curr, q, q)
    ensures Tree(links', order', lo', hi', pos', root)
  {
    GrownByInsert(order, curr, q);
    assert NodeOK(links, order, lo, hi, pos, pos[dt]);
    assert StepContext(links, order, order', lo, hi, pos, dt, curr, goLeft);
    assert NodesOK(links', order', lo', hi', pos') by {
      PositionsStep(links, links', order, order', lo, hi, pos, dt, curr, goLeft);
      forall i' | 0 <= i' < |order'| ensures 0 <= order'[i'] < |links'| && NodeOK(links', order', lo', hi', pos', i') {
        TreeNodeAt(links, links', order, order', lo, hi, pos, dt, curr, goLeft, i');
      }
    }
    assert InOrder(order', pos', root) && lo'[root] == 0 && hi'[root] == |order'| by {
      InOrderStep(links, order, order', lo, hi, pos, dt, curr, goLeft, root);
      assert root != curr;
    }
  }

  /** The facts the drawing-list steps of one insertion rely on. */
  ghost predicate ListContext(links: seq<RenderLinks>, links': seq<RenderLinks>, order: seq<int>, order': seq<int>,
                              pos: seq<int>, dt: int, curr: int, goLeft: bool)
  {
    |pos| == |links| &&
    (forall i :: 0 <= i < |order| ==> 0 <= order[i] < |links| && pos[order[i]] == i) &&
    DrawingList(links, order) &&
    0 <= curr < |links| && curr !in order && InOrder(order, pos, dt) &&
    Spliced(links, links', dt, curr, goLeft) &&
    Grown(order, order', curr, if goLeft then pos[dt] else pos[dt] + 1)
  }

  /** A node already in the drawing list keeps correct neighbours after the splice. */
  lemma ListNodeStep(links: seq<RenderLinks>, links': seq<RenderLinks>, order: seq<int>, order': seq<int>,
                     pos: seq<int>, dt: int, curr: int, goLeft: bool, j: int)
    requires ListContext(links, links', order, order', pos, dt, curr, goLeft)
    requires 0 <= j < |order|
    ensures
      var i := Shift(j, if goLeft then pos[dt] else pos[dt] + 1);
      0 <= i < |order'| && 0 <= order'[i] < |links'| &&
      links'[order'[i]].previous == (if i > 0 then order'[i - 1] else NoThing) &&
      links'[order'[i]].next == (if i + 1 < |order'| then order'[i + 1] else NoThing)
  {
    var p := pos[dt];
    var q := if goLeft then p else p + 1;
    var i := Shift(j, q);
    var n := order[j];
    assert order'[i] == n;
    if j > 0 { assert order'[Shift(j - 1, q)] == order[j - 1]; }
    if j + 1 < |order| { assert order'[Shift(j + 1, q)] == order[j + 1]; }
    DrawingListAt(links, order, j);
    DrawingListAt(links, order, p);
    if p > 0 { assert pos[order[p - 1]] == p - 1; }
    if p + 1 < |order| { assert pos[order[p + 1]] == p + 1; }
  }

  /** The spliced node sits between its drawing-list neighbours. */
  lemma ListCurrStep(links: seq<RenderLinks>, links': seq<RenderLinks>, order: seq<int>, order': seq<int>,
                     pos: seq<int>, dt: int, curr: int, goLeft: bool)
    requires ListContext(links, links', order, order', pos, dt, curr, goLeft)
    ensures
      var q := if goLeft then pos[dt] else pos[dt] + 1;
      links'[order'[q]].previous == (if q > 0 then order'[q - 1] else NoThing) &&
      links'[order'[q]].next == (if q + 1 < |order'| then order'[q + 1] else NoThing)
  {
    var p := pos[dt];
    var q := if goLeft then p else p + 1;
    DrawingListAt(links, order, p);
    assert order'[Shift(p, q)] == dt;
    if p > 0 { assert order'[Shift(p - 1, q)] == order[p - 1]; }
    if p + 1 < |order| { assert order'[Shift(p + 1, q)] == order[p + 1]; }
  }

  /** Every position of the grown order has correct drawing-list neighbours. */
  lemma ListAt(links: seq<RenderLinks>, links': seq<RenderLinks>, order: seq<int>, order': seq<int>,
               pos: seq<int>, dt: int, curr: int, goLeft: bool, i: int)
    requires ListContext(links, links', order, order', pos, dt, curr, goLeft)
    requires 0 <= i < |order'|
    ensures 0 <= order'[i] < |links'|
    ensures links'[order'[i]].previous == (if i > 0 then order'[i - 1] else NoThing)
    ensures links'[order'[i]].next == (if i + 1 < |order'| then order'[i + 1] else NoThing)
  {
    var q := if goLeft then pos[dt] else pos[dt] + 1;
    if i == q {
      ListCurrStep(links, links', order, order', pos, dt, curr, goLeft);
    } else {
      var j := if i < q then i else i - 1;
      assert Shift(j, q) == i;
      ListNodeStep(links, links', order, order', pos, dt, curr, goLeft, j);
    }
  }

  /** Splicing `curr` in next to `dt` keeps the drawing list the in-order walk of the grown order. */
  lemma ListStep(links: seq<RenderLinks>, links': seq<RenderLinks>, order: seq<int>, pos: seq<int>,
                 dt: int, curr: int, goLeft: bool)
    requires |pos| == |links|
    requires forall i :: 0 <= i < |order| ==> 0 <= order[i] < |links| && pos[order[i]] == i
    requires DrawingList(links, order)
    requires 0 <= curr < |links| && curr !in order && InOrder(order, pos, dt)
    requires Spliced(links, links', dt, curr, goLeft)
    ensures
      var q := if goLeft then pos[dt] else pos[dt] + 1;
      var order' := order[..q] + [curr] + order[q..];
      (forall i :: 0 <= i < |order'| ==> 0 <= order'[i] < |links'|) && DrawingList(links', order')
  {
    var q := if goLeft then pos[dt] else pos[dt] + 1;
    var order' := order[..q] + [curr] + order[q..];
    GrownByInsert(order, curr, q);
    assert ListContext(links, links', order, order', pos, dt, curr, goLeft);
    forall i | 0 <= i < |order'|
      ensures 0 <= order'[i] < |links'|
      ensures links'[order'[i]].previous == (if i > 0 then order'[i - 1] else NoThing)
      ensures links'[order'[i]].next == (if i + 1 < |order'| then order'[i + 1] else NoThing)
    {
      ListAt(links, links', order, order', pos, dt, curr, goLeft, i);
    }
    assert forall i :: 0 <= i < |order'| ==> 0 <= order'[i] < |links'|;
    assert DrawingList(links', order');
  }

  /**
   * The tree walk of one insertion: starting at the root, go left while
   * `curr` is drawn before the node and right otherwise, until the child on
   * that side is empty. Returns the node `curr` hangs below and the side;
   * the side corresponds to a linear insertion into the drawing order.
   */
  method FindParent(pool: seq<DrawThing>, render: array<RenderLinks>, root: int, curr: int,
                    ghost order: seq<int>, ghost lo: seq<int>, ghost hi: seq<int>, ghost pos: seq<int>)
    returns (dt: int, goLeft: bool)
    requires render.Length == |pool| && 0 <= curr < |pool|
    requires Tree(render[..], order, lo, hi, pos, root)
    requires InPool(pool, order) && Sorted(pool, order)
    ensures InOrder(order, pos, dt)
    ensures goLeft <==> DrawnBefore(pool[curr], pool[dt])
    ensures if goLeft then render[dt].left == NoThing else render[dt].right == NoThing
    ensures InsertPos(pool, order, curr) == if goLeft then pos[dt] else pos[dt] + 1
  {
    dt := root;
    while true
      invariant InOrder(order, pos, dt) && NodeOK(render[..], order, lo, hi, pos, pos[dt])
      invariant forall j :: 0 <= j < lo[dt] ==> !DrawnBefore(pool[curr], pool[order[j]])
      invariant forall j :: hi[dt] <= j < |order| ==> DrawnBefore(pool[curr], pool[order[j]])
      decreases hi[dt] - lo[dt]
    {
      var cmp := pool[dt].translatedZ - pool[curr].translatedZ;
      if cmp == 0.0 {
        cmp := (pool[dt].mapObject - pool[curr].mapObject) as real;
      }
      goLeft := cmp < 0.0;
      var child := if goLeft then render[dt].left else render[dt].right;
      if goLeft {
        forall j | pos[dt] <= j < |order|
          ensures DrawnBefore(pool[curr], pool[order[j]])
        {
          if j > pos[dt] { assert !DrawnBefore(pool[order[j]], pool[order[pos[dt]]]); }
        }
      } else {
        forall j | 0 <= j <= pos[dt]
          ensures !DrawnBefore(pool[curr], pool[order[j]])
        {
          if j < pos[dt] { assert !DrawnBefore(pool[order[pos[dt]]], pool[order[j]]); }
        }
      }
      if child == NoThing {
        SplitIsInsertPos(pool, order, curr, if goLeft then pos[dt] else pos[dt] + 1);
        return;
      }
      assert NodeOK(render[..], order, lo, hi, pos, pos[child]);
      dt := child;
    }
  }

  /** A node is in the drawing order exactly when the position map says so. */
  lemma NotInOrder(pool: seq<DrawThing>, s: seq<int>, k: int, order: seq<int>)
    requires InPool(pool, s) && 0 <= k < |s| && (forall i, j :: 0 <= i < j < |s| ==> s[i] != s[j])
    requires InPool(pool, s[..k]) && multiset(order) == multiset(s[..k])
    ensures s[k] !in order
  {
    assert forall j :: 0 <= j < k ==> s[..k][j] != s[k];
    assert s[k] !in multiset(s[..k]);
  }

  /** Clearing the children of a thing outside the tree changes neither the tree nor the drawing list. */
  lemma ResetKeepsTree(links: seq<RenderLinks>, order: seq<int>, lo: seq<int>, hi: seq<int>, pos: seq<int>,
                       root: int, curr: int)
    requires Tree(links, order, lo, hi, pos, root) && DrawingList(links, order)
    requires 0 <= curr < |links| && curr !in order
    ensures Tree(links[curr := links[curr].(left := NoThing, right := NoThing)], order, lo, hi, pos, root)
    ensures DrawingList(links[curr := links[curr].(left := NoThing, right := NoThing)], order)
  {
    var links' := links[curr := links[curr].(left := NoThing, right := NoThing)];
    forall i | 0 <= i < |order|
      ensures NodeOK(links', order, lo, hi, pos, i)
    {
      assert NodeOK(links, order, lo, hi, pos, i);
      assert links'[order[i]] == links[order[i]];
    }
  }

  /** Hang `curr` as the left child of `dt` and link it into the drawing list just before `dt`. */
  method SpliceBefore(render: array<RenderLinks>, dt: int, curr: int)
    requires 0 <= dt < render.Length && 0 <= curr < render.Length && dt != curr
    requires render[curr].left == NoThing && render[curr].right == NoThing
    requires render[dt].previous == NoThing || (0 <= render[dt].previous < render.Length &&
             render[dt].previous != dt && render[dt].previous != curr)
    modifies render
    ensures Spliced(old(render[..]), render[..], dt, curr, true)
  {
    render[dt] := render[dt].(left := curr);
    var previous := render[dt].previous;
    if previous != NoThing {
      render[previous] := render[previous].(next := curr);
    }
    render[curr] := render[curr].(previous := render[dt].previous, next := dt);
    render[dt] := render[dt].(previous := curr);
  }

  /** Hang `curr` as the right child of `dt` and link it into the drawing list just after `dt`. */
  method SpliceAfter(render: array<RenderLinks>, dt: int, curr: int)
    requires 0 <= dt < render.Length && 0 <= curr < render.Length && dt != curr
    requires render[curr].left == NoThing && render[curr].right == NoThing
    requires render[dt].next == NoThing || (0 <= render[dt].next < render.Length &&
             render[dt].next != dt && render[dt].next != curr)
    modifies render
    ensures Spliced(old(render[..]), render[..], dt, curr, false)
  {
    render[dt] := render[dt].(right := curr);
    var next := render[dt].next;
    if next != NoThing {
      render[next] := render[next].(previous := curr);
    }
    render[curr] := render[curr].(next := render[dt].next, previous := dt);
    render[dt] := render[dt].(next := curr);
  }

  /**
   * One round of the sort: clear the new thing's children, find its tree
   * parent and splice it in on the side the walk ended. The new drawing
   * order is the old one with the thing inserted where a linear insertion
   * sort puts it.
   */
  method InsertThing(pool: seq<DrawThing>, render: array<RenderLinks>, root: int, curr: int,
                     ghost order: seq<int>, ghost lo: seq<int>, ghost hi: seq<int>, ghost pos: seq<int>)
    returns (ghost order': seq<int>, ghost lo': seq<int>, ghost hi': seq<int>, ghost pos': seq<int>)
    requires render.Length == |pool| && 0 <= curr < |pool| && curr !in order
    requires Tree(render[..], order, lo, hi, pos, root) && DrawingList(render[..], order)
    requires InPool(pool, order) && Sorted(pool, order)
    modifies render
    ensures order' == InsertAt(order, InsertPos(pool, order, curr), curr)
    ensures Tree(render[..], order', lo', hi', pos', root) && DrawingList(render[..], order')
  {
    ghost var before := render[..];
    render[curr] := render[curr].(left := NoThing, right := NoThing);
    ResetKeepsTree(before, order, lo, hi, pos, root, curr);
    var dt, goLeft := FindParent(pool, render, root, curr, order, lo, hi, pos);
    ghost var p := pos[dt];
    ghost var q := if goLeft then p else p + 1;
    ghost var cleared := render[..];
    DrawingListAt(cleared, order, p);
    if goLeft {
      SpliceBefore(render, dt, curr);
    } else {
      SpliceAfter(render, dt, curr);
    }
    order' := order[..q] + [curr] + order[q..];
    lo', hi', pos' := Reindex(lo, curr, q, p + 1), Reindex(hi, curr, q + 1, p + 1), Reindex(pos, curr, q, q);
    TreeStep(cleared, render[..], order, lo, hi, pos, root, dt, curr, goLeft, q, order', lo', hi', pos');
    ListStep(cleared, render[..], order, pos, dt, curr, goLeft);
  }

  /** Rewind along the previous links from any thing of the drawing list to its first thing. */
  method FirstToDraw(render: array<RenderLinks>, start: int, ghost order: seq<int>, ghost pos: seq<int>)
    returns (first: int)
    requires |pos| == render.Length
    requires forall i :: 0 <= i < |order| ==> 0 <= order[i] < render.Length && pos[order[i]] == i
    requires DrawingList(render[..], order) && InOrder(order, pos, start)
    ensures |order| > 0 && first == order[0]
  {
    first := start;
    while render[first].previous != NoThing
      invariant InOrder(order, pos, first)
      decreases pos[first]
    {
      DrawingListAt(render[..], order, pos[first]);
      first := render[first].previous;
    }
    DrawingListAt(render[..], order, pos[first]);
  }

  /** Follow the next links from the first thing of the drawing list, collecting the things drawn. */
  method DrawAlong(render: array<RenderLinks>, first: int, ghost order: seq<int>) returns (drawn: seq<int>)
    requires DrawingList(render[..], order)
    requires first == if |order| > 0 then order[0] else NoThing
    ensures drawn == order
  {
    drawn := [];
    var dt := first;
    ghost var j := 0;
    while dt != NoThing
      invariant 0 <= j <= |order|
      invariant dt == if j < |order| then order[j] else NoThing
      invariant drawn == order[..j]
      decreases |order| - j
    {
      DrawingListAt(render[..], order, j);
      drawn := drawn + [dt];
      dt := render[dt].next;
      j := j + 1;
    }
    if j < |order| {
      DrawingListAt(render[..], order, j);
    }
  }

  /** A sequence of n copies of v. */
  function Constant(n: nat, v: int): (r: seq<int>)
    ensures |r| == n && forall i :: 0 <= i < n ==> r[i] == v
  {
    seq(n, _ => v)
  }

  /** A single thing with no links is a tree rooted at itself and a one-thing drawing list. */
  lemma SingleThingTree(links: seq<RenderLinks>, head: int)
    requires 0 <= head < |links| && links[head] == RenderLinks(NoThing, NoThing, NoThing, NoThing)
    ensures Tree(links, [head], Constant(|links|, 0), Constant(|links|, 1), Constant(|links|, 0), head)
    ensures DrawingList(links, [head])
  {
    assert NodeOK(links, [head], Constant(|links|, 0), Constant(|links|, 1), Constant(|links|, 0), 0);
  }

  /**
   * One turn of the sorting loop: insert the k-th thing of the list, whose
   * predecessors are already sorted, and step to the next thing of the list.
   */
  method InsertNext(pool: seq<DrawThing>, render: array<RenderLinks>, head: int, ghost s: seq<int>, ghost k: int,
                    curr: int, ghost order: seq<int>, ghost lo: seq<int>, ghost hi: seq<int>, ghost pos: seq<int>)
    returns (next: int, ghost order': seq<int>, ghost lo': seq<int>, ghost hi': seq<int>, ghost pos': seq<int>)
    requires render.Length == |pool| && IsThingList(pool, head, s)
    requires 1 <= k < |s| && curr == s[k]
    requires InPool(pool, s[..k]) && order == DepthOrder(pool, s[..k])
    requires Tree(render[..], order, lo, hi, pos, head) && DrawingList(render[..], order)
    modifies render
    ensures next == if k + 1 < |s| then s[k + 1] else NoThing
    ensures InPool(pool, s[..k + 1]) && order' == DepthOrder(pool, s[..k + 1])
    ensures Tree(render[..], order', lo', hi', pos', head) && DrawingList(render[..], order')
  {
    NotInOrder(pool, s, k, order);
    DepthOrderSorted(pool, s[..k]);
    DepthOrderStep(pool, s, k);
    ThingListAt(pool, head, s, k);
    next := pool[curr].next;
    order', lo', hi', pos' := InsertThing(pool, render, head, curr, order, lo, hi, pos);
  }

  /**
   * Insert the things of a non-empty thing list one by one, in list order,
   * starting from its head as the root. The resulting drawing order is the
   * reference drawing order of the list.
   */
  method BuildTree(pool: seq<DrawThing>, render: array<RenderLinks>, head: int, ghost s: seq<int>)
    returns (ghost order: seq<int>, ghost lo: seq<int>, ghost hi: seq<int>, ghost pos: seq<int>)
    requires render.Length == |pool|
    requires IsThingList(pool, head, s) && head != NoThing
    modifies render
    ensures InPool(pool, s) && order == DepthOrder(pool, s)
    ensures Tree(render[..], order, lo, hi, pos, head) && DrawingList(render[..], order)
  {
    ThingListAt(pool, head, s, 0);
    render[head] := RenderLinks(NoThing, NoThing, NoThing, NoThing);
    order := [head];
    lo, hi, pos := Constant(render.Length, 0), Constant(render.Length, 1), Constant(render.Length, 0);
    SingleThingTree(render[..], head);
    ghost var k := 1;
    assert s[..1] == [head];
    var curr := pool[head].next;
    while curr != NoThing
      invariant 1 <= k <= |s|
      invariant curr == if k < |s| then s[k] else NoThing
      invariant InPool(pool, s[..k]) && order == DepthOrder(pool, s[..k])
      invariant Tree(render[..], order, lo, hi, pos, head)
      invariant DrawingList(render[..], order)
      decreases |s| - k
    {
      curr, order, lo, hi, pos := InsertNext(pool, render, head, s, k, curr, order, lo, hi, pos);
      k := k + 1;
    }
    assert s[..k] == s;
  }

  /**
   * SortRenderThings: build the tree and drawing list over the floor's
   * thing list and walk the drawing list from its first thing. The things
   * drawn, in order, are the reference drawing order of the thing list, and
   * the render links end up threading exactly that order.
   */
  method SortRenderThings(dfloor: DrawFloor, pool: seq<DrawThing>, render: array<RenderLinks>, ghost s: seq<int>)
    returns (drawn: seq<int>)
    requires render.Length == |pool|
    requires IsThingList(pool, dfloor.things, s)
    modifies render
    ensures InPool(pool, s) && drawn == DepthOrder(pool, s)
    ensures DrawingList(render[..], drawn)
  {
    var head := dfloor.things;
    if head == NoThing {
      return [];
    }
    ghost var order, lo, hi, pos := BuildTree(pool, render, head, s);
    var first := FirstToDraw(render, head, order, pos);
    drawn := DrawAlong(render, first, order);
  }
}
