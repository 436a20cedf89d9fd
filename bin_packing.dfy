// `BinPackingService.pack` of apps/api/src/services/ops/binPackingService.js:
// first-fit-decreasing 3D packing with guillotine splitting of free spaces.
// Dimensions and weights are JavaScript numbers, modelled as reals; the
// "could not fit" warning is returned as the list of unplaced items.

module BinPacking {
  import opened Seqs

  datatype Item = Item(id: string, width: real, height: real, depth: real, weight: real)
  datatype Bin = Bin(id: string, width: real, height: real, depth: real, maxWeight: real)

  /** A free space, or the box an item occupies: origin and extent. */
  datatype Space = Space(x: real, y: real, z: real, w: real, h: real, d: real)

  datatype Placement = Placement(item: Item, x: real, y: real, z: real)

  /** A bin instance: the bin's fields plus what is packed in it. */
  datatype BinState = BinState(bin: Bin, packedItems: seq<Placement>, currentWeight: real, spaces: seq<Space>)

  function ItemVolume(i: Item): real { i.width * i.height * i.depth }
  function BinVolume(b: Bin): real { b.width * b.height * b.depth }

  // ---- the two stable sorts (on copies of the inputs) ----

  /** Stable insertion by descending key: x, the earliest element, goes
      before the first element whose key does not exceed its own. */
  function InsertBy<T(==)>(x: T, sorted: seq<T>, key: T -> real): (r: seq<T>)
    ensures multiset(r) == multiset(sorted) + multiset{x}
  {
    if sorted == [] || key(sorted[0]) <= key(x) then [x] + sorted
    else
      assert sorted == [sorted[0]] + sorted[1..];
      [sorted[0]] + InsertBy(x, sorted[1..], key)
  }

  /** A stable sort by descending key. */
  function SortBy<T(==)>(xs: seq<T>, key: T -> real): (r: seq<T>)
    ensures multiset(r) == multiset(xs)
  {
    if xs == [] then []
    else
      assert xs == [xs[0]] + xs[1..];
      InsertBy(xs[0], SortBy(xs[1..], key), key)
  }

  predicate Descending<T>(xs: seq<T>, key: T -> real) {
    forall i, j :: 0 <= i < j < |xs| ==> key(xs[i]) >= key(xs[j])
  }

  lemma {:induction false} InsertByOrdered<T>(x: T, sorted: seq<T>, key: T -> real)
    requires Descending(sorted, key)
    ensures Descending(InsertBy(x, sorted, key), key)
  {
    if !(sorted == [] || key(sorted[0]) <= key(x)) {
      InsertByOrdered(x, sorted[1..], key);
      var r := InsertBy(x, sorted[1..], key);
      forall i | 0 <= i < |r| ensures key(sorted[0]) >= key(r[i]) {
        assert r[i] in multiset(sorted[1..]) + multiset{x};
        if r[i] != x {
          assert r[i] in sorted[1..];
        }
      }
    }
  }

  lemma {:induction false} SortByOrdered<T>(xs: seq<T>, key: T -> real)
    ensures Descending(SortBy(xs, key), key)
  {
    if xs != [] {
      SortByOrdered(xs[1..], key);
      InsertByOrdered(xs[0], SortBy(xs[1..], key), key);
    }
  }

  function NegBinVolume(b: Bin): real { -BinVolume(b) }

  /** `[...items].sort((a, b) => vol(b) - vol(a))` */
  function SortItems(items: seq<Item>): seq<Item> {
    SortBy(items, ItemVolume)
  }

  /** `[...bins].sort((a, b) => vol(a) - vol(b))`: descending by the
      negated volume, which keeps ties in input order just the same. */
  function SortBins(bins: seq<Bin>): seq<Bin> {
    SortBy(bins, NegBinVolume)
  }

  /** Items are tried largest volume first, bins smallest first; both are
      permutations of the inputs. */
  lemma {:induction false} SortOrders(items: seq<Item>, bins: seq<Bin>)
    ensures multiset(SortItems(items)) == multiset(items) && multiset(SortBins(bins)) == multiset(bins)
    ensures var r := SortItems(items);
      forall i, j :: 0 <= i < j < |r| ==> ItemVolume(r[i]) >= ItemVolume(r[j])
    ensures var r := SortBins(bins);
      forall i, j :: 0 <= i < j < |r| ==> BinVolume(r[i]) <= BinVolume(r[j])
  {
    SortByOrdered(items, ItemVolume);
    SortByOrdered(bins, NegBinVolume);
    var r := SortBins(bins);
    forall i, j | 0 <= i < j < |r| ensures BinVolume(r[i]) <= BinVolume(r[j]) {
      assert NegBinVolume(r[i]) >= NegBinVolume(r[j]);
    }
  }

  // ---- placing one item ----

  /** An empty bin instance: one free space, the whole bin. */
  function Fresh(b: Bin): BinState {
    BinState(b, [], 0.0, [Space(0.0, 0.0, 0.0, b.width, b.height, b.depth)])
  }

  /** The item fits the space in its own orientation. */
  predicate Fits(item: Item, s: Space) {
    item.width <= s.w && item.height <= s.h && item.depth <= s.d
  }

  /** The first free space the item fits, or |spaces|. */
  function FitIndex(spaces: seq<Space>, item: Item): (k: nat)
    ensures k <= |spaces|
    ensures k < |spaces| ==> Fits(item, spaces[k])
    ensures forall j :: 0 <= j < k ==> !Fits(item, spaces[j])
  {
    if spaces == [] then 0 else if Fits(item, spaces[0]) then 0 else 1 + FitIndex(spaces[1..], item)
  }

  /** The right, top and front remainders of a space once the item sits at
      its origin; only the non-empty ones are kept. */
  function Remainders(s: Space, item: Item): (r: seq<Space>)
    ensures |r| <= 3
  {
    (if s.w - item.width > 0.0 then [Space(s.x + item.width, s.y, s.z, s.w - item.width, s.h, s.d)] else [])
    + (if s.h - item.height > 0.0 then [Space(s.x, s.y + item.height, s.z, item.width, s.h - item.height, s.d)] else [])
    + (if s.d - item.depth > 0.0 then [Space(s.x, s.y, s.z + item.depth, item.width, item.height, s.d - item.depth)] else [])
  }

  /** Placing the item in space i: it goes at the space's origin, the
      weight grows by its weight, and the space is spliced out for its
      remainders. */
  function PlaceAt(st: BinState, i: nat, item: Item): BinState
    requires i < |st.spaces|
  {
    var s := st.spaces[i];
    BinState(st.bin, st.packedItems + [Placement(item, s.x, s.y, s.z)], st.currentWeight + item.weight,
             st.spaces[..i] + Remainders(s, item) + st.spaces[i + 1..])
  }

  /** The bin accepts the item: the weight limit holds and some space fits. */
  predicate CanTake(st: BinState, item: Item) {
    !(st.currentWeight + item.weight > st.bin.maxWeight) && FitIndex(st.spaces, item) < |st.spaces|
  }

  /** The first bin that accepts the item, or |states|. */
  function FirstBin(states: seq<BinState>, item: Item): (k: nat)
    ensures k <= |states|
    ensures k < |states| ==> CanTake(states[k], item)
    ensures forall j :: 0 <= j < k ==> !CanTake(states[j], item)
  {
    if states == [] then 0 else if CanTake(states[0], item) then 0 else 1 + FirstBin(states[1..], item)
  }

  /** Trying one item: the bins afterwards, and whether it was placed. */
  function Step(states: seq<BinState>, item: Item): (seq<BinState>, bool) {
    var k := FirstBin(states, item);
    if k < |states| then (states[k := PlaceAt(states[k], FitIndex(states[k].spaces, item), item)], true)
    else (states, false)
  }

  /** The bins and the unplaced items after the first n sorted items. */
  function PackUpTo(init: seq<BinState>, items: seq<Item>, n: nat): (r: (seq<BinState>, seq<Item>))
    requires n <= |items|
    ensures |r.0| == |init|
  {
    if n == 0 then (init, []) else Advance(PackUpTo(init, items, n - 1), items[n - 1])
  }

  /** Trying one more item; an item no bin takes joins the unplaced ones. */
  function Advance(acc: (seq<BinState>, seq<Item>), item: Item): (r: (seq<BinState>, seq<Item>))
    ensures |r.0| == |acc.0|
  {
    var (next, placed) := Step(acc.0, item);
    (next, if placed then acc.1 else acc.1 + [item])
  }

  /** `currentBinInstances.filter(b => b.packedItems.length > 0)` */
  function NonEmpty(states: seq<BinState>): seq<BinState>
    decreases |states|
  {
    if states == [] then []
    else (if states[0].packedItems != [] then [states[0]] else []) + NonEmpty(states[1..])
  }

  /** `pack`, as a function of the inputs. */
  function Packing(items: seq<Item>, bins: seq<Bin>): (seq<BinState>, seq<Item>) {
    var sorted := SortItems(items);
    var r := PackUpTo(MapSeq(Fresh, SortBins(bins)), sorted, |sorted|);
    (NonEmpty(r.0), r.1)
  }

  // ---- the imperative packer ----

  /** Lines 37-109 for one bin: the weight check, then the first fitting
      space. */
  method TryBin(bin: BinState, item: Item) returns (after: BinState, placed: bool)
    ensures placed == CanTake(bin, item)
    ensures after == if placed then PlaceAt(bin, FitIndex(bin.spaces, item), item) else bin
  {
    after := bin;
    placed := false;
    if bin.currentWeight + item.weight > bin.bin.maxWeight {
      return;
    }
    var i := 0;
    while i < |bin.spaces|
      invariant 0 <= i <= |bin.spaces|
      invariant forall j :: 0 <= j < i ==> !Fits(item, bin.spaces[j])
    {
      var space := bin.spaces[i];
      if item.width <= space.w && item.height <= space.h && item.depth <= space.d {
        var newSpaces: seq<Space> := [];
        if space.w - item.width > 0.0 {
          newSpaces := newSpaces + [Space(space.x + item.width, space.y, space.z, space.w - item.width, space.h, space.d)];
        }
        if space.h - item.height > 0.0 {
          newSpaces := newSpaces + [Space(space.x, space.y + item.height, space.z, item.width, space.h - item.height, space.d)];
        }
        if space.d - item.depth > 0.0 {
          newSpaces := newSpaces + [Space(space.x, space.y, space.z + item.depth, item.width, item.height, space.d - item.depth)];
        }
        assert newSpaces == Remainders(space, item);
        after := BinState(bin.bin, bin.packedItems + [Placement(item, space.x, space.y, space.z)],
                          bin.currentWeight + item.weight, bin.spaces[..i] + newSpaces + bin.spaces[i + 1..]);
        placed := true;
        FitIndexFirst(bin.spaces, item, i);
        return;
      }
      i := i + 1;
    }
    FitIndexNone(bin.spaces, item);
  }

  lemma {:induction false} FitIndexFirst(spaces: seq<Space>, item: Item, i: nat)
    requires i < |spaces| && Fits(item, spaces[i])
    requires forall j :: 0 <= j < i ==> !Fits(item, spaces[j])
    ensures FitIndex(spaces, item) == i
  {
    var k := FitIndex(spaces, item);
    if k < i {
    } else if k > i {
    }
  }

  lemma {:induction false} FitIndexNone(spaces: seq<Space>, item: Item)
    requires forall j :: 0 <= j < |spaces| ==> !Fits(item, spaces[j])
    ensures FitIndex(spaces, item) == |spaces|
  {
  }

  lemma {:induction false} FirstBinFirst(states: seq<BinState>, item: Item, b: nat)
    requires b < |states| && CanTake(states[b], item)
    requires forall j :: 0 <= j < b ==> !CanTake(states[j], item)
    ensures FirstBin(states, item) == b
  {
  }

  /** Lines 36-111 for one item: the first bin that takes it. */
  method PlaceItem(current: seq<BinState>, item: Item) returns (next: seq<BinState>, placed: bool)
    ensures (next, placed) == Step(current, item)
  {
    next := current;
    placed := false;
    var b := 0;
    while b < |current|
      invariant 0 <= b <= |current|
      invariant forall j :: 0 <= j < b ==> !CanTake(current[j], item)
    {
      var after, ok := TryBin(current[b], item);
      if ok {
        FirstBinFirst(current, item, b);
        next := current[b := after];
        placed := true;
        return;
      }
      b := b + 1;
    }
  }

  /** `pack`: the unplaced items stand for the warnings it logs. */
  method Pack(items: seq<Item>, bins: seq<Bin>) returns (packed: seq<BinState>, unplaced: seq<Item>)
    ensures (packed, unplaced) == Packing(items, bins)
  {
    var sortedItems := SortItems(items);
    var sortedBins := SortBins(bins);
    var init := MapSeq(Fresh, sortedBins);
    var current := init;
    unplaced := [];
    for n := 0 to |sortedItems|
      invariant (current, unplaced) == PackUpTo(init, sortedItems, n)
    {
      var item := sortedItems[n];
      var next, placed := PlaceItem(current, item);
      current := next;
      if !placed {
        unplaced := unplaced + [item];
      }
    }
    packed := NonEmpty(current);
  }

  // ---- what a packing guarantees ----

  /** The item's box at its placement. */
  function BoxOf(p: Placement): Space {
    Space(p.x, p.y, p.z, p.item.width, p.item.height, p.item.depth)
  }

  function BinBox(b: Bin): Space { Space(0.0, 0.0, 0.0, b.width, b.height, b.depth) }

  /** Two boxes are separated along some axis. */
  predicate Disjoint(a: Space, b: Space) {
    a.x + a.w <= b.x || b.x + b.w <= a.x || a.y + a.h <= b.y || b.y + b.h <= a.y
    || a.z + a.d <= b.z || b.z + b.d <= a.z
  }

  predicate Inside(a: Space, s: Space) {
    s.x <= a.x && a.x + a.w <= s.x + s.w && s.y <= a.y && a.y + a.h <= s.y + s.h
    && s.z <= a.z && a.z + a.d <= s.z + s.d
  }

  predicate Pairwise(ss: seq<Space>) {
    forall i, j :: 0 <= i < j < |ss| ==> Disjoint(ss[i], ss[j])
  }

  predicate Cross(a: seq<Space>, b: seq<Space>) {
    forall i, j :: 0 <= i < |a| && 0 <= j < |b| ==> Disjoint(a[i], b[j])
  }

  predicate AllInside(ss: seq<Space>, s: Space) {
    forall i :: 0 <= i < |ss| ==> Inside(ss[i], s)
  }

  /** A bin instance whose free spaces and packed boxes lie inside the bin
      and never overlap one another. */
  predicate Sound(st: BinState) {
    var boxes := MapSeq(BoxOf, st.packedItems);
    AllInside(st.spaces, BinBox(st.bin)) && AllInside(boxes, BinBox(st.bin))
    && Pairwise(st.spaces) && Pairwise(boxes) && Cross(st.spaces, boxes)
  }

  predicate NonNegative(item: Item) {
    item.width >= 0.0 && item.height >= 0.0 && item.depth >= 0.0
  }

  lemma {:induction false} FreshSound(b: Bin)
    ensures Sound(Fresh(b))
  {
    assert MapSeq(BoxOf, []) == [];
  }

  lemma InsideDisjoint(a: Space, s: Space, t: Space)
    requires Inside(a, s) && Disjoint(s, t)
    ensures Disjoint(a, t) && Disjoint(t, a)
  {
  }

  /** The remainders and the item's box lie inside the used space and are
      pairwise disjoint. */
  lemma {:induction false} RemaindersSound(s: Space, item: Item)
    requires Fits(item, s) && NonNegative(item)
    ensures var box := BoxOf(Placement(item, s.x, s.y, s.z));
      var r := Remainders(s, item);
      Inside(box, s) && AllInside(r, s) && Pairwise(r)
      && forall i :: 0 <= i < |r| ==> Disjoint(r[i], box)
  {
  }

  /** Splicing parts that lie inside s[i] and are disjoint from one another
      in place of s[i] keeps a family pairwise disjoint. */
  lemma {:induction false} SplicePairwise(s: seq<Space>, i: nat, parts: seq<Space>)
    requires i < |s| && Pairwise(s) && Pairwise(parts) && AllInside(parts, s[i])
    ensures Pairwise(s[..i] + parts + s[i + 1..])
  {
    var t := s[..i] + parts + s[i + 1..];
    var n := |parts|;
    forall a, b | 0 <= a < b < |t| ensures Disjoint(t[a], t[b]) {
      if a < i {
        if b < i {
          assert t[a] == s[a] && t[b] == s[b];
        } else if b < i + n {
          assert t[a] == s[a] && t[b] == parts[b - i];
          InsideDisjoint(parts[b - i], s[i], s[a]);
        } else {
          assert t[a] == s[a] && t[b] == s[b - n + 1];
        }
      } else if a < i + n {
        if b < i + n {
          assert t[a] == parts[a - i] && t[b] == parts[b - i];
        } else {
          assert t[a] == parts[a - i] && t[b] == s[b - n + 1];
          InsideDisjoint(parts[a - i], s[i], s[b - n + 1]);
        }
      } else {
        assert t[a] == s[a - n + 1] && t[b] == s[b - n + 1];
      }
    }
  }

  /** After the splice, every free space is still disjoint from every
      packed box, including the new one. */
  lemma {:induction false} SpliceCross(s: seq<Space>, i: nat, parts: seq<Space>, boxes: seq<Space>, box: Space)
    requires i < |s| && Pairwise(s) && Cross(s, boxes) && AllInside(parts, s[i]) && Inside(box, s[i])
    requires forall k :: 0 <= k < |parts| ==> Disjoint(parts[k], box)
    ensures Cross(s[..i] + parts + s[i + 1..], boxes + [box])
  {
    var t := s[..i] + parts + s[i + 1..];
    var n := |parts|;
    var bs := boxes + [box];
    forall a, b | 0 <= a < |t| && 0 <= b < |bs| ensures Disjoint(t[a], bs[b]) {
      if a < i {
        assert t[a] == s[a];
        if b == |boxes| {
          InsideDisjoint(box, s[i], s[a]);
        } else {
          assert bs[b] == boxes[b];
        }
      } else if a < i + n {
        assert t[a] == parts[a - i];
        if b < |boxes| {
          assert bs[b] == boxes[b];
          InsideDisjoint(parts[a - i], s[i], boxes[b]);
        }
      } else {
        assert t[a] == s[a - n + 1];
        if b == |boxes| {
          InsideDisjoint(box, s[i], s[a - n + 1]);
        } else {
          assert bs[b] == boxes[b];
        }
      }
    }
  }

  /** A new box inside a space that is disjoint from every packed box keeps
      all packed boxes pairwise disjoint. */
  lemma {:induction false} AppendBox(s: seq<Space>, i: nat, boxes: seq<Space>, box: Space)
    requires i < |s| && Cross(s, boxes) && Pairwise(boxes) && Inside(box, s[i])
    ensures Pairwise(boxes + [box])
  {
    var bs := boxes + [box];
    forall a, b | 0 <= a < b < |bs| ensures Disjoint(bs[a], bs[b]) {
      assert bs[a] == boxes[a];
      if b == |boxes| {
        InsideDisjoint(box, s[i], boxes[a]);
      } else {
        assert bs[b] == boxes[b];
      }
    }
  }

  /** Placing a non-negative item in a space it fits keeps the bin sound. */
  lemma {:induction false} PlaceAtSound(st: BinState, i: nat, item: Item)
    requires Sound(st) && i < |st.spaces| && Fits(item, st.spaces[i]) && NonNegative(item)
    ensures Sound(PlaceAt(st, i, item))
  {
    var s := st.spaces[i];
    var p := Placement(item, s.x, s.y, s.z);
    var box := BoxOf(p);
    var r := Remainders(s, item);
    var boxes := MapSeq(BoxOf, st.packedItems);
    RemaindersSound(s, item);
    assert (st.packedItems + [p])[..|st.packedItems|] == st.packedItems;
    assert MapSeq(BoxOf, st.packedItems + [p]) == boxes + [box];
    SplicePairwise(st.spaces, i, r);
    SpliceCross(st.spaces, i, r, boxes, box);
    AppendBox(st.spaces, i, boxes, box);
    var t := st.spaces[..i] + r + st.spaces[i + 1..];
    var bb := BinBox(st.bin);
    forall a | 0 <= a < |t| ensures Inside(t[a], bb) {
      if a < i {
        assert t[a] == st.spaces[a];
      } else if a < i + |r| {
        assert t[a] == r[a - i];
      } else {
        assert t[a] == st.spaces[a - |r| + 1];
      }
    }
    forall a | 0 <= a < |boxes| + 1 ensures Inside((boxes + [box])[a], bb) {
      if a < |boxes| {
        assert (boxes + [box])[a] == boxes[a];
      }
    }
  }

  /** The weight of what is packed in a bin. */
  function WeightSum(ps: seq<Placement>): real
    decreases |ps|
  {
    if ps == [] then 0.0 else WeightSum(ps[..|ps| - 1]) + ps[|ps| - 1].item.weight
  }

  /** A bin's weight is the sum of its items and, once it holds anything,
      does not exceed the bin's maxWeight. */
  predicate WeightOk(st: BinState) {
    st.currentWeight == WeightSum(st.packedItems)
    && (st.packedItems != [] ==> st.currentWeight <= st.bin.maxWeight)
  }

  lemma {:induction false} PlaceAtWeight(st: BinState, i: nat, item: Item)
    requires WeightOk(st) && i < |st.spaces| && !(st.currentWeight + item.weight > st.bin.maxWeight)
    ensures WeightOk(PlaceAt(st, i, item))
  {
    var ps := PlaceAt(st, i, item).packedItems;
    assert ps[..|ps| - 1] == st.packedItems;
  }

  /** Every bin instance is sound and within its weight limit. */
  ghost predicate AllGood(states: seq<BinState>) {
    forall k :: 0 <= k < |states| ==> Sound(states[k]) && WeightOk(states[k])
  }

  lemma {:induction false} StepGood(states: seq<BinState>, item: Item)
    requires AllGood(states) && NonNegative(item)
    ensures AllGood(Step(states, item).0)
  {
    var k := FirstBin(states, item);
    if k < |states| {
      var i := FitIndex(states[k].spaces, item);
      PlaceAtSound(states[k], i, item);
      PlaceAtWeight(states[k], i, item);
    }
  }

  lemma {:induction false} PackUpToGood(init: seq<BinState>, items: seq<Item>, n: nat)
    requires n <= |items| && AllGood(init)
    requires forall i :: 0 <= i < |items| ==> NonNegative(items[i])
    ensures AllGood(PackUpTo(init, items, n).0)
  {
    if n > 0 {
      PackUpToGood(init, items, n - 1);
      StepGood(PackUpTo(init, items, n - 1).0, items[n - 1]);
    }
  }

  lemma {:induction false} FreshGood(bins: seq<Bin>)
    ensures AllGood(MapSeq(Fresh, bins))
  {
    forall k | 0 <= k < |bins| ensures Sound(MapSeq(Fresh, bins)[k]) && WeightOk(MapSeq(Fresh, bins)[k]) {
      MapSeqAt(Fresh, bins, k);
      FreshSound(bins[k]);
    }
  }

  /** `filter` keeps exactly the bins that hold an item, in order. */
  lemma {:induction false} NonEmptySpec(states: seq<BinState>, x: BinState)
    ensures x in NonEmpty(states) <==> x in states && x.packedItems != []
    decreases |states|
  {
    if states != [] {
      NonEmptySpec(states[1..], x);
      assert x in states <==> x == states[0] || x in states[1..];
    }
  }

  /** Every returned bin holds an item, keeps its packed weight within its
      maxWeight, and has its free spaces and packed boxes inside the bin and
      pairwise disjoint (for items of non-negative size). */
  lemma {:induction false} PackingSound(items: seq<Item>, bins: seq<Bin>, x: BinState)
    requires forall i :: 0 <= i < |items| ==> NonNegative(items[i])
    requires x in Packing(items, bins).0
    ensures x.packedItems != [] && x.currentWeight <= x.bin.maxWeight
    ensures Sound(x) && x.currentWeight == WeightSum(x.packedItems)
  {
    var sorted := SortItems(items);
    forall i | 0 <= i < |sorted| ensures NonNegative(sorted[i]) {
      assert sorted[i] in multiset(items);
    }
    var init := MapSeq(Fresh, SortBins(bins));
    FreshGood(SortBins(bins));
    PackUpToGood(init, sorted, |sorted|);
    var states := PackUpTo(init, sorted, |sorted|).0;
    NonEmptySpec(states, x);
    var k :| 0 <= k < |states| && states[k] == x;
  }

  /** First fit: an item is placed exactly when some bin accepts it; it
      then goes into the first such bin, at the origin of that bin's first
      space that fits it, and no other bin changes. */
  lemma {:induction false} StepSpec(states: seq<BinState>, item: Item)
    ensures var (next, placed) := Step(states, item);
      && (placed <==> exists k :: 0 <= k < |states| && CanTake(states[k], item))
      && (!placed ==> next == states)
      && (placed ==>
            var k := FirstBin(states, item);
            var s := states[k].spaces[FitIndex(states[k].spaces, item)];
            && Fits(item, s)
            && next[k].packedItems == states[k].packedItems + [Placement(item, s.x, s.y, s.z)]
            && next[k].currentWeight == states[k].currentWeight + item.weight <= states[k].bin.maxWeight
            && |next| == |states| && forall j :: 0 <= j < |states| && j != k ==> next[j] == states[j])
  {
  }

  /** How often item x is packed in a list of placements. */
  function CountIn(ps: seq<Placement>, x: Item): nat
    decreases |ps|
  {
    if ps == [] then 0 else CountIn(ps[..|ps| - 1], x) + if ps[|ps| - 1].item == x then 1 else 0
  }

  /** How often item x is packed across all bin instances. */
  function Count(states: seq<BinState>, x: Item): nat
    decreases |states|
  {
    if states == [] then 0 else Count(states[..|states| - 1], x) + CountIn(states[|states| - 1].packedItems, x)
  }

  lemma {:induction false} CountUpdate(states: seq<BinState>, k: nat, v: BinState, x: Item)
    requires k < |states|
    ensures Count(states[k := v], x) + CountIn(states[k].packedItems, x) == Count(states, x) + CountIn(v.packedItems, x)
    decreases |states|
  {
    var n := |states| - 1;
    var t := states[k := v];
    if k < n {
      CountUpdate(states[..n], k, v, x);
      assert t[..n] == states[..n][k := v];
    } else {
      assert t[..n] == states[..n];
    }
  }

  lemma {:induction false} StepCount(states: seq<BinState>, item: Item, x: Item)
    ensures Count(Step(states, item).0, x) == Count(states, x) + if Step(states, item).1 && item == x then 1 else 0
  {
    var k := FirstBin(states, item);
    if k < |states| {
      var v := PlaceAt(states[k], FitIndex(states[k].spaces, item), item);
      CountUpdate(states, k, v, x);
      assert v.packedItems[..|v.packedItems| - 1] == states[k].packedItems;
    }
  }

  /** How often x occurs in a list of items. */
  function Occurrences(xs: seq<Item>, x: Item): nat
    decreases |xs|
  {
    if xs == [] then 0 else Occurrences(xs[..|xs| - 1], x) + if xs[|xs| - 1] == x then 1 else 0
  }

  lemma {:induction false} OccurrencesMultiset(xs: seq<Item>, x: Item)
    ensures Occurrences(xs, x) == multiset(xs)[x]
    decreases |xs|
  {
    if xs != [] {
      OccurrencesMultiset(xs[..|xs| - 1], x);
      assert xs == xs[..|xs| - 1] + [xs[|xs| - 1]];
    }
  }

  lemma {:induction false} OccurrencesAppend(xs: seq<Item>, y: Item, x: Item)
    ensures Occurrences(xs + [y], x) == Occurrences(xs, x) + if y == x then 1 else 0
  {
    assert (xs + [y])[..|xs|] == xs;
  }

  lemma {:induction false} AdvanceCount(acc: (seq<BinState>, seq<Item>), item: Item, x: Item)
    ensures Count(Advance(acc, item).0, x) + Occurrences(Advance(acc, item).1, x)
      == Count(acc.0, x) + Occurrences(acc.1, x) + if item == x then 1 else 0
  {
    StepCount(acc.0, item, x);
    OccurrencesAppend(acc.1, item, x);
  }

  /** How often x occurs among the first n items. */
  function OccurrencesUpTo(items: seq<Item>, n: nat, x: Item): nat
    requires n <= |items|
  {
    if n == 0 then 0 else OccurrencesUpTo(items, n - 1, x) + if items[n - 1] == x then 1 else 0
  }

  lemma {:induction false} OccurrencesUpToMultiset(items: seq<Item>, n: nat, x: Item)
    requires n <= |items|
    ensures OccurrencesUpTo(items, n, x) == multiset(items[..n])[x]
  {
    if n > 0 {
      OccurrencesUpToMultiset(items, n - 1, x);
      assert items[..n] == items[..n - 1] + [items[n - 1]];
    }
  }

  lemma {:induction false} PackUpToCount(init: seq<BinState>, items: seq<Item>, n: nat, x: Item)
    requires n <= |items|
    ensures Count(PackUpTo(init, items, n).0, x) + Occurrences(PackUpTo(init, items, n).1, x)
      == Count(init, x) + OccurrencesUpTo(items, n, x)
  {
    if n > 0 {
      PackUpToCount(init, items, n - 1, x);
      AdvanceCount(PackUpTo(init, items, n - 1), items[n - 1], x);
    }
  }

  lemma {:induction false} FreshCount(bins: seq<Bin>, x: Item)
    ensures Count(MapSeq(Fresh, bins), x) == 0
    decreases |bins|
  {
    if bins != [] {
      FreshCount(bins[..|bins| - 1], x);
      assert MapSeq(Fresh, bins)[..|bins| - 1] == MapSeq(Fresh, bins[..|bins| - 1]);
    }
  }

  /** Count over a list with one more bin in front. */
  lemma {:induction false} CountCons(y: BinState, states: seq<BinState>, x: Item)
    ensures Count([y] + states, x) == CountIn(y.packedItems, x) + Count(states, x)
    decreases |states|
  {
    if states != [] {
      var n := |states| - 1;
      CountCons(y, states[..n], x);
      assert ([y] + states)[..n + 1] == [y] + states[..n];
    } else {
      assert [y][..0] == [];
    }
  }

  lemma {:induction false} NonEmptyCount(states: seq<BinState>, x: Item)
    ensures Count(NonEmpty(states), x) == Count(states, x)
    decreases |states|
  {
    if states != [] {
      NonEmptyCount(states[1..], x);
      CountCons(states[0], states[1..], x);
      assert [states[0]] + states[1..] == states;
      if states[0].packedItems != [] {
        CountCons(states[0], NonEmpty(states[1..]), x);
      } else {
        assert [] + NonEmpty(states[1..]) == NonEmpty(states[1..]);
      }
    }
  }

  /** No item is packed twice: for every item, its packed copies and its
      unplaced copies together number its copies in the input. */
  lemma {:induction false} PackingOnce(items: seq<Item>, bins: seq<Bin>, x: Item)
    ensures Count(Packing(items, bins).0, x) + multiset(Packing(items, bins).1)[x] == multiset(items)[x]
  {
    var sorted := SortItems(items);
    var init := MapSeq(Fresh, SortBins(bins));
    PackUpToCount(init, sorted, |sorted|, x);
    OccurrencesUpToMultiset(sorted, |sorted|, x);
    OccurrencesMultiset(Packing(items, bins).1, x);
    FreshCount(SortBins(bins), x);
    NonEmptyCount(PackUpTo(init, sorted, |sorted|).0, x);
    assert sorted[..|sorted|] == sorted;
  }
}
