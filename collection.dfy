/**
 One round of `sp_collection_mod`: the spanning-tree collection that picks a next
 hop toward the source by (distance, -rating, uid), folds the aggregates of the
 neighbours that chose this device as parent, and keeps the old parent while its
 decayed rating still beats the best rival.
 */
module Collection {
  import opened Fields

  // ---------------------------------------------------------------------------
  // Candidate selection: min_hood over (distance, -rating, uid)
  // ---------------------------------------------------------------------------

  /** A distance to the nearest source: a finite value, or the infinite sentinel of a device not yet reached. */
  datatype Distance = Finite(value: real) | Infinite

  /** `<` on distances as C++ compares doubles: infinity is above every finite value and not below itself. */
  predicate DistLess(a: Distance, b: Distance)
  {
    match (a, b)
    case (Finite(x), Finite(y)) => x < y
    case (Finite(_), Infinite) => true
    case (Infinite, _) => false
  }

  /** The tuple `min_hood` minimises: (nbr(distance), -rating, nbr_uid). */
  datatype Key = Key(dist: Distance, negRating: real, id: Id)

  /** Lexicographic `<=` on keys, as `std::tuple` compares them. */
  predicate KeyLe(a: Key, b: Key)
  {
    || DistLess(a.dist, b.dist)
    || (a.dist == b.dist && (a.negRating < b.negRating || (a.negRating == b.negRating && a.id <= b.id)))
  }

  /** The least key of `keys` over the ids in `s`. */
  function MinOver(s: set<Id>, keys: map<Id, Key>): (k: Key)
    requires s != {} && s <= keys.Keys
    ensures exists j :: j in s && keys[j] == k
    ensures forall j :: j in s ==> KeyLe(k, keys[j])
    decreases s
  {
    var m := Smallest(s);
    if s == {m} then keys[m]
    else
      var rest := MinOver(s - {m}, keys);
      if KeyLe(keys[m], rest) then keys[m] else rest
  }

  /**
   `nbr(CALL, distance)`: a neighbour's last exported distance; the device's own
   current one at itself (and for a neighbour whose distance has not arrived).
   */
  function NbrDistance(ctx: Context, dist: Distance, nbrDist: map<Id, Distance>, j: Id): (d: Distance)
    ensures j == ctx.self ==> d == dist
    ensures j != ctx.self && j in nbrDist ==> d == nbrDist[j]
    ensures j != ctx.self && j !in nbrDist ==> d == dist
  {
    if j == ctx.self then dist else if j in nbrDist then nbrDist[j] else dist
  }

  /**
   The rating field `sp_collection_mod` is given, with its type R: `int` for the
   counters of uniConnection and biConnection, `real_t` for oldNbrConnection.
   */
  datatype Ratings = IntRatings(ints: map<Id, int>) | RealRatings(reals: map<Id, real>) {

    /** The rating of candidate `j` as a number; 0 where the field has no entry. */
    function Of(j: Id): real
    {
      match this
      case IntRatings(f) => At(f, j, 0) as real
      case RealRatings(f) => At(f, j, 0.0)
    }

    /** Whether the rating type R is `int` or `real_t`. */
    function Kind(): (k: RatingKind)
      ensures k == IntRating <==> IntRatings?
    {
      if IntRatings? then IntRating else RealRating
    }
  }

  /** The key of candidate `j`. */
  function CandidateKey(ctx: Context, dist: Distance, nbrDist: map<Id, Distance>, rating: Ratings, j: Id): (k: Key)
    ensures k.id == j
    ensures k.dist == NbrDistance(ctx, dist, nbrDist, j)
    ensures -k.negRating == rating.Of(j)
  {
    Key(NbrDistance(ctx, dist, nbrDist, j), -rating.Of(j), j)
  }

  /**
   `min_hood(CALL, make_tuple(nbr(CALL, distance), -rating, nbr_uid(CALL)))`: the
   candidate, among the neighbours and the device itself, with the least key.
   */
  function BestCandidate(ctx: Context, dist: Distance, nbrDist: map<Id, Distance>, rating: Ratings): (b: Key)
    ensures b.id in ctx.Dom()
    ensures b == CandidateKey(ctx, dist, nbrDist, rating, b.id)
    ensures forall j :: j in ctx.Dom() ==> KeyLe(b, CandidateKey(ctx, dist, nbrDist, rating, j))
  {
    var keys := map j | j in ctx.Dom() :: CandidateKey(ctx, dist, nbrDist, rating, j);
    MinOver(ctx.Dom(), keys)
  }

  /** The key order leaves no ties: the best candidate is the only one with the least key. */
  lemma BestCandidateIsUnique(ctx: Context, dist: Distance, nbrDist: map<Id, Distance>, rating: Ratings, c: Id)
    requires c in ctx.Dom()
    requires forall j :: j in ctx.Dom() ==>
      KeyLe(CandidateKey(ctx, dist, nbrDist, rating, c), CandidateKey(ctx, dist, nbrDist, rating, j))
    ensures BestCandidate(ctx, dist, nbrDist, rating).id == c
  {
  }

  /**
   Every other candidate is strictly worse: it is farther, or as far with a lower
   rating, or as far with the same rating and a higher uid.
   */
  lemma BestCandidateBeatsOthers(ctx: Context, dist: Distance, nbrDist: map<Id, Distance>, rating: Ratings, j: Id)
    requires j in ctx.Dom()
    requires j != BestCandidate(ctx, dist, nbrDist, rating).id
    ensures var b := BestCandidate(ctx, dist, nbrDist, rating);
      var dj := NbrDistance(ctx, dist, nbrDist, j);
      || DistLess(b.dist, dj)
      || (b.dist == dj && rating.Of(j) < -b.negRating)
      || (b.dist == dj && rating.Of(j) == -b.negRating && b.id < j)
  {
  }

  /** A device that is not yet reached is never chosen while a reached candidate is in view. */
  lemma BestCandidatePrefersReached(ctx: Context, dist: Distance, nbrDist: map<Id, Distance>, rating: Ratings, j: Id)
    requires j in ctx.Dom() && NbrDistance(ctx, dist, nbrDist, j).Finite?
    ensures BestCandidate(ctx, dist, nbrDist, rating).dist.Finite?
  {
  }

  // ---------------------------------------------------------------------------
  // Hysteresis
  // ---------------------------------------------------------------------------

  /**
   Which type R the rating has: `int` (the product `rating*0.8` is truncated when
   it is stored back into R) or `real_t` (it is kept exactly).
   */
  datatype RatingKind = IntRating | RealRating

  /** C++'s conversion of a double to an int: truncation toward zero. */
  function TruncateToInt(x: real): (r: int)
    ensures 0.0 <= x ==> r as real <= x < r as real + 1.0
    ensures x < 0.0 ==> r as real - 1.0 < x <= r as real
  {
    if x >= 0.0 then x.Floor else -((-x).Floor)
  }

  /** The hard-coded decay of a retained parent's rating. */
  const Decay: real := 0.8

  /** `R rating_evolved = rating*0.8`: exact for real ratings, truncated toward zero for int ones. */
  function Evolve(kind: RatingKind, rating: real): (r: real)
    ensures kind == RealRating ==> r == rating * Decay
    ensures 0.0 <= rating ==> 0.0 <= r <= rating * Decay
    ensures kind == IntRating && 0.0 <= rating ==> rating * Decay < r + 1.0
  {
    if kind == RealRating then rating * Decay else TruncateToInt(rating * Decay) as real
  }

  /** A parent together with the rating it was chosen with. */
  datatype Choice = Choice(rating: real, parent: Id)

  /**
   The hysteresis rule: keep the previous parent, with its rating decayed, while
   the best candidate is someone else whose rating is below the decayed rating;
   otherwise adopt the best candidate and its rating.
   */
  function Hysteresis(kind: RatingKind, prev: Choice, best: Id, bestRating: real): (c: Choice)
    ensures c.parent == best <==> (best == prev.parent || bestRating >= Evolve(kind, prev.rating))
    ensures c.parent == best ==> c.rating == bestRating
    ensures c.parent != best ==> c.parent == prev.parent && c.rating == Evolve(kind, prev.rating)
    ensures c.rating >= bestRating
  {
    var evolved := Evolve(kind, prev.rating);
    if best != prev.parent && bestRating < evolved then Choice(evolved, prev.parent)
    else Choice(bestRating, best)
  }

  /** Worked thresholds for a real rating of 1.0: 0.79 does not displace the parent, 0.8 and 0.81 do. */
  lemma HysteresisThreshold(parent: Id, rival: Id)
    requires parent != rival
    ensures Hysteresis(RealRating, Choice(1.0, parent), rival, 0.79) == Choice(0.8, parent)
    ensures Hysteresis(RealRating, Choice(1.0, parent), rival, 0.8) == Choice(0.8, rival)
    ensures Hysteresis(RealRating, Choice(1.0, parent), rival, 0.81) == Choice(0.81, rival)
  {
  }

  /** What the best candidate offers in one round. */
  datatype Offer = Offer(best: Id, rating: real)

  /** The choice after one hysteresis step per offer, oldest first. */
  function HysteresisRun(kind: RatingKind, c: Choice, offers: seq<Offer>): Choice
    decreases |offers|
  {
    if offers == [] then c
    else
      var last := offers[|offers| - 1];
      Hysteresis(kind, HysteresisRun(kind, c, offers[..|offers| - 1]), last.best, last.rating)
  }

  /** The rating decayed `k` times. */
  function Decayed(kind: RatingKind, rating: real, k: nat): real
  {
    if k == 0 then rating else Evolve(kind, Decayed(kind, rating, k - 1))
  }

  function Power(x: real, k: nat): real
  {
    if k == 0 then 1.0 else x * Power(x, k - 1)
  }

  /**
   While every round's best candidate is a rival whose rating stays below the
   decayed threshold, the parent is kept and its rating has decayed once per round.
   */
  lemma {:induction false} RetainedRounds(kind: RatingKind, c: Choice, offers: seq<Offer>)
    requires forall i :: 0 <= i < |offers| ==>
      offers[i].best != c.parent && offers[i].rating < Decayed(kind, c.rating, i + 1)
    ensures HysteresisRun(kind, c, offers) == Choice(Decayed(kind, c.rating, |offers|), c.parent)
    decreases |offers|
  {
    if offers != [] {
      RetainedRounds(kind, c, offers[..|offers| - 1]);
    }
  }

  /** A real rating kept for k rounds is the original rating times 0.8^k. */
  lemma {:induction false} DecayedReal(rating: real, k: nat)
    ensures Decayed(RealRating, rating, k) == rating * Power(Decay, k)
  {
    if k > 0 {
      DecayedReal(rating, k - 1);
    }
  }

  /** An int rating kept for k rounds stays between 0 and the original rating times 0.8^k. */
  lemma {:induction false} DecayedInt(rating: real, k: nat)
    requires 0.0 <= rating
    ensures 0.0 <= Decayed(IntRating, rating, k) <= rating * Power(Decay, k)
  {
    if k > 0 {
      DecayedInt(rating, k - 1);
      var prev := Decayed(IntRating, rating, k - 1);
      var bound := rating * Power(Decay, k - 1);
      PowerStep(rating, k);
      assert Evolve(IntRating, prev) <= prev * Decay;
      assert prev * Decay <= bound * Decay;
    }
  }

  lemma PowerStep(rating: real, k: nat)
    requires k > 0
    ensures rating * Power(Decay, k) == rating * Power(Decay, k - 1) * Decay
  {
  }

  /** A positive real rating shrinks strictly with every retained round. */
  lemma {:induction false} DecayedShrinks(rating: real, k: nat)
    requires 0.0 < rating
    ensures 0.0 < Decayed(RealRating, rating, k + 1) < Decayed(RealRating, rating, k)
  {
    if k > 0 {
      DecayedShrinks(rating, k - 1);
    }
  }

  // ---------------------------------------------------------------------------
  // The round step
  // ---------------------------------------------------------------------------

  /** The tuple (value, rating, parent) that `sp_collection_mod` threads through `nbr`. */
  datatype Export<T> = Export(value: T, rating: real, parent: Id)

  /** The `nbr` initial value `(nullValue, 0, node.uid)`: no aggregate, no confidence, parent itself. */
  function InitialExport<T>(nullValue: T, self: Id): (x: Export<T>)
    ensures x.value == nullValue && x.rating == 0.0 && x.parent == self
  {
    Export(nullValue, 0.0, self)
  }

  /** The entry of the `nbr` field x: own previous tuple at self, the neighbour's export, or the initial value. */
  function NbrExport<T>(ctx: Context, nullValue: T, prev: Export<T>, exports: map<Id, Export<T>>, j: Id): (x: Export<T>)
    ensures j == ctx.self ==> x == prev
    ensures j != ctx.self && j in exports ==> x == exports[j]
    ensures j != ctx.self && j !in exports ==> x.value == nullValue && x.rating == 0.0 && x.parent == ctx.self
  {
    if j == ctx.self then prev
    else if j in exports then exports[j]
    else InitialExport(nullValue, ctx.self)
  }

  /** `mux(get<2>(x) == node.uid, get<0>(x), nullValue)`: a neighbour's aggregate where it chose this device as parent, nullValue elsewhere. */
  function Contributions<T>(ctx: Context, nullValue: T, prev: Export<T>, exports: map<Id, Export<T>>): (f: map<Id, T>)
    ensures f.Keys == ctx.Dom()
  {
    map j | j in ctx.Dom() ::
      var x := NbrExport(ctx, nullValue, prev, exports, j);
      if x.parent == ctx.self then x.value else nullValue
  }

  /** The neighbours whose advertised parent is this device. */
  function Children<T>(ctx: Context, exports: map<Id, Export<T>>): (c: set<Id>)
    ensures c <= exports.Keys && c <= ctx.others && ctx.self !in c
  {
    set j | j in ctx.others && j in exports && j != ctx.self && exports[j].parent == ctx.self
  }

  /** The aggregates the neighbours advertise. */
  function Aggregates<T>(exports: map<Id, Export<T>>): (a: map<Id, T>)
    ensures a.Keys == exports.Keys
  {
    map j | j in exports :: exports[j].value
  }

  /**
   The value `sp_collection_mod` computes and threads to the next round (its
   return value is the `value` component). `prev` is the tuple of the previous
   round, `InitialExport(nullValue, ctx.self)` in the first one.
   */
  function SpCollectionMod<T>(ctx: Context, dist: Distance, nbrDist: map<Id, Distance>,
                              value: T, nullValue: T, acc: (T, T) -> T, rating: Ratings,
                              prev: Export<T>, exports: map<Id, Export<T>>): (r: Export<T>)
    ensures var b := BestCandidate(ctx, dist, nbrDist, rating);
      && (r.parent == b.id <==> b.id == prev.parent || -b.negRating >= Evolve(rating.Kind(), prev.rating))
      && (r.parent == b.id ==> r.rating == -b.negRating)
      && (r.parent != b.id ==> r.parent == prev.parent && r.rating == Evolve(rating.Kind(), prev.rating))
      && r.rating >= -b.negRating
  {
    var best := BestCandidate(ctx, dist, nbrDist, rating);
    var folded := FoldHood(acc, ctx, Contributions(ctx, nullValue, prev, exports), value);
    var c := Hysteresis(rating.Kind(), Choice(prev.rating, prev.parent), best.id, -best.negRating);
    Export(folded, c.rating, c.parent)
  }

  /**
   The aggregate is the device's own value combined with the aggregates of exactly
   the neighbours that advertise this device as their parent, in any order.
   */
  lemma SpCollectionFoldsChildren<T(!new)>(ctx: Context, dist: Distance, nbrDist: map<Id, Distance>,
                                           value: T, nullValue: T, acc: (T, T) -> T, rating: Ratings,
                                           prev: Export<T>, exports: map<Id, Export<T>>)
    requires IsCommutativeMonoid(acc, nullValue)
    ensures SpCollectionMod(ctx, dist, nbrDist, value, nullValue, acc, rating, prev, exports).value
         == acc(value, FoldOr(acc, nullValue, Children(ctx, exports), Aggregates(exports)))
  {
    var dom := ctx.Dom();
    var g := Contributions(ctx, nullValue, prev, exports)[ctx.self := value];
    var kids := Children(ctx, exports);
    assert FoldHood(acc, ctx, Contributions(ctx, nullValue, prev, exports), value) == FoldOr(acc, nullValue, dom, g);
    FoldOrPeel(acc, nullValue, dom, g, ctx.self);
    forall j | j in dom - {ctx.self} && j !in kids
      ensures g[j] == nullValue
    {
      assert j in ctx.others;
    }
    FoldOrDropsNeutral(acc, nullValue, dom - {ctx.self}, kids, g);
    FoldOrCongruent(acc, nullValue, kids, g, Aggregates(exports));
  }

  /** `adder` from the main program. */
  function Add(x: real, y: real): (r: real)
    ensures r == x + y
  {
    x + y
  }

  lemma AddIsCommutativeMonoid()
    ensures IsCommutativeMonoid(Add, 0.0)
  {
  }

  /** With `adder` and nullValue 0, the aggregate is the own value plus the children's aggregates. */
  lemma SpCollectionSumsChildren(ctx: Context, dist: Distance, nbrDist: map<Id, Distance>,
                                 value: real, rating: Ratings, prev: Export<real>, exports: map<Id, Export<real>>,
                                 c: Id)
    requires c in Children(ctx, exports)
    ensures SpCollectionMod(ctx, dist, nbrDist, value, 0.0, Add, rating, prev, exports).value
         == value + exports[c].value + FoldOr(Add, 0.0, Children(ctx, exports) - {c}, Aggregates(exports))
  {
    AddIsCommutativeMonoid();
    SpCollectionFoldsChildren(ctx, dist, nbrDist, value, 0.0, Add, rating, prev, exports);
    FoldOrPeel(Add, 0.0, Children(ctx, exports), Aggregates(exports), c);
  }

  /** A source with two children advertising 2.0 and 3.0 and its own value 1.0 collects 6.0. */
  lemma SpCollectionTwoChildren(rating: Ratings, prev: Export<real>)
    ensures var exports := map[1 := Export(2.0, 1.0, 0), 2 := Export(3.0, 1.0, 0)];
      SpCollectionMod(Context(0, {1, 2}), Finite(0.0), map[1 := Finite(1.0), 2 := Finite(1.0)],
                      1.0, 0.0, Add, rating, prev, exports).value == 6.0
  {
    var ctx := Context(0, {1, 2});
    var exports := map[1 := Export(2.0, 1.0, 0), 2 := Export(3.0, 1.0, 0)];
    assert Children(ctx, exports) == {1, 2};
    SpCollectionSumsChildren(ctx, Finite(0.0), map[1 := Finite(1.0), 2 := Finite(1.0)], 1.0, rating, prev, exports, 1);
    assert Children(ctx, exports) - {1} == {2};
    assert FoldOr(Add, 0.0, {2}, Aggregates(exports)) == 3.0;
  }

  /**
   In the first round, with non-negative ratings, the device adopts the best
   candidate: the initial rating 0 decays to 0, which every rating reaches.
   */
  lemma FirstRoundAdoptsBest<T>(ctx: Context, dist: Distance, nbrDist: map<Id, Distance>,
                                value: T, nullValue: T, acc: (T, T) -> T, rating: Ratings,
                                exports: map<Id, Export<T>>)
    requires forall j :: rating.Of(j) >= 0.0
    ensures var r := SpCollectionMod(ctx, dist, nbrDist, value, nullValue, acc, rating, InitialExport(nullValue, ctx.self), exports);
      var b := BestCandidate(ctx, dist, nbrDist, rating);
      r.parent == b.id && r.rating == -b.negRating
  {
  }
}
