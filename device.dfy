/**
 One device running the main aggregate program: the storage it updates in place
 each round (source flag, battery level, parent and parent rating, collected
 values) and the values the runtime threads from one of its rounds to the next.
 */
module Device {
  import opened Fields
  import opened Estimators
  import opened Collection
  import opened Battery

  /** What a neighbour exported in its last round, as this device receives it. */
  datatype Advert = Advert(bi: map<Id, int>, oldNbr: map<Id, real>, distance: Distance,
                           uniTree: Export<real>, biTree: Export<real>, oldNbrTree: Export<real>)

  function BiView(view: map<Id, Advert>): map<Id, map<Id, int>>
  {
    map j | j in view :: view[j].bi
  }

  function OldNbrView(view: map<Id, Advert>): map<Id, map<Id, real>>
  {
    map j | j in view :: view[j].oldNbr
  }

  function DistanceView(view: map<Id, Advert>): map<Id, Distance>
  {
    map j | j in view :: view[j].distance
  }

  function UniTreeView(view: map<Id, Advert>): map<Id, Export<real>>
  {
    map j | j in view :: view[j].uniTree
  }

  function BiTreeView(view: map<Id, Advert>): map<Id, Export<real>>
  {
    map j | j in view :: view[j].biTree
  }

  function OldNbrTreeView(view: map<Id, Advert>): map<Id, Export<real>>
  {
    map j | j in view :: view[j].oldNbrTree
  }

  // ---------------------------------------------------------------------------
  // The estimators of one round
  // ---------------------------------------------------------------------------

  /**
   The fields the three estimators keep: the uniConnection and biConnection
   counters, the oldNbrConnection state, and the rating oldNbrConnection returned
   in the last round (which the main program also stores).
   */
  datatype Estimates = Estimates(uni: map<Id, int>, bi: map<Id, int>, oldNbr: map<Id, real>, oldNbrRating: map<Id, real>)

  /**
   The three estimator calls at the start of a round. At a neighbour j: one more
   round seen, one more than j's advertised count for this device, and j's
   advertised oldNbrConnection counter as the rating.
   */
  function Estimate(uid: Id, e: Estimates, view: map<Id, Advert>): (r: Estimates)
    ensures forall j :: j in view && j != uid ==> && j in r.uni && r.uni[j] == At(e.uni, j, 0) + 1
                                                    && j in r.bi && r.bi[j] == At(view[j].bi, uid, 0) + 1
                                                    && j in r.oldNbrRating && r.oldNbrRating[j] == At(view[j].oldNbr, uid, 0.0)
  {
    var ctx := Context(uid, view.Keys);
    var oldNbr := OldNbrConnection(ctx, e.oldNbr, OldNbrView(view));
    Estimates(UniConnection(ctx, e.uni), BiConnection(ctx, e.bi, BiView(view)), oldNbr.state, oldNbr.rating)
  }

  /** After a round every estimator field is defined exactly on the current neighbours and the device. */
  lemma EstimateDomains(uid: Id, e: Estimates, view: map<Id, Advert>)
    ensures var n := Estimate(uid, e, view);
      && n.uni.Keys == view.Keys + {uid}
      && n.bi.Keys == view.Keys + {uid}
      && n.oldNbr.Keys == view.Keys + {uid}
      && n.oldNbrRating.Keys == view.Keys + {uid}
  {
  }

  /** Every counter of the estimator state is non-negative. */
  predicate NonNegative(e: Estimates)
  {
    && (forall j :: j in e.uni ==> e.uni[j] >= 0)
    && (forall j :: j in e.bi ==> e.bi[j] >= 0)
    && (forall j :: j in e.oldNbr ==> e.oldNbr[j] >= 0.0)
    && (forall j :: j in e.oldNbrRating ==> e.oldNbrRating[j] >= 0.0)
  }

  /** Every counter a neighbour advertises is non-negative. */
  predicate NonNegativeView(view: map<Id, Advert>)
  {
    && (forall j, i :: j in view && i in view[j].bi ==> view[j].bi[i] >= 0)
    && (forall j, i :: j in view && i in view[j].oldNbr ==> view[j].oldNbr[i] >= 0.0)
  }

  /**
   Rounds keep the counters non-negative: a device that starts from empty state
   and only hears non-negative counters never holds a negative one.
   */
  lemma EstimateNonNegative(uid: Id, e: Estimates, view: map<Id, Advert>)
    requires NonNegative(e) && NonNegativeView(view)
    ensures NonNegative(Estimate(uid, e, view))
  {
    var ctx := Context(uid, view.Keys);
    var n := Estimate(uid, e, view);
    UniConnectionStepNonNegative(ctx, e.uni);
    BiViewNonNegative(view);
    BiConnectionNonNegative(ctx, e.bi, BiView(view));
    OldNbrViewNonNegative(view);
    OldNbrNonNegative(ctx, e.oldNbr, OldNbrView(view));
  }

  lemma UniConnectionStepNonNegative(ctx: Context, o: map<Id, int>)
    requires forall j :: j in o ==> o[j] >= 0
    ensures forall j :: j in UniConnection(ctx, o) ==> UniConnection(ctx, o)[j] >= 0
  {
  }

  lemma BiViewNonNegative(view: map<Id, Advert>)
    requires NonNegativeView(view)
    ensures forall j, i :: j in BiView(view) && i in BiView(view)[j] ==> BiView(view)[j][i] >= 0
  {
  }

  lemma OldNbrViewNonNegative(view: map<Id, Advert>)
    requires NonNegativeView(view)
    ensures forall j, i :: j in OldNbrView(view) && i in OldNbrView(view)[j] ==> OldNbrView(view)[j][i] >= 0.0
  {
  }

  // ---------------------------------------------------------------------------
  // The whole aggregate round
  // ---------------------------------------------------------------------------

  /** The values the runtime threads from one round of a device to the next through old, nbr and oldnbr. */
  datatype Threaded = Threaded(estimates: Estimates, uniTree: Export<real>, biTree: Export<real>, oldNbrTree: Export<real>)

  /** The state of a device that has not run yet: the initial values of old, nbr and oldnbr. */
  function InitialThreaded(uid: Id): Threaded
  {
    Threaded(Estimates(map[], map[], map[], map[]),
             InitialExport(0.0, uid), InitialExport(0.0, uid), InitialExport(0.0, uid))
  }

  /**
   The aggregate part of one round of the main program: the three estimators,
   then `sp_collection_mod` (with value 1, null 0 and `adder`) once per estimator,
   each fed the rating field its estimator computed in this round.
   */
  function AggregateRound(uid: Id, t: Threaded, view: map<Id, Advert>, distance: Distance): Threaded
  {
    var ctx := Context(uid, view.Keys);
    var nbrDist := DistanceView(view);
    var e := Estimate(uid, t.estimates, view);
    Threaded(e,
             SpCollectionMod(ctx, distance, nbrDist, 1.0, 0.0, Add, IntRatings(e.uni), t.uniTree, UniTreeView(view)),
             SpCollectionMod(ctx, distance, nbrDist, 1.0, 0.0, Add, IntRatings(e.bi), t.biTree, BiTreeView(view)),
             SpCollectionMod(ctx, distance, nbrDist, 1.0, 0.0, Add, RealRatings(e.oldNbrRating), t.oldNbrTree, OldNbrTreeView(view)))
  }

  /**
   Each of the three trees either points at a device of the current domain (the
   best candidate it adopted) or keeps the parent it had in the previous round.
   */
  lemma AggregateRoundParents(uid: Id, t: Threaded, view: map<Id, Advert>, distance: Distance)
    ensures var n := AggregateRound(uid, t, view, distance);
      && (n.uniTree.parent in view.Keys + {uid} || n.uniTree.parent == t.uniTree.parent)
      && (n.biTree.parent in view.Keys + {uid} || n.biTree.parent == t.biTree.parent)
      && (n.oldNbrTree.parent in view.Keys + {uid} || n.oldNbrTree.parent == t.oldNbrTree.parent)
  {
  }

  /**
   Every tree's parent rating stays non-negative: the rating is at least the best
   candidate's, and every estimator rating is non-negative.
   */
  lemma AggregateRoundRatingsNonNegative(uid: Id, t: Threaded, view: map<Id, Advert>, distance: Distance)
    requires NonNegative(t.estimates) && NonNegativeView(view)
    ensures var n := AggregateRound(uid, t, view, distance);
      n.uniTree.rating >= 0.0 && n.biTree.rating >= 0.0 && n.oldNbrTree.rating >= 0.0
  {
    var ctx := Context(uid, view.Keys);
    var nbrDist := DistanceView(view);
    var e := Estimate(uid, t.estimates, view);
    EstimateNonNegative(uid, t.estimates, view);
    RatingsNonNegative(ctx, distance, nbrDist, IntRatings(e.uni));
    RatingsNonNegative(ctx, distance, nbrDist, IntRatings(e.bi));
    RatingsNonNegative(ctx, distance, nbrDist, RealRatings(e.oldNbrRating));
  }

  /** With non-negative ratings, the best candidate's rating is non-negative. */
  lemma RatingsNonNegative(ctx: Context, distance: Distance, nbrDist: map<Id, Distance>, rating: Ratings)
    requires rating.IntRatings? ==> forall j :: j in rating.ints ==> rating.ints[j] >= 0
    requires rating.RealRatings? ==> forall j :: j in rating.reals ==> rating.reals[j] >= 0.0
    ensures -BestCandidate(ctx, distance, nbrDist, rating).negRating >= 0.0
  {
    var b := BestCandidate(ctx, distance, nbrDist, rating);
    assert -b.negRating == rating.Of(b.id);
  }

  /**
   Each tree collects 1 for the device itself plus the sum of the values advertised
   by exactly the neighbours that chose this device as their parent in that tree.
   */
  lemma AggregateRoundCounts(uid: Id, t: Threaded, view: map<Id, Advert>, distance: Distance)
    ensures var ctx := Context(uid, view.Keys);
      var n := AggregateRound(uid, t, view, distance);
      && n.uniTree.value == 1.0 + FoldOr(Add, 0.0, Children(ctx, UniTreeView(view)), Aggregates(UniTreeView(view)))
      && n.biTree.value == 1.0 + FoldOr(Add, 0.0, Children(ctx, BiTreeView(view)), Aggregates(BiTreeView(view)))
      && n.oldNbrTree.value == 1.0 + FoldOr(Add, 0.0, Children(ctx, OldNbrTreeView(view)), Aggregates(OldNbrTreeView(view)))
  {
    var ctx := Context(uid, view.Keys);
    var nbrDist := DistanceView(view);
    var e := Estimate(uid, t.estimates, view);
    AddIsCommutativeMonoid();
    SpCollectionFoldsChildren(ctx, distance, nbrDist, 1.0, 0.0, Add, IntRatings(e.uni), t.uniTree, UniTreeView(view));
    SpCollectionFoldsChildren(ctx, distance, nbrDist, 1.0, 0.0, Add, IntRatings(e.bi), t.biTree, BiTreeView(view));
    SpCollectionFoldsChildren(ctx, distance, nbrDist, 1.0, 0.0, Add, RealRatings(e.oldNbrRating), t.oldNbrTree, OldNbrTreeView(view));
  }

  /** A device and the storage its main program updates in place. */
  class Node {
    const uid: Id

    var source: bool                 // node_source
    var batteryLevel: int            // node_battery_level
    var parent: Id                   // node_parent
    var ratingParent: real           // node_rating_parent
    var rating: map<Id, real>        // node_rating
    var alertUni: real               // node_alert_counter<uniconn>
    var alertBi: real                // node_alert_counter<biconn>
    var alertOldNbr: real            // node_alert_counter<oldnbr>
    var sourceAlertUni: real         // source_alert_counter<uniconn>
    var sourceAlertBi: real          // source_alert_counter<biconn>
    var sourceAlertOldNbr: real      // source_alert_counter<oldnbr>

    var threaded: Threaded

    /**
     A device as created, with the given battery level. The source flag is set
     here already; the first round writes the same value before anything reads it.
     */
    constructor (id: Id, level: int)
      ensures uid == id && batteryLevel == level && source == (id == 0)
      ensures threaded == InitialThreaded(id)
      ensures parent == 0 && ratingParent == 0.0 && rating == map[]
      ensures alertUni == 0.0 && alertBi == 0.0 && alertOldNbr == 0.0
      ensures sourceAlertUni == 0.0 && sourceAlertBi == 0.0 && sourceAlertOldNbr == 0.0
    {
      uid := id;
      source := id == 0;
      batteryLevel := level;
      parent := 0;
      ratingParent := 0.0;
      rating := map[];
      alertUni, alertBi, alertOldNbr := 0.0, 0.0, 0.0;
      sourceAlertUni, sourceAlertBi, sourceAlertOldNbr := 0.0, 0.0, 0.0;
      threaded := InitialThreaded(id);
    }

    /** The battery switches of the main program, given the outcomes of the two draws. */
    method UpdateBattery(increase: bool, decrease: bool)
      modifies this`batteryLevel
      ensures batteryLevel == BatteryStep(old(batteryLevel), increase, decrease)
    {
      if increase {
        var newLevel: int;
        if batteryLevel == Medium {
          newLevel := High;
        } else if batteryLevel == Low {
          newLevel := Medium;
        } else {
          newLevel := batteryLevel;
        }
        batteryLevel := newLevel;
      } else if decrease {
        var newLevel: int;
        if batteryLevel == High {
          newLevel := Medium;
        } else if batteryLevel == Medium {
          newLevel := Low;
        } else {
          newLevel := batteryLevel;
        }
        batteryLevel := newLevel;
      }
    }

    /** The source flag and the battery logic at the start of the main program. */
    method SwitchBattery(increase: bool, decrease: bool)
      modifies this`source, this`batteryLevel
      ensures source == (uid == 0)
      ensures batteryLevel == BatteryRound(old(batteryLevel), increase, decrease, uid == 0)
    {
      source := uid == 0;
      UpdateBattery(increase, decrease);
      if source {
        batteryLevel := High;
      }
    }

    /**
     The storage write at the end of `sp_collection_mod`: the parent and rating of
     the tuple just computed.
     */
    method StoreParent(next: Export<real>)
      modifies this`parent, this`ratingParent
      ensures parent == next.parent && ratingParent == next.rating
    {
      parent := next.parent;
      ratingParent := next.rating;
    }

    /**
     Everything the main program writes once the aggregate round `next` is known:
     the battery, the parent of each of the three collections in turn (the last
     one stays), the collected values, and at the source the values it received.
     */
    method Commit(next: Threaded, increase: bool, decrease: bool)
      modifies this
      ensures source == (uid == 0)
      ensures batteryLevel == BatteryRound(old(batteryLevel), increase, decrease, uid == 0)
      ensures threaded == next
      ensures rating == next.estimates.oldNbrRating
      ensures parent == next.oldNbrTree.parent && ratingParent == next.oldNbrTree.rating
      ensures alertUni == next.uniTree.value && alertBi == next.biTree.value
      ensures alertOldNbr == next.oldNbrTree.value
      ensures uid == 0 ==> sourceAlertUni == next.uniTree.value && sourceAlertBi == next.biTree.value
                           && sourceAlertOldNbr == next.oldNbrTree.value
      ensures uid != 0 ==> sourceAlertUni == old(sourceAlertUni) && sourceAlertBi == old(sourceAlertBi)
                           && sourceAlertOldNbr == old(sourceAlertOldNbr)
    {
      SwitchBattery(increase, decrease);
      StoreParent(next.uniTree);
      StoreParent(next.biTree);
      StoreParent(next.oldNbrTree);
      threaded := next;
      alertUni, alertBi, alertOldNbr := next.uniTree.value, next.biTree.value, next.oldNbrTree.value;
      rating := next.estimates.oldNbrRating;
      if source {
        sourceAlertUni, sourceAlertBi, sourceAlertOldNbr := next.uniTree.value, next.biTree.value, next.oldNbrTree.value;
      }
    }

    /**
     One round of the main program, given the neighbours' last exports, the
     device's distance to the source and the outcomes of the two battery draws.
     */
    method Round(view: map<Id, Advert>, distance: Distance, increase: bool, decrease: bool)
      modifies this
      ensures source == (uid == 0)
      ensures batteryLevel == BatteryRound(old(batteryLevel), increase, decrease, uid == 0)
      ensures threaded == AggregateRound(uid, old(threaded), view, distance)
      ensures rating == threaded.estimates.oldNbrRating
      ensures parent == threaded.oldNbrTree.parent && ratingParent == threaded.oldNbrTree.rating
      ensures alertUni == threaded.uniTree.value && alertBi == threaded.biTree.value
      ensures alertOldNbr == threaded.oldNbrTree.value
      ensures uid == 0 ==> sourceAlertUni == threaded.uniTree.value && sourceAlertBi == threaded.biTree.value
                           && sourceAlertOldNbr == threaded.oldNbrTree.value
      ensures uid != 0 ==> sourceAlertUni == old(sourceAlertUni) && sourceAlertBi == old(sourceAlertBi)
                           && sourceAlertOldNbr == old(sourceAlertOldNbr)
    {
      var next := AggregateRound(uid, threaded, view, distance);
      Commit(next, increase, decrease);
    }
  }
}
