/**
 The three link-quality estimators of the aggregate program. Each round a device
 turns its previous per-neighbour counters, or the counters its neighbours
 exported for it, into new per-neighbour counters over the current domain. A
 counter for a neighbour that left the domain is dropped, so it reads as 0 when
 the neighbour comes back.
 */
module Estimators {
  import opened Fields

  // ---------------------------------------------------------------------------
  // uniConnection: counts the rounds each neighbour has been seen
  // ---------------------------------------------------------------------------

  /**
   `old(CALL, field<int>{0}, o => o + mod_other(CALL, 1, 0))`: `o` is the field
   this device stored in its previous round.
   */
  function UniConnection(ctx: Context, o: map<Id, int>): (r: map<Id, int>)
    ensures r.Keys == ctx.Dom()
    ensures forall j :: j in r && j != ctx.self ==> r[j] == At(o, j, 0) + 1
    ensures r[ctx.self] == At(o, ctx.self, 0)
  {
    map j | j in ctx.Dom() :: At(o, j, 0) + ModOther(ctx, j, 1, 0)
  }

  /** The counters after one round per neighbour set in `rounds`, oldest first, starting from `o`. */
  function UniRun(self: Id, rounds: seq<set<Id>>, o: map<Id, int>): map<Id, int>
    decreases |rounds|
  {
    if rounds == [] then o
    else UniConnection(Context(self, rounds[|rounds| - 1]), UniRun(self, rounds[..|rounds| - 1], o))
  }

  /** A neighbour seen in every round gains exactly one per round. */
  lemma {:induction false} UniConnectionCountsRounds(self: Id, rounds: seq<set<Id>>, o: map<Id, int>, j: Id)
    requires j != self
    requires forall i :: 0 <= i < |rounds| ==> j in rounds[i]
    ensures j in UniRun(self, rounds, o) || rounds == []
    ensures At(UniRun(self, rounds, o), j, 0) == At(o, j, 0) + |rounds|
    decreases |rounds|
  {
    if rounds != [] {
      var prefix := rounds[..|rounds| - 1];
      UniConnectionCountsRounds(self, prefix, o, j);
    }
  }

  /**
   A neighbour absent in round `t` starts again from 0: afterwards its counter is
   the number of rounds it has been seen since, whatever it was before.
   */
  lemma {:induction false} UniConnectionResetsAfterAbsence(self: Id, rounds: seq<set<Id>>, o: map<Id, int>, j: Id, t: nat)
    requires j != self && t < |rounds| && j !in rounds[t]
    requires forall i :: t < i < |rounds| ==> j in rounds[i]
    ensures At(UniRun(self, rounds, o), j, 0) == |rounds| - 1 - t
    decreases |rounds|
  {
    var prefix := rounds[..|rounds| - 1];
    if t < |rounds| - 1 {
      UniConnectionResetsAfterAbsence(self, prefix, o, j, t);
    }
  }

  /** The device's own entry never changes. */
  lemma {:induction false} UniConnectionKeepsSelf(self: Id, rounds: seq<set<Id>>, o: map<Id, int>)
    ensures At(UniRun(self, rounds, o), self, 0) == At(o, self, 0)
    decreases |rounds|
  {
    if rounds != [] {
      UniConnectionKeepsSelf(self, rounds[..|rounds| - 1], o);
    }
  }

  /** Counters never go negative. */
  lemma {:induction false} UniConnectionNonNegative(self: Id, rounds: seq<set<Id>>, o: map<Id, int>)
    requires forall j :: j in o ==> o[j] >= 0
    ensures forall j :: j in UniRun(self, rounds, o) ==> UniRun(self, rounds, o)[j] >= 0
    decreases |rounds|
  {
    if rounds != [] {
      UniConnectionNonNegative(self, rounds[..|rounds| - 1], o);
    }
  }

  // ---------------------------------------------------------------------------
  // biConnection: counts confirmed bidirectional communications
  // ---------------------------------------------------------------------------

  /**
   `nbr(CALL, field<int>{0}, n => n + mod_other(CALL, 1, 0))`: `own` is the field
   this device exported in its previous round, `exported[j]` the field neighbour
   j exported in its own last round.
   */
  function BiConnection(ctx: Context, own: map<Id, int>, exported: map<Id, map<Id, int>>): (r: map<Id, int>)
    ensures r.Keys == ctx.Dom()
    ensures forall j :: j in r && j != ctx.self && j in exported ==> r[j] == At(exported[j], ctx.self, 0) + 1
    ensures forall j :: j in r && j != ctx.self && j !in exported ==> r[j] == 1
    ensures r[ctx.self] == At(own, ctx.self, 0)
  {
    map j | j in ctx.Dom() :: NbrAt(ctx, own, exported, 0, j) + ModOther(ctx, j, 1, 0)
  }

  /** Counters stay non-negative when every exported counter is. */
  lemma BiConnectionNonNegative(ctx: Context, own: map<Id, int>, exported: map<Id, map<Id, int>>)
    requires forall i :: i in own ==> own[i] >= 0
    requires forall j, i :: j in exported && i in exported[j] ==> exported[j][i] >= 0
    ensures forall j :: j in BiConnection(ctx, own, exported) ==> BiConnection(ctx, own, exported)[j] >= 0
  {
  }

  /**
   Two devices `a` and `b` in range of each other, running synchronised rounds
   from empty state: the pair of exported fields after `k` rounds.
   */
  function BiPair(a: Id, b: Id, k: nat): (map<Id, int>, map<Id, int>)
  {
    if k == 0 then (map[], map[])
    else
      var (ea, eb) := BiPair(a, b, k - 1);
      (BiConnection(Context(a, {b}), ea, map[b := eb]), BiConnection(Context(b, {a}), eb, map[a := ea]))
  }

  /**
   The fields of `a` and `b` after `k` rounds together: each holds `k` for the
   other and 0 for itself.
   */
  predicate PairCounts(a: Id, b: Id, ea: map<Id, int>, eb: map<Id, int>, k: nat)
  {
    && (k > 0 ==> b in ea && a in eb)
    && At(ea, b, 0) == k && At(eb, a, 0) == k
    && At(ea, a, 0) == 0 && At(eb, b, 0) == 0
  }

  /** One synchronised round of the pair adds one to both counts and leaves the own entries alone. */
  lemma BiConnectionPairStep(a: Id, b: Id, ea: map<Id, int>, eb: map<Id, int>, k: nat)
    requires a != b && PairCounts(a, b, ea, eb, k)
    ensures PairCounts(a, b, BiConnection(Context(a, {b}), ea, map[b := eb]),
                       BiConnection(Context(b, {a}), eb, map[a := ea]), k + 1)
  {
  }

  /** Over a link that stays up, both sides count the k rounds, and their own entries stay 0. */
  lemma {:induction false} BiConnectionCountsBothWays(a: Id, b: Id, k: nat)
    requires a != b
    ensures PairCounts(a, b, BiPair(a, b, k).0, BiPair(a, b, k).1, k)
  {
    if k > 0 {
      BiConnectionCountsBothWays(a, b, k - 1);
      var (ea, eb) := BiPair(a, b, k - 1);
      BiConnectionPairStep(a, b, ea, eb, k - 1);
    }
  }

  // ---------------------------------------------------------------------------
  // oldNbrConnection: local counter seeded from the neighbour's count
  // ---------------------------------------------------------------------------

  /** The rating `oldnbr` returns and the field it stores and exports. */
  datatype OldNbrResult = OldNbrResult(rating: map<Id, real>, state: map<Id, real>)

  /**
   `oldnbr(CALL, field<real_t>{0.0}, (o, n) => (n, mux(o == 0, n/2, o) + mod_other(CALL, 1, 0)))`:
   `o` is the field stored in the previous round (which is also what this device
   exported), `exported[j]` the field neighbour j exported.
   */
  function OldNbrConnection(ctx: Context, o: map<Id, real>, exported: map<Id, map<Id, real>>): (r: OldNbrResult)
    ensures r.rating.Keys == ctx.Dom() && r.state.Keys == ctx.Dom()
    ensures forall j :: j in r.rating && j != ctx.self && j in exported ==> r.rating[j] == At(exported[j], ctx.self, 0.0)
    ensures forall j :: j in r.rating && j != ctx.self && j !in exported ==> r.rating[j] == 0.0
    ensures r.rating[ctx.self] == At(o, ctx.self, 0.0)
    ensures forall j :: j in r.state && j != ctx.self && At(o, j, 0.0) == 0.0 ==> r.state[j] == r.rating[j] / 2.0 + 1.0
    ensures forall j :: j in r.state && j != ctx.self && At(o, j, 0.0) != 0.0 ==> r.state[j] == At(o, j, 0.0) + 1.0
    ensures r.state[ctx.self] == At(o, ctx.self, 0.0)
  {
    var n := map j | j in ctx.Dom() :: NbrAt(ctx, o, exported, 0.0, j);
    var stored := map j | j in ctx.Dom() ::
      (if At(o, j, 0.0) == 0.0 then NbrAt(ctx, o, exported, 0.0, j) / 2.0 else At(o, j, 0.0)) + ModOther(ctx, j, 1, 0) as real;
    OldNbrResult(n, stored)
  }

  /** The state after one round per neighbour view in `rounds`, oldest first, starting from `o`. */
  function OldNbrRun(self: Id, rounds: seq<map<Id, map<Id, real>>>, o: map<Id, real>): map<Id, real>
    decreases |rounds|
  {
    if rounds == [] then o
    else
      var last := rounds[|rounds| - 1];
      OldNbrConnection(Context(self, last.Keys), OldNbrRun(self, rounds[..|rounds| - 1], o), last).state
  }

  /**
   A neighbour seen in every round, starting with no local counter, is seeded at
   half the count it advertises in the first round plus one, and then gains
   exactly one per round.
   */
  lemma {:induction false} OldNbrSeedsThenCounts(self: Id, rounds: seq<map<Id, map<Id, real>>>, o: map<Id, real>, j: Id)
    requires j != self && j !in o && rounds != []
    requires forall i :: 0 <= i < |rounds| ==> j in rounds[i]
    requires forall i :: 0 <= i < |rounds| ==> At(rounds[i][j], self, 0.0) >= 0.0
    ensures j in OldNbrRun(self, rounds, o)
    ensures OldNbrRun(self, rounds, o)[j] == At(rounds[0][j], self, 0.0) / 2.0 + |rounds| as real
    decreases |rounds|
  {
    if |rounds| > 1 {
      var prefix := rounds[..|rounds| - 1];
      OldNbrSeedsThenCounts(self, prefix, o, j);
    }
  }

  /**
   A neighbour that was absent from the previous domain is seeded afresh from its
   advertisement: nothing remembered from before the absence survives.
   */
  lemma OldNbrResetsAfterAbsence(ctx: Context, o: map<Id, real>, exported: map<Id, map<Id, real>>, j: Id)
    requires j in exported && j != ctx.self && j !in o
    requires j in ctx.others
    ensures OldNbrConnection(ctx, o, exported).state[j] == At(exported[j], ctx.self, 0.0) / 2.0 + 1.0
  {
  }

  /** With non-negative inputs the state stays non-negative and every neighbour entry is at least 1. */
  lemma OldNbrNonNegative(ctx: Context, o: map<Id, real>, exported: map<Id, map<Id, real>>)
    requires forall i :: i in o ==> o[i] >= 0.0
    requires forall j, i :: j in exported && i in exported[j] ==> exported[j][i] >= 0.0
    ensures forall j :: j in OldNbrConnection(ctx, o, exported).state ==> OldNbrConnection(ctx, o, exported).state[j] >= 0.0
    ensures forall j :: j in OldNbrConnection(ctx, o, exported).state && j != ctx.self ==> OldNbrConnection(ctx, o, exported).state[j] >= 1.0
    ensures forall j :: j in OldNbrConnection(ctx, o, exported).rating ==> OldNbrConnection(ctx, o, exported).rating[j] >= 0.0
  {
    var r := OldNbrConnection(ctx, o, exported);
    forall j | j in r.state
      ensures r.state[j] >= 0.0 && r.rating[j] >= 0.0
    {
      assert j == ctx.self || j in exported || j !in exported;
    }
  }
}
