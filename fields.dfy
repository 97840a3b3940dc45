/**
 The field-calculus primitives the aggregate program is written with.

 A field is a map from device id to value whose keys are the round's domain:
 the neighbours the device currently holds messages from, plus the device
 itself. Reading an id outside the map yields an explicit default.
 */
module Fields {

  /** A device identifier (FCPP's `device_t`, an unsigned integer). */
  type Id = nat

  /** One device in one round: its own id and the ids of its current neighbours. */
  datatype Context = Context(self: Id, others: set<Id>) {

    /** The domain of every field in this round: the neighbours and the device itself. */
    function Dom(): (d: set<Id>)
      ensures self in d && others <= d
      ensures forall j :: j in d ==> j == self || j in others
    {
      others + {self}
    }
  }

  /** The value of a field at `j`, or `default` where the field has no entry. */
  function At<V>(f: map<Id, V>, j: Id, default: V): V
  {
    if j in f then f[j] else default
  }

  /** `mod_other(CALL, other, own)`: `own` at the device itself, `other` at every neighbour. */
  function ModOther(ctx: Context, j: Id, other: int, own: int): (r: int)
    ensures j == ctx.self ==> r == own
    ensures j != ctx.self ==> r == other
  {
    if j == ctx.self then own else other
  }

  /**
   The field `nbr` gives when every device exports a field: at a neighbour j the
   entry that j last exported for this device, at the device itself its own last
   export, and `default` where nothing was exported.
   */
  function NbrAt<V>(ctx: Context, own: map<Id, V>, exported: map<Id, map<Id, V>>, default: V, j: Id): (r: V)
    ensures j == ctx.self ==> r == At(own, ctx.self, default)
    ensures j != ctx.self && j in exported ==> r == At(exported[j], ctx.self, default)
    ensures j != ctx.self && j !in exported ==> r == default
  {
    if j == ctx.self then At(own, ctx.self, default)
    else if j in exported then At(exported[j], ctx.self, default)
    else default
  }

  // ---------------------------------------------------------------------------
  // Enumeration of a domain in increasing id order
  // ---------------------------------------------------------------------------

  /** `m` is the least id of `s`. */
  predicate IsLeast(m: Id, s: set<Id>)
  {
    m in s && forall k :: k in s ==> m <= k
  }

  lemma {:induction false} SmallestExists(s: set<Id>)
    requires s != {}
    ensures exists m :: IsLeast(m, s)
    decreases s
  {
    var y :| y in s;
    if s == {y} {
      assert IsLeast(y, s);
    } else {
      var rest := s - {y};
      SmallestExists(rest);
      var m :| IsLeast(m, rest);
      var least := if y < m then y else m;
      forall k | k in s
        ensures least <= k
      {
        if k != y {
          assert k in rest;
        }
      }
      assert IsLeast(least, s);
    }
  }

  /** The least id of a non-empty domain. */
  function Smallest(s: set<Id>): (m: Id)
    requires s != {}
    ensures m in s && forall k :: k in s ==> m <= k
  {
    SmallestExists(s);
    var m :| IsLeast(m, s);
    m
  }

  // ---------------------------------------------------------------------------
  // fold_hood
  // ---------------------------------------------------------------------------

  /** Combines the entries of `g` over `s` in increasing id order. */
  function FoldSet<T>(acc: (T, T) -> T, s: set<Id>, g: map<Id, T>): T
    requires s != {} && s <= g.Keys
    decreases s
  {
    var m := Smallest(s);
    if s == {m} then g[m] else acc(g[m], FoldSet(acc, s - {m}, g))
  }

  /** `FoldSet`, extended to the empty set by the neutral element `e`. */
  function FoldOr<T>(acc: (T, T) -> T, e: T, s: set<Id>, g: map<Id, T>): T
    requires s <= g.Keys
  {
    if s == {} then e else FoldSet(acc, s, g)
  }

  /**
   `fold_hood(CALL, acc, f, v)`: combines the entries of the field `f` over the
   domain, with the device's own entry replaced by `v`.
   */
  function FoldHood<T>(acc: (T, T) -> T, ctx: Context, f: map<Id, T>, v: T): T
    requires ctx.Dom() <= f.Keys
  {
    FoldSet(acc, ctx.Dom(), f[ctx.self := v])
  }

  /**
   `acc` is associative and commutative and `e` is its neutral element. The laws
   are only instantiated where `Operands` names the values involved, which keeps
   them from being applied to every combination a proof mentions.
   */
  ghost predicate IsCommutativeMonoid<T(!new)>(acc: (T, T) -> T, e: T)
  {
    && (forall a, b, c {:trigger Operands(a, b, c)} ::
          Operands(a, b, c) ==> acc(a, acc(b, c)) == acc(acc(a, b), c) && acc(a, b) == acc(b, a))
    && (forall a {:trigger Operands(e, a, a)} :: Operands(e, a, a) ==> acc(e, a) == a)
  }

  /** Marks the values a monoid law is applied to. */
  ghost predicate Operands<T>(a: T, b: T, c: T)
  {
    true
  }

  /** In a commutative monoid the first two operands of a nested combination can be exchanged. */
  lemma Exchange<T(!new)>(acc: (T, T) -> T, e: T, a: T, b: T, c: T)
    requires IsCommutativeMonoid(acc, e)
    ensures acc(a, acc(b, c)) == acc(b, acc(a, c))
  {
    assert Operands(a, b, c) && Operands(b, a, c);
  }

  /** The neutral element is neutral on both sides. */
  lemma Neutral<T(!new)>(acc: (T, T) -> T, e: T, a: T)
    requires IsCommutativeMonoid(acc, e)
    ensures acc(e, a) == a && acc(a, e) == a
  {
    assert Operands(e, a, a) && Operands(a, e, e);
  }

  /** With a neutral element, the last entry of the fold need not be special-cased. */
  lemma FoldOrUnfold<T(!new)>(acc: (T, T) -> T, e: T, s: set<Id>, g: map<Id, T>)
    requires IsCommutativeMonoid(acc, e)
    requires s != {} && s <= g.Keys
    ensures FoldOr(acc, e, s, g) == acc(g[Smallest(s)], FoldOr(acc, e, s - {Smallest(s)}, g))
  {
    var m := Smallest(s);
    if s == {m} {
      assert s - {m} == {};
      Neutral(acc, e, g[m]);
    }
  }

  /**
   For a commutative monoid, any entry can be combined first: the fold does not
   depend on the order in which the domain is enumerated.
   */
  lemma {:induction false} FoldOrPeel<T(!new)>(acc: (T, T) -> T, e: T, s: set<Id>, g: map<Id, T>, y: Id)
    requires IsCommutativeMonoid(acc, e)
    requires y in s && s <= g.Keys
    ensures FoldOr(acc, e, s, g) == acc(g[y], FoldOr(acc, e, s - {y}, g))
    decreases s
  {
    var m := Smallest(s);
    FoldOrUnfold(acc, e, s, g);
    if y != m {
      var rest := s - {m} - {y};
      assert s - {y} - {m} == rest;
      FoldOrPeel(acc, e, s - {m}, g, y);
      var k := Smallest(s - {y});
      assert m in s - {y} && k in s;
      FoldOrUnfold(acc, e, s - {y}, g);
      Exchange(acc, e, g[m], g[y], FoldOr(acc, e, rest, g));
    }
  }

  /**
   For a commutative monoid, `fold_hood` is the device's own value `v` combined
   with the fold of the field over the neighbours alone.
   */
  lemma FoldHoodSplitsSelf<T(!new)>(acc: (T, T) -> T, e: T, ctx: Context, f: map<Id, T>, v: T)
    requires IsCommutativeMonoid(acc, e)
    requires ctx.Dom() <= f.Keys
    ensures FoldHood(acc, ctx, f, v) == acc(v, FoldOr(acc, e, ctx.Dom() - {ctx.self}, f))
  {
    var g := f[ctx.self := v];
    FoldOrPeel(acc, e, ctx.Dom(), g, ctx.self);
    FoldOrCongruent(acc, e, ctx.Dom() - {ctx.self}, g, f);
  }

  /** Entries equal to the neutral element do not change the fold. */
  lemma {:induction false} FoldOrDropsNeutral<T(!new)>(acc: (T, T) -> T, e: T, s: set<Id>, t: set<Id>, g: map<Id, T>)
    requires IsCommutativeMonoid(acc, e)
    requires t <= s <= g.Keys
    requires forall j :: j in s && j !in t ==> g[j] == e
    ensures FoldOr(acc, e, s, g) == FoldOr(acc, e, t, g)
    decreases s
  {
    if s != t {
      var y :| y in s && y !in t;
      FoldOrPeel(acc, e, s, g, y);
      Neutral(acc, e, FoldOr(acc, e, s - {y}, g));
      FoldOrDropsNeutral(acc, e, s - {y}, t, g);
    }
  }

  /** The fold only reads the entries of its domain. */
  lemma {:induction false} FoldOrCongruent<T>(acc: (T, T) -> T, e: T, s: set<Id>, g: map<Id, T>, h: map<Id, T>)
    requires s <= g.Keys && s <= h.Keys
    requires forall j :: j in s ==> g[j] == h[j]
    ensures FoldOr(acc, e, s, g) == FoldOr(acc, e, s, h)
    decreases s
  {
    if s != {} {
      var m := Smallest(s);
      if s != {m} {
        FoldOrCongruent(acc, e, s - {m}, g, h);
      }
    }
  }
}
