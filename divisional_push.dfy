/**
 * Pushing a divisional button: the divisional recalls its combination, the
 * buttons of its manual are redrawn, and, unless the setter is active, every
 * engaged divisional coupler that lists the manual pushes the divisional with
 * the same number on the other manuals it lists.
 */
module DivisionalPush {

  /** A divisional, named by its manual and its number among that manual's divisionals. */
  datatype DivisionalRef = DivisionalRef(manual: int, number: nat)

  /** A divisional coupler: whether it is engaged, whether it couples both ways, and the manuals it lists. */
  datatype DivisionalCoupler = DivisionalCoupler(engaged: bool, bidirectional: bool, manuals: seq<int>)

  /** The position of the first occurrence of `m` in `ms`, or `|ms|` when there is none. */
  function FirstIndex(ms: seq<int>, m: int): (i: nat)
    ensures i <= |ms|
    ensures i < |ms| ==> ms[i] == m
    ensures forall j :: 0 <= j < i ==> ms[j] != m
    decreases |ms|
  {
    if ms == [] then 0
    else if ms[0] == m then 0
    else 1 + FirstIndex(ms[1..], m)
  }

  /** The manuals `ms` lists after the first occurrence of `m`; none when `m` is not listed. */
  function ListedAfter(ms: seq<int>, m: int): seq<int>
    decreases |ms|
  {
    if ms == [] then []
    else if ms[0] == m then ms[1..]
    else ListedAfter(ms[1..], m)
  }

  /** The manuals `ms` lists before the first occurrence of `m`; all of them when `m` is not listed. */
  function ListedBefore(ms: seq<int>, m: int): seq<int>
    decreases |ms|
  {
    if ms == [] || ms[0] == m then []
    else [ms[0]] + ListedBefore(ms[1..], m)
  }

  /**
   * The manuals one coupler passes a push on manual `m` to, in push order:
   * nothing when it is disengaged or does not list `m`; otherwise the manuals
   * listed after the first occurrence of `m`, followed, for a bidirectional
   * coupler, by those listed before it.
   */
  function CoupledManuals(c: DivisionalCoupler, m: int): seq<int> {
    if !c.engaged || FirstIndex(c.manuals, m) == |c.manuals| then []
    else ListedAfter(c.manuals, m) + if c.bidirectional then ListedBefore(c.manuals, m) else []
  }

  /** The concatenation of the first `k` parts, in order. */
  function Flatten<T>(parts: seq<seq<T>>, k: nat): seq<T>
    requires k <= |parts|
  {
    if k == 0 then [] else Flatten(parts, k - 1) + parts[k - 1]
  }

  /** For each coupler, in order, the manuals it passes a push on manual `m` to. */
  function CouplerParts(couplers: seq<DivisionalCoupler>, m: int): seq<seq<int>>
  {
    seq(|couplers|, k requires 0 <= k < |couplers| => CoupledManuals(couplers[k], m))
  }

  /** The manuals all couplers, in order, pass a push on manual `m` to. */
  function PropagatedManuals(couplers: seq<DivisionalCoupler>, m: int): seq<int> {
    Flatten(CouplerParts(couplers, m), |couplers|)
  }

  /** The divisional numbered `n` on each manual of `ms`. */
  function Refs(ms: seq<int>, n: nat): seq<DivisionalRef>
  {
    seq(|ms|, k requires 0 <= k < |ms| => DivisionalRef(ms[k], n))
  }

  /** Every local push that pushing `d` performs, in order. */
  function Pushes(d: DivisionalRef, setterActive: bool, couplers: seq<DivisionalCoupler>): seq<DivisionalRef> {
    [d] + if setterActive then [] else Refs(PropagatedManuals(couplers, d.manual), d.number)
  }

  /**
   * The divisional buttons and their use, for the part of the organ a push
   * touches. GOrgueCombination::PushLocal, which recalls the stored
   * combination, is not part of this model: `used` stands for what it reports
   * and `recalled` records, in order, every divisional whose combination was recalled.
   */
  class Organ {
    /** The number of divisionals on each manual. */
    const divisionalCount: map<int, nat>
    /** What recalling a divisional's combination reports. */
    const used: DivisionalRef -> bool
    /** The divisional couplers with their engagement, and whether the setter is active; a push only reads them. */
    const couplers: seq<DivisionalCoupler>
    const setterActive: bool
    /** Whether each divisional's button is displayed on. */
    var lit: map<DivisionalRef, bool>
    var recalled: seq<DivisionalRef>
    /** The display before the first recall of `recalled`. */
    ghost var lit0: map<DivisionalRef, bool>

    /** The display is what the recalls of the log have made of the initial one. */
    ghost predicate Valid()
      reads this
    {
      AllPresent(recalled) && lit == ShownAll(lit0, recalled)
    }

    constructor (counts: map<int, nat>, pushUsed: DivisionalRef -> bool, cs: seq<DivisionalCoupler>, setter: bool)
      ensures divisionalCount == counts && used == pushUsed && couplers == cs && setterActive == setter
      ensures lit == map[] && recalled == []
      ensures Valid()
    {
      divisionalCount := counts;
      used := pushUsed;
      couplers := cs;
      setterActive := setter;
      lit := map[];
      recalled := [];
      lit0 := map[];
    }

    predicate HasDivisional(d: DivisionalRef) {
      d.manual in divisionalCount && d.number < divisionalCount[d.manual]
    }

    /** The display after PushLocal of `d` has redrawn the first `k` divisionals of its manual. */
    function ShownUpTo(l: map<DivisionalRef, bool>, d: DivisionalRef, k: nat): map<DivisionalRef, bool>
      requires HasDivisional(d) && k <= divisionalCount[d.manual]
    {
      if k == 0 then l
      else ShownUpTo(l, d, k - 1)[DivisionalRef(d.manual, k - 1) := (k - 1 == d.number && used(d))]
    }

    /** The display after PushLocal of `d`. */
    function Shown(l: map<DivisionalRef, bool>, d: DivisionalRef): map<DivisionalRef, bool>
      requires HasDivisional(d)
    {
      ShownUpTo(l, d, divisionalCount[d.manual])
    }

    /**
     * After PushLocal of `d` every divisional of its manual is displayed off,
     * except `d` itself, which is displayed on exactly when its recall was
     * used; the buttons of other manuals are as they were.
     */
    lemma {:induction false} ShownUpToSpec(l: map<DivisionalRef, bool>, d: DivisionalRef, k: nat)
      requires HasDivisional(d) && k <= divisionalCount[d.manual]
      ensures forall j :: 0 <= j < k ==>
                DivisionalRef(d.manual, j) in ShownUpTo(l, d, k)
                && ShownUpTo(l, d, k)[DivisionalRef(d.manual, j)] == (j == d.number && used(d))
      ensures forall e: DivisionalRef :: e.manual != d.manual || e.number >= k ==>
                (e in ShownUpTo(l, d, k) <==> e in l) && (e in l ==> ShownUpTo(l, d, k)[e] == l[e])
    {
      if k > 0 {
        ShownUpToSpec(l, d, k - 1);
      }
    }

    /** The display PushLocal leaves, stated for the whole manual. */
    lemma ShownSpec(l: map<DivisionalRef, bool>, d: DivisionalRef)
      requires HasDivisional(d)
      ensures forall j :: 0 <= j < divisionalCount[d.manual] ==>
                DivisionalRef(d.manual, j) in Shown(l, d)
                && Shown(l, d)[DivisionalRef(d.manual, j)] == (j == d.number && used(d))
      ensures forall e: DivisionalRef :: e.manual != d.manual || e.number >= divisionalCount[d.manual] ==>
                (e in Shown(l, d) <==> e in l) && (e in l ==> Shown(l, d)[e] == l[e])
    {
      ShownUpToSpec(l, d, divisionalCount[d.manual]);
    }

    /** Every divisional of `ds` exists. */
    predicate AllPresent(ds: seq<DivisionalRef>) {
      forall k :: 0 <= k < |ds| ==> HasDivisional(ds[k])
    }

    /** The display after the first `k` local pushes of `ds`, first to last. */
    function ShownPrefix(l: map<DivisionalRef, bool>, ds: seq<DivisionalRef>, k: nat): map<DivisionalRef, bool>
      requires k <= |ds| && AllPresent(ds)
    {
      if k == 0 then l else Shown(ShownPrefix(l, ds, k - 1), ds[k - 1])
    }

    /** The display after the local pushes `ds`, first to last. */
    function ShownAll(l: map<DivisionalRef, bool>, ds: seq<DivisionalRef>): map<DivisionalRef, bool>
      requires AllPresent(ds)
    {
      ShownPrefix(l, ds, |ds|)
    }

    /**
     * After the local pushes `ds[..q]`, the buttons of the manual of `ds[k]`
     * show the last of them on that manual: only `ds[k]` can be on, and it is
     * on exactly when its recall was used.
     */
    lemma {:induction false} ShownPrefixLastWins(l: map<DivisionalRef, bool>, ds: seq<DivisionalRef>, q: nat, k: nat, j: nat)
      requires AllPresent(ds) && k < q <= |ds|
      requires forall k' :: k < k' < q ==> ds[k'].manual != ds[k].manual
      requires j < divisionalCount[ds[k].manual]
      ensures DivisionalRef(ds[k].manual, j) in ShownPrefix(l, ds, q)
      ensures ShownPrefix(l, ds, q)[DivisionalRef(ds[k].manual, j)] == (j == ds[k].number && used(ds[k]))
      decreases q
    {
      ShownSpec(ShownPrefix(l, ds, q - 1), ds[q - 1]);
      if k < q - 1 {
        ShownPrefixLastWins(l, ds, q - 1, k, j);
      }
    }

    /** The local pushes `ds[..q]` leave the buttons of every other manual as they were. */
    lemma {:induction false} ShownPrefixOtherManuals(l: map<DivisionalRef, bool>, ds: seq<DivisionalRef>, q: nat, e: DivisionalRef)
      requires AllPresent(ds) && q <= |ds|
      requires forall k :: 0 <= k < q ==> ds[k].manual != e.manual
      ensures e in ShownPrefix(l, ds, q) <==> e in l
      ensures e in l ==> ShownPrefix(l, ds, q)[e] == l[e]
      decreases q
    {
      if q > 0 {
        ShownPrefixOtherManuals(l, ds, q - 1, e);
        ShownSpec(ShownPrefix(l, ds, q - 1), ds[q - 1]);
      }
    }

    /** The first `k` local pushes of `ds` do not depend on what follows them. */
    lemma {:induction false} ShownPrefixOfPrefix(l: map<DivisionalRef, bool>, ds: seq<DivisionalRef>, es: seq<DivisionalRef>, k: nat)
      requires AllPresent(ds + es) && k <= |ds|
      ensures AllPresent(ds) && ShownPrefix(l, ds + es, k) == ShownPrefix(l, ds, k)
      decreases k
    {
      assert forall j :: 0 <= j < |ds| ==> (ds + es)[j] == ds[j];
      if k > 0 {
        ShownPrefixOfPrefix(l, ds, es, k - 1);
      }
    }

    /** The local pushes `ds` and then `d` leave the display that `d` leaves after `ds`. */
    lemma ShownAllSnoc(l: map<DivisionalRef, bool>, ds: seq<DivisionalRef>, d: DivisionalRef)
      requires AllPresent(ds) && HasDivisional(d)
      ensures AllPresent(ds + [d]) && ShownAll(l, ds + [d]) == Shown(ShownAll(l, ds), d)
    {
      assert AllPresent(ds + [d]);
      ShownPrefixOfPrefix(l, ds, [d], |ds|);
    }

    /** The local pushes `ds` and then `es` leave the display that `es` leaves after `ds`. */
    lemma {:induction false} ShownAllAppend(l: map<DivisionalRef, bool>, ds: seq<DivisionalRef>, es: seq<DivisionalRef>)
      requires AllPresent(ds + es)
      ensures AllPresent(ds) && AllPresent(es)
      ensures ShownAll(l, ds + es) == ShownAll(ShownAll(l, ds), es)
      decreases |es|
    {
      assert forall j :: 0 <= j < |ds| ==> (ds + es)[j] == ds[j];
      assert forall j :: 0 <= j < |es| ==> (ds + es)[|ds| + j] == es[j];
      if es != [] {
        var es', e := es[..|es| - 1], es[|es| - 1];
        assert es == es' + [e];
        assert ds + es == (ds + es') + [e];
        ShownAllAppend(l, ds, es');
        ShownAllSnoc(l, ds + es', e);
        ShownAllSnoc(ShownAll(l, ds), es', e);
      } else {
        assert ds + es == ds;
      }
    }

    /** PushLocal: recall `d`'s combination and redraw every divisional button of its manual. */
    method PushLocal(d: DivisionalRef) returns (u: bool)
      requires Valid() && HasDivisional(d)
      modifies this`lit, this`recalled
      ensures Valid()
      ensures u == used(d)
      ensures recalled == old(recalled) + [d]
      ensures lit == Shown(old(lit), d)
    {
      u := used(d);
      recalled := recalled + [d];
      var count := divisionalCount[d.manual];
      var k := 0;
      while k < count
        invariant 0 <= k <= count
        invariant recalled == old(recalled) + [d]
        invariant lit == ShownUpTo(old(lit), d, k)
      {
        lit := lit[DivisionalRef(d.manual, k) := (k == d.number && u)];
        k := k + 1;
      }
      ShownAllSnoc(lit0, old(recalled), d);
    }

    /**
     * Push: a local push of `d`, then, unless the setter is active, for every
     * engaged coupler the local pushes of the divisionals it couples to `d`.
     */
    method Push(d: DivisionalRef)
      requires Valid() && AllPresent(Pushes(d, setterActive, couplers))
      modifies this`lit, this`recalled
      ensures Valid()
      ensures recalled == old(recalled) + Pushes(d, setterActive, couplers)
      ensures lit == ShownAll(old(lit), Pushes(d, setterActive, couplers))
    {
      ghost var ps := Pushes(d, setterActive, couplers);
      assert ps[0] == d;
      var _ := PushLocal(d);
      LogStep(old(recalled), ps, 0);
      if !setterActive {
        PushCouplers(d, ps, old(recalled));
      }
      assert ps[..|ps|] == ps;
      ShownAllAppend(lit0, old(recalled), ps);
    }

    /** The log after the first `q` of the local pushes `ps`, starting from the log `r0`. */
    ghost predicate Reached(r0: seq<DivisionalRef>, ps: seq<DivisionalRef>, q: nat)
      reads this
    {
      AllPresent(ps) && q <= |ps| && recalled == r0 + ps[..q]
    }

    /** Push's loop over the divisional couplers, after the local push of `d`. */
    method PushCouplers(d: DivisionalRef, ghost ps: seq<DivisionalRef>, ghost r0: seq<DivisionalRef>)
      requires ps == Pushes(d, false, couplers) && Valid() && Reached(r0, ps, 1)
      modifies this`lit, this`recalled
      ensures Valid() && Reached(r0, ps, |ps|)
    {
      ghost var parts := CouplerParts(couplers, d.manual);
      var k := 0;
      while k < |couplers|
        invariant 0 <= k <= |couplers|
        invariant Valid() && Reached(r0, ps, 1 + |Flatten(parts, k)|)
      {
        PushCoupler(k, d, ps, r0);
        k := k + 1;
      }
      assert 1 + |Flatten(parts, |couplers|)| == |ps|;
    }

    /**
     * The body of Push's loop for coupler `k`: nothing when it is disengaged,
     * otherwise its local pushes. `ps` are all the local pushes of the
     * enclosing Push, of which those of the couplers before `k` are done.
     */
    method PushCoupler(k: nat, d: DivisionalRef, ghost ps: seq<DivisionalRef>, ghost r0: seq<DivisionalRef>)
      requires k < |couplers| && ps == Pushes(d, false, couplers)
      requires Valid() && Reached(r0, ps, 1 + |Flatten(CouplerParts(couplers, d.manual), k)|)
      modifies this`lit, this`recalled
      ensures Valid() && Reached(r0, ps, 1 + |Flatten(CouplerParts(couplers, d.manual), k + 1)|)
    {
      var c := couplers[k];
      CouplerPushes(d, couplers, k);
      if c.engaged {
        PushCoupled(c, d, ps, 1 + |Flatten(CouplerParts(couplers, d.manual), k)|, r0);
      }
    }

    /**
     * The rest of Push's loop body for one engaged coupler: find the first
     * position that lists the manual, push the manuals after it and, for a
     * bidirectional coupler, those before it. `ps` are all the local pushes
     * of the enclosing Push, of which `off` are done.
     */
    method PushCoupled(c: DivisionalCoupler, d: DivisionalRef, ghost ps: seq<DivisionalRef>, ghost off: nat, ghost r0: seq<DivisionalRef>)
      requires c.engaged && off + |CoupledManuals(c, d.manual)| <= |ps|
      requires forall p :: 0 <= p < |CoupledManuals(c, d.manual)| ==>
                 ps[off + p] == DivisionalRef(CoupledManuals(c, d.manual)[p], d.number)
      requires Valid() && Reached(r0, ps, off)
      modifies this`lit, this`recalled
      ensures Valid() && Reached(r0, ps, off + |CoupledManuals(c, d.manual)|)
    {
      var m, n, ms := d.manual, d.number, c.manuals;
      var i := FindManual(ms, m);
      if i == |ms| {
        assert CoupledManuals(c, m) == [];
        return;
      }
      CoupledPushesAfter(c, m, i, n, ps, off);
      PushAfter(ms, i, n, ps, off, r0);
      if c.bidirectional {
        PushCoupledBefore(c, d, i, ps, off, r0);
      }
    }

    /**
     * The second loop of a bidirectional coupler, as a step of PushCoupled:
     * the manuals after the first occurrence, at position `i`, are pushed.
     */
    method PushCoupledBefore(c: DivisionalCoupler, d: DivisionalRef, ghost i: nat, ghost ps: seq<DivisionalRef>, ghost off: nat, ghost r0: seq<DivisionalRef>)
      requires c.engaged && c.bidirectional && i == FirstIndex(c.manuals, d.manual) < |c.manuals|
      requires off + |CoupledManuals(c, d.manual)| <= |ps|
      requires forall p :: 0 <= p < |CoupledManuals(c, d.manual)| ==>
                 ps[off + p] == DivisionalRef(CoupledManuals(c, d.manual)[p], d.number)
      requires Valid() && Reached(r0, ps, off + |c.manuals| - i - 1)
      modifies this`lit, this`recalled
      ensures Valid() && Reached(r0, ps, off + |CoupledManuals(c, d.manual)|)
    {
      CoupledPushesBefore(c, d.manual, i, d.number, ps, off);
      PushBefore(c.manuals, d.manual, d.number, ps, off + |c.manuals| - i - 1, r0);
    }

    /** The first loop of a coupler: push the divisional on every manual listed after position `i`. */
    method PushAfter(ms: seq<int>, i: nat, n: nat, ghost ps: seq<DivisionalRef>, ghost off: nat, ghost r0: seq<DivisionalRef>)
      requires i < |ms| && off + |ms| - i - 1 <= |ps|
      requires forall j :: i < j < |ms| ==> ps[off + j - i - 1] == DivisionalRef(ms[j], n)
      requires Valid() && Reached(r0, ps, off)
      modifies this`lit, this`recalled
      ensures Valid() && Reached(r0, ps, off + |ms| - i - 1)
    {
      var j := i + 1;
      while j < |ms|
        invariant i + 1 <= j <= |ms|
        invariant Valid() && Reached(r0, ps, off + j - i - 1)
      {
        var r := DivisionalRef(ms[j], n);
        var _ := PushLocal(r);
        LogStep(r0, ps, off + j - i - 1);
        j := j + 1;
      }
    }

    /** The second loop of a bidirectional coupler: push the divisional on every manual listed before the first `m`. */
    method PushBefore(ms: seq<int>, m: int, n: nat, ghost ps: seq<DivisionalRef>, ghost off: nat, ghost r0: seq<DivisionalRef>)
      requires FirstIndex(ms, m) < |ms| && off + FirstIndex(ms, m) <= |ps|
      requires forall j :: 0 <= j < FirstIndex(ms, m) ==> ps[off + j] == DivisionalRef(ms[j], n)
      requires Valid() && Reached(r0, ps, off)
      modifies this`lit, this`recalled
      ensures Valid() && Reached(r0, ps, off + FirstIndex(ms, m))
    {
      ghost var first := FirstIndex(ms, m);
      var j := 0;
      while j < |ms|
        invariant 0 <= j <= first
        invariant Valid() && Reached(r0, ps, off + j)
      {
        if ms[j] == m {
          break;
        }
        var r := DivisionalRef(ms[j], n);
        var _ := PushLocal(r);
        LogStep(r0, ps, off + j);
        j := j + 1;
      }
    }
  }

  /** A log that holds a prefix of `ps`, extended by the next element of `ps`. */
  lemma LogStep<T>(r0: seq<T>, ps: seq<T>, q: nat)
    requires q < |ps|
    ensures r0 + ps[..q] + [ps[q]] == r0 + ps[..q + 1]
  {
    assert ps[..q] + [ps[q]] == ps[..q + 1];
  }

  /**
   * Among the local pushes of an unhindered Push of `d`, those of coupler `k`
   * come right after the first push and those of the couplers before it.
   */
  lemma CouplerPushes(d: DivisionalRef, couplers: seq<DivisionalCoupler>, k: nat)
    requires k < |couplers|
    ensures var parts := CouplerParts(couplers, d.manual);
            var off := 1 + |Flatten(parts, k)|;
            var cm := CoupledManuals(couplers[k], d.manual);
            off + |cm| == 1 + |Flatten(parts, k + 1)| <= |Pushes(d, false, couplers)|
            && forall p :: 0 <= p < |cm| ==> Pushes(d, false, couplers)[off + p] == DivisionalRef(cm[p], d.number)
  {
    var parts := CouplerParts(couplers, d.manual);
    PushesOfPart(d, parts, k);
    assert parts[k] == CoupledManuals(couplers[k], d.manual);
    assert Flatten(parts, k + 1) == Flatten(parts, k) + parts[k];
  }

  /**
   * Among the local pushes `[d]` followed by the divisionals numbered like `d`
   * on the manuals of all `parts`, those of part `k` come right after the first
   * push and those of the parts before it.
   */
  lemma PushesOfPart(d: DivisionalRef, parts: seq<seq<int>>, k: nat)
    requires k < |parts|
    ensures 1 + |Flatten(parts, k)| + |parts[k]| <= 1 + |Flatten(parts, |parts|)|
    ensures forall p :: 0 <= p < |parts[k]| ==>
              ([d] + Refs(Flatten(parts, |parts|), d.number))[1 + |Flatten(parts, k)| + p]
                == DivisionalRef(parts[k][p], d.number)
  {
    var prop := Flatten(parts, |parts|);
    var ps := [d] + Refs(prop, d.number);
    var off := 1 + |Flatten(parts, k)|;
    PartWithin(parts, k);
    forall p | 0 <= p < |parts[k]|
      ensures ps[off + p] == DivisionalRef(parts[k][p], d.number)
    {
      assert ps[off + p] == Refs(prop, d.number)[off - 1 + p];
    }
  }

  /** The concatenation of the first `k` parts begins that of the first `j`: position `p` of it is kept. */
  lemma {:induction false} FlattenExtends<T>(parts: seq<seq<T>>, k: nat, j: nat, p: nat)
    requires k <= j <= |parts| && p < |Flatten(parts, k)|
    ensures p < |Flatten(parts, j)| && Flatten(parts, j)[p] == Flatten(parts, k)[p]
    decreases j
  {
    if k < j {
      FlattenExtends(parts, k, j - 1, p);
      assert Flatten(parts, j) == Flatten(parts, j - 1) + parts[j - 1];
    }
  }

  /** The concatenation of the first `k` parts is no longer than that of the first `j`. */
  lemma {:induction false} FlattenGrows<T>(parts: seq<seq<T>>, k: nat, j: nat)
    requires k <= j <= |parts|
    ensures |Flatten(parts, k)| <= |Flatten(parts, j)|
    decreases j
  {
    if k < j {
      FlattenGrows(parts, k, j - 1);
    }
  }

  /** Position `p` of part `k` sits in the whole concatenation right after the parts before it. */
  lemma PartAt<T>(parts: seq<seq<T>>, k: nat, p: nat)
    requires k < |parts| && p < |parts[k]|
    ensures |Flatten(parts, k)| + p < |Flatten(parts, |parts|)|
    ensures Flatten(parts, |parts|)[|Flatten(parts, k)| + p] == parts[k][p]
  {
    var before := Flatten(parts, k);
    assert Flatten(parts, k + 1)[|before| + p] == parts[k][p];
    FlattenExtends(parts, k + 1, |parts|, |before| + p);
  }

  /** Part `k` sits in the whole concatenation right after the parts before it. */
  lemma PartWithin<T>(parts: seq<seq<T>>, k: nat)
    requires k < |parts|
    ensures |Flatten(parts, k)| + |parts[k]| <= |Flatten(parts, |parts|)|
    ensures forall p :: 0 <= p < |parts[k]| ==> Flatten(parts, |parts|)[|Flatten(parts, k)| + p] == parts[k][p]
  {
    FlattenGrows(parts, k + 1, |parts|);
    forall p | 0 <= p < |parts[k]|
      ensures Flatten(parts, |parts|)[|Flatten(parts, k)| + p] == parts[k][p]
    {
      PartAt(parts, k, p);
    }
  }

  /** The manuals listed after and before the first occurrence of `m`, as slices. */
  lemma {:induction false} ListedSlices(ms: seq<int>, m: int)
    ensures FirstIndex(ms, m) < |ms| ==> ListedAfter(ms, m) == ms[FirstIndex(ms, m) + 1..]
    ensures FirstIndex(ms, m) == |ms| ==> ListedAfter(ms, m) == []
    ensures ListedBefore(ms, m) == ms[..FirstIndex(ms, m)]
    decreases |ms|
  {
    if ms != [] && ms[0] != m {
      ListedSlices(ms[1..], m);
      var i := FirstIndex(ms[1..], m);
      if i < |ms| - 1 {
        assert ms[1..][i + 1..] == ms[i + 2..];
      }
      assert [ms[0]] + ms[1..][..i] == ms[..i + 1];
    }
  }

  /** The search of Push's coupler loop: the first position of `ms` that lists `m`, or `|ms|`. */
  method FindManual(ms: seq<int>, m: int) returns (i: nat)
    ensures i == FirstIndex(ms, m)
  {
    i := 0;
    while i < |ms|
      invariant i <= |ms|
      invariant forall j :: 0 <= j < i ==> ms[j] != m
    {
      if ms[i] == m {
        return;
      }
      i := i + 1;
    }
  }

  /**
   * When the pushes from `off` on are those of the divisionals numbered `n`
   * on the manuals coupler `c` passes a push on `m` to, the manuals listed
   * after the first `m` (at position `i`) come first.
   */
  lemma CoupledPushesAfter(c: DivisionalCoupler, m: int, i: nat, n: nat, ps: seq<DivisionalRef>, off: nat)
    requires c.engaged && i == FirstIndex(c.manuals, m) < |c.manuals|
    requires off + |CoupledManuals(c, m)| <= |ps|
    requires forall p :: 0 <= p < |CoupledManuals(c, m)| ==>
               ps[off + p] == DivisionalRef(CoupledManuals(c, m)[p], n)
    ensures |CoupledManuals(c, m)| == |c.manuals| - 1 - if c.bidirectional then 0 else i
    ensures forall j :: i < j < |c.manuals| ==> ps[off + j - i - 1] == DivisionalRef(c.manuals[j], n)
  {
    ListedSlices(c.manuals, m);
    var cm := CoupledManuals(c, m);
    forall j | i < j < |c.manuals| ensures ps[off + j - i - 1] == DivisionalRef(c.manuals[j], n) {
      assert cm[j - i - 1] == c.manuals[j];
    }
  }

  /** ... and, for a bidirectional coupler, the manuals listed before it follow. */
  lemma CoupledPushesBefore(c: DivisionalCoupler, m: int, i: nat, n: nat, ps: seq<DivisionalRef>, off: nat)
    requires c.engaged && c.bidirectional && i == FirstIndex(c.manuals, m) < |c.manuals|
    requires off + |CoupledManuals(c, m)| <= |ps|
    requires forall p :: 0 <= p < |CoupledManuals(c, m)| ==>
               ps[off + p] == DivisionalRef(CoupledManuals(c, m)[p], n)
    ensures |CoupledManuals(c, m)| == |c.manuals| - 1
    ensures forall j :: 0 <= j < i ==> ps[off + |c.manuals| - i - 1 + j] == DivisionalRef(c.manuals[j], n)
  {
    ListedSlices(c.manuals, m);
    var cm := CoupledManuals(c, m);
    forall j | 0 <= j < i ensures ps[off + |c.manuals| - i - 1 + j] == DivisionalRef(c.manuals[j], n) {
      assert cm[|c.manuals| - i - 1 + j] == c.manuals[j];
    }
  }

  /**
   * A manual receives the push from coupler `c` exactly when the coupler is
   * engaged, lists `m`, and lists the manual at a position other than the
   * first occurrence of `m`: after it, or before it when the coupler is
   * bidirectional.
   */
  lemma CoupledMembership(c: DivisionalCoupler, m: int, x: int)
    ensures x in CoupledManuals(c, m) <==>
              c.engaged && FirstIndex(c.manuals, m) < |c.manuals| &&
              exists j :: 0 <= j < |c.manuals| && c.manuals[j] == x &&
                (FirstIndex(c.manuals, m) < j || (c.bidirectional && j < FirstIndex(c.manuals, m)))
  {
    var i := FirstIndex(c.manuals, m);
    if c.engaged && i < |c.manuals| {
      if x in CoupledManuals(c, m) {
        CoupledFrom(c, m, i, x);
      }
      if exists j :: 0 <= j < |c.manuals| && c.manuals[j] == x && (i < j || (c.bidirectional && j < i)) {
        CoupledTo(c, m, i, x);
      }
    }
  }

  /** Every manual coupler `c` passes the push to comes from a position other than `i`, the first `m`. */
  lemma CoupledFrom(c: DivisionalCoupler, m: int, i: nat, x: int)
    requires c.engaged && i == FirstIndex(c.manuals, m) < |c.manuals| && x in CoupledManuals(c, m)
    ensures exists j :: 0 <= j < |c.manuals| && c.manuals[j] == x && (i < j || (c.bidirectional && j < i))
  {
    var ms := c.manuals;
    ListedSlices(ms, m);
    if x in ms[i + 1..] {
      var p :| 0 <= p < |ms| - i - 1 && ms[i + 1..][p] == x;
      assert ms[p + i + 1] == x;
    } else {
      var p :| 0 <= p < i && ms[..i][p] == x;
      assert ms[p] == x;
    }
  }

  /** Every position after `i`, the first `m`, and, when bidirectional, before it, passes the push on. */
  lemma CoupledTo(c: DivisionalCoupler, m: int, i: nat, x: int)
    requires c.engaged && i == FirstIndex(c.manuals, m) < |c.manuals|
    requires exists j :: 0 <= j < |c.manuals| && c.manuals[j] == x && (i < j || (c.bidirectional && j < i))
    ensures x in CoupledManuals(c, m)
  {
    var ms := c.manuals;
    ListedSlices(ms, m);
    var j :| 0 <= j < |ms| && ms[j] == x && (i < j || (c.bidirectional && j < i));
    if i < j {
      assert ms[i + 1..][j - i - 1] == x;
    } else {
      assert ms[..i][j] == x;
    }
  }

  /** A bidirectional engaged coupler that lists `m` pushes every other entry of its list, each once. */
  lemma BidirectionalCoupledAllOthers(c: DivisionalCoupler, m: int)
    requires c.engaged && c.bidirectional && m in c.manuals
    ensures multiset(CoupledManuals(c, m)) == multiset(c.manuals) - multiset{m}
  {
    var ms, i := c.manuals, FirstIndex(c.manuals, m);
    ListedSlices(ms, m);
    assert ms == ms[..i] + [m] + ms[i + 1..];
    assert multiset(ms) == multiset(ms[..i]) + multiset{m} + multiset(ms[i + 1..]);
  }

  /** A manual receives the push from some coupler exactly when one of the couplers passes it on. */
  lemma PropagatedMembership(cs: seq<DivisionalCoupler>, m: int, x: int)
    ensures x in PropagatedManuals(cs, m) <==> exists k :: 0 <= k < |cs| && x in CoupledManuals(cs[k], m)
  {
    var parts := CouplerParts(cs, m);
    FlattenMembership(parts, |cs|, x);
    if exists k :: 0 <= k < |cs| && x in CoupledManuals(cs[k], m) {
      var k :| 0 <= k < |cs| && x in CoupledManuals(cs[k], m);
      assert x in parts[k];
    }
  }

  /** An element is in the concatenation of the first `k` parts exactly when it is in one of them. */
  lemma {:induction false} FlattenMembership<T>(parts: seq<seq<T>>, k: nat, x: T)
    requires k <= |parts|
    ensures x in Flatten(parts, k) <==> exists i :: 0 <= i < k && x in parts[i]
  {
    if k > 0 {
      FlattenMembership(parts, k - 1, x);
      if x in parts[k - 1] {
        assert x in Flatten(parts, k);
      }
    }
  }

  /**
   * Pushes do not chain: with one coupler from manual 1 to manual 2 and
   * another from manual 2 to manual 3, a push on manual 1 reaches manual 2
   * but not manual 3.
   */
  lemma NoChaining()
    ensures PropagatedManuals([DivisionalCoupler(true, false, [1, 2]), DivisionalCoupler(true, false, [2, 3])], 1) == [2]
  {
    var cs := [DivisionalCoupler(true, false, [1, 2]), DivisionalCoupler(true, false, [2, 3])];
    assert FirstIndex([1, 2], 1) == 0;
    assert FirstIndex([2, 3], 1) == 2 by {
      assert FirstIndex([3], 1) == 1 by {
        assert [3][1..] == [];
      }
      assert [2, 3][1..] == [3];
    }
    assert CoupledManuals(cs[0], 1) == [2] by {
      assert ListedAfter([1, 2], 1) == [2];
    }
    assert CoupledManuals(cs[1], 1) == [];
    var parts := CouplerParts(cs, 1);
    assert Flatten(parts, 2) == Flatten(parts, 1) + parts[1];
  }

}
