/**
 * What the divisional's encoding and decoding promise: how a list of stored
 * values decides each slot, where Save puts every value, and that loading
 * what Save wrote restores the saved combination.
 */
module DivisionalProofs {
  import opened ConfigStore
  import opened Divisional

  // ---------------------------------------------------------------------------
  // Decoding
  // ---------------------------------------------------------------------------

  /** Whether stored value `s` of kind `t` is looked up to slot `i`. */
  predicate Targets(tmpl: Template, t: SlotType, manual: int, s: int, i: int) {
    tmpl.find(t, manual, Abs(s)) == i
  }

  /** Decoding a list of values leaves a slot that none of them is looked up to as it was. */
  lemma {:induction false} DecodeUntargeted(st: seq<int>, tmpl: Template, t: SlotType, manual: int, vs: seq<int>, i: int)
    requires tmpl.Valid() && |st| == |tmpl.elements| && 0 <= i < |st|
    requires forall n :: 0 <= n < |vs| ==> !Targets(tmpl, t, manual, vs[n], i)
    ensures Decode(st, tmpl, t, manual, vs)[i] == st[i]
    decreases |vs|
  {
    if vs != [] {
      var init := vs[..|vs| - 1];
      assert forall n :: 0 <= n < |init| ==> init[n] == vs[n];
      DecodeUntargeted(st, tmpl, t, manual, init, i);
    }
  }

  /**
   * Decoding a list of values sets a slot that value `vs[n]` is looked up to,
   * and no later one, to 1 or 0 according to the sign of `vs[n]`: the last
   * value for a slot wins.
   */
  lemma {:induction false} DecodeLastTarget(st: seq<int>, tmpl: Template, t: SlotType, manual: int, vs: seq<int>, i: int, n: nat)
    requires tmpl.Valid() && |st| == |tmpl.elements| && 0 <= i < |st|
    requires n < |vs| && Targets(tmpl, t, manual, vs[n], i)
    requires forall m :: n < m < |vs| ==> !Targets(tmpl, t, manual, vs[m], i)
    ensures Decode(st, tmpl, t, manual, vs)[i] == if vs[n] > 0 then 1 else 0
    decreases |vs|
  {
    var init := vs[..|vs| - 1];
    if n < |vs| - 1 {
      assert forall m :: 0 <= m < |init| ==> init[m] == vs[m];
      DecodeLastTarget(st, tmpl, t, manual, init, i, n);
    }
  }

  /** Stored values that the template does not know leave the state as it was. */
  lemma {:induction false} DecodeUnknownValues(st: seq<int>, tmpl: Template, t: SlotType, manual: int, vs: seq<int>)
    requires tmpl.Valid() && |st| == |tmpl.elements|
    requires forall n :: 0 <= n < |vs| ==> tmpl.find(t, manual, Abs(vs[n])) < 0
    ensures Decode(st, tmpl, t, manual, vs) == st
    decreases |vs|
  {
    if vs != [] {
      var init := vs[..|vs| - 1];
      forall n | 0 <= n < |init| ensures init[n] == vs[n] { }
      DecodeUnknownValues(st, tmpl, t, manual, init);
    }
  }

  /**
   * LoadCombination reads the user section only: two stores that agree on
   * every user-section entry of the group load the same state, whatever the
   * organ-definition section holds.
   */
  lemma LoadedReadsUserSectionOnly(cfg1: Store<Key>, cfg2: Store<Key>, group: string, lim: Limits,
                                   tmpl: Template, manual: int, cleared: seq<int>)
    requires tmpl.Valid() && |cleared| == |tmpl.elements|
    requires forall e :: Key(UserSetting, group, e) in cfg1 <==> Key(UserSetting, group, e) in cfg2
    requires forall e :: Key(UserSetting, group, e) in cfg1 ==> cfg1[Key(UserSetting, group, e)] == cfg2[Key(UserSetting, group, e)]
    ensures Loaded(cfg1, group, lim, tmpl, manual, cleared) == Loaded(cfg2, group, lim, tmpl, manual, cleared)
  {
    forall t: SlotType ensures StoredValues(cfg1, group, t, lim) == StoredValues(cfg2, group, t, lim) {
      assert StoredCount(cfg1, group, t, lim) == StoredCount(cfg2, group, t, lim);
      forall n: nat ensures StoredValue(cfg1, group, t, lim, n) == StoredValue(cfg2, group, t, lim, n) {
        var k := Key(UserSetting, group, Numbered(t, n));
        assert k in cfg1 <==> k in cfg2;
      }
    }
  }

  // ---------------------------------------------------------------------------
  // Encoding
  // ---------------------------------------------------------------------------

  /** The values Save writes for the first `k` elements are a prefix of those for the first `k'`. */
  lemma {:induction false} SavedValuesPrefix(elements: seq<Slot>, st: seq<int>, t: SlotType, k: nat, k': nat)
    requires |st| == |elements| && k <= k' <= |elements|
    ensures SavedValues(elements, st, t, k) <= SavedValues(elements, st, t, k')
    decreases k' - k
  {
    if k < k' {
      SavedValuesPrefix(elements, st, t, k, k' - 1);
    }
  }

  /** Whether `v` is what Save writes for one of the first `k` elements, one of kind `t` whose state is not -1. */
  ghost predicate SavedFrom(elements: seq<Slot>, st: seq<int>, t: SlotType, k: nat, v: int)
    requires |st| == |elements| && k <= |elements|
  {
    exists i :: 0 <= i < k && IsSaved(elements[i], st[i], t) && v == SavedValue(elements[i], st[i])
  }

  /**
   * Every value Save writes for kind `t` is the number of an element of that
   * kind whose state is not -1: positive when the state is 1, negative otherwise.
   */
  lemma {:induction false} SavedValuesFromSlots(elements: seq<Slot>, st: seq<int>, t: SlotType, k: nat)
    requires |st| == |elements| && k <= |elements|
    ensures forall n :: 0 <= n < |SavedValues(elements, st, t, k)| ==>
              SavedFrom(elements, st, t, k, SavedValues(elements, st, t, k)[n])
  {
    if k > 0 {
      SavedValuesFromSlots(elements, st, t, k - 1);
      var vs := SavedValues(elements, st, t, k - 1);
      forall n | 0 <= n < |SavedValues(elements, st, t, k)|
        ensures SavedFrom(elements, st, t, k, SavedValues(elements, st, t, k)[n])
      {
        if n < |vs| {
          assert SavedValues(elements, st, t, k)[n] == vs[n];
          assert SavedFrom(elements, st, t, k - 1, vs[n]);
          var i :| 0 <= i < k - 1 && IsSaved(elements[i], st[i], t) && vs[n] == SavedValue(elements[i], st[i]);
          assert 0 <= i < k;
        } else {
          assert IsSaved(elements[k - 1], st[k - 1], t)
                 && SavedValues(elements, st, t, k)[n] == SavedValue(elements[k - 1], st[k - 1]);
        }
      }
    }
  }

  /** The values Save writes for kind `t` are as many as the elements of that kind whose state is not -1. */
  lemma {:induction false} SavedValuesCount(elements: seq<Slot>, st: seq<int>, t: SlotType, k: nat)
    requires |st| == |elements| && k <= |elements|
    ensures |SavedValues(elements, st, t, k)| == |set i | 0 <= i < k && IsSaved(elements[i], st[i], t)|
  {
    if k > 0 {
      SavedValuesCount(elements, st, t, k - 1);
      var before := set i | 0 <= i < k - 1 && IsSaved(elements[i], st[i], t);
      var after := set i | 0 <= i < k && IsSaved(elements[i], st[i], t);
      if IsSaved(elements[k - 1], st[k - 1], t) {
        assert after == before + {k - 1};
      } else {
        assert after == before;
      }
    }
  }

  /** Whether `key` is one of the numbered entries Save writes for the first `k` elements. */
  predicate IsWrittenEntry(key: Key, group: string, elements: seq<Slot>, st: seq<int>, k: nat)
    requires |st| == |elements| && k <= |elements|
  {
    key.section == UserSetting && key.group == group && key.entry.Numbered? && key.entry.t != DivisionalCoupler
    && 1 <= key.entry.n <= |SavedValues(elements, st, key.entry.t, k)|
  }

  /** After writing the first `k` elements, entry number `n` of kind `t` holds that kind's `n`-th value. */
  lemma {:induction false} SavedPrefixEntry(cfg: Store<Key>, group: string, elements: seq<Slot>, st: seq<int>, k: nat,
                                            t: SlotType, n: nat)
    requires |st| == |elements| && k <= |elements|
    requires t != DivisionalCoupler && 1 <= n <= |SavedValues(elements, st, t, k)|
    ensures Key(UserSetting, group, Numbered(t, n)) in SavedPrefix(cfg, group, elements, st, k)
    ensures SavedPrefix(cfg, group, elements, st, k)[Key(UserSetting, group, Numbered(t, n))]
              == IntValue(SavedValues(elements, st, t, k)[n - 1])
  {
    var vs := SavedValues(elements, st, t, k - 1);
    if n <= |vs| {
      assert SavedValues(elements, st, t, k)[n - 1] == vs[n - 1];
      SavedPrefixEntry(cfg, group, elements, st, k - 1, t, n);
    }
  }

  /** Writing the first `k` elements leaves every key that is not one of their entries as it was. */
  lemma {:induction false} SavedPrefixUntouched(cfg: Store<Key>, group: string, elements: seq<Slot>, st: seq<int>, k: nat,
                                                key: Key)
    requires |st| == |elements| && k <= |elements|
    requires !IsWrittenEntry(key, group, elements, st, k)
    ensures key in SavedPrefix(cfg, group, elements, st, k) <==> key in cfg
    ensures key in cfg ==> SavedPrefix(cfg, group, elements, st, k)[key] == cfg[key]
  {
    if k > 0 {
      if key.entry.Numbered? {
        assert |SavedValues(elements, st, key.entry.t, k - 1)| <= |SavedValues(elements, st, key.entry.t, k)|;
      }
      SavedPrefixUntouched(cfg, group, elements, st, k - 1, key);
    }
  }

  /**
   * The layout of what Save writes: `NumberOfStops`, `NumberOfCouplers` and
   * `NumberOfTremulants` hold the number of entries of each kind, the numbered
   * entries of each kind hold its values from 1 on, no key is written for a
   * divisional coupler, and every other key is untouched.
   */
  lemma SavedLayout(cfg: Store<Key>, group: string, elements: seq<Slot>, st: seq<int>)
    requires |st| == |elements|
    ensures forall t :: t != DivisionalCoupler ==>
              var key := Key(UserSetting, group, NumberOf(t));
              key in Saved(cfg, group, elements, st)
              && Saved(cfg, group, elements, st)[key] == IntValue(|SavedValues(elements, st, t, |elements|)|)
    ensures forall t, n :: t != DivisionalCoupler && 1 <= n <= |SavedValues(elements, st, t, |elements|)| ==>
              var key := Key(UserSetting, group, Numbered(t, n));
              key in Saved(cfg, group, elements, st)
              && Saved(cfg, group, elements, st)[key] == IntValue(SavedValues(elements, st, t, |elements|)[n - 1])
    ensures forall key: Key :: key.entry.t == DivisionalCoupler ==>
              (key in Saved(cfg, group, elements, st) <==> key in cfg)
              && (key in cfg ==> Saved(cfg, group, elements, st)[key] == cfg[key])
    ensures forall key: Key :: key.section != UserSetting || key.group != group ==>
              (key in Saved(cfg, group, elements, st) <==> key in cfg)
              && (key in cfg ==> Saved(cfg, group, elements, st)[key] == cfg[key])
  {
    var n := |elements|;
    forall t, j | t != DivisionalCoupler && 1 <= j <= |SavedValues(elements, st, t, n)|
      ensures Key(UserSetting, group, Numbered(t, j)) in Saved(cfg, group, elements, st)
      ensures Saved(cfg, group, elements, st)[Key(UserSetting, group, Numbered(t, j))]
                == IntValue(SavedValues(elements, st, t, n)[j - 1])
    {
      SavedEntry(cfg, group, elements, st, t, j);
    }
    forall key: Key | key.entry.t == DivisionalCoupler || key.section != UserSetting || key.group != group
      ensures key in Saved(cfg, group, elements, st) <==> key in cfg
      ensures key in cfg ==> Saved(cfg, group, elements, st)[key] == cfg[key]
    {
      SavedUntouched(cfg, group, elements, st, key);
    }
  }

  /** Save leaves entry number `n` of kind `t` holding that kind's `n`-th value. */
  lemma SavedEntry(cfg: Store<Key>, group: string, elements: seq<Slot>, st: seq<int>, t: SlotType, n: nat)
    requires |st| == |elements|
    requires t != DivisionalCoupler && 1 <= n <= |SavedValues(elements, st, t, |elements|)|
    ensures Key(UserSetting, group, Numbered(t, n)) in Saved(cfg, group, elements, st)
    ensures Saved(cfg, group, elements, st)[Key(UserSetting, group, Numbered(t, n))]
              == IntValue(SavedValues(elements, st, t, |elements|)[n - 1])
  {
    SavedPrefixEntry(cfg, group, elements, st, |elements|, t, n);
  }

  /** Save leaves every divisional-coupler key, and every key of another group or section, as it was. */
  lemma SavedUntouched(cfg: Store<Key>, group: string, elements: seq<Slot>, st: seq<int>, key: Key)
    requires |st| == |elements|
    requires key.entry.t == DivisionalCoupler || key.section != UserSetting || key.group != group
    ensures key in Saved(cfg, group, elements, st) <==> key in cfg
    ensures key in cfg ==> Saved(cfg, group, elements, st)[key] == cfg[key]
  {
    SavedPrefixUntouched(cfg, group, elements, st, |elements|, key);
  }

  // ---------------------------------------------------------------------------
  // Round trip
  // ---------------------------------------------------------------------------

  /** Every element that Save may write is found again by its kind and number. */
  ghost predicate FindsOwnSlots(tmpl: Template, manual: int) {
    forall i :: 0 <= i < |tmpl.elements| && tmpl.elements[i].slotType != DivisionalCoupler ==>
      0 < tmpl.elements[i].index && tmpl.find(tmpl.elements[i].slotType, manual, tmpl.elements[i].index) == i
  }

  /** Every count and number Save writes lies within the bounds the reader applies. */
  ghost predicate WithinLimits(elements: seq<Slot>, st: seq<int>, lim: Limits)
    requires |st| == |elements|
  {
    && (forall t :: t != DivisionalCoupler ==> |SavedValues(elements, st, t, |elements|)| <= CountBound(t, lim))
    && (forall i :: 0 <= i < |elements| && elements[i].slotType != DivisionalCoupler ==>
          Abs(elements[i].index) <= ValueBound(elements[i].slotType, lim))
  }

  /** The state after decoding, over `base`, the values Save writes for kind `t` among the first `k` elements. */
  function Restored(base: seq<int>, elements: seq<Slot>, st: seq<int>, t: SlotType, k: nat): seq<int>
    requires |st| == |elements| == |base| && k <= |elements|
  {
    seq(|base|, i requires 0 <= i < |base| =>
      if i < k && IsSaved(elements[i], st[i], t) then (if st[i] == 1 then 1 else 0) else base[i])
  }

  /** Decoding one more value is decoding the earlier ones, then that one. */
  lemma DecodeSnoc(st: seq<int>, tmpl: Template, t: SlotType, manual: int, vs: seq<int>, v: int)
    requires tmpl.Valid() && |st| == |tmpl.elements|
    ensures Decode(st, tmpl, t, manual, vs + [v]) == DecodeOne(Decode(st, tmpl, t, manual, vs), tmpl, t, manual, v)
  {
    assert (vs + [v])[..|vs|] == vs;
  }

  /** Restoring one more element changes at most that element. */
  lemma RestoredStep(base: seq<int>, elements: seq<Slot>, st: seq<int>, t: SlotType, k: nat)
    requires |st| == |elements| == |base| && 0 < k <= |elements|
    ensures IsSaved(elements[k - 1], st[k - 1], t) ==>
              Restored(base, elements, st, t, k)
                == Restored(base, elements, st, t, k - 1)[k - 1 := if st[k - 1] == 1 then 1 else 0]
    ensures !IsSaved(elements[k - 1], st[k - 1], t) ==>
              Restored(base, elements, st, t, k) == Restored(base, elements, st, t, k - 1)
  {
  }

  /** The value Save writes for a slot, decoded, sets that slot to its saved 0 or 1. */
  lemma DecodeOneSaved(prev: seq<int>, tmpl: Template, manual: int, st: seq<int>, t: SlotType, k: nat)
    requires tmpl.Valid() && |prev| == |st| == |tmpl.elements| && 0 < k <= |tmpl.elements|
    requires FindsOwnSlots(tmpl, manual) && IsSaved(tmpl.elements[k - 1], st[k - 1], t)
    ensures DecodeOne(prev, tmpl, t, manual, SavedValue(tmpl.elements[k - 1], st[k - 1]))
              == prev[k - 1 := if st[k - 1] == 1 then 1 else 0]
  {
    var v := SavedValue(tmpl.elements[k - 1], st[k - 1]);
    assert Abs(v) == tmpl.elements[k - 1].index;
  }

  /** Decoding the values Save writes for kind `t` sets each written slot back to its saved 0 or 1. */
  lemma {:induction false} DecodeSavedValues(base: seq<int>, tmpl: Template, manual: int, st: seq<int>, t: SlotType, k: nat)
    requires tmpl.Valid() && |st| == |tmpl.elements| == |base| && k <= |tmpl.elements|
    requires FindsOwnSlots(tmpl, manual)
    ensures Decode(base, tmpl, t, manual, SavedValues(tmpl.elements, st, t, k)) == Restored(base, tmpl.elements, st, t, k)
  {
    var elements := tmpl.elements;
    if k > 0 {
      DecodeSavedValues(base, tmpl, manual, st, t, k - 1);
      RestoredStep(base, elements, st, t, k);
      var vs := SavedValues(elements, st, t, k - 1);
      if IsSaved(elements[k - 1], st[k - 1], t) {
        var v := SavedValue(elements[k - 1], st[k - 1]);
        assert SavedValues(elements, st, t, k) == vs + [v];
        DecodeSnoc(base, tmpl, t, manual, vs, v);
        DecodeOneSaved(Restored(base, elements, st, t, k - 1), tmpl, manual, st, t, k);
      } else {
        assert SavedValues(elements, st, t, k) == vs;
      }
    }
  }

  /** Reading back what Save wrote yields, for each kind, exactly the values it wrote. */
  lemma ReadBackSaved(cfg: Store<Key>, group: string, lim: Limits, elements: seq<Slot>, st: seq<int>, t: SlotType)
    requires |st| == |elements| && t != DivisionalCoupler
    requires WithinLimits(elements, st, lim)
    ensures StoredValues(Saved(cfg, group, elements, st), group, t, lim) == SavedValues(elements, st, t, |elements|)
  {
    var vs := SavedValues(elements, st, t, |elements|);
    var out := StoredValues(Saved(cfg, group, elements, st), group, t, lim);
    assert |out| == |vs|;
    forall j | 0 <= j < |vs| ensures out[j] == vs[j] {
      ReadBackValue(cfg, group, lim, elements, st, t, j);
    }
  }

  /** The `j`-th value read back from what Save wrote is the `j`-th value it wrote. */
  lemma ReadBackValue(cfg: Store<Key>, group: string, lim: Limits, elements: seq<Slot>, st: seq<int>, t: SlotType, j: nat)
    requires |st| == |elements| && t != DivisionalCoupler
    requires WithinLimits(elements, st, lim)
    requires j < |SavedValues(elements, st, t, |elements|)|
    ensures StoredValue(Saved(cfg, group, elements, st), group, t, lim, j + 1) == SavedValues(elements, st, t, |elements|)[j]
  {
    var n := |elements|;
    var vs := SavedValues(elements, st, t, n);
    SavedEntry(cfg, group, elements, st, t, j + 1);
    SavedValuesFromSlots(elements, st, t, n);
    assert SavedFrom(elements, st, t, n, vs[j]);
    var i :| 0 <= i < n && IsSaved(elements[i], st[i], t) && vs[j] == SavedValue(elements[i], st[i]);
    assert Abs(vs[j]) <= ValueBound(t, lim);
  }

  /**
   * Round trip: loading the entries Save wrote restores every stop, coupler and
   * tremulant slot whose state was not -1 (1 stays 1, anything else becomes 0);
   * divisional-coupler slots and slots in state -1 keep what Clear() left.
   */
  lemma SaveLoadRoundTrip(cfg: Store<Key>, group: string, lim: Limits, tmpl: Template, manual: int,
                          st: seq<int>, cleared: seq<int>)
    requires tmpl.Valid() && |st| == |tmpl.elements| && |cleared| == |tmpl.elements|
    requires FindsOwnSlots(tmpl, manual) && WithinLimits(tmpl.elements, st, lim)
    ensures var r := Loaded(Saved(cfg, group, tmpl.elements, st), group, lim, tmpl, manual, cleared);
            forall i :: 0 <= i < |r| ==>
              r[i] == if tmpl.elements[i].slotType == DivisionalCoupler || st[i] == -1 then cleared[i]
                      else if st[i] == 1 then 1 else 0
  {
    var elements := tmpl.elements;
    var n := |elements|;
    var out := Saved(cfg, group, elements, st);
    ReadBackSaved(cfg, group, lim, elements, st, Stop);
    ReadBackSaved(cfg, group, lim, elements, st, Coupler);
    ReadBackSaved(cfg, group, lim, elements, st, Tremulant);
    DecodeSavedValues(cleared, tmpl, manual, st, Stop, n);
    var afterStops := Restored(cleared, elements, st, Stop, n);
    DecodeSavedValues(afterStops, tmpl, manual, st, Coupler, n);
    var afterCouplers := Restored(afterStops, elements, st, Coupler, n);
    DecodeSavedValues(afterCouplers, tmpl, manual, st, Tremulant, n);
  }
}
