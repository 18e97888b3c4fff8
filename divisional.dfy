/**
 * The combination memory of a divisional: one state per element of the
 * divisional's template (-1 = not part of the combination, 0 = off, 1 = on),
 * decoded from the user's settings by LoadCombination and encoded back by
 * Save under `NumberOfStops`, `Stop001`, `Stop002`, ... (likewise for
 * couplers and tremulants).
 */
module Divisional {
  import opened ConfigStore

  /** The kinds of element a combination template holds. */
  datatype SlotType = Stop | Coupler | Tremulant | DivisionalCoupler

  /** One element of a combination template: its kind and its number among the elements of that kind. */
  datatype Slot = Slot(slotType: SlotType, index: int)

  /**
   * The template the combination follows: its elements and the lookup
   * `find(kind, manual, number)` (findEntry in the program, whose body is not
   * part of this model), which gives the position of an element or a
   * negative number when there is none.
   */
  datatype Template = Template(elements: seq<Slot>, find: (SlotType, int, int) -> int) {
    /** A lookup never answers a position past the end of the element list. */
    ghost predicate Valid() {
      forall t, m, x :: find(t, m, x) < |elements|
    }
  }

  /** The entry names of a divisional's settings group. */
  datatype Entry = NumberOf(t: SlotType) | Numbered(t: SlotType, n: nat)

  /** A key: the section it is read from, the settings group and the entry name. */
  datatype Key = Key(section: Section, group: string, entry: Entry)

  /**
   * The bounds the reader applies: the stop and coupler counts of the
   * divisional's manual and the organ's tremulant count.
   */
  datatype Limits = Limits(stops: nat, couplers: nat, tremulants: nat)

  /** The largest count read for a kind of element. */
  function CountBound(t: SlotType, lim: Limits): nat {
    match t
    case Stop => lim.stops
    case Coupler => lim.couplers
    case Tremulant => lim.tremulants
    case DivisionalCoupler => 0
  }

  /** The largest magnitude read for one stored value of a kind of element. */
  function ValueBound(t: SlotType, lim: Limits): nat {
    if t == Stop then lim.stops else 999
  }

  function Abs(x: int): nat {
    if x < 0 then -x else x
  }

  // ---------------------------------------------------------------------------
  // Decoding (LoadCombination)
  // ---------------------------------------------------------------------------

  /** The count the user section stores for a kind of element. */
  function StoredCount(cfg: Store<Key>, group: string, t: SlotType, lim: Limits): nat {
    ReadInteger(cfg, Key(UserSetting, group, NumberOf(t)), 0, CountBound(t, lim), 0)
  }

  /** The `n`-th stored value (counting from 1) of a kind of element. */
  function StoredValue(cfg: Store<Key>, group: string, t: SlotType, lim: Limits, n: nat): int {
    var b: int := ValueBound(t, lim);
    ReadInteger(cfg, Key(UserSetting, group, Numbered(t, n)), -b, b, 0)
  }

  /** The values the user section stores for a kind of element, in entry order. */
  function StoredValues(cfg: Store<Key>, group: string, t: SlotType, lim: Limits): seq<int>
  {
    seq(StoredCount(cfg, group, t, lim), n requires 0 <= n => StoredValue(cfg, group, t, lim, n + 1))
  }

  /**
   * The effect of one stored value `s` on the state: the element found for
   * `|s|` becomes 1 when `s > 0` and 0 otherwise; nothing changes when there
   * is no such element.
   */
  function DecodeOne(st: seq<int>, tmpl: Template, t: SlotType, manual: int, s: int): (r: seq<int>)
    requires tmpl.Valid() && |st| == |tmpl.elements|
    ensures |r| == |st|
  {
    var pos := tmpl.find(t, manual, Abs(s));
    if pos >= 0 then st[pos := if s > 0 then 1 else 0] else st
  }

  /** The state after decoding the values `vs`, first to last. */
  function Decode(st: seq<int>, tmpl: Template, t: SlotType, manual: int, vs: seq<int>): (r: seq<int>)
    requires tmpl.Valid() && |st| == |tmpl.elements|
    ensures |r| == |st|
    decreases |vs|
  {
    if vs == [] then st
    else DecodeOne(Decode(st, tmpl, t, manual, vs[..|vs| - 1]), tmpl, t, manual, vs[|vs| - 1])
  }

  /** The state LoadCombination leaves: stops, then couplers, then tremulants decoded over the cleared state. */
  function Loaded(cfg: Store<Key>, group: string, lim: Limits, tmpl: Template, manual: int, cleared: seq<int>): (r: seq<int>)
    requires tmpl.Valid() && |cleared| == |tmpl.elements|
    ensures |r| == |cleared|
  {
    var afterStops := Decode(cleared, tmpl, Stop, manual, StoredValues(cfg, group, Stop, lim));
    var afterCouplers := Decode(afterStops, tmpl, Coupler, manual, StoredValues(cfg, group, Coupler, lim));
    Decode(afterCouplers, tmpl, Tremulant, manual, StoredValues(cfg, group, Tremulant, lim))
  }

  // ---------------------------------------------------------------------------
  // Encoding (Save)
  // ---------------------------------------------------------------------------

  /** The value Save writes for a slot in state `s`: its number when on, the negated number otherwise. */
  function SavedValue(slot: Slot, s: int): int {
    if s == 1 then slot.index else -slot.index
  }

  /** Whether Save writes an entry of kind `t` for a slot in state `s`. */
  predicate IsSaved(slot: Slot, s: int, t: SlotType) {
    slot.slotType == t && t != DivisionalCoupler && s != -1
  }

  /** The values Save writes for the elements of kind `t` among the first `k` elements, in order. */
  function SavedValues(elements: seq<Slot>, st: seq<int>, t: SlotType, k: nat): seq<int>
    requires |st| == |elements| && k <= |elements|
  {
    if k == 0 then []
    else
      SavedValues(elements, st, t, k - 1)
      + (if IsSaved(elements[k - 1], st[k - 1], t) then [SavedValue(elements[k - 1], st[k - 1])] else [])
  }

  /** The store after Save has written the entries of the first `k` elements. */
  function SavedPrefix(cfg: Store<Key>, group: string, elements: seq<Slot>, st: seq<int>, k: nat): Store<Key>
    requires |st| == |elements| && k <= |elements|
  {
    if k == 0 then cfg
    else
      var prev := SavedPrefix(cfg, group, elements, st, k - 1);
      var t := elements[k - 1].slotType;
      if IsSaved(elements[k - 1], st[k - 1], t) then
        prev[Key(UserSetting, group, Numbered(t, |SavedValues(elements, st, t, k)|)) := IntValue(SavedValue(elements[k - 1], st[k - 1]))]
      else prev
  }

  /** The store after Save: every entry, then the three counts. */
  function Saved(cfg: Store<Key>, group: string, elements: seq<Slot>, st: seq<int>): Store<Key>
    requires |st| == |elements|
  {
    var n := |elements|;
    SavedPrefix(cfg, group, elements, st, n)
      [Key(UserSetting, group, NumberOf(Stop)) := IntValue(|SavedValues(elements, st, Stop, n)|)]
      [Key(UserSetting, group, NumberOf(Coupler)) := IntValue(|SavedValues(elements, st, Coupler, n)|)]
      [Key(UserSetting, group, NumberOf(Tremulant)) := IntValue(|SavedValues(elements, st, Tremulant, n)|)]
  }

  // ---------------------------------------------------------------------------
  // The divisional object
  // ---------------------------------------------------------------------------

  class Divisional {
    const template: Template
    /** m_State: one entry per template element. */
    var state: array<int>
    var group: string
    var manualNumber: int
    var divisionalNumber: nat

    ghost predicate Valid()
      reads this
    {
      template.Valid() && state.Length == |template.elements|
    }

    /** A divisional numbered 0 on manual 1; the initial memory is set by the combination base class, which is not part of this model. */
    constructor (tmpl: Template)
      requires tmpl.Valid()
      ensures Valid() && fresh(state)
      ensures template == tmpl && divisionalNumber == 0 && manualNumber == 1
    {
      template := tmpl;
      state := new int[|tmpl.elements|];
      group := "";
      divisionalNumber := 0;
      manualNumber := 1;
    }

    /** Load: records the settings group and the manual and divisional numbers. */
    method Load(grp: string, manual: int, number: nat)
      requires Valid()
      modifies this
      ensures Valid() && state == old(state) && unchanged(state)
      ensures group == grp && manualNumber == manual && divisionalNumber == number
    {
      divisionalNumber := number;
      manualNumber := manual;
      group := grp;
    }

    /**
     * LoadCombination: `cleared` is the state Clear() leaves (its body is not
     * part of this model). The entries of the organ-definition section that
     * the program reads afterwards are discarded, so they are not read here.
     */
    method LoadCombination(cfg: Store<Key>, lim: Limits, cleared: seq<int>)
      requires Valid() && |cleared| == state.Length
      modifies state
      ensures state[..] == Loaded(cfg, group, lim, template, manualNumber, cleared)
    {
      forall i | 0 <= i < state.Length {
        state[i] := cleared[i];
      }
      assert state[..] == cleared;
      LoadEntries(cfg, lim, Stop);
      LoadEntries(cfg, lim, Coupler);
      LoadEntries(cfg, lim, Tremulant);
    }

    /** One of LoadCombination's three loops: decode every stored value of kind `t`. */
    method LoadEntries(cfg: Store<Key>, lim: Limits, t: SlotType)
      requires Valid()
      modifies state
      ensures state[..] == Decode(old(state[..]), template, t, manualNumber, StoredValues(cfg, group, t, lim))
    {
      var count := StoredCount(cfg, group, t, lim);
      ghost var vs := StoredValues(cfg, group, t, lim);
      var i := 0;
      while i < count
        invariant 0 <= i <= count
        invariant state[..] == Decode(old(state[..]), template, t, manualNumber, vs[..i])
      {
        var s := StoredValue(cfg, group, t, lim, i + 1);
        var pos := template.find(t, manualNumber, Abs(s));
        if pos >= 0 {
          state[pos] := if s > 0 then 1 else 0;
        }
        assert vs[..i + 1][..i] == vs[..i];
        i := i + 1;
      }
      assert vs[..count] == vs;
    }

    /**
     * Save: `updated` is the state UpdateState() leaves (its body is not part
     * of this model). Writes one numbered entry per element that is not -1,
     * numbering stops, couplers and tremulants separately, then the counts.
     */
    method Save(cfg: Store<Key>, updated: seq<int>) returns (out: Store<Key>)
      requires Valid() && |updated| == state.Length
      modifies state
      ensures state[..] == updated
      ensures out == Saved(cfg, group, template.elements, updated)
    {
      forall i | 0 <= i < state.Length {
        state[i] := updated[i];
      }
      assert state[..] == updated;
      var elements := template.elements;
      var stopCount, couplerCount, tremulantCount := 0, 0, 0;
      out := cfg;
      var i := 0;
      while i < |elements|
        invariant 0 <= i <= |elements| && state[..] == updated
        invariant out == SavedPrefix(cfg, group, elements, updated, i)
        invariant stopCount == |SavedValues(elements, updated, Stop, i)|
        invariant couplerCount == |SavedValues(elements, updated, Coupler, i)|
        invariant tremulantCount == |SavedValues(elements, updated, Tremulant, i)|
      {
        if state[i] != -1 {
          var value := if state[i] == 1 then elements[i].index else -elements[i].index;
          match elements[i].slotType
          case Stop =>
            stopCount := stopCount + 1;
            out := out[Key(UserSetting, group, Numbered(Stop, stopCount)) := IntValue(value)];
          case Coupler =>
            couplerCount := couplerCount + 1;
            out := out[Key(UserSetting, group, Numbered(Coupler, couplerCount)) := IntValue(value)];
          case Tremulant =>
            tremulantCount := tremulantCount + 1;
            out := out[Key(UserSetting, group, Numbered(Tremulant, tremulantCount)) := IntValue(value)];
          case DivisionalCoupler =>
        }
        i := i + 1;
      }
      out := out[Key(UserSetting, group, NumberOf(Stop)) := IntValue(stopCount)];
      out := out[Key(UserSetting, group, NumberOf(Coupler)) := IntValue(couplerCount)];
      out := out[Key(UserSetting, group, NumberOf(Tremulant)) := IntValue(tremulantCount)];
    }
  }
}
