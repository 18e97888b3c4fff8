/**
 * The pattern a keyboard shortcut of a MIDI-controlled element is matched
 * against: how the shortcut acts, the key that triggers it and the key that
 * triggers its opposite. Patterns are compared field by field.
 */
module MidiShortcutPattern {
  /** How a shortcut acts; its values are declared outside this model and only compared. */
  type ShortcutType(==)

  datatype ShortcutPattern = ShortcutPattern(kind: ShortcutType, shortcutKey: nat, minusKey: nat)

  /** The pattern comparison: the kinds, the shortcut keys and the minus keys all agree. */
  function Equals(a: ShortcutPattern, b: ShortcutPattern): (r: bool)
    ensures r <==> a == b
  {
    a.kind == b.kind && a.shortcutKey == b.shortcutKey && a.minusKey == b.minusKey
  }

  lemma EqualsReflexive(a: ShortcutPattern)
    ensures Equals(a, a)
  {
  }

  lemma EqualsSymmetric(a: ShortcutPattern, b: ShortcutPattern)
    ensures Equals(a, b) <==> Equals(b, a)
  {
  }

  lemma EqualsTransitive(a: ShortcutPattern, b: ShortcutPattern, c: ShortcutPattern)
    requires Equals(a, b) && Equals(b, c)
    ensures Equals(a, c)
  {
  }

  /** Patterns that differ in any one of the three fields are unequal, and only those. */
  lemma UnequalIffSomeFieldDiffers(a: ShortcutPattern, b: ShortcutPattern)
    ensures !Equals(a, b) <==> a.kind != b.kind || a.shortcutKey != b.shortcutKey || a.minusKey != b.minusKey
  {
  }
}
