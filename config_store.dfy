/**
 * The settings store that the configuration reader and writer work on,
 * modelled as a map from structured keys to typed values.
 *
 * The text of a key (`Stop%03d`, `Device%03dChannel%03dGroupCount`, ...)
 * is built by string formatting in the program; here a key is a datatype
 * value of the component that uses it, so two different keys never collide.
 */
module ConfigStore {

  /** A gain value. It is only stored, read back and compared, never computed on. */
  type Volume(==, 0)

  /** The typed values an entry can hold. */
  datatype Value = IntValue(i: int) | StringValue(s: string) | VolumeValue(v: Volume)

  /** The two sources the reader distinguishes: the user's settings and the organ definition. */
  datatype Section = UserSetting | ODFSetting

  type Store<K> = map<K, Value>

  /** `x` brought into `[lo, hi]`. */
  function Clamp(x: int, lo: int, hi: int): (r: int)
    requires lo <= hi
    ensures lo <= r <= hi
    ensures lo <= x <= hi ==> r == x
    ensures x < lo ==> r == lo
    ensures hi < x ==> r == hi
  {
    if x < lo then lo else if hi < x then hi else x
  }

  /**
   * Reading an integer entry: a missing entry (or one that does not hold an
   * integer) reads as `default`, a present one is brought into `[lo, hi]`.
   */
  function ReadInteger<K>(store: Store<K>, key: K, lo: int, hi: int, default: int): (r: int)
    requires lo <= hi
    ensures lo <= r <= hi || r == default
    ensures key in store && store[key].IntValue? ==> lo <= r <= hi
    ensures key in store && store[key].IntValue? && lo <= store[key].i <= hi ==> r == store[key].i
  {
    if key in store && store[key].IntValue? then Clamp(store[key].i, lo, hi) else default
  }

  /** Reading a string entry; a missing one reads as the empty string. */
  function ReadString<K>(store: Store<K>, key: K): string
  {
    if key in store && store[key].StringValue? then store[key].s else ""
  }

  /** Reading a volume entry; a missing one reads as `default`. */
  function ReadVolume<K>(store: Store<K>, key: K, default: Volume): Volume
  {
    if key in store && store[key].VolumeValue? then store[key].v else default
  }
}
