/**
 * Minecraft's named binary tags, as far as the item code reads and writes them: a
 * compound is a map from key to tag, and the typed getters fall back to a default
 * (0, false, "", an empty compound or list) when the key is missing or holds a tag of
 * another type.
 */
module Nbt {
  import opened JavaInt

  datatype Tag =
    | ByteTag(b: SByte)
    | IntTag(i: int)
    | StringTag(s: string)
    | ListTag(elements: seq<Tag>)
    | CompoundTag(entries: map<string, Tag>)

  /** A `CompoundTag`. */
  type Compound = map<string, Tag>

  predicate IsNumeric(t: Tag) {
    t.ByteTag? || t.IntTag?
  }

  /** `contains(key)`: the key is present, whatever the type of its tag. */
  predicate Contains(c: Compound, key: string) {
    key in c
  }

  /** `getInt(key)`: the numeric tag read as an `int`, otherwise 0. */
  function GetInt(c: Compound, key: string): (r: int)
    ensures (key !in c || !IsNumeric(c[key])) ==> r == 0
    ensures key in c && c[key].IntTag? ==> r == c[key].i
  {
    if key in c then
      match c[key]
      case ByteTag(b) => b
      case IntTag(i) => i
      case _ => 0
    else 0
  }

  /** `getByte(key)`: the numeric tag narrowed to a byte, otherwise 0. */
  function GetByte(c: Compound, key: string): (r: SByte)
    ensures key !in c || !IsNumeric(c[key]) ==> r == 0
    ensures key in c && c[key].ByteTag? ==> r == c[key].b
  {
    if key in c then
      match c[key]
      case ByteTag(b) => b
      case IntTag(i) => ToByte(i)
      case _ => 0
    else 0
  }

  /** `getBoolean(key)`: `getByte(key) != 0`. */
  function GetBoolean(c: Compound, key: string): (r: bool)
    ensures r <==> GetByte(c, key) != 0
    ensures key !in c ==> !r
  {
    GetByte(c, key) != 0
  }

  /** `getString(key)`: the string tag's text, otherwise "". */
  function GetString(c: Compound, key: string): (r: string)
    ensures key in c && c[key].StringTag? ==> r == c[key].s
    ensures key !in c ==> r == ""
  {
    if key in c && c[key].StringTag? then c[key].s else ""
  }

  /** `getCompound(key)`: the nested compound, otherwise a new empty one. */
  function GetCompound(c: Compound, key: string): (r: Compound)
    ensures key in c && c[key].CompoundTag? ==> r == c[key].entries
    ensures !(key in c && c[key].CompoundTag?) ==> r == map[]
  {
    if key in c && c[key].CompoundTag? then c[key].entries else map[]
  }

  /** The element type of a list tag, by the tag type numbers 1 (byte), 3 (int), 8 (string), 9 (list) and 10 (compound). */
  function TypeId(t: Tag): nat {
    match t
    case ByteTag(_) => 1
    case IntTag(_) => 3
    case StringTag(_) => 8
    case ListTag(_) => 9
    case CompoundTag(_) => 10
  }

  const TAG_STRING: nat := 8
  const TAG_LIST: nat := 9
  const TAG_COMPOUND: nat := 10

  /** `contains(key, type)`: the key holds a tag of exactly that type. */
  predicate ContainsOfType(c: Compound, key: string, typeId: nat) {
    key in c && TypeId(c[key]) == typeId
  }

  /**
   * `getList(key, type)`: the list under `key` when its elements have that type (an
   * empty list has no element type and is always returned), otherwise an empty list.
   */
  function GetList(c: Compound, key: string, typeId: nat): (r: seq<Tag>)
    ensures forall i :: 0 <= i < |r| ==> TypeId(r[i]) == typeId
    ensures r != [] ==> ContainsOfType(c, key, TAG_LIST) && r == c[key].elements
  {
    if key in c && c[key].ListTag? && forall i :: 0 <= i < |c[key].elements| ==> TypeId(c[key].elements[i]) == typeId
    then c[key].elements
    else []
  }

  /** `putInt`, `putString`, `putBoolean`: store under `key`, replacing what was there. */
  function Put(c: Compound, key: string, t: Tag): (r: Compound)
    ensures key in r && r[key] == t
    ensures forall k :: k != key ==> (k in r <==> k in c) && (k in c ==> r[k] == c[k])
  {
    c[key := t]
  }

  /** `remove(key)`. */
  function Remove(c: Compound, key: string): (r: Compound)
    ensures key !in r
    ensures forall k :: k != key ==> (k in r <==> k in c) && (k in c ==> r[k] == c[k])
  {
    c - {key}
  }

  /** A boolean is stored as the byte 1 or 0. */
  function BoolTag(b: bool): (r: Tag)
    ensures r.ByteTag? && (r.b != 0 <==> b)
  {
    ByteTag(if b then 1 else 0)
  }

  /** Reading back what was put: the typed getters return the stored value. */
  lemma PutThenGet(c: Compound, key: string, i: int, s: string, b: bool)
    ensures GetInt(Put(c, key, IntTag(i)), key) == i
    ensures GetString(Put(c, key, StringTag(s)), key) == s
    ensures GetBoolean(Put(c, key, BoolTag(b)), key) == b
  {
  }
}
