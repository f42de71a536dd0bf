/**
 * Minecraft's NBT compound tag, reduced to the tag kinds the mod reads and
 * writes, with the getters' defaults for missing or mistyped keys.
 */
module Nbt {
  datatype Tag =
    | ByteTag(b: int)
    | IntTag(i: int)
    | StringTag(s: string)
    | ListTag(items: seq<Tag>)
    | CompoundTag(entries: map<string, Tag>)

  /** An NBTTagCompound: its keys and their tags. */
  type Compound = map<string, Tag>

  const Empty: Compound := map[]

  predicate IsNumeric(t: Tag) { t.ByteTag? || t.IntTag? }

  /** hasKey(key): any tag under the key. */
  predicate HasKey(c: Compound, key: string) { key in c }

  /** getInteger: a numeric tag's value as an int, 0 when missing or not numeric. */
  function GetInteger(c: Compound, key: string): (r: int)
    ensures key !in c ==> r == 0
    ensures key in c && c[key].IntTag? ==> r == c[key].i
  {
    if key in c then
      match c[key]
      case IntTag(i) => i
      case ByteTag(b) => b
      case _ => 0
    else 0
  }

  /** getByte: a numeric tag's value narrowed to a signed byte, 0 when missing. */
  function GetByte(c: Compound, key: string): (r: int)
    ensures -128 <= r < 128
    ensures key !in c ==> r == 0
  {
    if key in c && IsNumeric(c[key]) then
      var v := (if c[key].IntTag? then c[key].i else c[key].b) % 256;
      if v >= 128 then v - 256 else v
    else 0
  }

  /** getBoolean: getByte(key) != 0. */
  function GetBoolean(c: Compound, key: string): (r: bool)
    ensures key !in c ==> !r
  {
    GetByte(c, key) != 0
  }

  /** getString: the string under the key, "" when missing or not a string. */
  function GetString(c: Compound, key: string): (r: string)
    ensures key !in c ==> r == ""
    ensures key in c && c[key].StringTag? ==> r == c[key].s
  {
    if key in c && c[key].StringTag? then c[key].s else ""
  }

  /** getCompoundTag: the compound under the key, an empty one otherwise. */
  function GetCompound(c: Compound, key: string): (r: Compound)
    ensures key !in c ==> r == Empty
    ensures key in c && c[key].CompoundTag? ==> r == c[key].entries
  {
    if key in c && c[key].CompoundTag? then c[key].entries else Empty
  }

  /** getTagList(key, 8): the strings of a list of string tags, [] otherwise. */
  function GetStringList(c: Compound, key: string): (r: seq<string>)
    ensures key !in c ==> r == []
  {
    if key in c && c[key].ListTag? && forall t :: t in c[key].items ==> t.StringTag? then
      StringsOf(c[key].items)
    else []
  }

  function StringsOf(items: seq<Tag>): (r: seq<string>)
    requires forall t :: t in items ==> t.StringTag?
    ensures |r| == |items|
    ensures forall i :: 0 <= i < |items| ==> r[i] == items[i].s
  {
    if items == [] then [] else [items[0].s] + StringsOf(items[1..])
  }

  function StringTags(strings: seq<string>): (r: seq<Tag>)
    ensures |r| == |strings|
    ensures forall i :: 0 <= i < |strings| ==> r[i] == StringTag(strings[i])
  {
    if strings == [] then [] else [StringTag(strings[0])] + StringTags(strings[1..])
  }

  function SetInteger(c: Compound, key: string, v: int): (r: Compound)
    ensures GetInteger(r, key) == v && HasKey(r, key)
    ensures forall k :: k != key ==> (k in r <==> k in c) && (k in c ==> r[k] == c[k])
  {
    c[key := IntTag(v)]
  }

  /** setBoolean stores a byte tag holding 1 or 0. */
  function SetBoolean(c: Compound, key: string, v: bool): (r: Compound)
    ensures GetBoolean(r, key) == v && HasKey(r, key)
    ensures forall k :: k != key ==> (k in r <==> k in c) && (k in c ==> r[k] == c[k])
  {
    c[key := ByteTag(if v then 1 else 0)]
  }

  function SetString(c: Compound, key: string, v: string): (r: Compound)
    ensures GetString(r, key) == v && HasKey(r, key)
    ensures forall k :: k != key ==> (k in r <==> k in c) && (k in c ==> r[k] == c[k])
  {
    c[key := StringTag(v)]
  }

  function SetCompound(c: Compound, key: string, v: Compound): (r: Compound)
    ensures GetCompound(r, key) == v && HasKey(r, key)
    ensures forall k :: k != key ==> (k in r <==> k in c) && (k in c ==> r[k] == c[k])
  {
    c[key := CompoundTag(v)]
  }

  function SetStringList(c: Compound, key: string, v: seq<string>): (r: Compound)
    ensures GetStringList(r, key) == v && HasKey(r, key)
    ensures forall k :: k != key ==> (k in r <==> k in c) && (k in c ==> r[k] == c[k])
  {
    var items := StringTags(v);
    var r := c[key := ListTag(items)];
    assert forall t :: t in items ==> t.StringTag?;
    assert StringsOf(items) == v;
    r
  }
}
