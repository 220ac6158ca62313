/** Minecraft's NBT tags, as far as the avatar decoder and the trust store read
    and write them, with the getters of `CompoundTag` and `ListTag` they call.
    Those classes belong to the game and are not part of this model; their
    behaviour is stated here: a compound getter returns a zero value when the
    key is missing or holds another kind of tag, a list getter returns 0 for
    an index out of range or an element of another kind, and `get(i)` throws
    for an index out of range. */
module Nbt {
  import opened Wrappers

  const TAG_END: nat := 0
  const TAG_BYTE: nat := 1
  const TAG_SHORT: nat := 2
  const TAG_INT: nat := 3
  const TAG_FLOAT: nat := 5
  const TAG_STRING: nat := 8
  const TAG_LIST: nat := 9
  const TAG_COMPOUND: nat := 10
  /** The pseudo type `contains(key, 99)` uses for "any number". */
  const TAG_ANY_NUMERIC: nat := 99

  datatype Tag =
    | ByteTag(b: int)
    | ShortTag(s: int)
    | IntTag(i: int)
    | FloatTag(f: real)
    | StringTag(str: string)
    | ListTag(elemType: nat, items: seq<Tag>)
    | CompoundTag(entries: map<string, Tag>)

  type Compound = map<string, Tag>

  /** `getId()`. */
  function TypeId(t: Tag): nat {
    match t
    case ByteTag(_) => TAG_BYTE
    case ShortTag(_) => TAG_SHORT
    case IntTag(_) => TAG_INT
    case FloatTag(_) => TAG_FLOAT
    case StringTag(_) => TAG_STRING
    case ListTag(_, _) => TAG_LIST
    case CompoundTag(_) => TAG_COMPOUND
  }

  predicate Numeric(t: Tag) {
    t.ByteTag? || t.ShortTag? || t.IntTag? || t.FloatTag?
  }

  /** The signed value of the low `2^bits` bits of `x`: Java's narrowing
      casts `(short)` and `(byte)`. */
  function Narrow(x: int, modulus: nat): (r: int)
    requires modulus > 0 && modulus % 2 == 0
    ensures -(modulus / 2) <= r < modulus / 2
    ensures -(modulus / 2) <= x < modulus / 2 ==> r == x
  {
    var half := modulus / 2;
    if -half <= x < half then x
    else
      (x + half) % modulus - half
  }

  /** `getAsInt()` of a numeric tag; a float is rounded down. */
  function AsInt(t: Tag): int
    requires Numeric(t)
  {
    match t
    case ByteTag(b) => b
    case ShortTag(s) => s
    case IntTag(i) => i
    case FloatTag(f) => f.Floor
  }

  /** `getAsShort()`: the low 16 bits of `getAsInt()`. */
  function AsShort(t: Tag): int
    requires Numeric(t)
  {
    Narrow(AsInt(t), 0x1_0000)
  }

  /** `getAsByte()`: the low 8 bits of `getAsInt()`. */
  function AsByte(t: Tag): int
    requires Numeric(t)
  {
    Narrow(AsInt(t), 0x100)
  }

  /** `getAsFloat()`. */
  function AsFloat(t: Tag): real
    requires Numeric(t)
  {
    match t
    case ByteTag(b) => b as real
    case ShortTag(s) => s as real
    case IntTag(i) => i as real
    case FloatTag(f) => f
  }

  // ---- CompoundTag ----

  /** `contains(key, type)`; type 99 accepts every number. */
  predicate ContainsType(c: Compound, key: string, typeId: nat) {
    key in c && (TypeId(c[key]) == typeId || (typeId == TAG_ANY_NUMERIC && Numeric(c[key])))
  }

  function GetString(c: Compound, key: string): string {
    if ContainsType(c, key, TAG_STRING) then c[key].str else ""
  }

  function GetByte(c: Compound, key: string): int {
    if ContainsType(c, key, TAG_ANY_NUMERIC) then AsByte(c[key]) else 0
  }

  function GetBoolean(c: Compound, key: string): bool {
    GetByte(c, key) != 0
  }

  function GetShort(c: Compound, key: string): int {
    if ContainsType(c, key, TAG_ANY_NUMERIC) then AsShort(c[key]) else 0
  }

  function GetInt(c: Compound, key: string): int {
    if ContainsType(c, key, TAG_ANY_NUMERIC) then AsInt(c[key]) else 0
  }

  function GetFloat(c: Compound, key: string): real {
    if ContainsType(c, key, TAG_ANY_NUMERIC) then AsFloat(c[key]) else 0.0
  }

  function GetCompound(c: Compound, key: string): Compound {
    if ContainsType(c, key, TAG_COMPOUND) then c[key].entries else map[]
  }

  /** `getList(key, type)`: the list under `key`, or a new empty list when
      there is none or when it is a non-empty list of another element type. */
  function GetList(c: Compound, key: string, elemType: nat): (l: Tag)
    ensures l.ListTag?
    ensures l.items != [] ==> l.elemType == elemType
  {
    if ContainsType(c, key, TAG_LIST) && (c[key].items == [] || c[key].elemType == elemType) then c[key]
    else ListTag(TAG_END, [])
  }

  // ---- ListTag ----

  /** `getShort(i)` on a list. */
  function ListShort(l: seq<Tag>, i: int): int {
    if 0 <= i < |l| && l[i].ShortTag? then l[i].s else 0
  }

  /** `getInt(i)` on a list. */
  function ListInt(l: seq<Tag>, i: int): int {
    if 0 <= i < |l| && l[i].IntTag? then l[i].i else 0
  }

  /** `getFloat(i)` on a list. */
  function ListFloat(l: seq<Tag>, i: int): real {
    if 0 <= i < |l| && l[i].FloatTag? then l[i].f else 0.0
  }

  /** `((ByteTag) get(i)).getAsByte()`: throws for an index out of range or
      an element that is not a byte. */
  function ListByte(l: seq<Tag>, i: int): (r: Result<int>)
    ensures r.Ok? <==> 0 <= i < |l| && l[i].ByteTag?
  {
    if 0 <= i < |l| && l[i].ByteTag? then Ok(l[i].b)
    else if 0 <= i < |l| then Err("ClassCastException")
    else Err("IndexOutOfBoundsException")
  }
}
