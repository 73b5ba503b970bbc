/**
 * `ItemData`: the table of details a computer gets about an item stack. Each `fill`
 * method adds entries to the caller's map; what the item registry, the tag registry,
 * the creative tabs, the text-component parser and the enchantment registry say about
 * the stack are parameters.
 */
module ItemDetails {
  import opened Wrappers
  import opened Nbt
  import opened Items

  /** The values put into a detail table. */
  datatype Value =
    | VString(s: string)
    | VInt(i: int)
    | VBool(b: bool)
    | VFraction(numerator: int, denominator: int)
    | VList(elements: seq<Value>)
    | VMap(entries: map<string, Value>)

  /** A caller's detail table, which every `fill` method adds to in place. */
  class DataMap {
    var entries: map<string, Value>

    constructor (initial: map<string, Value>)
      ensures entries == initial
    {
      entries := initial;
    }

    /** `Map.put`. */
    method Put(key: string, value: Value)
      modifies this
      ensures entries == old(entries)[key := value]
    {
      entries := entries[key := value];
    }
  }

  /** `fillBasicSafe`: the registry name and the count; the same map is returned. */
  method FillBasicSafe(data: DataMap, stack: Stack) returns (r: DataMap)
    modifies data
    ensures r == data
    ensures data.entries == old(data.entries)["name" := VString(stack.item.id)]["count" := VInt(stack.count)]
  {
    data.Put("name", VString(stack.item.id));
    data.Put("count", VInt(stack.count));
    return data;
  }

  /**
   * `fillBasic`: the basic entries, plus the hash of the stack's tag under "nbt" when
   * there is one (`NBTUtil.getNBTHash` is not part of this model; its result is `hash`).
   */
  method FillBasic(data: DataMap, stack: Stack, hash: Option<string>)
    modifies data
    ensures data.entries == old(data.entries)["name" := VString(stack.item.id)]["count" := VInt(stack.count)]
                          + (if hash.Some? then map["nbt" := VString(hash.value)] else map[])
    ensures "nbt" in data.entries <==> hash.Some? || "nbt" in old(data.entries)
  {
    var _ := FillBasicSafe(data, stack);
    if hash.Some? {
      data.Put("nbt", VString(hash.value));
    }
  }

  /** `(flags & bit) == 0` on a Java `int`, for a single-bit mask `bit`. */
  predicate BitClear(flags: int, bit: int)
    requires bit > 0
  {
    (flags / bit) % 2 == 0
  }

  /** The `HideFlags` bits `fill` honours. */
  const HIDE_ENCHANTMENTS: int := 1
  const HIDE_UNBREAKABLE: int := 4
  const HIDE_STORED_ENCHANTMENTS: int := 32

  /** `tag != null ? tag.getInt("HideFlags") : 0`. */
  function HideFlags(tag: Option<Compound>): (r: int)
    ensures tag.None? || "HideFlags" !in tag.value ==> r == 0
    ensures tag.Some? && "HideFlags" in tag.value && tag.value["HideFlags"].IntTag? ==> r == tag.value["HideFlags"].i
  {
    if tag.None? then 0 else GetInt(tag.value, "HideFlags")
  }

  /** What each stack knows about itself through the item and the registries. */
  datatype ItemFacts = ItemFacts(
    displayName: string,
    damageable: bool,
    damage: int,
    maxDamage: int,
    barVisible: bool,
    barWidth: int,
    tags: Value,
    itemGroups: Value,
    enchantedBook: bool)

  /** An enchantment as `EnchantmentHelper.deserializeEnchantments` gives it back. */
  datatype Enchantment = Enchantment(id: string, level: int, displayName: string)

  function EnchantmentValue(e: Enchantment): Value {
    VMap(map["name" := VString(e.id), "level" := VInt(e.level), "displayName" := VString(e.displayName)])
  }

  function EnchantmentValues(es: seq<Enchantment>): (r: seq<Value>)
    ensures |r| == |es|
    ensures forall i :: 0 <= i < |es| ==> r[i] == EnchantmentValue(es[i])
  {
    if es == [] then [] else [EnchantmentValue(es[0])] + EnchantmentValues(es[1..])
  }

  /** What `addEnchantments` appends for a raw list: nothing for an empty one. */
  function Converted(raw: seq<Tag>, deserialize: seq<Tag> -> seq<Enchantment>): (r: seq<Value>)
    ensures raw == [] ==> r == []
    ensures raw != [] ==> |r| == |deserialize(raw)|
  {
    if raw == [] then [] else EnchantmentValues(deserialize(raw))
  }

  /**
   * `addEnchantments`: one table per deserialised enchantment, appended in order; an
   * empty raw list leaves the list alone.
   */
  method AddEnchantments(raw: seq<Tag>, deserialize: seq<Tag> -> seq<Enchantment>, enchants: seq<Value>)
    returns (result: seq<Value>)
    ensures result == enchants + Converted(raw, deserialize)
    ensures raw == [] ==> result == enchants
  {
    result := enchants;
    if raw == [] {
      return;
    }
    var entries := deserialize(raw);
    var i := 0;
    while i < |entries|
      invariant 0 <= i <= |entries|
      invariant result == enchants + EnchantmentValues(entries[..i])
    {
      assert entries[..i + 1] == entries[..i] + [entries[i]];
      EnchantmentValuesAppend(entries[..i], entries[i]);
      result := result + [EnchantmentValue(entries[i])];
      i := i + 1;
    }
    assert entries[..i] == entries;
  }

  lemma {:induction false} EnchantmentValuesAppend(es: seq<Enchantment>, e: Enchantment)
    ensures EnchantmentValues(es + [e]) == EnchantmentValues(es) + [EnchantmentValue(e)]
  {
    if es != [] {
      assert (es + [e])[1..] == es[1..] + [e];
      EnchantmentValuesAppend(es[1..], e);
    }
  }

  /** `ItemStack.isEnchanted`: an `Enchantments` list that holds at least one compound. */
  predicate IsEnchanted(tag: Option<Compound>) {
    tag.Some? && ContainsOfType(tag.value, "Enchantments", TAG_LIST) && GetList(tag.value, "Enchantments", TAG_COMPOUND) != []
  }

  /** `ItemStack.getEnchantmentTags`. */
  function EnchantmentTags(tag: Option<Compound>): seq<Tag> {
    if tag.None? then [] else GetList(tag.value, "Enchantments", TAG_COMPOUND)
  }

  /** `EnchantedBookItem.getEnchantments`. */
  function StoredEnchantments(tag: Option<Compound>): seq<Tag> {
    if tag.None? then [] else GetList(tag.value, "StoredEnchantments", TAG_COMPOUND)
  }

  /** The enchantments `getAllEnchants` lists: a book's stored ones, then the stack's own, each unless hidden. */
  function VisibleEnchantments(stack: Stack, enchantedBook: bool, hideFlags: int, deserialize: seq<Tag> -> seq<Enchantment>): seq<Value> {
    (if enchantedBook && BitClear(hideFlags, HIDE_STORED_ENCHANTMENTS) then Converted(StoredEnchantments(stack.tag), deserialize) else [])
      + (if IsEnchanted(stack.tag) && BitClear(hideFlags, HIDE_ENCHANTMENTS) then Converted(EnchantmentTags(stack.tag), deserialize) else [])
  }

  /** `getAllEnchants`. */
  method GetAllEnchants(stack: Stack, enchantedBook: bool, hideFlags: int, deserialize: seq<Tag> -> seq<Enchantment>)
    returns (enchants: seq<Value>)
    ensures enchants == VisibleEnchantments(stack, enchantedBook, hideFlags, deserialize)
  {
    enchants := [];
    if enchantedBook && BitClear(hideFlags, HIDE_STORED_ENCHANTMENTS) {
      enchants := AddEnchantments(StoredEnchantments(stack.tag), deserialize, enchants);
    }
    if IsEnchanted(stack.tag) && BitClear(hideFlags, HIDE_ENCHANTMENTS) {
      enchants := AddEnchantments(EnchantmentTags(stack.tag), deserialize, enchants);
    }
  }

  /**
   * Bit 32 of `HideFlags` hides a book's stored enchantments and bit 1 the stack's own:
   * the list holds exactly the visible ones, the book's first, and nothing when both
   * are hidden or there is nothing to show.
   */
  lemma EnchantmentVisibility(stack: Stack, enchantedBook: bool, hideFlags: int, deserialize: seq<Tag> -> seq<Enchantment>)
    ensures var r := VisibleEnchantments(stack, enchantedBook, hideFlags, deserialize);
      var book := if enchantedBook && BitClear(hideFlags, HIDE_STORED_ENCHANTMENTS) && StoredEnchantments(stack.tag) != []
                  then |deserialize(StoredEnchantments(stack.tag))| else 0;
      var own := if IsEnchanted(stack.tag) && BitClear(hideFlags, HIDE_ENCHANTMENTS) then |deserialize(EnchantmentTags(stack.tag))| else 0;
      && |r| == book + own
      && (forall i :: 0 <= i < book ==> r[i] == EnchantmentValue(deserialize(StoredEnchantments(stack.tag))[i]))
      && (forall i :: 0 <= i < own ==> r[book + i] == EnchantmentValue(deserialize(EnchantmentTags(stack.tag))[i]))
      && (!BitClear(hideFlags, HIDE_STORED_ENCHANTMENTS) && !BitClear(hideFlags, HIDE_ENCHANTMENTS) ==> r == [])
  {
  }

  /** `Tag.getAsString` for the string tags of a lore list. */
  function AsString(t: Tag): string {
    if t.StringTag? then t.s else ""
  }

  /** The lore lines that parse as text components, as plain strings, in order; the others are dropped. */
  function ParsedLore(lines: seq<Tag>, parse: string -> Option<string>): (r: seq<string>)
    ensures |r| <= |lines|
  {
    if lines == [] then []
    else
      var rest := ParsedLore(lines[1..], parse);
      match parse(AsString(lines[0]))
      case Some(text) => [text] + rest
      case None => rest
  }

  /** The line the `j`-th kept lore line comes from. */
  lemma {:induction false} ParsedLoreSource(lines: seq<Tag>, parse: string -> Option<string>, j: nat) returns (i: nat)
    requires j < |ParsedLore(lines, parse)|
    ensures j <= i < |lines| && parse(AsString(lines[i])) == Some(ParsedLore(lines, parse)[j])
  {
    var rest := ParsedLore(lines[1..], parse);
    if parse(AsString(lines[0])).Some? {
      assert ParsedLore(lines, parse) == [parse(AsString(lines[0])).value] + rest;
      if j == 0 {
        i := 0;
      } else {
        var k := ParsedLoreSource(lines[1..], parse, j - 1);
        i := k + 1;
      }
    } else {
      assert ParsedLore(lines, parse) == rest;
      var k := ParsedLoreSource(lines[1..], parse, j);
      i := k + 1;
    }
  }

  /**
   * Every line kept comes from a line of the lore, and no line that parses is lost: when
   * all lines parse, all are kept, in order; when none does, the list is empty.
   */
  lemma {:induction false} ParsedLoreKeepsParsable(lines: seq<Tag>, parse: string -> Option<string>)
    ensures forall j :: 0 <= j < |ParsedLore(lines, parse)| ==>
      exists i :: 0 <= i < |lines| && parse(AsString(lines[i])) == Some(ParsedLore(lines, parse)[j])
    ensures (forall i :: 0 <= i < |lines| ==> parse(AsString(lines[i])).Some?) ==>
      ParsedLore(lines, parse) == seq(|lines|, i requires 0 <= i < |lines| => parse(AsString(lines[i])).value)
    ensures (forall i :: 0 <= i < |lines| ==> parse(AsString(lines[i])).None?) ==> ParsedLore(lines, parse) == []
  {
    forall j | 0 <= j < |ParsedLore(lines, parse)|
      ensures exists i :: 0 <= i < |lines| && parse(AsString(lines[i])) == Some(ParsedLore(lines, parse)[j])
    {
      var i := ParsedLoreSource(lines, parse, j);
    }
    if lines != [] {
      ParsedLoreKeepsParsable(lines[1..], parse);
      if forall i :: 0 <= i < |lines| ==> parse(AsString(lines[i])).Some? {
        assert forall i :: 0 <= i < |lines[1..]| ==> lines[1..][i] == lines[i + 1];
      }
      if forall i :: 0 <= i < |lines| ==> parse(AsString(lines[i])).None? {
        assert forall i :: 0 <= i < |lines[1..]| ==> lines[1..][i] == lines[i + 1];
      }
    }
  }

  /** The "lore" entry: present only when the tag has a display compound with a `Lore` list. */
  function Lore(tag: Option<Compound>, parse: string -> Option<string>): (r: Option<seq<string>>)
    ensures r.Some? ==> tag.Some? && ContainsOfType(tag.value, "display", TAG_COMPOUND)
                        && ContainsOfType(GetCompound(tag.value, "display"), "Lore", TAG_LIST)
  {
    if tag.Some? && ContainsOfType(tag.value, "display", TAG_COMPOUND) then
      var display := GetCompound(tag.value, "display");
      if ContainsOfType(display, "Lore", TAG_LIST) then Some(ParsedLore(GetList(display, "Lore", TAG_STRING), parse))
      else None
    else None
  }

  /** "unbreakable" is shown when the tag says so and bit 4 of `HideFlags` does not hide it. */
  predicate ShowsUnbreakable(tag: Option<Compound>) {
    tag.Some? && GetBoolean(tag.value, "Unbreakable") && BitClear(HideFlags(tag), HIDE_UNBREAKABLE)
  }

  /** The parsed lore lines as a list of string values, in order. */
  function StringList(lines: seq<string>): (r: seq<Value>)
    ensures |r| == |lines|
    ensures forall i :: 0 <= i < |lines| ==> r[i] == VString(lines[i])
  {
    if lines == [] then [] else [VString(lines[0])] + StringList(lines[1..])
  }

  /** `put(key, value)` when `condition` holds. */
  function PutIf(m: map<string, Value>, condition: bool, key: string, value: Value): (r: map<string, Value>)
    ensures forall k :: k in r <==> k in m || (condition && k == key)
    ensures condition ==> r[key] == value
    ensures forall k :: k in m && k != key ==> r[k] == m[k]
  {
    if condition then m[key := value] else m
  }

  /** The entries `fill` always writes, and the damage and durability ones, on top of `data`. */
  function BaseFilled(data: map<string, Value>, stack: Stack, facts: ItemFacts): map<string, Value> {
    var m0 := data["displayName" := VString(facts.displayName)]["maxCount" := VInt(stack.item.maxStackSize)];
    var m1 := PutIf(PutIf(m0, facts.damageable, "damage", VInt(facts.damage)), facts.damageable, "maxDamage", VInt(facts.maxDamage));
    var m2 := PutIf(m1, facts.barVisible, "durability", VFraction(facts.barWidth, 13));
    m2["tags" := facts.tags]["itemGroups" := facts.itemGroups]
  }

  /** The table after `fill` added its entries to `data`. */
  function Filled(data: map<string, Value>, stack: Stack, facts: ItemFacts, parse: string -> Option<string>,
                  deserialize: seq<Tag> -> seq<Enchantment>): map<string, Value> {
    var enchants := VisibleEnchantments(stack, facts.enchantedBook, HideFlags(stack.tag), deserialize);
    var lore := Lore(stack.tag, parse);
    var m := PutIf(BaseFilled(data, stack, facts), lore.Some?, "lore", VList(StringList(lore.GetOr([]))));
    PutIf(PutIf(m, enchants != [], "enchantments", VList(enchants)), ShowsUnbreakable(stack.tag), "unbreakable", VBool(true))
  }

  /** "damage" and "maxDamage" are written exactly for damageable items and "durability" exactly when the bar shows. */
  lemma BaseFilledKeys(data: map<string, Value>, stack: Stack, facts: ItemFacts)
    requires "damage" !in data && "maxDamage" !in data && "durability" !in data
    ensures var d := BaseFilled(data, stack, facts);
      && ("damage" in d <==> facts.damageable) && ("maxDamage" in d <==> facts.damageable)
      && ("durability" in d <==> facts.barVisible)
      && "displayName" in d && "maxCount" in d && "tags" in d && "itemGroups" in d
      && (forall k :: k in d <==> k in data || k in {"displayName", "maxCount", "tags", "itemGroups"}
                                  || (facts.damageable && k in {"damage", "maxDamage"}) || (facts.barVisible && k == "durability"))
  {
  }

  /**
   * Which optional entries `fill` adds: "lore" exactly when the display compound has a
   * lore list, "enchantments" exactly when some enchantment is visible, "unbreakable"
   * (always true) exactly when the tag says so and `HideFlags` bit 4 is clear; without a
   * tag there is neither lore nor "unbreakable".
   */
  lemma FilledKeys(data: map<string, Value>, stack: Stack, facts: ItemFacts, parse: string -> Option<string>, deserialize: seq<Tag> -> seq<Enchantment>)
    requires "lore" !in data && "enchantments" !in data && "unbreakable" !in data
    ensures var d := Filled(data, stack, facts, parse, deserialize);
      && ("lore" in d <==> Lore(stack.tag, parse).Some?)
      && ("enchantments" in d <==> VisibleEnchantments(stack, facts.enchantedBook, HideFlags(stack.tag), deserialize) != [])
      && ("unbreakable" in d <==> stack.tag.Some? && GetBoolean(stack.tag.value, "Unbreakable") && BitClear(HideFlags(stack.tag), HIDE_UNBREAKABLE))
      && ("unbreakable" in d ==> d["unbreakable"] == VBool(true))
      && (stack.tag.None? ==> "unbreakable" !in d && "lore" !in d)
  {
    var base := BaseFilled(data, stack, facts);
    assert forall k :: k in base ==> k in data || k in {"displayName", "maxCount", "tags", "itemGroups", "damage", "maxDamage", "durability"};
    assert "lore" !in base && "enchantments" !in base && "unbreakable" !in base;
  }

  /** Entries under keys `fill` does not write are left as they were. */
  lemma FilledKeepsOthers(data: map<string, Value>, stack: Stack, facts: ItemFacts, parse: string -> Option<string>,
                          deserialize: seq<Tag> -> seq<Enchantment>, k: string)
    requires k in data
    requires k !in {"displayName", "maxCount", "damage", "maxDamage", "durability", "tags", "itemGroups", "lore", "enchantments", "unbreakable"}
    ensures var d := Filled(data, stack, facts, parse, deserialize); k in d && d[k] == data[k]
  {
    assert k != "displayName" && k != "maxCount" && k != "damage" && k != "maxDamage" && k != "durability";
    assert k != "tags" && k != "itemGroups" && k != "lore" && k != "enchantments" && k != "unbreakable";
    var m0 := data["displayName" := VString(facts.displayName)]["maxCount" := VInt(stack.item.maxStackSize)];
    assert k in m0 && m0[k] == data[k];
    var base := BaseFilled(data, stack, facts);
    assert k in base && base[k] == data[k];
  }

  /** `fill`: one `put` after another, each optional entry behind its condition. */
  method Fill(data: DataMap, stack: Stack, facts: ItemFacts, parse: string -> Option<string>, deserialize: seq<Tag> -> seq<Enchantment>)
    modifies data
    ensures data.entries == Filled(old(data.entries), stack, facts, parse, deserialize)
  {
    data.Put("displayName", VString(facts.displayName));
    data.Put("maxCount", VInt(stack.item.maxStackSize));
    if facts.damageable {
      data.Put("damage", VInt(facts.damage));
      data.Put("maxDamage", VInt(facts.maxDamage));
    }
    if facts.barVisible {
      data.Put("durability", VFraction(facts.barWidth, 13));
    }
    data.Put("tags", facts.tags);
    data.Put("itemGroups", facts.itemGroups);
    assert data.entries == BaseFilled(old(data.entries), stack, facts);
    ghost var base := data.entries;
    var tag := stack.tag;
    if tag.Some? && ContainsOfType(tag.value, "display", TAG_COMPOUND) {
      var displayTag := GetCompound(tag.value, "display");
      if ContainsOfType(displayTag, "Lore", TAG_LIST) {
        var loreTag := GetList(displayTag, "Lore", TAG_STRING);
        data.Put("lore", VList(StringList(ParsedLore(loreTag, parse))));
      }
    }
    assert data.entries == PutIf(base, Lore(tag, parse).Some?, "lore", VList(StringList(Lore(tag, parse).GetOr([]))));
    var hideFlags := if tag.Some? then GetInt(tag.value, "HideFlags") else 0;
    var enchants := GetAllEnchants(stack, facts.enchantedBook, hideFlags, deserialize);
    if enchants != [] {
      data.Put("enchantments", VList(enchants));
    }
    if tag.Some? && GetBoolean(tag.value, "Unbreakable") && BitClear(hideFlags, HIDE_UNBREAKABLE) {
      data.Put("unbreakable", VBool(true));
    }
  }
}
