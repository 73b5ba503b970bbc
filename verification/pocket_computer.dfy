/**
 * `ItemPocketComputer`: what a pocket computer stack remembers in its tag (computer id,
 * instance and session of the running computer, upgrade, on-flag, colour) and how the
 * running computer's state is copied back into the stack every tick.
 *
 * The stack's label is its custom hover name. Minecraft keeps that name in the tag's
 * display compound; here it is a field of its own beside the tag.
 */
module PocketComputer {
  import opened Wrappers
  import opened Nbt

  const NBT_ID: string := "ComputerId"
  const NBT_COLOUR: string := "Color"
  const NBT_UPGRADE: string := "Upgrade"
  const NBT_UPGRADE_INFO: string := "UpgradeInfo"
  const NBT_LIGHT: string := "Light"
  const NBT_ON: string := "On"
  const NBT_INSTANCE: string := "Instanceid"
  const NBT_SESSION: string := "SessionId"

  /** `getOrCreateTag`, as a value: the tag, or a new empty one. */
  function OrEmpty(tag: Option<Compound>): Compound {
    tag.GetOr(map[])
  }

  /** An `int` stored under `key`, or -1 when there is no tag or no such key. */
  function IntOr(tag: Option<Compound>, key: string): (r: int)
    ensures tag.None? || key !in tag.value ==> r == -1
    ensures tag.Some? && key in tag.value && tag.value[key].IntTag? ==> r == tag.value[key].i
  {
    if tag.Some? && key in tag.value then GetInt(tag.value, key) else -1
  }

  /** `getComputerID`: -1 when the stack has no id. */
  function ComputerId(tag: Option<Compound>): (r: int)
    ensures tag.None? || NBT_ID !in tag.value ==> r == -1
  {
    IntOr(tag, NBT_ID)
  }

  /** `getColour`: -1 when the stack is not dyed. */
  function Colour(tag: Option<Compound>): (r: int)
    ensures tag.None? || NBT_COLOUR !in tag.value ==> r == -1
  {
    IntOr(tag, NBT_COLOUR)
  }

  /** `getInstanceID`: -1 when there is no tag or no "Instanceid". */
  function InstanceId(tag: Option<Compound>): (r: int)
    ensures tag.None? || NBT_INSTANCE !in tag.value ==> r == -1
    ensures tag.Some? && NBT_INSTANCE in tag.value && tag.value[NBT_INSTANCE].IntTag? ==> r == tag.value[NBT_INSTANCE].i
  {
    IntOr(tag, NBT_INSTANCE)
  }

  /** `getSessionID`: -1 when there is no tag or no "SessionId". */
  function SessionId(tag: Option<Compound>): (r: int)
    ensures tag.None? || NBT_SESSION !in tag.value ==> r == -1
    ensures tag.Some? && NBT_SESSION in tag.value && tag.value[NBT_SESSION].IntTag? ==> r == tag.value[NBT_SESSION].i
  {
    IntOr(tag, NBT_SESSION)
  }

  /** `isMarkedOn`: false without a tag or without a non-zero "On". */
  function IsMarkedOn(tag: Option<Compound>): (r: bool)
    ensures tag.None? ==> !r
    ensures tag.Some? && NBT_ON !in tag.value ==> !r
    ensures tag.Some? && NBT_ON in tag.value && tag.value[NBT_ON].ByteTag? ==> (r <==> tag.value[NBT_ON].b != 0)
  {
    tag.Some? && GetBoolean(tag.value, NBT_ON)
  }

  /**
   * The id `getUpgrade` looks up in the pocket upgrade registry: present exactly when the
   * tag has an "Upgrade" key. The registry lookup is not part of this model.
   */
  function UpgradeId(tag: Option<Compound>): (r: Option<string>)
    ensures r.Some? <==> tag.Some? && NBT_UPGRADE in tag.value
    ensures r.Some? && tag.value[NBT_UPGRADE].StringTag? ==> r.value == tag.value[NBT_UPGRADE].s
  {
    if tag.Some? && NBT_UPGRADE in tag.value then Some(GetString(tag.value, NBT_UPGRADE)) else None
  }

  /** The tag after `put(key, value)` on `getOrCreateTag()`. */
  function WithEntry(tag: Option<Compound>, key: string, value: Tag): (r: Option<Compound>)
    ensures r.Some? && key in r.value && r.value[key] == value
    ensures forall k :: k != key ==> (tag.Some? && k in tag.value <==> k in r.value)
    ensures forall k :: k != key && tag.Some? && k in tag.value ==> r.value[k] == tag.value[k]
  {
    Some(Put(OrEmpty(tag), key, value))
  }

  /** The tag after `remove(key)` on `getOrCreateTag()`. */
  function WithoutEntry(tag: Option<Compound>, key: string): (r: Option<Compound>)
    ensures r.Some? && key !in r.value
    ensures forall k :: k != key ==> (tag.Some? && k in tag.value <==> k in r.value)
    ensures forall k :: k != key && tag.Some? && k in tag.value ==> r.value[k] == tag.value[k]
  {
    Some(Remove(OrEmpty(tag), key))
  }

  /**
   * Setting the instance or the session id and reading it back gives the stored value,
   * whatever the tag held before, and leaves the other id alone.
   */
  lemma IdsRoundTrip(tag: Option<Compound>, id: int)
    ensures InstanceId(WithEntry(tag, NBT_INSTANCE, IntTag(id))) == id
    ensures SessionId(WithEntry(tag, NBT_SESSION, IntTag(id))) == id
    ensures ComputerId(WithEntry(tag, NBT_ID, IntTag(id))) == id
    ensures SessionId(WithEntry(tag, NBT_INSTANCE, IntTag(id))) == SessionId(tag)
    ensures InstanceId(WithEntry(tag, NBT_SESSION, IntTag(id))) == InstanceId(tag)
  {
    var ins := WithEntry(tag, NBT_INSTANCE, IntTag(id));
    assert NBT_SESSION != NBT_INSTANCE;
    assert tag.Some? && NBT_SESSION in tag.value <==> NBT_SESSION in ins.value;
  }

  /** A pocket computer item stack; the methods below update it in place. */
  class PocketStack {
    var tag: Option<Compound>
    /** The custom hover name, which `getLabel` reads. */
    var name: Option<string>

    /** `new ItemStack(item)`: no tag and no name. */
    constructor ()
      ensures tag == None && name == None
    {
      tag := None;
      name := None;
    }

    /** `getOrCreateTag().put(key, value)`. */
    method PutEntry(key: string, value: Tag)
      modifies this
      ensures tag == WithEntry(old(tag), key, value) && name == old(name)
    {
      tag := Some(Put(OrEmpty(tag), key, value));
    }

    /** `getOrCreateTag().remove(key)`. */
    method RemoveEntry(key: string)
      modifies this
      ensures tag == WithoutEntry(old(tag), key) && name == old(name)
    {
      tag := Some(Remove(OrEmpty(tag), key));
    }

    /** `setLabel`: a label sets the hover name and none resets it; always reports success. */
    method SetLabel(newLabel: Option<string>) returns (ok: bool)
      modifies this
      ensures name == newLabel && tag == old(tag) && ok
    {
      name := newLabel;
      ok := true;
    }
  }

  /** `setComputerID`. */
  method SetComputerId(stack: PocketStack, id: int)
    modifies stack
    ensures stack.tag == WithEntry(old(stack.tag), NBT_ID, IntTag(id)) && stack.name == old(stack.name)
  {
    stack.PutEntry(NBT_ID, IntTag(id));
  }

  /** `setInstanceID`. */
  method SetInstanceId(stack: PocketStack, id: int)
    modifies stack
    ensures stack.tag == WithEntry(old(stack.tag), NBT_INSTANCE, IntTag(id)) && stack.name == old(stack.name)
  {
    stack.PutEntry(NBT_INSTANCE, IntTag(id));
  }

  /** `setSessionID`. */
  method SetSessionId(stack: PocketStack, id: int)
    modifies stack
    ensures stack.tag == WithEntry(old(stack.tag), NBT_SESSION, IntTag(id)) && stack.name == old(stack.name)
  {
    stack.PutEntry(NBT_SESSION, IntTag(id));
  }

  /** The tag `setUpgrade` leaves: the new upgrade's id, or none, and never any upgrade data. */
  function UpgradeSet(tag: Option<Compound>, upgrade: Option<string>): Option<Compound> {
    var t := if upgrade.None? then WithoutEntry(tag, NBT_UPGRADE) else WithEntry(tag, NBT_UPGRADE, StringTag(upgrade.value));
    WithoutEntry(t, NBT_UPGRADE_INFO)
  }

  /**
   * After `setUpgrade` the stack reads back exactly the upgrade that was set, the old
   * upgrade's "UpgradeInfo" is gone, and every other entry is kept.
   */
  lemma UpgradeSetReadsBack(tag: Option<Compound>, upgrade: Option<string>)
    ensures var r := UpgradeSet(tag, upgrade);
      && UpgradeId(r) == upgrade
      && r.Some? && NBT_UPGRADE_INFO !in r.value
      && (forall k :: k != NBT_UPGRADE && k != NBT_UPGRADE_INFO ==>
            (k in r.value <==> tag.Some? && k in tag.value) && (k in r.value ==> r.value[k] == tag.value[k]))
  {
    assert NBT_UPGRADE != NBT_UPGRADE_INFO;
  }

  /** `setUpgrade`. */
  method SetUpgrade(stack: PocketStack, upgrade: Option<string>)
    modifies stack
    ensures stack.tag == UpgradeSet(old(stack.tag), upgrade) && stack.name == old(stack.name)
  {
    if upgrade.None? {
      stack.RemoveEntry(NBT_UPGRADE);
    } else {
      stack.PutEntry(NBT_UPGRADE, StringTag(upgrade.value));
    }
    stack.RemoveEntry(NBT_UPGRADE_INFO);
  }

  /** The tag `create` builds: each entry only when its value is given. */
  function CreatedTag(id: int, colour: int, upgrade: Option<string>): Option<Compound> {
    var t0: Option<Compound> := None;
    var t1 := if id >= 0 then WithEntry(t0, NBT_ID, IntTag(id)) else t0;
    var t2 := if upgrade.Some? then WithEntry(t1, NBT_UPGRADE, StringTag(upgrade.value)) else t1;
    if colour != -1 then WithEntry(t2, NBT_COLOUR, IntTag(colour)) else t2
  }

  /**
   * A created stack reads back its arguments: the id when it is not negative (else -1),
   * the upgrade and the colour; it has no other entries, and a stack created with no id,
   * no upgrade and no colour has no tag at all.
   */
  lemma CreatedReadsBack(id: int, colour: int, upgrade: Option<string>)
    ensures var t := CreatedTag(id, colour, upgrade);
      && ComputerId(t) == (if id >= 0 then id else -1)
      && Colour(t) == colour
      && UpgradeId(t) == upgrade
      && (t.None? <==> id < 0 && colour == -1 && upgrade.None?)
      && (t.Some? ==> forall k :: k in t.value ==> k == NBT_ID || k == NBT_UPGRADE || k == NBT_COLOUR)
      && (t.Some? ==> (NBT_ID in t.value <==> id >= 0) && (NBT_UPGRADE in t.value <==> upgrade.Some?)
                      && (NBT_COLOUR in t.value <==> colour != -1))
  {
    assert NBT_ID != NBT_UPGRADE && NBT_ID != NBT_COLOUR && NBT_UPGRADE != NBT_COLOUR;
  }

  /** `create`: a new stack with the given id, label, colour and upgrade. */
  method Create(id: int, itemLabel: Option<string>, colour: int, upgrade: Option<string>) returns (stack: PocketStack)
    ensures fresh(stack)
    ensures stack.tag == CreatedTag(id, colour, upgrade) && stack.name == itemLabel
  {
    stack := new PocketStack();
    if id >= 0 {
      stack.PutEntry(NBT_ID, IntTag(id));
    }
    if itemLabel.Some? {
      var _ := stack.SetLabel(itemLabel);
    }
    if upgrade.Some? {
      stack.PutEntry(NBT_UPGRADE, StringTag(upgrade.value));
    }
    if colour != -1 {
      stack.PutEntry(NBT_COLOUR, IntTag(colour));
    }
  }

  /** What the running computer reports each tick. */
  datatype ComputerState = ComputerState(id: int, currentLabel: Option<string>, on: bool)

  /** The stack already shows the computer's id, label and on-flag. */
  predicate InSync(tag: Option<Compound>, name: Option<string>, c: ComputerState) {
    ComputerId(tag) == c.id && name == c.currentLabel && IsMarkedOn(tag) == c.on
  }

  /** The tag after `tick` copied the computer's id and on-flag into it, each only when it differed. */
  function SyncedTag(tag: Option<Compound>, c: ComputerState): Option<Compound> {
    var t := if ComputerId(tag) != c.id then WithEntry(tag, NBT_ID, IntTag(c.id)) else tag;
    if IsMarkedOn(t) != c.on then WithEntry(t, NBT_ON, BoolTag(c.on)) else t
  }

  /**
   * Syncing brings the stack in line with the computer and touches no other entry; a
   * stack already in sync is left exactly as it was.
   */
  lemma SyncedTagInSync(tag: Option<Compound>, name: Option<string>, c: ComputerState)
    ensures InSync(SyncedTag(tag, c), c.currentLabel, c)
    ensures InSync(tag, name, c) ==> SyncedTag(tag, c) == tag
    ensures var r := SyncedTag(tag, c);
      forall k :: k != NBT_ID && k != NBT_ON && tag.Some? && k in tag.value ==> r.Some? && k in r.value && r.value[k] == tag.value[k]
  {
    var t := if ComputerId(tag) != c.id then WithEntry(tag, NBT_ID, IntTag(c.id)) else tag;
    assert NBT_ID != NBT_ON;
    assert ComputerId(t) == c.id;
  }

  /**
   * The sync step of `tick`: copy the computer's id, label and on-flag into the stack,
   * each only when it differs, and report whether anything changed.
   */
  method Tick(stack: PocketStack, computer: ComputerState) returns (changed: bool)
    modifies stack
    ensures stack.tag == SyncedTag(old(stack.tag), computer) && stack.name == computer.currentLabel
    ensures InSync(stack.tag, stack.name, computer)
    ensures changed <==> !InSync(old(stack.tag), old(stack.name), computer)
  {
    SyncedTagInSync(stack.tag, stack.name, computer);
    changed := false;
    var id := computer.id;
    if id != ComputerId(stack.tag) {
      changed := true;
      SetComputerId(stack, id);
    }
    var newLabel := computer.currentLabel;
    if newLabel != stack.name {
      changed := true;
      var _ := stack.SetLabel(newLabel);
    }
    var on := computer.on;
    if on != IsMarkedOn(stack.tag) {
      changed := true;
      stack.PutEntry(NBT_ON, BoolTag(on));
    }
  }

  /**
   * The part of `createServerComputer` that runs when the registry holds no computer for
   * the stack's session and instance: a stack without an id (negative) gets the freshly
   * allocated `newId`, then the new instance and session ids are stored. The result is
   * the computer id the new computer runs with, and whether it is switched on at once
   * (the stack is marked on and held by a player). When the registry already has the
   * computer the stack is left alone and no computer is created.
   */
  method CreateServerComputer(stack: PocketStack, found: bool, newId: int, instance: int, session: int, heldByPlayer: bool)
    returns (created: Option<int>, turnOn: bool)
    modifies stack
    ensures found ==> created.None? && !turnOn && stack.tag == old(stack.tag) && stack.name == old(stack.name)
    ensures !found ==> created == Some(if ComputerId(old(stack.tag)) < 0 then newId else ComputerId(old(stack.tag)))
    ensures !found ==> ComputerId(stack.tag) == created.value && InstanceId(stack.tag) == instance && SessionId(stack.tag) == session
    ensures !found ==> stack.name == old(stack.name)
    ensures !found ==> (turnOn <==> IsMarkedOn(old(stack.tag)) && heldByPlayer)
    ensures !found ==> stack.tag == WithEntry(WithEntry(
      if ComputerId(old(stack.tag)) < 0 then WithEntry(old(stack.tag), NBT_ID, IntTag(newId)) else old(stack.tag),
      NBT_INSTANCE, IntTag(instance)), NBT_SESSION, IntTag(session))
    ensures !found ==> forall k :: k != NBT_ID && k != NBT_INSTANCE && k != NBT_SESSION ==>
      && (old(stack.tag).Some? && k in old(stack.tag).value <==> k in stack.tag.value)
      && (old(stack.tag).Some? && k in old(stack.tag).value ==> stack.tag.value[k] == old(stack.tag).value[k])
    ensures !found && ComputerId(old(stack.tag)) >= 0 ==> stack.tag.value[NBT_ID] == old(stack.tag).value[NBT_ID]
  {
    if found {
      return None, false;
    }
    var computerId := ComputerId(stack.tag);
    if computerId < 0 {
      computerId := newId;
      SetComputerId(stack, computerId);
    }
    created := Some(ComputerId(stack.tag));
    ghost var t0 := stack.tag;
    SetInstanceId(stack, instance);
    SetSessionId(stack, session);
    IdsRoundTrip(t0, instance);
    IdsRoundTrip(WithEntry(t0, NBT_INSTANCE, IntTag(instance)), session);
    assert NBT_ID != NBT_INSTANCE && NBT_ID != NBT_SESSION && NBT_ON != NBT_INSTANCE && NBT_ON != NBT_SESSION && NBT_ON != NBT_ID;
    turnOn := IsMarkedOn(stack.tag) && heldByPlayer;
  }
}
