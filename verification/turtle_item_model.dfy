/**
 * `TurtleSmartItemModel`: the item model of a turtle is a list of parts built from the
 * stack's dye, upgrades, overlay, the Christmas flag and the name, memoised per
 * combination of those.
 */
module TurtleItemModel {
  import opened Wrappers
  import opened TurtleRenderer

  datatype Side = Left | Right

  /** The transformation every part is drawn with: upside down when flipped. */
  datatype Transformation = Identity | Flip

  datatype PartModel =
    | ColourModel
    | FamilyModel
    | OverlayPart(location: Location)
    | UpgradePart(upgrade: string, side: Side)

  datatype Part = Part(model: PartModel, transformation: Transformation)

  /** `TurtleModelCombination`: the cache key. */
  datatype Combination = Combination(
    colour: bool,
    leftUpgrade: Option<string>,
    rightUpgrade: Option<string>,
    overlay: Option<Location>,
    christmas: bool,
    flip: bool)

  /** The key `getRenderPasses` builds from a stack: it keeps whether the turtle is dyed, not the dye. */
  function CombinationOf(colour: int, leftUpgrade: Option<string>, rightUpgrade: Option<string>,
                         overlay: Option<Location>, christmas: bool, name: Option<string>): (c: Combination)
    ensures c.colour <==> colour != -1
    ensures c.flip <==> name == Some("Dinnerbone") || name == Some("Grumm")
    ensures c.leftUpgrade == leftUpgrade && c.rightUpgrade == rightUpgrade && c.overlay == overlay && c.christmas == christmas
  {
    Combination(colour != -1, leftUpgrade, rightUpgrade, overlay, christmas, IsFlipped(name))
  }

  /** Two dyed turtles share a cache entry whatever their colours. */
  lemma DyeColourNotInKey(colour1: int, colour2: int, leftUpgrade: Option<string>, rightUpgrade: Option<string>,
                          overlay: Option<Location>, christmas: bool, name: Option<string>)
    requires colour1 != -1 && colour2 != -1
    ensures CombinationOf(colour1, leftUpgrade, rightUpgrade, overlay, christmas, name)
         == CombinationOf(colour2, leftUpgrade, rightUpgrade, overlay, christmas, name)
  {
  }

  /** What `buildModel` produces for a combination. */
  function Parts(c: Combination): seq<Part> {
    var t := if c.flip then Flip else Identity;
    var overlayModel := OverlayModel(c.overlay, c.christmas);
    [Part(if c.colour then ColourModel else FamilyModel, t)]
      + (if overlayModel.Some? then [Part(OverlayPart(overlayModel.value), t)] else [])
      + (if c.leftUpgrade.Some? then [Part(UpgradePart(c.leftUpgrade.value, Left), t)] else [])
      + (if c.rightUpgrade.Some? then [Part(UpgradePart(c.rightUpgrade.value, Right), t)] else [])
  }

  /**
   * The part list: the colour or family model first, then the overlay, the left upgrade
   * and the right upgrade when present, in that order; one to four parts, all with the
   * same transformation.
   */
  lemma PartsShape(c: Combination)
    ensures var r := Parts(c);
      && 1 <= |r| <= 4
      && r[0].model == (if c.colour then ColourModel else FamilyModel)
      && (forall i :: 0 <= i < |r| ==> r[i].transformation == (if c.flip then Flip else Identity))
      && (forall i :: 1 <= i < |r| ==> !r[i].model.ColourModel? && !r[i].model.FamilyModel?)
      && (OverlayModel(c.overlay, c.christmas).Some? ==> r[1].model == OverlayPart(OverlayModel(c.overlay, c.christmas).value))
      && (c.rightUpgrade.Some? ==> r[|r| - 1].model == UpgradePart(c.rightUpgrade.value, Right))
      && (c.leftUpgrade.Some? ==>
            r[if OverlayModel(c.overlay, c.christmas).Some? then 2 else 1].model == UpgradePart(c.leftUpgrade.value, Left))
      && |r| == 1 + (if OverlayModel(c.overlay, c.christmas).Some? then 1 else 0)
                  + (if c.leftUpgrade.Some? then 1 else 0) + (if c.rightUpgrade.Some? then 1 else 0)
  {
  }

  /** The item is drawn with as many parts as the placed turtle is with render passes. */
  lemma ItemMatchesBlock(family: Family, colour: int, overlay: Option<Location>, christmas: bool,
                         name: Option<string>, leftUpgrade: Option<string>, rightUpgrade: Option<string>,
                         leftModel: Option<Location>, rightModel: Option<Location>)
    requires leftModel.Some? <==> leftUpgrade.Some?
    requires rightModel.Some? <==> rightUpgrade.Some?
    ensures var parts := Parts(CombinationOf(colour, leftUpgrade, rightUpgrade, overlay, christmas, name));
      var passes := RenderPasses(family, colour, overlay, christmas, leftModel, rightModel);
      var o := OverlayModel(overlay, christmas);
      var l := if o.Some? then 2 else 1;
      && |parts| == |passes|
      && (o.Some? ==> parts[1].model == OverlayPart(o.value) && passes[1].model == o.value)
      && (leftUpgrade.Some? ==> parts[l].model == UpgradePart(leftUpgrade.value, Left) && passes[l].model == leftModel.value)
      && (rightUpgrade.Some? ==>
            parts[|parts| - 1].model == UpgradePart(rightUpgrade.value, Right) && passes[|passes| - 1].model == rightModel.value)
  {
    PartsShape(CombinationOf(colour, leftUpgrade, rightUpgrade, overlay, christmas, name));
  }

  /** `buildModel`: the part list, one `add` after another. */
  method BuildModel(c: Combination) returns (parts: seq<Part>)
    ensures parts == Parts(c)
  {
    var transformation := if c.flip then Flip else Identity;
    parts := [Part(if c.colour then ColourModel else FamilyModel, transformation)];
    var overlayModelLocation := OverlayModel(c.overlay, c.christmas);
    if overlayModelLocation.Some? {
      parts := parts + [Part(OverlayPart(overlayModelLocation.value), transformation)];
    }
    if c.leftUpgrade.Some? {
      parts := parts + [Part(UpgradePart(c.leftUpgrade.value, Left), transformation)];
    }
    if c.rightUpgrade.Some? {
      parts := parts + [Part(UpgradePart(c.rightUpgrade.value, Right), transformation)];
    }
  }

  predicate NoDuplicates<T(==)>(s: seq<T>) {
    forall i, j :: 0 <= i < j < |s| ==> s[i] != s[j]
  }

  class TurtleSmartItemModel {
    var cachedModels: map<Combination, seq<Part>>
    /** Every combination `buildModel` was run for, in order. */
    ghost var built: seq<Combination>

    /** Each cached list is the one built for its key, and each key was built exactly once. */
    ghost predicate Valid()
      reads this
    {
      && (forall c :: c in cachedModels ==> cachedModels[c] == Parts(c))
      && (forall c :: c in cachedModels <==> c in built)
      && NoDuplicates(built)
    }

    constructor ()
      ensures Valid() && cachedModels == map[] && built == []
    {
      cachedModels := map[];
      built := [];
    }

    /**
     * `getRenderPasses`: the cached list for the stack's combination, built and cached on
     * first use. A combination seen before returns the list cached for it and builds
     * nothing.
     */
    method GetRenderPasses(colour: int, leftUpgrade: Option<string>, rightUpgrade: Option<string>,
                           overlay: Option<Location>, christmas: bool, name: Option<string>) returns (parts: seq<Part>)
      requires Valid()
      modifies this
      ensures Valid()
      ensures var c := CombinationOf(colour, leftUpgrade, rightUpgrade, overlay, christmas, name);
        && parts == Parts(c)
        && cachedModels == old(cachedModels)[c := parts]
        && (c in old(cachedModels) ==> parts == old(cachedModels)[c] && built == old(built))
        && (c !in old(cachedModels) ==> built == old(built) + [c])
    {
      var combo := CombinationOf(colour, leftUpgrade, rightUpgrade, overlay, christmas, name);
      if combo in cachedModels {
        parts := cachedModels[combo];
      } else {
        parts := BuildModel(combo);
        cachedModels := cachedModels[combo := parts];
        built := built + [combo];
      }
    }
  }
}
