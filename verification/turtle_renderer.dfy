/**
 * The decisions `TileEntityTurtleRenderer` makes before drawing a turtle: which body
 * model, which overlay, whether the model is flipped upside down, and the colour each
 * quad is tinted with. The drawing itself is not modelled.
 */
module TurtleRenderer {
  import opened Wrappers

  datatype Family = Normal | Advanced | Command

  /** Model locations, written `namespace:path` (with `#variant` for a model resource location). */
  type Location = string

  const NORMAL_TURTLE_MODEL: Location := "computercraft:turtle_normal#inventory"
  const ADVANCED_TURTLE_MODEL: Location := "computercraft:turtle_advanced#inventory"
  const COLOUR_TURTLE_MODEL: Location := "computercraft:block/turtle_colour"
  const ELF_OVERLAY_MODEL: Location := "computercraft:block/turtle_elf_overlay"

  /** `getTurtleModel`: a dyed turtle uses the colour model whatever its family. */
  function TurtleModel(family: Family, coloured: bool): (r: Location)
    ensures coloured ==> r == COLOUR_TURTLE_MODEL
    ensures !coloured ==> (r == ADVANCED_TURTLE_MODEL <==> family == Advanced)
    ensures !coloured ==> (r == NORMAL_TURTLE_MODEL <==> family != Advanced)
  {
    match family
    case Advanced => if coloured then COLOUR_TURTLE_MODEL else ADVANCED_TURTLE_MODEL
    case _ => if coloured then COLOUR_TURTLE_MODEL else NORMAL_TURTLE_MODEL
  }

  /** `getTurtleOverlayModel`: an explicit overlay wins, else the elf hat at Christmas, else none. */
  function OverlayModel(overlay: Option<Location>, christmas: bool): (r: Option<Location>)
    ensures overlay.Some? ==> r == overlay
    ensures overlay.None? ==> (r.Some? <==> christmas)
    ensures r.Some? && overlay.None? ==> r.value == ELF_OVERLAY_MODEL
  {
    if overlay.Some? then overlay
    else if christmas then Some(ELF_OVERLAY_MODEL)
    else None
  }

  /** The turtle is drawn upside down when it is named "Dinnerbone" or "Grumm". */
  function IsFlipped(name: Option<string>): (r: bool)
    ensures r <==> name == Some("Dinnerbone") || name == Some("Grumm")
  {
    name.Some? && (name.value == "Dinnerbone" || name.value == "Grumm")
  }

  /** The tint array passed with the body model: the turtle's colour, or none when undyed. */
  function BodyTints(colour: int): (r: Option<seq<int>>)
    ensures r.None? <==> colour == -1
    ensures r.Some? ==> r.value == [colour]
  {
    if colour == -1 then None else Some([colour])
  }

  /**
   * The tint of one quad: the indexed entry of the tint array when there is one, the quad
   * is tinted and its index lies inside the array; otherwise -1, which leaves it untinted.
   */
  function QuadTint(tints: Option<seq<int>>, tinted: bool, tintIndex: int): (r: int)
    ensures tints.Some? && tinted && 0 <= tintIndex < |tints.value| ==> r == tints.value[tintIndex]
    ensures !(tints.Some? && tinted && 0 <= tintIndex < |tints.value|) ==> r == -1
  {
    if tints.Some? && tinted then
      if 0 <= tintIndex < |tints.value| then tints.value[tintIndex] else -1
    else -1
  }

  /**
   * The colour channels `tint >> 16 & 255`, `tint >> 8 & 255` and `tint & 255`. For a Java
   * `int`, the arithmetic shift is division rounding down and the mask is the remainder
   * modulo 256, which is what Dafny's `/` and `%` compute.
   */
  function Channels(tint: int): (rgb: (int, int, int))
    ensures 0 <= rgb.0 <= 255 && 0 <= rgb.1 <= 255 && 0 <= rgb.2 <= 255
  {
    ((tint / 65536) % 256, (tint / 256) % 256, tint % 256)
  }

  /** An RGB colour `0xRRGGBB` splits into its three bytes, and they put it back together. */
  lemma ChannelsSplitColour(tint: int)
    requires 0 <= tint < 0x100_0000
    ensures var (r, g, b) := Channels(tint); r * 65536 + g * 256 + b == tint
  {
    var q := tint / 256;
    assert tint == q * 256 + tint % 256;
    assert q / 256 == tint / 65536;
    assert q == (q / 256) * 256 + q % 256;
  }

  /** The untinted value -1 gives full intensity in every channel, so an untinted quad keeps its texture's colour. */
  lemma UntintedIsWhite()
    ensures Channels(-1) == (255, 255, 255)
  {
  }

  /** Which model one `renderModel` call draws, and with which tints. */
  datatype Pass = Pass(model: Location, tints: Option<seq<int>>)

  /**
   * The models `render` draws, in order: the body (tinted with the dye colour), the overlay
   * if any, then the left and the right upgrade when fitted. The upgrades' models come
   * from their modellers, which are parameters here.
   */
  function RenderPasses(family: Family, colour: int, overlay: Option<Location>, christmas: bool,
                        leftUpgrade: Option<Location>, rightUpgrade: Option<Location>): (r: seq<Pass>)
    ensures 1 <= |r| <= 4
    ensures r[0] == Pass(TurtleModel(family, colour != -1), BodyTints(colour))
    ensures forall i :: 1 <= i < |r| ==> r[i].tints.None?
    ensures |r| == 1 + (if OverlayModel(overlay, christmas).Some? then 1 else 0)
                     + (if leftUpgrade.Some? then 1 else 0) + (if rightUpgrade.Some? then 1 else 0)
    ensures OverlayModel(overlay, christmas).Some? ==> r[1] == Pass(OverlayModel(overlay, christmas).value, None)
    ensures leftUpgrade.Some? ==>
      r[if OverlayModel(overlay, christmas).Some? then 2 else 1] == Pass(leftUpgrade.value, None)
    ensures rightUpgrade.Some? ==> r[|r| - 1] == Pass(rightUpgrade.value, None)
  {
    var overlayModel := OverlayModel(overlay, christmas);
    [Pass(TurtleModel(family, colour != -1), BodyTints(colour))]
      + (if overlayModel.Some? then [Pass(overlayModel.value, None)] else [])
      + (if leftUpgrade.Some? then [Pass(leftUpgrade.value, None)] else [])
      + (if rightUpgrade.Some? then [Pass(rightUpgrade.value, None)] else [])
  }

  /** Only the body can be dyed: every quad of another pass is untinted. */
  lemma OnlyBodyIsTinted(passes: seq<Pass>, i: nat, tinted: bool, tintIndex: int,
                         family: Family, colour: int, overlay: Option<Location>, christmas: bool,
                         leftUpgrade: Option<Location>, rightUpgrade: Option<Location>)
    requires passes == RenderPasses(family, colour, overlay, christmas, leftUpgrade, rightUpgrade)
    requires i < |passes|
    ensures i > 0 || colour == -1 ==> QuadTint(passes[i].tints, tinted, tintIndex) == -1
    ensures i == 0 && colour != -1 && tinted && tintIndex == 0 ==> QuadTint(passes[i].tints, tinted, tintIndex) == colour
  {
  }
}
