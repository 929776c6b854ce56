/**
 * The add-on's property group. Only the parts the operators and the blade hooks touch
 * are kept. The aperture blade count is stored in the group's ID-property slot
 * 'blades'. The slot may be absent until the getter first runs. The setter mirrors
 * the camera's own blade field: 1 and 2 are not stored, they toggle between 0 and 3.
 */
module Properties {

  datatype Option<T> = None | Some(value: T)

  /** The declared hard range of the 'blades' property. */
  const MinBlades: int := 0
  const MaxBlades: int := 16

  datatype Rgb = Rgb(r: real, g: real, b: real)

  /** One entry of the ghosts collection, with its declared defaults. */
  datatype GhostSettings = GhostSettings(offset: real, color: Rgb, size: real)

  const DefaultGhost: GhostSettings := GhostSettings(0.0, Rgb(0.9, 0.9, 0.9), 5.0)

  /** Pixel size of the image selected as render target. */
  datatype ImageSize = ImageSize(width: nat, height: nat)

  /** What the getter reads out of a slot: 0 when it is still absent. */
  function StoredBlades(slot: Option<int>): int {
    if slot.Some? then slot.value else 0
  }

  /**
   * The value the setter leaves in the slot when asked to store `value`. A value
   * strictly between 0 and 3 toggles: a stored 0 becomes 3, anything else becomes 0.
   * Every other value is stored unchanged. The toggle reads the slot, so the slot
   * must already be present then.
   */
  function NextBlades(slot: Option<int>, value: int): (r: int)
    requires 0 < value < 3 ==> slot.Some?
    ensures r != 1 && r != 2
    ensures MinBlades <= value <= MaxBlades ==> r == 0 || 3 <= r <= MaxBlades
    ensures (0 < value < 3) != (r == value)
  {
    if 0 < value < 3 then
      if slot.value == 0 then 3 else 0
    else
      value
  }

  class LensFlareProperties {
    var posx: real
    var posy: real
    var image: Option<ImageSize>
    var useOverride: bool
    /** The ID-property slot behind 'blades'; None while the key is absent. */
    var bladesSlot: Option<int>
    var rotation: real
    var flareColor: Rgb
    var flareIntensity: real
    var ghosts: seq<GhostSettings>
    var debugPos: bool

    /** A group whose properties all hold their declared defaults; the blades slot is absent. */
    constructor ()
      ensures posx == 0.5 && posy == 0.5 && image == None && useOverride
      ensures bladesSlot == None && rotation == 0.0
      ensures flareColor == Rgb(0.9, 0.9, 0.9) && flareIntensity == 1.0
      ensures ghosts == [] && !debugPos
    {
      posx, posy := 0.5, 0.5;
      image := None;
      useOverride := true;
      bladesSlot := None;
      rotation := 0.0;
      flareColor := Rgb(0.9, 0.9, 0.9);
      flareIntensity := 1.0;
      ghosts := [];
      debugPos := false;
    }

    /** The slot never holds 1 or 2; within the declared range it holds 0 or 3..16. */
    ghost predicate BladesValid()
      reads this
    {
      bladesSlot.Some? ==> bladesSlot.value == 0 || 3 <= bladesSlot.value <= MaxBlades
    }

    /** The getter: an absent slot is initialised to 0; a present one is returned as stored. */
    method GetBlades() returns (v: int)
      modifies this`bladesSlot
      ensures v == StoredBlades(old(bladesSlot))
      ensures bladesSlot == Some(v)
      ensures old(bladesSlot).Some? ==> bladesSlot == old(bladesSlot)
      ensures old(BladesValid()) ==> BladesValid()
    {
      if bladesSlot.None? {
        bladesSlot := Some(0);
      }
      v := bladesSlot.value;
    }

    /** The setter hook. */
    method SetBlades(value: int)
      requires 0 < value < 3 ==> bladesSlot.Some?
      modifies this`bladesSlot
      ensures bladesSlot == Some(NextBlades(old(bladesSlot), value))
      ensures bladesSlot.value != 1 && bladesSlot.value != 2
      ensures MinBlades <= value <= MaxBlades ==> BladesValid()
    {
      if 0 < value < 3 {
        if bladesSlot.value == 0 {
          bladesSlot := Some(3);
        } else {
          bladesSlot := Some(0);
        }
      } else {
        bladesSlot := Some(value);
      }
    }
  }

  /**
   * Writing 1 or 2 twice in a row restores the slot exactly when it held 0 or 3;
   * from any other value the two toggles end on 3.
   */
  lemma ToggleTwice(stored: int, v: int, w: int)
    requires 0 < v < 3 && 0 < w < 3
    ensures NextBlades(Some(NextBlades(Some(stored), v)), w) == if stored == 0 then 0 else 3
  {
  }
}
