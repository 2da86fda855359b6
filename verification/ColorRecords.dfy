/** The records of the colour-management forwarder, as far as lifetimes go. */
module ColorRecords {
  /** `struct image_description_properties`. */
  class Properties {
    var referenceCount: nat

    /** `create_image_description_props()`. */
    constructor ()
      ensures referenceCount == 1
    {
      referenceCount := 1;
    }
  }

  /** `struct forward_image_desc`: `resource` says whether the client still has it; descriptions made by the
      server have `properties`. */
  class ImageDesc {
    var resource: bool
    var properties: Properties?
    var pendingSurfaces: seq<ColorSurface>
    var committedSurfaces: seq<ColorSurface>

    constructor (p: Properties?)
      ensures resource && properties == p && pendingSurfaces == [] && committedSurfaces == []
    {
      resource, properties, pendingSurfaces, committedSurfaces := true, p, [], [];
    }
  }

  /** The image descriptions of a `struct forward_surface`. */
  class ColorSurface {
    var pending: ImageDesc?
    var committed: ImageDesc?

    constructor ()
      ensures pending == null && committed == null
    {
      pending, committed := null, null;
    }
  }

  /** `struct image_description_state`. */
  class DescState {
    var current: Properties?
    var pending: Properties?
    var dirty: bool

    constructor ()
      ensures current == null && pending == null && !dirty
    {
      current, pending, dirty := null, null, false;
    }
  }
}
