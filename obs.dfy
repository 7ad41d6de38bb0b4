/** The host application as the script sees it: sources with an enabled flag,
    and the geometry of the sources and of their scene items in the current
    scene. Lookups by a name the host does not know return the host's null
    handle; the host's accessors answer a null handle with zero values and
    ignore writes to it. */
module Obs {
  import opened Protocol

  /** The host's crop structure, in its own field order. */
  datatype Crop = Crop(left: int, top: int, right: int, bottom: int)

  /** Pixel sizes of sources by name, and crops of the scene items of the current scene. */
  datatype Geometry = Geometry(sizes: map<string, (int, int)>, crops: map<string, Crop>)

  /** `source_size`: width and height of the named source, (0, 0) without one. */
  function SourceSize(g: Geometry, name: string): (int, int)
  {
    if name in g.sizes then g.sizes[name] else (0, 0)
  }

  /** `_crop`: the crop of the named scene item, the zero-initialised crop without one. */
  function SceneitemCrop(g: Geometry, name: string): Crop
  {
    if name in g.crops then g.crops[name] else Crop(0, 0, 0, 0)
  }

  /** `obs_source_enabled` on the named source: false when there is none. */
  function SourceEnabled(enabled: map<string, bool>, name: string): bool
  {
    name in enabled && enabled[name]
  }

  /** `obs_source_set_enabled` on the named source: no effect when there is none. */
  function SetFlag(enabled: map<string, bool>, name: string, on: bool): map<string, bool>
  {
    if name in enabled then enabled[name := on] else enabled
  }

  /** The flags after the writes `writes` to the named source. */
  function AfterWrites(enabled: map<string, bool>, name: string, writes: seq<bool>): map<string, bool>
  {
    if writes == [] then enabled else SetFlag(enabled, name, writes[|writes| - 1])
  }

  /** The effects of issuing `writes` to the named source, in order. */
  function SetCalls(name: string, writes: seq<bool>): seq<Effect>
  {
    seq(|writes|, i requires 0 <= i < |writes| => SetEnabled(name, writes[i]))
  }

  class Host {
    var enabled: map<string, bool>
    var geometry: Geometry
    const trace: Trace

    constructor (trace: Trace, enabled: map<string, bool>, geometry: Geometry)
      ensures this.trace == trace && this.enabled == enabled && this.geometry == geometry
    {
      this.trace := trace;
      this.enabled := enabled;
      this.geometry := geometry;
    }

    method SetEnabled(name: string, on: bool)
      modifies this`enabled, trace
      ensures enabled == SetFlag(old(enabled), name, on)
      ensures trace.events == old(trace.events) + [Protocol.SetEnabled(name, on)]
    {
      enabled := SetFlag(enabled, name, on);
      trace.events := trace.events + [Protocol.SetEnabled(name, on)];
    }
  }
}
