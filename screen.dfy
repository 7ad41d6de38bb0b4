/** The geometry reply to a "screen" request: the scene item's dictionary
    (OBS_Sceneitem.monitor_info) completed with the configured monitor number
    (the module-level monitor_info). */
module Screen {
  import opened Wrappers
  import opened Settings
  import opened Protocol
  import opened Obs

  /** `OBS_Sceneitem.monitor_info`: the source size and the crop, the crop
      reordered as (top, left, right, bottom). The scale is read and dropped. */
  function SceneitemInfo(size: (int, int), crop: Crop): (info: map<string, Field>)
    ensures info.Keys == {"source_size", "crop"}
  {
    map["source_size" := Pair(size.0, size.1),
        "crop" := Quad(crop.top, crop.left, crop.right, crop.bottom)]
  }

  /** The module-level `monitor_info`: the scene item's dictionary with
      'monitor_num' set to the monitor setting as it is. */
  function MonitorInfo(size: (int, int), crop: Crop, monitor: Setting): (info: map<string, Field>)
    ensures info.Keys == {"source_size", "crop", "monitor_num"}
    ensures "scale" !in info
    ensures info["monitor_num"] == Value(monitor)
  {
    SceneitemInfo(size, crop)["monitor_num" := Value(monitor)]
  }

  /** What the predictor process takes from a geometry reply. */
  datatype ScreenGeometry = ScreenGeometry(width: int, height: int, crop: Crop, monitor: int)

  /** The peer's reading of a geometry reply: the crop tuple is (top, left, right, bottom). */
  function ParseScreenReply(info: map<string, Field>): Option<ScreenGeometry>
  {
    if "source_size" in info && "crop" in info && "monitor_num" in info &&
       info["source_size"].Pair? && info["crop"].Quad? &&
       info["monitor_num"].Value? && info["monitor_num"].v.I?
    then
      var size, c := info["source_size"], info["crop"];
      Some(ScreenGeometry(size.first, size.second, Crop(c.b, c.a, c.c, c.d), info["monitor_num"].v.i))
    else None
  }

  /** The reply carries the source size, the crop in the host's sense and the
      configured monitor, whatever the geometry values are. */
  lemma ScreenReplyRoundTrip(size: (int, int), crop: Crop, monitor: int)
    ensures ParseScreenReply(MonitorInfo(size, crop, I(monitor))) ==
      Some(ScreenGeometry(size.0, size.1, crop, monitor))
  {
  }
}
