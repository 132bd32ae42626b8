/**
 * Config/vision_config.py: the vision system's settings, their defaults and validation, the
 * JSON file they are saved to and loaded from, and the process-wide cached instance.
 */
module VisionConfig {
  import opened Wrappers

  type Color = (int, int, int)

  datatype YoloConfig = YoloConfig(modelPath: string, device: string, confThresh: real, nmsIouThreshold: real,
                                   imgsz: int, classes: seq<int>, verbose: bool)

  datatype TilingConfig = TilingConfig(useTiledInference: bool, gridRows: int, gridCols: int,
                                       overlapPercent: real, mergeIouThreshold: real)

  datatype CameraConfig = CameraConfig(cameraIndex: int, fallbackIndex: int, width: int, height: int, fps: int,
                                       bufferSize: int, fourcc: string, backend: int)

  datatype SystemConfig = SystemConfig(stalenessThresholdS: real, visionLoopInterval: real, displayQueueMaxsize: int,
                                       windowName: string, showConfidence: bool, showCrosshair: bool,
                                       bboxColor: Color, crosshairColor: Color, bboxThickness: int, crosshairSize: int,
                                       enableDisplay: bool, printFps: bool, printDetections: bool)

  datatype Config = Config(yolo: YoloConfig, tiling: TilingConfig, camera: CameraConfig, system: SystemConfig)

  // The keyword arguments a section is built from: None is a key that is absent (for `classes`
  // and `backend`, absent or null).

  datatype YoloFields = YoloFields(modelPath: Option<string>, device: Option<string>, confThresh: Option<real>,
                                   nmsIouThreshold: Option<real>, imgsz: Option<int>, classes: Option<seq<int>>,
                                   verbose: Option<bool>)

  datatype TilingFields = TilingFields(useTiledInference: Option<bool>, gridRows: Option<int>, gridCols: Option<int>,
                                       overlapPercent: Option<real>, mergeIouThreshold: Option<real>)

  datatype CameraFields = CameraFields(cameraIndex: Option<int>, fallbackIndex: Option<int>, width: Option<int>,
                                       height: Option<int>, fps: Option<int>, bufferSize: Option<int>,
                                       fourcc: Option<string>, backend: Option<int>)

  datatype SystemFields = SystemFields(stalenessThresholdS: Option<real>, visionLoopInterval: Option<real>,
                                       displayQueueMaxsize: Option<int>, windowName: Option<string>,
                                       showConfidence: Option<bool>, showCrosshair: Option<bool>,
                                       bboxColor: Option<Color>, crosshairColor: Option<Color>,
                                       bboxThickness: Option<int>, crosshairSize: Option<int>,
                                       enableDisplay: Option<bool>, printFps: Option<bool>,
                                       printDetections: Option<bool>)

  /** The JSON file: one optional object per section. */
  datatype ConfigJson = ConfigJson(yolo: Option<YoloFields>, tiling: Option<TilingFields>,
                                   camera: Option<CameraFields>, system: Option<SystemFields>)

  const NoYoloFields := YoloFields(None, None, None, None, None, None, None)
  const NoTilingFields := TilingFields(None, None, None, None, None)
  const NoCameraFields := CameraFields(None, None, None, None, None, None, None, None)
  const NoSystemFields := SystemFields(None, None, None, None, None, None, None, None, None, None, None, None, None)

  function Or<T>(o: Option<T>, default: T): (v: T)
    ensures o.Some? ==> v == o.value
    ensures o.None? ==> v == default
  {
    if o.Some? then o.value else default
  }

  /** YOLOConfig(**fields): defaults for absent keys; no class list means person only. */
  function MakeYolo(f: YoloFields): (y: YoloConfig)
    ensures y.classes == (if f.classes.Some? then f.classes.value else [0])
  {
    YoloConfig(Or(f.modelPath, "yolov8s.pt"), Or(f.device, "cpu"), Or(f.confThresh, 0.6),
               Or(f.nmsIouThreshold, 0.5), Or(f.imgsz, 1280), Or(f.classes, [0]), Or(f.verbose, false))
  }

  predicate ValidTiling(t: TilingConfig) {
    0.0 <= t.overlapPercent <= 0.5 && t.gridRows >= 1 && t.gridCols >= 1
  }

  /** TilingConfig(**fields): ValueError for an overlap outside [0, 0.5] or a grid below 1x1. */
  function MakeTiling(f: TilingFields): (r: Result<TilingConfig>)
    ensures r.Ok? <==> ValidTiling(TilingConfig(Or(f.useTiledInference, true), Or(f.gridRows, 2), Or(f.gridCols, 2),
                                                Or(f.overlapPercent, 0.15), Or(f.mergeIouThreshold, 0.5)))
    ensures r.Ok? ==> ValidTiling(r.value) && r.value.gridRows == Or(f.gridRows, 2) && r.value.gridCols == Or(f.gridCols, 2)
    ensures r.Err? ==> r.error == ValueError
  {
    var t := TilingConfig(Or(f.useTiledInference, true), Or(f.gridRows, 2), Or(f.gridCols, 2),
                          Or(f.overlapPercent, 0.15), Or(f.mergeIouThreshold, 0.5));
    if !(0.0 <= t.overlapPercent <= 0.5) then Err(ValueError)
    else if t.gridRows < 1 || t.gridCols < 1 then Err(ValueError)
    else Ok(t)
  }

  /** CameraConfig(**fields): an absent backend becomes the platform's capture backend
    * (`platformBackend`, cv2.CAP_V4L2 where OpenCV has it). */
  function MakeCamera(f: CameraFields, platformBackend: int): (c: CameraConfig)
    ensures c.backend == (if f.backend.Some? then f.backend.value else platformBackend)
  {
    CameraConfig(Or(f.cameraIndex, 4), Or(f.fallbackIndex, 0), Or(f.width, 640), Or(f.height, 480), Or(f.fps, 30),
                 Or(f.bufferSize, 1), Or(f.fourcc, "MJPG"), Or(f.backend, platformBackend))
  }

  function MakeSystem(f: SystemFields): SystemConfig {
    SystemConfig(Or(f.stalenessThresholdS, 0.5), Or(f.visionLoopInterval, 0.05), Or(f.displayQueueMaxsize, 1),
                 Or(f.windowName, "Goose Vision"), Or(f.showConfidence, true), Or(f.showCrosshair, true),
                 Or(f.bboxColor, (0, 255, 0)), Or(f.crosshairColor, (255, 0, 0)), Or(f.bboxThickness, 2),
                 Or(f.crosshairSize, 20), Or(f.enableDisplay, true), Or(f.printFps, false), Or(f.printDetections, false))
  }

  function DefaultTiling(): (t: TilingConfig)
    ensures ValidTiling(t) && MakeTiling(NoTilingFields) == Ok(t)
  {
    TilingConfig(true, 2, 2, 0.15, 0.5)
  }

  /** VisionConfig(...): every section not given is built from its defaults. */
  function MakeConfig(yolo: Option<YoloConfig>, tiling: Option<TilingConfig>, camera: Option<CameraConfig>,
                      system: Option<SystemConfig>, platformBackend: int): (c: Config)
    ensures yolo.Some? ==> c.yolo == yolo.value
    ensures yolo.None? ==> c.yolo == MakeYolo(NoYoloFields) && c.yolo.classes == [0]
    ensures tiling.Some? ==> c.tiling == tiling.value
    ensures tiling.None? ==> Ok(c.tiling) == MakeTiling(NoTilingFields)
    ensures camera.Some? ==> c.camera == camera.value
    ensures camera.None? ==> c.camera == MakeCamera(NoCameraFields, platformBackend) && c.camera.backend == platformBackend
    ensures system.Some? ==> c.system == system.value
    ensures system.None? ==> c.system == MakeSystem(NoSystemFields)
  {
    Config(Or(yolo, MakeYolo(NoYoloFields)), Or(tiling, DefaultTiling()),
           Or(camera, MakeCamera(NoCameraFields, platformBackend)), Or(system, MakeSystem(NoSystemFields)))
  }

  function DefaultConfig(platformBackend: int): Config {
    MakeConfig(None, None, None, None, platformBackend)
  }

  /** save_to_file's dictionary: every field of every section, except the camera backend. */
  function SaveToJson(c: Config): (j: ConfigJson)
    ensures j.yolo.Some? && j.tiling.Some? && j.camera.Some? && j.system.Some?
    ensures j.camera.value.backend.None?
  {
    var y := c.yolo;
    var t := c.tiling;
    var m := c.camera;
    var s := c.system;
    ConfigJson(
      Some(YoloFields(Some(y.modelPath), Some(y.device), Some(y.confThresh), Some(y.nmsIouThreshold), Some(y.imgsz),
                      Some(y.classes), Some(y.verbose))),
      Some(TilingFields(Some(t.useTiledInference), Some(t.gridRows), Some(t.gridCols), Some(t.overlapPercent),
                        Some(t.mergeIouThreshold))),
      Some(CameraFields(Some(m.cameraIndex), Some(m.fallbackIndex), Some(m.width), Some(m.height), Some(m.fps),
                        Some(m.bufferSize), Some(m.fourcc), None)),
      Some(SystemFields(Some(s.stalenessThresholdS), Some(s.visionLoopInterval), Some(s.displayQueueMaxsize),
                        Some(s.windowName), Some(s.showConfidence), Some(s.showCrosshair), Some(s.bboxColor),
                        Some(s.crosshairColor), Some(s.bboxThickness), Some(s.crosshairSize), Some(s.enableDisplay),
                        Some(s.printFps), Some(s.printDetections))))
  }

  /** load_from_file, after parsing: each section from its object, a missing section as {}. */
  function LoadFromJson(j: ConfigJson, platformBackend: int): (r: Result<Config>)
    ensures r.Ok? <==> MakeTiling(Or(j.tiling, NoTilingFields)).Ok?
    ensures r.Err? ==> r.error == ValueError
    ensures r.Ok? ==> ValidTiling(r.value.tiling)
  {
    match MakeTiling(Or(j.tiling, NoTilingFields))
    case Err(e) => Err(e)
    case Ok(t) =>
      Ok(MakeConfig(Some(MakeYolo(Or(j.yolo, NoYoloFields))), Some(t),
                    Some(MakeCamera(Or(j.camera, NoCameraFields), platformBackend)),
                    Some(MakeSystem(Or(j.system, NoSystemFields))), platformBackend))
  }

  /** Saving and loading back gives the same configuration except the camera backend, which is
    * not written and so comes back as the platform default. */
  lemma SaveLoadRoundTrip(c: Config, platformBackend: int)
    requires ValidTiling(c.tiling)
    ensures LoadFromJson(SaveToJson(c), platformBackend) == Ok(c.(camera := c.camera.(backend := platformBackend)))
  {
  }

  /** ... so the round trip is exact precisely when the backend already was the platform's. */
  lemma RoundTripExactIffPlatformBackend(c: Config, platformBackend: int)
    requires ValidTiling(c.tiling)
    ensures LoadFromJson(SaveToJson(c), platformBackend) == Ok(c) <==> c.camera.backend == platformBackend
  {
    SaveLoadRoundTrip(c, platformBackend);
    if LoadFromJson(SaveToJson(c), platformBackend) == Ok(c) {
      assert c.camera.(backend := platformBackend) == c.camera;
    }
  }

  /** An empty file loads as the default configuration. */
  lemma EmptyFileIsDefault(platformBackend: int)
    ensures LoadFromJson(ConfigJson(None, None, None, None), platformBackend) == Ok(DefaultConfig(platformBackend))
  {
  }

  /** The process-wide configuration: the cached instance and the vision_config.json file next
    * to the module (None when it does not exist). */
  class ConfigCache {
    var cached: Option<Config>
    var file: Option<ConfigJson>
    const platformBackend: int

    ghost predicate Valid()
      reads this
    {
      cached.Some? ==> ValidTiling(cached.value.tiling)
    }

    constructor (file: Option<ConfigJson>, platformBackend: int)
      ensures Valid() && cached.None? && this.file == file && this.platformBackend == platformBackend
    {
      cached := None;
      this.file := file;
      this.platformBackend := platformBackend;
    }

    /** get_config: the cached instance when there is one; otherwise load the file if it exists,
      * or build the defaults and write them out. A file whose tiling is invalid raises ValueError
      * and leaves the cache empty. */
    method GetConfig() returns (r: Result<Config>)
      requires Valid()
      modifies this
      ensures Valid()
      ensures old(cached).Some? ==> r == Ok(old(cached).value) && cached == old(cached) && file == old(file)
      ensures old(cached).None? && old(file).Some? ==>
        r == LoadFromJson(old(file).value, platformBackend) && file == old(file)
        && cached == (if r.Ok? then Some(r.value) else None)
      ensures old(cached).None? && old(file).None? ==>
        r == Ok(DefaultConfig(platformBackend)) && cached == Some(DefaultConfig(platformBackend))
        && file == Some(SaveToJson(DefaultConfig(platformBackend)))
    {
      if cached.None? {
        if file.Some? {
          var loaded := LoadFromJson(file.value, platformBackend);
          if loaded.Err? {
            return Err(loaded.error);
          }
          cached := Some(loaded.value);
        } else {
          var defaults := DefaultConfig(platformBackend);
          cached := Some(defaults);
          file := Some(SaveToJson(defaults));
        }
      }
      r := Ok(cached.value);
    }

    /** reload_config: forget the cached instance, then get_config. */
    method ReloadConfig() returns (r: Result<Config>)
      requires Valid()
      modifies this
      ensures Valid()
      ensures old(file).Some? ==> r == LoadFromJson(old(file).value, platformBackend) && file == old(file)
      ensures old(file).None? ==> r == Ok(DefaultConfig(platformBackend))
      ensures r.Ok? ==> cached == Some(r.value)
    {
      cached := None;
      r := GetConfig();
    }

    /** save_config: write the current configuration to the file. */
    method SaveConfig() returns (r: Result<()>)
      requires Valid()
      modifies this
      ensures Valid()
      ensures r.Ok? ==> cached.Some? && file == Some(SaveToJson(cached.value))
    {
      var config := GetConfig();
      if config.Err? {
        return Err(config.error);
      }
      file := Some(SaveToJson(config.value));
      r := Ok(());
    }
  }
}
