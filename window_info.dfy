/** `WindowInfo`: the window configuration record, built from its defaults
    with by-value setters. */
module WindowInfo {
  import opened Common

  /** The window mode; its own definition lives in a file this model does not
      include, so modes other than windowed are told apart by a number. */
  datatype FullScreenMode = Windowed | FullScreen(mode: nat)

  datatype WindowInfo = WindowInfo(
    name: string,
    resizable: bool,
    fullscreen: FullScreenMode,
    monitor: nat,
    vsync: bool,
    resolution: Size)

  /** `WindowInfo::default`. */
  function Default(): (w: WindowInfo)
    ensures w.name == "Untitled" && w.resizable && w.fullscreen == Windowed
    ensures w.monitor == 0 && w.vsync && w.resolution == Size(800, 600)
  {
    WindowInfo("Untitled", true, Windowed, 0, true, Size(800, 600))
  }

  function AppName(w: WindowInfo, name: string): (r: WindowInfo)
    ensures r.name == name && r.(name := w.name) == w
  {
    w.(name := name)
  }

  function Resizable(w: WindowInfo, resizable: bool): (r: WindowInfo)
    ensures r.resizable == resizable && r.(resizable := w.resizable) == w
  {
    w.(resizable := resizable)
  }

  function Fullscreen(w: WindowInfo, mode: FullScreenMode): (r: WindowInfo)
    ensures r.fullscreen == mode && r.(fullscreen := w.fullscreen) == w
  {
    w.(fullscreen := mode)
  }

  function Monitor(w: WindowInfo, index: nat): (r: WindowInfo)
    ensures r.monitor == index && r.(monitor := w.monitor) == w
  {
    w.(monitor := index)
  }

  function Resolution(w: WindowInfo, resolution: Size): (r: WindowInfo)
    ensures r.resolution == resolution && r.(resolution := w.resolution) == w
  {
    w.(resolution := resolution)
  }

  /** One call of one of the setters. */
  datatype Setting =
    | SetAppName(name: string)
    | SetResizable(resizable: bool)
    | SetFullscreen(mode: FullScreenMode)
    | SetMonitor(index: nat)
    | SetResolution(resolution: Size)

  function Apply(w: WindowInfo, s: Setting): WindowInfo
  {
    match s
    case SetAppName(name) => AppName(w, name)
    case SetResizable(resizable) => Resizable(w, resizable)
    case SetFullscreen(mode) => Fullscreen(w, mode)
    case SetMonitor(index) => Monitor(w, index)
    case SetResolution(resolution) => Resolution(w, resolution)
  }

  /** A chain of setter calls, first to last. */
  function ApplyAll(w: WindowInfo, settings: seq<Setting>): WindowInfo
    decreases |settings|
  {
    if settings == [] then w else ApplyAll(Apply(w, settings[0]), settings[1..])
  }

  /** Whether two settings concern the same field. */
  predicate SameField(a: Setting, b: Setting)
  {
    (a.SetAppName? && b.SetAppName?) || (a.SetResizable? && b.SetResizable?) ||
    (a.SetFullscreen? && b.SetFullscreen?) || (a.SetMonitor? && b.SetMonitor?) ||
    (a.SetResolution? && b.SetResolution?)
  }

  /** No setter touches `vsync`: whatever chain of setters is applied, vsync
      keeps the value it started with, so from the defaults it stays on. */
  lemma {:induction false} VsyncAlwaysDefault(w: WindowInfo, settings: seq<Setting>)
    ensures ApplyAll(w, settings).vsync == w.vsync
    decreases |settings|
  {
    if settings != [] {
      VsyncAlwaysDefault(Apply(w, settings[0]), settings[1..]);
    }
  }

  /** Setters on distinct fields commute. */
  lemma SettersCommute(w: WindowInfo, a: Setting, b: Setting)
    requires !SameField(a, b)
    ensures Apply(Apply(w, a), b) == Apply(Apply(w, b), a)
  {
  }

  /** Setting a field twice keeps the last value. */
  lemma LastSetWins(w: WindowInfo, a: Setting, b: Setting)
    requires SameField(a, b)
    ensures Apply(Apply(w, a), b) == Apply(w, b)
  {
  }
}
