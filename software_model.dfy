/** software_model.py: the activity profiles of the five app categories
    (periodic duty-cycle step functions of the time in seconds), the
    efficiency factor table, the per-app parameter records and the app
    factory. */
module SoftwareModel {
  import opened Common

  // ------------------------------------------------------- efficiency table

  /** EFFICIENCY_FACTORS: eta per subsystem and usage mode. */
  const EfficiencyFactors: map<string, map<string, real>> := map[
    "network" := map["video_stream" := 1.2, "social_media" := 2.5, "navigation" := 1.5,
                     "web_browse" := 1.8, "music" := 1.3, "idle" := 1.0],
    "screen" := map["video_watch" := 1.3, "social_scroll" := 1.8, "map_view" := 1.5,
                    "reading" := 1.2, "off" := 1.0],
    "gps" := map["continuous" := 1.0, "periodic" := 1.5, "off" := 1.0],
    "cpu" := map["video_decode" := 1.3, "ui_render" := 1.5, "audio_decode" := 1.1, "idle" := 1.0]
  ]

  /** No entry of the table is below 1: an efficiency factor only ever
      scales a current up. */
  lemma EfficiencyFactorsAtLeastOne(subsystem: string, mode: string)
    requires subsystem in EfficiencyFactors && mode in EfficiencyFactors[subsystem]
    ensures EfficiencyFactors[subsystem][mode] >= 1.0
  {
  }

  // ------------------------------------------------------------- activities

  /** The outcome of the random draw np.random.choice([0.0, 0.3, 1.0]) that
      gives the web-browsing network activity; the draw is made by the caller. */
  datatype BrowseDraw = NoRequest | SmallRequest | FullRequest

  function DrawValue(d: BrowseDraw): (r: real)
    ensures r in {0.0, 0.3, 1.0}
  {
    match d
    case NoRequest => 0.0
    case SmallRequest => 0.3
    case FullRequest => 1.0
  }

  /** CPU activity is derived from screen activity, memory activity from CPU
      activity: the order in which get_activity calls itself. */
  function HardwareRank(hardware: string): nat
  {
    if hardware == "memory" then 2 else if hardware == "cpu" then 1 else 0
  }

  /** get_activity(t_seconds, app_type, hardware). Every activity lies in
      [0, 1]. The draw is consulted only for web-browsing network activity. */
  function Activity(t: int, appType: string, hardware: string, draw: BrowseDraw): (r: real)
    ensures 0.0 <= r <= 1.0
    decreases HardwareRank(hardware)
  {
    if hardware == "screen" then
      if appType == "video_stream" then (if t % 600 < 590 then 1.0 else 0.0)
      else if appType == "social_media" then (if t % 60 < 45 then 1.0 else 0.0)
      else if appType == "navigation" then 1.0
      else if appType == "web_browse" then (if t % 60 < 50 then 1.0 else 0.0)
      else 0.0
    else if hardware == "network" then
      if appType == "video_stream" then (if t % 30 < 5 then 1.0 else 0.3)
      else if appType == "social_media" then (if (t % 10) as real < 0.5 then 1.0 else 0.1)
      else if appType == "navigation" then (if t % 60 < 2 then 1.0 else 0.2)
      else if appType == "web_browse" then DrawValue(draw)
      else (if (t % 30) as real < 0.1 then 0.01 else 0.0)
    else if hardware == "cpu" then
      var screen := Activity(t, appType, "screen", draw);
      if appType == "music" then 0.3 else screen * 0.7 + 0.1
    else if hardware == "gps" then
      if appType == "navigation" then 1.0 else 0.0
    else if hardware == "memory" then
      var cpu := Activity(t, appType, "cpu", draw);
      if appType == "music" then cpu * 0.3 else cpu * 0.5
    else if hardware == "storage" then
      if appType == "social_media" then (if t % 30 < 1 then 1.0 else 0.0) else 0.0
    else 0.0
  }

  /** The screen is on (activity 1) exactly in the lit part of each cycle, and
      off (activity 0) otherwise: video 590 s of every 600, social media 45 s
      of every 60, web browsing 50 s of every 60, navigation always, and
      never for any other app type. */
  lemma ScreenPattern(t: int, appType: string, draw: BrowseDraw)
    ensures var s := Activity(t, appType, "screen", draw);
            s == 0.0 || s == 1.0
    ensures Activity(t, appType, "screen", draw) == 1.0 <==>
            (appType == "video_stream" && t % 600 < 590) ||
            (appType == "social_media" && t % 60 < 45) ||
            appType == "navigation" ||
            (appType == "web_browse" && t % 60 < 50)
  {
  }

  /** Shifting t by 600 s changes no activity of any app on any subsystem:
      600 is a common multiple of every cycle length (600, 60, 30, 10). */
  lemma ActivityShift(t: int, appType: string, hardware: string, draw: BrowseDraw)
    ensures Activity(t + 600, appType, hardware, draw) == Activity(t, appType, hardware, draw)
  {
    ModShift(t);
    assert Activity(t + 600, appType, "screen", draw) == Activity(t, appType, "screen", draw);
    assert Activity(t + 600, appType, "cpu", draw) == Activity(t, appType, "cpu", draw);
  }

  lemma ModShift(t: int)
    ensures (t + 600) % 600 == t % 600 && (t + 600) % 60 == t % 60
    ensures (t + 600) % 30 == t % 30 && (t + 600) % 10 == t % 10
  {
    var q600, q60, q30, q10 := t / 600, t / 60, t / 30, t / 10;
    assert t + 600 == 600 * (q600 + 1) + t % 600;
    assert t + 600 == 60 * (q60 + 10) + t % 60;
    assert t + 600 == 30 * (q30 + 20) + t % 30;
    assert t + 600 == 10 * (q10 + 60) + t % 10;
  }

  /** Hence every activity profile is periodic with period 600 s. */
  lemma {:induction false} ActivityPeriodic(t: int, k: nat, appType: string, hardware: string, draw: BrowseDraw)
    ensures Activity(t + 600 * k, appType, hardware, draw) == Activity(t, appType, hardware, draw)
  {
    if k > 0 {
      ActivityPeriodic(t, k - 1, appType, hardware, draw);
      ActivityShift(t + 600 * (k - 1), appType, hardware, draw);
    }
  }

  /** Each screen cycle repeats after its own period. */
  lemma ScreenPeriodic(t: int, draw: BrowseDraw)
    ensures Activity(t + 600, "video_stream", "screen", draw) == Activity(t, "video_stream", "screen", draw)
    ensures Activity(t + 60, "social_media", "screen", draw) == Activity(t, "social_media", "screen", draw)
    ensures Activity(t + 60, "web_browse", "screen", draw) == Activity(t, "web_browse", "screen", draw)
  {
    assert (t + 600) % 600 == t % 600 && (t + 60) % 60 == t % 60;
  }

  /** CPU activity is 0.3 for music; for every other app type it is 0.8 while
      the screen is on and 0.1 while it is off. */
  lemma CpuFollowsScreen(t: int, appType: string, draw: BrowseDraw)
    ensures appType == "music" ==> Activity(t, appType, "cpu", draw) == 0.3
    ensures appType != "music" ==>
            (Activity(t, appType, "cpu", draw) == 0.8 <==> Activity(t, appType, "screen", draw) == 1.0) &&
            (Activity(t, appType, "cpu", draw) == 0.1 <==> Activity(t, appType, "screen", draw) == 0.0)
  {
    ScreenPattern(t, appType, draw);
  }

  /** Memory activity is a fixed fraction of CPU activity: 0.3 of it for
      music (so 0.09) and half of it otherwise (so 0.05 or 0.4). */
  lemma MemoryFollowsCpu(t: int, appType: string, draw: BrowseDraw)
    ensures appType == "music" ==> Activity(t, appType, "memory", draw) == 0.09
    ensures appType != "music" ==>
            Activity(t, appType, "memory", draw) == Activity(t, appType, "cpu", draw) / 2.0 &&
            Activity(t, appType, "memory", draw) in {0.05, 0.4}
  {
    CpuFollowsScreen(t, appType, draw);
    ScreenPattern(t, appType, draw);
  }

  /** GPS is fully active for navigation and idle for every other app type;
      storage is active only for social media, in the first second of every
      30; an unknown hardware name is never active. */
  lemma GpsAndStorage(t: int, appType: string, hardware: string, draw: BrowseDraw)
    ensures Activity(t, appType, "gps", draw) == (if appType == "navigation" then 1.0 else 0.0)
    ensures Activity(t, appType, "storage", draw) == 1.0 <==> appType == "social_media" && t % 30 == 0
    ensures Activity(t, appType, "storage", draw) in {0.0, 1.0}
    ensures hardware !in {"screen", "network", "cpu", "gps", "memory", "storage"} ==>
            Activity(t, appType, hardware, draw) == 0.0
  {
  }

  /** Web-browsing network activity takes exactly the values 0, 0.3 and 1,
      each for some draw. */
  lemma WebNetworkSupport(t: int)
    ensures forall d :: Activity(t, "web_browse", "network", d) in {0.0, 0.3, 1.0}
    ensures exists d :: Activity(t, "web_browse", "network", d) == 0.0
    ensures exists d :: Activity(t, "web_browse", "network", d) == 0.3
    ensures exists d :: Activity(t, "web_browse", "network", d) == 1.0
  {
    assert Activity(t, "web_browse", "network", NoRequest) == 0.0;
    assert Activity(t, "web_browse", "network", SmallRequest) == 0.3;
    assert Activity(t, "web_browse", "network", FullRequest) == 1.0;
  }

  // -------------------------------------------------------------- app params

  datatype ScreenParams = ScreenParams(brightness: real, activity: real, eta: real)
  datatype NetworkParams = NetworkParams(networkType: string, rssi: real, activity: real, eta: real)
  /** Frequency (MHz), load and activity of the CPU or the GPU. */
  datatype ProcessorParams = ProcessorParams(freq: real, load: real, activity: real, eta: real)
  datatype GpsParams = GpsParams(activity: real, mode: string, eta: real)
  /** Read and write bandwidth in GB/s. */
  datatype MemoryParams = MemoryParams(bwRead: real, bwWrite: real, activity: real, eta: real)
  datatype StorageParams = StorageParams(isActive: bool, activity: real, eta: real)

  /** The dictionary get_params returns, one record per subsystem. */
  datatype AppParams = AppParams(screen: ScreenParams, network: NetworkParams,
                                 cpu: ProcessorParams, gpu: ProcessorParams, gps: GpsParams,
                                 memory: MemoryParams, storage: StorageParams)

  /** All activities of a parameter record lie in [0, 1]. */
  predicate ActivitiesInUnit(p: AppParams)
  {
    0.0 <= p.screen.activity <= 1.0 && 0.0 <= p.network.activity <= 1.0 &&
    0.0 <= p.cpu.activity <= 1.0 && 0.0 <= p.gpu.activity <= 1.0 &&
    0.0 <= p.gps.activity <= 1.0 && 0.0 <= p.memory.activity <= 1.0 &&
    0.0 <= p.storage.activity <= 1.0
  }

  /** All efficiency factors of a parameter record are at least 1. */
  predicate EtasAtLeastOne(p: AppParams)
  {
    p.screen.eta >= 1.0 && p.network.eta >= 1.0 && p.cpu.eta >= 1.0 && p.gpu.eta >= 1.0 &&
    p.gps.eta >= 1.0 && p.memory.eta >= 1.0 && p.storage.eta >= 1.0
  }

  /** The five app classes. */
  datatype App = VideoStreamApp | SocialMediaApp | NavigationApp | WebBrowserApp | MusicApp

  /** app_type as set by each class's constructor. */
  function AppType(app: App): string
  {
    match app
    case VideoStreamApp => "video_stream"
    case SocialMediaApp => "social_media"
    case NavigationApp => "navigation"
    case WebBrowserApp => "web_browse"
    case MusicApp => "music"
  }

  /** The storage record of video and social media: active iff its activity
      exceeds 0.5. */
  function ActivityStorage(t: int, appType: string, draw: BrowseDraw): StorageParams
  {
    var a := Activity(t, appType, "storage", draw);
    StorageParams(a > 0.5, a, 1.0)
  }

  /** get_params(t_seconds) of each app class. Every activity is in [0, 1],
      every efficiency factor is at least 1, the network is always 4G, and
      the storage flag is set exactly when the storage activity exceeds 0.5. */
  function GetParams(app: App, t: int, draw: BrowseDraw): (p: AppParams)
    ensures ActivitiesInUnit(p)
    ensures EtasAtLeastOne(p)
    ensures p.network.networkType == "4G"
    ensures p.storage.isActive <==> p.storage.activity > 0.5
  {
    var ty := AppType(app);
    var net := Activity(t, ty, "network", draw);
    var cpu := Activity(t, ty, "cpu", draw);
    match app
    case VideoStreamApp =>
      AppParams(ScreenParams(0.8, Activity(t, ty, "screen", draw), EfficiencyFactors["screen"]["video_watch"]),
                NetworkParams("4G", -70.0, net, EfficiencyFactors["network"][ty]),
                ProcessorParams(1800.0, 0.6, cpu, EfficiencyFactors["cpu"]["video_decode"]),
                ProcessorParams(500.0, 0.4, cpu * 0.8, 1.2),
                GpsParams(0.0, "off", 1.0),
                MemoryParams(0.5, 0.1, Activity(t, ty, "memory", draw), 1.0),
                ActivityStorage(t, ty, draw))
    case SocialMediaApp =>
      AppParams(ScreenParams(0.6, Activity(t, ty, "screen", draw), EfficiencyFactors["screen"]["social_scroll"]),
                NetworkParams("4G", -75.0, net, EfficiencyFactors["network"][ty]),
                ProcessorParams(1400.0, 0.4, cpu, EfficiencyFactors["cpu"]["ui_render"]),
                ProcessorParams(300.0, 0.3, cpu * 0.6, 1.5),
                GpsParams(0.0, "off", 1.0),
                MemoryParams(0.2, 0.05, Activity(t, ty, "memory", draw), 1.0),
                ActivityStorage(t, ty, draw))
    case NavigationApp =>
      AppParams(ScreenParams(0.7, Activity(t, ty, "screen", draw), EfficiencyFactors["screen"]["map_view"]),
                NetworkParams("4G", -80.0, net, EfficiencyFactors["network"][ty]),
                ProcessorParams(1600.0, 0.5, cpu, EfficiencyFactors["cpu"]["ui_render"]),
                ProcessorParams(400.0, 0.5, cpu * 0.9, 1.3),
                GpsParams(Activity(t, ty, "gps", draw), "track", EfficiencyFactors["gps"]["continuous"]),
                MemoryParams(0.3, 0.1, Activity(t, ty, "memory", draw), 1.0),
                StorageParams(false, 0.0, 1.0))
    case WebBrowserApp =>
      AppParams(ScreenParams(0.5, Activity(t, ty, "screen", draw), EfficiencyFactors["screen"]["reading"]),
                NetworkParams("4G", -72.0, net, EfficiencyFactors["network"][ty]),
                ProcessorParams(1500.0, 0.5, cpu, EfficiencyFactors["cpu"]["ui_render"]),
                ProcessorParams(350.0, 0.4, cpu * 0.7, 1.4),
                GpsParams(0.0, "off", 1.0),
                MemoryParams(0.4, 0.08, Activity(t, ty, "memory", draw), 1.0),
                StorageParams(false, 0.0, 1.0))
    case MusicApp =>
      AppParams(ScreenParams(0.0, 0.0, 1.0),
                NetworkParams("4G", -70.0, if (t % 30) as real < 0.5 then 0.01 else 0.0, 1.0),
                ProcessorParams(300.0, 0.1, 0.3, 1.0),
                ProcessorParams(0.0, 0.0, 0.0, 1.0),
                GpsParams(0.0, "off", 1.0),
                MemoryParams(0.01, 0.0, 0.1, 1.0),
                StorageParams(false, 0.0, 1.0))
  }

  /** Apart from the music app, which writes its values out, every app's
      screen, network, CPU and memory activities are the activity profile of
      its app type; the GPU's is a fixed fraction of the CPU's. */
  lemma ParamsFollowProfile(app: App, t: int, draw: BrowseDraw)
    requires app != MusicApp
    ensures var p := GetParams(app, t, draw);
            var ty := AppType(app);
            p.screen.activity == Activity(t, ty, "screen", draw) &&
            p.network.activity == Activity(t, ty, "network", draw) &&
            p.cpu.activity == Activity(t, ty, "cpu", draw) &&
            p.memory.activity == Activity(t, ty, "memory", draw) &&
            p.gps.activity == Activity(t, ty, "gps", draw) &&
            p.storage.activity == Activity(t, ty, "storage", draw) &&
            0.0 < p.gpu.activity < p.cpu.activity
  {
    CpuFollowsScreen(t, AppType(app), draw);
  }

  /** The music app's written-out values agree with the "music" profile on
      screen, network and CPU, but its memory activity is 0.1 where the
      profile gives 0.3 * 0.3 = 0.09. */
  lemma MusicParamsAgainstProfile(t: int, draw: BrowseDraw)
    ensures var p := GetParams(MusicApp, t, draw);
            p.screen.activity == Activity(t, "music", "screen", draw) &&
            p.network.activity == Activity(t, "music", "network", draw) &&
            p.cpu.activity == Activity(t, "music", "cpu", draw) &&
            p.memory.activity == 0.1 && Activity(t, "music", "memory", draw) == 0.09
  {
  }

  /** get_app: an app for exactly the five names, None for any other. */
  function GetApp(name: string): (r: Option<App>)
    ensures r.Some? <==> name in {"video", "social", "navigation", "browser", "music"}
    ensures name == "music" ==> r == Some(MusicApp)
  {
    if name == "video" then Some(VideoStreamApp)
    else if name == "social" then Some(SocialMediaApp)
    else if name == "navigation" then Some(NavigationApp)
    else if name == "browser" then Some(WebBrowserApp)
    else if name == "music" then Some(MusicApp)
    else None
  }

  /** The factory's names and the app types are in one-to-one correspondence. */
  lemma GetAppDistinct(a: string, b: string)
    requires GetApp(a).Some? && GetApp(b).Some? && a != b
    ensures GetApp(a) != GetApp(b)
    ensures AppType(GetApp(a).value) != AppType(GetApp(b).value)
  {
  }
}
