/**
 * The configuration manager: the list of configured applications, the sectioned settings
 * and the named presets, with the operations that edit them. Writing the JSON files is
 * I/O; each save arrives as the boolean the save method would return.
 */
module Config {
  import opened Wrappers
  import opened Text

  /** A JSON scalar as stored in the settings file. */
  datatype Json = JNull | JBool(b: bool) | JNum(n: int) | JStr(s: string)

  /** An application entry; `None` is a key the dictionary does not have. */
  datatype AppEntry = AppEntry(name: Option<string>, path: Option<string>, icon: Option<string>,
                               args: Option<seq<string>>, category: Option<string>)

  datatype PresetApp = PresetApp(name: string, path: string, icon: string, args: seq<string>)

  /** A preset; `createdAt` is `None` when the dictionary has no "created_at" key. */
  datatype Preset = Preset(name: string, description: string, apps: seq<PresetApp>,
                           chromeTabs: seq<string>, edgeTabs: seq<string>,
                           createdAt: Option<string>, lastUsed: Option<string>)

  type Section = map<string, Json>

  // ---------------------------------------------------------------------------------------
  // Defaults
  // ---------------------------------------------------------------------------------------

  function Builtin(name: string, path: string, category: string): AppEntry {
    AppEntry(Some(name), Some(path), Some(""), Some([]), Some(category))
  }

  const DefaultApplications: seq<AppEntry> := [
    Builtin("Notepad", "notepad.exe", "Text Editors"),
    Builtin("Calculator", "calc.exe", "Utilities"),
    Builtin("Paint", "mspaint.exe", "Graphics"),
    Builtin("Task Manager", "taskmgr.exe", "System")
  ]

  const DefaultSettings: map<string, Section> := map[
    "ui" := map["theme" := JStr("dark"), "sidebar_width" := JNum(300), "window_layout" := JStr("maximized"),
                "auto_focus" := JBool(true), "show_system_info" := JBool(true)],
    "ai" := map["enabled" := JBool(true), "auto_execute_commands" := JBool(true), "response_delay" := JNum(1000),
                "api_key" := JStr(""), "model" := JStr("gpt-3.5-turbo")],
    "desktop" := map["hide_taskbar" := JBool(true), "hide_desktop_icons" := JBool(true),
                     "virtual_desktop_name" := JStr("LockInDesktop")],
    "focus" := map["distraction_blocking" := JBool(false), "time_tracking" := JBool(true),
                   "productivity_metrics" := JBool(true), "session_persistence" := JBool(true)]
  ]

  // ---------------------------------------------------------------------------------------
  // Applications
  // ---------------------------------------------------------------------------------------

  /** Some configured application has this `path` value (a missing key matches a missing key). */
  predicate PathTaken(apps: seq<AppEntry>, path: Option<string>) {
    exists i :: 0 <= i < |apps| && apps[i].path == path
  }

  /** The keys `add_application` fills in when the entry lacks them. */
  function WithDefaults(app: AppEntry): (r: AppEntry)
    ensures r.name == app.name && r.path == app.path
    ensures r.icon == Some(app.icon.GetOr("")) && r.args == Some(app.args.GetOr([]))
    ensures r.category == Some(app.category.GetOr("User Added"))
  {
    app.(icon := Some(app.icon.GetOr("")), args := Some(app.args.GetOr([])),
         category := Some(app.category.GetOr("User Added")))
  }

  /** `[app for app in applications if app.get("path") != app_path]` */
  function WithoutPath(apps: seq<AppEntry>, path: string): (r: seq<AppEntry>)
    ensures |r| <= |apps|
    ensures forall e :: e in r ==> e in apps && e.path != Some(path)
    ensures forall e :: e in apps && e.path != Some(path) ==> e in r
    ensures |r| < |apps| <==> PathTaken(apps, Some(path))
  {
    if apps == [] then []
    else
      var init, last := apps[..|apps| - 1], apps[|apps| - 1];
      assert forall e :: e in apps <==> e in init || e == last;
      var r := WithoutPath(init, path) + (if last.path != Some(path) then [last] else []);
      assert PathTaken(apps, Some(path)) <==> PathTaken(init, Some(path)) || last.path == Some(path) by {
        if PathTaken(apps, Some(path)) && last.path != Some(path) {
          var i :| 0 <= i < |apps| && apps[i].path == Some(path);
          assert init[i] == apps[i];
        }
        if PathTaken(init, Some(path)) {
          var i :| 0 <= i < |init| && init[i].path == Some(path);
          assert apps[i] == init[i];
        }
      }
      r
  }

  /** Removing a path nobody has changes nothing. */
  lemma {:induction false} WithoutAbsentPath(apps: seq<AppEntry>, path: string)
    requires !PathTaken(apps, Some(path))
    ensures WithoutPath(apps, path) == apps
    decreases |apps|
  {
    if apps != [] {
      var init := apps[..|apps| - 1];
      assert !PathTaken(init, Some(path)) by {
        forall i | 0 <= i < |init| ensures init[i].path != Some(path) {
          assert init[i] == apps[i];
        }
      }
      var last := apps[|apps| - 1];
      assert last.path != Some(path);
      WithoutAbsentPath(init, path);
      assert WithoutPath(apps, path) == WithoutPath(init, path) + [last];
      assert apps == init + [last];
    }
  }

  /** Removing twice removes no more than removing once. */
  lemma WithoutPathIdempotent(apps: seq<AppEntry>, path: string)
    ensures WithoutPath(WithoutPath(apps, path), path) == WithoutPath(apps, path)
  {
    var r := WithoutPath(apps, path);
    assert !PathTaken(r, Some(path)) by {
      forall i | 0 <= i < |r| ensures r[i].path != Some(path) {
        assert r[i] in r;
      }
    }
    WithoutAbsentPath(r, path);
  }

  /** Adding an application under a new path and then removing that path restores the list. */
  lemma AddThenRemove(apps: seq<AppEntry>, app: AppEntry, path: string)
    requires app.path == Some(path) && !PathTaken(apps, Some(path))
    ensures WithoutPath(apps + [WithDefaults(app)], path) == apps
  {
    var extended := apps + [WithDefaults(app)];
    assert extended[..|extended| - 1] == apps;
    WithoutAbsentPath(apps, path);
  }

  // ---------------------------------------------------------------------------------------
  // Settings
  // ---------------------------------------------------------------------------------------

  /** `settings_config.get(section, {}).get(key, default)` */
  function GetSetting(settings: map<string, Section>, section: string, key: string, default: Json): (r: Json)
    ensures section !in settings || key !in settings[section] ==> r == default
  {
    if section in settings && key in settings[section] then settings[section][key] else default
  }

  /** The settings after `set_setting(section, key, value)`: the section is created when missing. */
  function SetIn(settings: map<string, Section>, section: string, key: string, value: Json): map<string, Section> {
    var current := if section in settings then settings[section] else map[];
    settings[section := current[key := value]]
  }

  /** A setting reads back as it was set, whatever the default. */
  lemma GetAfterSet(settings: map<string, Section>, section: string, key: string, value: Json, default: Json)
    ensures GetSetting(SetIn(settings, section, key, value), section, key, default) == value
  {
  }

  /** Setting one key leaves every other section and key as it was, including what is missing. */
  lemma SetLeavesOthers(settings: map<string, Section>, section: string, key: string, value: Json,
                        section': string, key': string, default: Json)
    requires section' != section || key' != key
    ensures GetSetting(SetIn(settings, section, key, value), section', key', default)
         == GetSetting(settings, section', key', default)
  {
  }

  // ---------------------------------------------------------------------------------------
  // Presets
  // ---------------------------------------------------------------------------------------

  /** The metadata `save_preset` writes into the preset before storing it. */
  function Stamped(name: string, data: Preset, now: string): (r: Preset)
    ensures r.name == name && r.lastUsed == Some(now)
    ensures r.createdAt == (if data.createdAt.Some? then data.createdAt else Some(now))
    ensures r.description == data.description && r.apps == data.apps
    ensures r.chromeTabs == data.chromeTabs && r.edgeTabs == data.edgeTabs
  {
    data.(name := name, createdAt := Some(data.createdAt.GetOr(now)), lastUsed := Some(now))
  }

  /** Saving a preset again keeps the creation time of the first save. */
  lemma ResaveKeepsCreation(name: string, data: Preset, first: string, second: string)
    ensures Stamped(name, Stamped(name, data, first), second).createdAt == Stamped(name, data, first).createdAt
    ensures Stamped(name, Stamped(name, data, first), second).lastUsed == Some(second)
  {
  }

  /** Deleting a preset that was just saved under a new name gives back the old presets. */
  lemma SaveThenDelete(presets: map<string, Preset>, name: string, data: Preset, now: string)
    requires name !in presets
    ensures presets[name := Stamped(name, data, now)] - {name} == presets
  {
  }

  // ---------------------------------------------------------------------------------------
  // A preset from the running applications
  // ---------------------------------------------------------------------------------------

  /** A managed application; `exePath` is `process.exe()` when the process runs and answers. */
  datatype ManagedApp = ManagedApp(name: string, exePath: Option<string>)

  const ConfigIconTable: seq<(seq<string>, string)> := [
    (["notepad"], "📝"), (["calculator"], "🔢"), (["paint"], "🎨"), (["powershell"], "💻"),
    (["cmd"], "💻"), (["chrome"], "🌐"), (["edge"], "🌐"), (["msedge"], "🌐"), (["firefox"], "🌐"),
    (["code"], "💻"), (["visual studio"], "💻"), (["word"], "📄"), (["excel"], "📊"), (["powerpoint"], "📊")
  ]

  /**
   * `_get_app_icon` of the configuration manager: the icon of the first entry with a
   * keyword in the lower-cased name.
   */
  function ConfigIcon(name: string): (r: string)
    ensures forall i :: (0 <= i < |ConfigIconTable| && AnyOccurs(ConfigIconTable[i].0, Lower(name))
              && forall j :: 0 <= j < i ==> !AnyOccurs(ConfigIconTable[j].0, Lower(name))) ==> r == ConfigIconTable[i].1
  {
    FirstHit(ConfigIconTable, Lower(name), "📱")
  }

  /**
   * The icon is the default exactly when no keyword of the table occurs in the lower-cased
   * name (otherwise it is the icon of the first entry that occurs, by `FirstHit`).
   */
  lemma ConfigIconRules(name: string)
    ensures ConfigIcon(name) == "📱" <==> forall i :: 0 <= i < |ConfigIconTable| ==> !AnyOccurs(ConfigIconTable[i].0, Lower(name))
  {
    FirstHitDefaultIff(ConfigIconTable, Lower(name), "📱");
  }

  /** `_get_app_path_from_process`: the executable, else the lower-cased name plus ".exe". */
  function PathOf(app: ManagedApp): string {
    app.exePath.GetOr(Lower(app.name) + ".exe")
  }

  predicate IsChrome(app: ManagedApp) {
    Contains(Lower(app.name), "chrome")
  }

  predicate IsEdge(app: ManagedApp) {
    !IsChrome(app) && (Contains(Lower(app.name), "edge") || Contains(Lower(app.name), "msedge"))
  }

  function EntryOf(app: ManagedApp): PresetApp {
    PresetApp(app.name, PathOf(app), ConfigIcon(app.name), [])
  }

  const ChromeEntry := PresetApp("Chrome", "chrome.exe", "🌐", [])
  const EdgeEntry := PresetApp("Microsoft Edge", "msedge.exe", "🌐", [])

  /** The entries of the applications that are not browsers, in order. */
  function PlainEntries(apps: seq<ManagedApp>): (r: seq<PresetApp>)
    ensures forall e :: e in r ==> exists a :: a in apps && !IsChrome(a) && !IsEdge(a) && e == EntryOf(a)
  {
    if apps == [] then []
    else
      var init, last := apps[..|apps| - 1], apps[|apps| - 1];
      assert forall a :: a in init ==> a in apps;
      PlainEntries(init) + (if IsChrome(last) || IsEdge(last) then [] else [EntryOf(last)])
  }

  /** The tabs read from the last application `accepts` takes, or none when there is none. */
  function LastTabs(apps: seq<ManagedApp>, accepts: ManagedApp -> bool, tabsOf: ManagedApp -> seq<string>): (r: seq<string>)
    ensures (forall a :: a in apps ==> !accepts(a)) ==> r == []
  {
    if apps == [] then []
    else if accepts(apps[|apps| - 1]) then tabsOf(apps[|apps| - 1])
    else
      assert forall a :: a in apps[..|apps| - 1] ==> a in apps;
      LastTabs(apps[..|apps| - 1], accepts, tabsOf)
  }

  /** `get_current_apps_as_preset_data`, with the two tab readers as parameters. */
  function PresetFromApps(apps: seq<ManagedApp>, name: string, description: string, now: string,
                          chromeTabsOf: ManagedApp -> seq<string>, edgeTabsOf: ManagedApp -> seq<string>): Preset {
    var chrome := LastTabs(apps, IsChrome, chromeTabsOf);
    var edge := LastTabs(apps, IsEdge, edgeTabsOf);
    Preset(name, description,
           PlainEntries(apps) + (if chrome != [] then [ChromeEntry] else []) + (if edge != [] then [EdgeEntry] else []),
           chrome, edge, Some(now), None)
  }

  /** `_get_chrome_tabs` and `_get_edge_tabs` as written: they return no tabs. */
  function NoTabs(app: ManagedApp): seq<string> {
    []
  }

  /**
   * A browser never enters the preset as itself: every entry is one of the non-browser
   * entries (see `PlainEntries`), or the Chrome or Edge entry appended after them exactly
   * when that browser has tabs.
   */
  lemma PresetBrowsers(apps: seq<ManagedApp>, name: string, description: string, now: string,
                       chromeTabsOf: ManagedApp -> seq<string>, edgeTabsOf: ManagedApp -> seq<string>)
    ensures var p := PresetFromApps(apps, name, description, now, chromeTabsOf, edgeTabsOf);
      && (forall e :: e in p.apps ==> e == ChromeEntry || e == EdgeEntry || e in PlainEntries(apps))
      && p.apps[..|PlainEntries(apps)|] == PlainEntries(apps)
      && (ChromeEntry in p.apps[|PlainEntries(apps)|..] <==> p.chromeTabs != [])
      && (EdgeEntry in p.apps[|PlainEntries(apps)|..] <==> p.edgeTabs != [])
  {
    var chrome := LastTabs(apps, IsChrome, chromeTabsOf);
    var edge := LastTabs(apps, IsEdge, edgeTabsOf);
    var plain := PlainEntries(apps);
    var tail := (if chrome != [] then [ChromeEntry] else []) + (if edge != [] then [EdgeEntry] else []);
    var p := PresetFromApps(apps, name, description, now, chromeTabsOf, edgeTabsOf);
    assert p.apps == plain + tail;
    assert p.apps[|plain|..] == tail && p.apps[..|plain|] == plain;
    BrowserTail(plain, chrome, edge);
  }

  /** The entries after the non-browser ones: Chrome's, then Edge's, each when it has tabs. */
  lemma BrowserTail(plain: seq<PresetApp>, chrome: seq<string>, edge: seq<string>)
    ensures var tail := (if chrome != [] then [ChromeEntry] else []) + (if edge != [] then [EdgeEntry] else []);
      && (forall e :: e in plain + tail ==> e == ChromeEntry || e == EdgeEntry || e in plain)
      && (ChromeEntry in tail <==> chrome != []) && (EdgeEntry in tail <==> edge != [])
  {
    assert ChromeEntry.path != EdgeEntry.path by {
      assert ChromeEntry.path[0] != EdgeEntry.path[0];
    }
  }

  /** With the tab readers as written, a preset made from running apps lists only non-browsers. */
  lemma PresetWithoutTabReaders(apps: seq<ManagedApp>, name: string, description: string, now: string)
    ensures var p := PresetFromApps(apps, name, description, now, NoTabs, NoTabs);
      p.apps == PlainEntries(apps) && p.chromeTabs == [] && p.edgeTabs == []
  {
    NoTabsEmpty(apps, IsChrome);
    NoTabsEmpty(apps, IsEdge);
  }

  lemma {:induction false} NoTabsEmpty(apps: seq<ManagedApp>, accepts: ManagedApp -> bool)
    ensures LastTabs(apps, accepts, NoTabs) == []
    decreases |apps|
  {
    if apps != [] && !accepts(apps[|apps| - 1]) {
      NoTabsEmpty(apps[..|apps| - 1], accepts);
    }
  }

  /** One more application: how the entries and the two tab lists of the loop change. */
  lemma PresetLoopStep(apps: seq<ManagedApp>, i: int,
                       chromeTabsOf: ManagedApp -> seq<string>, edgeTabsOf: ManagedApp -> seq<string>)
    requires 0 <= i < |apps|
    ensures var a, pre, app := apps[..i + 1], apps[..i], apps[i];
      && PlainEntries(a) == PlainEntries(pre) + (if IsChrome(app) || IsEdge(app) then [] else [EntryOf(app)])
      && LastTabs(a, IsChrome, chromeTabsOf) == (if IsChrome(app) then chromeTabsOf(app) else LastTabs(pre, IsChrome, chromeTabsOf))
      && LastTabs(a, IsEdge, edgeTabsOf) == (if IsEdge(app) then edgeTabsOf(app) else LastTabs(pre, IsEdge, edgeTabsOf))
  {
    assert apps[..i + 1][..i] == apps[..i];
  }

  /** The loop of `get_current_apps_as_preset_data`. */
  method CurrentAppsAsPreset(apps: seq<ManagedApp>, name: string, description: string, now: string,
                             chromeTabsOf: ManagedApp -> seq<string>, edgeTabsOf: ManagedApp -> seq<string>)
    returns (p: Preset)
    ensures p == PresetFromApps(apps, name, description, now, chromeTabsOf, edgeTabsOf)
  {
    var appsData: seq<PresetApp> := [];
    var chrome: seq<string> := [];
    var edge: seq<string> := [];
    for i := 0 to |apps|
      invariant appsData == PlainEntries(apps[..i])
      invariant chrome == LastTabs(apps[..i], IsChrome, chromeTabsOf)
      invariant edge == LastTabs(apps[..i], IsEdge, edgeTabsOf)
    {
      var app := apps[i];
      if IsChrome(app) {
        chrome := chromeTabsOf(app);
      } else if IsEdge(app) {
        edge := edgeTabsOf(app);
      } else {
        appsData := appsData + [EntryOf(app)];
      }
      PresetLoopStep(apps, i, chromeTabsOf, edgeTabsOf);
    }
    assert apps[..|apps|] == apps;
    ghost var plain := appsData;
    if chrome != [] {
      appsData := appsData + [ChromeEntry];
    }
    if edge != [] {
      appsData := appsData + [EdgeEntry];
    }
    assert appsData == plain + (if chrome != [] then [ChromeEntry] else []) + (if edge != [] then [EdgeEntry] else []);
    p := Preset(name, description, appsData, chrome, edge, Some(now), None);
  }

  // ---------------------------------------------------------------------------------------
  // The manager object
  // ---------------------------------------------------------------------------------------

  class ConfigManager {
    var applications: seq<AppEntry>
    var settings: map<string, Section>
    var presets: map<string, Preset>

    /**
     * Each configuration is the loaded file when it could be read, else its default. The
     * default presets are left out: they carry the time of the call.
     */
    constructor(loadedApps: Option<seq<AppEntry>>, loadedSettings: Option<map<string, Section>>,
                loadedPresets: Option<map<string, Preset>>)
      ensures applications == loadedApps.GetOr(DefaultApplications)
      ensures settings == loadedSettings.GetOr(DefaultSettings)
      ensures presets == loadedPresets.GetOr(map[])
    {
      applications := loadedApps.GetOr(DefaultApplications);
      settings := loadedSettings.GetOr(DefaultSettings);
      presets := loadedPresets.GetOr(map[]);
    }

    /**
     * `add_application`: refused when the path is taken, else appended with its defaults;
     * the result is then that of the save.
     */
    method AddApplication(app: AppEntry, saveOk: bool) returns (ok: bool)
      modifies this
      ensures PathTaken(old(applications), app.path) ==> !ok && applications == old(applications)
      ensures !PathTaken(old(applications), app.path) ==>
                ok == saveOk && applications == old(applications) + [WithDefaults(app)]
      ensures settings == old(settings) && presets == old(presets)
    {
      for i := 0 to |applications|
        invariant forall j :: 0 <= j < i ==> applications[j].path != app.path
      {
        if applications[i].path == app.path {
          return false;
        }
      }
      applications := applications + [WithDefaults(app)];
      ok := saveOk;
    }

    /** `remove_application`: every entry with the path goes; `False` when none did. */
    method RemoveApplication(path: string, saveOk: bool) returns (ok: bool)
      modifies this
      ensures applications == WithoutPath(old(applications), path)
      ensures ok <==> PathTaken(old(applications), Some(path)) && saveOk
      ensures settings == old(settings) && presets == old(presets)
    {
      var originalCount := |applications|;
      applications := WithoutPath(applications, path);
      ok := if |applications| < originalCount then saveOk else false;
    }

    function Setting(section: string, key: string, default: Json): Json
      reads this
    {
      GetSetting(settings, section, key, default)
    }

    /** `set_setting` */
    method SetSetting(section: string, key: string, value: Json, saveOk: bool) returns (ok: bool)
      modifies this
      ensures settings == SetIn(old(settings), section, key, value) && ok == saveOk
      ensures applications == old(applications) && presets == old(presets)
    {
      if section !in settings {
        settings := settings[section := map[]];
      }
      settings := settings[section := settings[section][key := value]];
      ok := saveOk;
    }

    /** `save_preset`, with `datetime.now().isoformat()` as `now`. */
    method SavePreset(name: string, data: Preset, now: string, saveOk: bool) returns (ok: bool)
      modifies this
      ensures presets == old(presets)[name := Stamped(name, data, now)] && ok == saveOk
      ensures applications == old(applications) && settings == old(settings)
    {
      var stamped := data.(name := name);
      stamped := stamped.(createdAt := Some(data.createdAt.GetOr(now)));
      stamped := stamped.(lastUsed := Some(now));
      presets := presets[name := stamped];
      ok := saveOk;
    }

    /** `delete_preset`: `False` for an unknown name, else only that preset goes. */
    method DeletePreset(name: string, saveOk: bool) returns (ok: bool)
      modifies this
      ensures name in old(presets) ==> presets == old(presets) - {name} && ok == saveOk
      ensures name !in old(presets) ==> presets == old(presets) && !ok
      ensures applications == old(applications) && settings == old(settings)
    {
      if name in presets {
        presets := presets - {name};
        ok := saveOk;
      } else {
        ok := false;
      }
    }
  }
}
