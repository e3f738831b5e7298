/**
 * The settings service: application settings layered from built-in
 * defaults, `settings.json` and `settings.env.json`, and three local
 * preferences kept in browser storage. Browser storage, the two file
 * fetches and the browser's tabs are parameters and fields of the model.
 */
module Settings {
  import opened Wrappers

  /** A JSON value as far as the settings need one. */
  datatype Json = JString(s: string) | JBool(b: bool) | JObject(fields: map<string, Json>)

  /** A settings object: its top-level keys and their values. */
  type SettingsObject = map<string, Json>

  /** The settings file's location. */
  const SettingsUrl := "assets/config/settings.json"

  /** The built-in settings. */
  function DefaultSettings(): (r: SettingsObject)
    ensures r.Keys == {"lang", "maintMessage", "branding", "loginUrl", "showdown"}
    ensures r["lang"] == JString("en") && r["loginUrl"] == JString("/login")
  {
    map[
      "lang" := JString("en"),
      "maintMessage" := JString(""),
      "branding" := JObject(map["applicationName" := JString("TopoMojo")]),
      "loginUrl" := JString("/login"),
      "showdown" := JObject(map[
        "strikethrough" := JBool(true),
        "tables" := JBool(true),
        "parseImgDimensions" := JBool(true),
        "smoothLivePreview" := JBool(true),
        "tasklists" := JBool(true)])]
  }

  /** Object spread `{ ...base, ...over }`: the keys of `over` win, at the top level only. */
  function Spread(base: SettingsObject, over: SettingsObject): (r: SettingsObject)
    ensures r.Keys == base.Keys + over.Keys
    ensures forall k :: k in over ==> r[k] == over[k]
    ensures forall k :: k in base && k !in over ==> r[k] == base[k]
  {
    base + over
  }

  /** The settings after `load`: a failed fetch contributes an empty object. */
  function Layered(current: SettingsObject, file: Option<SettingsObject>, env: Option<SettingsObject>): (r: SettingsObject)
    ensures current.Keys <= r.Keys
    ensures env.Some? ==> forall k :: k in env.value ==> k in r && r[k] == env.value[k]
    ensures file.None? && env.None? ==> r == current
  {
    Spread(Spread(current, file.GetOr(map[])), env.GetOr(map[]))
  }

  /**
   * The override order of `load`: a key takes its value from the
   * environment file if it is there, else from the settings file, else
   * from the settings held before.
   */
  lemma LoadOverrideOrder(current: SettingsObject, file: Option<SettingsObject>, env: Option<SettingsObject>)
    ensures var r := Layered(current, file, env);
      var f := file.GetOr(map[]);
      var e := env.GetOr(map[]);
      r.Keys == current.Keys + f.Keys + e.Keys
      && forall k :: k in r ==> r[k] == (if k in e then e[k] else if k in f then f[k] else current[k])
  {
  }

  /** Both fetches failing keeps the settings held before. */
  lemma FailedFetchesKeep(current: SettingsObject)
    ensures Layered(current, None, None) == current
  {
  }

  /** The environment file's url: a trailing `json` becomes `env.json`. */
  function EnvUrl(url: string): (r: string)
    ensures |url| >= 4 && url[|url| - 4..] == "json" ==> r == url[..|url| - 4] + "env.json"
    ensures !(|url| >= 4 && url[|url| - 4..] == "json") ==> r == url
  {
    if |url| >= 4 && url[|url| - 4..] == "json" then url[..|url| - 4] + "env.json" else url
  }

  lemma EnvUrlOfSettingsUrl()
    ensures EnvUrl(SettingsUrl) == "assets/config/settings.env.json"
  {
    assert SettingsUrl[|SettingsUrl| - 4..] == "json";
    assert SettingsUrl[..|SettingsUrl| - 4] == "assets/config/settings.";
  }

  /** The local preferences; `None` is an absent field. */
  datatype LocalAppSettings = LocalAppSettings(
    altTheme: Option<bool>,
    lobbyFilter: Option<string>,
    lobbySort: Option<string>)

  const EmptyLocal := LocalAppSettings(None, None, None)

  /** The browser storage slot: missing, holding stored preferences, or holding text that does not parse. */
  datatype LocalStore = Missing | Stored(value: LocalAppSettings) | Unparsable

  /** Reads the preferences back; anything but stored preferences gives the empty object. */
  function GetLocal(store: LocalStore): (r: LocalAppSettings)
    ensures store.Stored? ==> r == store.value
    ensures !store.Stored? ==> r == EmptyLocal
  {
    match store
    case Stored(value) => value
    case _ => EmptyLocal
  }

  /** What `showTab` does with the browser. */
  datatype TabAction = OpenTab | FocusTab

  class SettingsService {
    var settings: SettingsObject
    var localSettings: LocalAppSettings
    var store: LocalStore
    /** The urls a tab has been opened for. */
    var tabRefs: set<string>

    /** What the storage slot reads back as is the preferences held. */
    ghost predicate InSync()
      reads this
    {
      GetLocal(store) == localSettings
    }

    /** `store` is the storage slot as the page finds it. */
    constructor (store: LocalStore)
      ensures settings == DefaultSettings()
      ensures localSettings == GetLocal(store) && this.store == store
      ensures InSync()
      ensures tabRefs == {}
    {
      settings := DefaultSettings();
      localSettings := GetLocal(store);
      this.store := store;
      tabRefs := {};
    }

    /**
     * Opens a tab for `url` unless one is tracked and still open, in which
     * case it is focused. `trackedTabClosed` is whether the tracked tab has
     * been closed by the user.
     */
    method ShowTab(url: string, trackedTabClosed: bool) returns (action: TabAction)
      modifies this`tabRefs
      ensures action == OpenTab <==> url !in old(tabRefs) || trackedTabClosed
      ensures tabRefs == old(tabRefs) + {url}
    {
      if url !in tabRefs || trackedTabClosed {
        tabRefs := tabRefs + {url};
        action := OpenTab;
      } else {
        action := FocusTab;
      }
    }

    /** The reply to the settings file request, and the url then requested. */
    method SettingsFileReplied(data: Option<SettingsObject>) returns (request: string)
      modifies this`settings
      ensures settings == Spread(old(settings), data.GetOr(map[]))
      ensures request == EnvUrl(SettingsUrl)
    {
      settings := Spread(settings, data.GetOr(map[]));
      request := EnvUrl(SettingsUrl);
    }

    /** The reply to the environment file request. */
    method EnvFileReplied(data: Option<SettingsObject>)
      modifies this`settings
      ensures settings == Spread(old(settings), data.GetOr(map[]))
    {
      settings := Spread(settings, data.GetOr(map[]));
    }

    method StoreLocal()
      modifies this`store
      ensures store == Stored(localSettings)
    {
      store := Stored(localSettings);
    }

    /** Sets the theme flag, storing the preferences only if it changed. */
    method UpdateTheme(v: bool) returns (stored: bool)
      modifies this`localSettings, this`store
      ensures localSettings == old(localSettings).(altTheme := Some(v))
      ensures stored <==> old(localSettings).altTheme != Some(v)
      ensures stored ==> store == Stored(localSettings)
      ensures !stored ==> store == old(store)
      ensures old(InSync()) ==> InSync()
    {
      stored := localSettings.altTheme != Some(v);
      if stored {
        localSettings := localSettings.(altTheme := Some(v));
        StoreLocal();
      }
    }

    /** Sets the lobby filter, storing the preferences only if it changed. */
    method UpdateLobbyFilter(f: string) returns (stored: bool)
      modifies this`localSettings, this`store
      ensures localSettings == old(localSettings).(lobbyFilter := Some(f))
      ensures stored <==> old(localSettings).lobbyFilter != Some(f)
      ensures stored ==> store == Stored(localSettings)
      ensures !stored ==> store == old(store)
      ensures old(InSync()) ==> InSync()
    {
      stored := localSettings.lobbyFilter != Some(f);
      if stored {
        localSettings := localSettings.(lobbyFilter := Some(f));
        StoreLocal();
      }
    }

    /** Sets the lobby sort, storing the preferences only if it changed. */
    method UpdateLobbySort(s: string) returns (stored: bool)
      modifies this`localSettings, this`store
      ensures localSettings == old(localSettings).(lobbySort := Some(s))
      ensures stored <==> old(localSettings).lobbySort != Some(s)
      ensures stored ==> store == Stored(localSettings)
      ensures !stored ==> store == old(store)
      ensures old(InSync()) ==> InSync()
    {
      stored := localSettings.lobbySort != Some(s);
      if stored {
        localSettings := localSettings.(lobbySort := Some(s));
        StoreLocal();
      }
    }
  }
}
