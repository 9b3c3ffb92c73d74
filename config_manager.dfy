/**
 * The API configuration manager (static/js/config-manager.js): which model is
 * selected, whether requests go through the server proxy, and the user's list of
 * custom OpenAI-compatible models. `localStorage` is represented by ghost fields
 * that hold what was last persisted.
 */
module Config {
  import opened Wrappers

  datatype ModelInfo = ModelInfo(id: string, name: string, isDefault: bool)
  datatype ModelRef = ModelRef(id: string, name: string)
  datatype CustomModel = CustomModel(provider: string, baseUrl: string, api: string, apiKey: string, model: ModelRef)
  datatype ApiConfig = ApiConfig(apiKey: string, baseUrl: string, model: string, webSearchEnabled: bool)
  /** The body of `GET /api/config`; a missing `base_url` or `allowed_models` is "" or []. */
  datatype ServerConfig = ServerConfig(hasServerKey: bool, baseUrl: string, allowedModels: seq<ModelInfo>)
  /** The persisted configuration; a missing or falsy string field is "". */
  datatype SavedConfig = SavedConfig(apiKey: string, baseUrl: string, model: string, webSearchEnabled: Option<bool>)

  const DefaultModelId := "claude-sonnet-4-5-20250929"
  const DefaultBaseUrl := "https://api.anthropic.com"
  const DefaultModels := [
    ModelInfo("claude-opus-4-6", "Opus 4.6", false),
    ModelInfo(DefaultModelId, "Sonnet 4.5", true),
    ModelInfo("claude-haiku-4-5-20251001", "Haiku 4.5", false)
  ]
  const InitialConfig := ApiConfig("", "", DefaultModelId, false)

  predicate HasCustomModel(ms: seq<CustomModel>, id: string) {
    exists i :: 0 <= i < |ms| && ms[i].model.id == id
  }

  predicate ListsModel(ms: seq<ModelInfo>, id: string) {
    exists i :: 0 <= i < |ms| && ms[i].id == id
  }

  /** `useProxy()`: only in developer mode, and only when the server holds a key. */
  function UseProxy(devMode: bool, server: Option<ServerConfig>): (r: bool)
    ensures r ==> server.Some?
    ensures r <==> devMode && server.Some? && server.value.hasServerKey
    ensures !devMode || server.None? ==> !r
  {
    devMode && server.Some? && server.value.hasServerKey
  }

  /** `models.find(m => m.default)` */
  function FindDefault(ms: seq<ModelInfo>): (r: Option<ModelInfo>)
    ensures r.Some? ==> r.value in ms && r.value.isDefault
    ensures r.None? ==> forall i :: 0 <= i < |ms| ==> !ms[i].isDefault
    ensures r.Some? ==> exists i :: 0 <= i < |ms| && ms[i] == r.value && forall j :: 0 <= j < i ==> !ms[j].isDefault
  {
    if ms == [] then None
    else if ms[0].isDefault then Some(ms[0])
    else
      var r := FindDefault(ms[1..]);
      assert r.Some? ==> exists i :: 0 <= i < |ms| && ms[i] == r.value && forall j :: 0 <= j < i ==> !ms[j].isDefault by {
        if r.Some? {
          var i :| 0 <= i < |ms[1..]| && ms[1..][i] == r.value && forall j :: 0 <= j < i ==> !ms[1..][j].isDefault;
          assert ms[i + 1] == r.value;
        }
      }
      r
  }

  /**
   * `isModelAllowed(id)`: a custom model is always allowed; when proxying with a
   * non-empty allowed list, only that list; otherwise the built-in models.
   */
  function IsModelAllowed(custom: seq<CustomModel>, proxy: bool, server: Option<ServerConfig>, id: string): (r: bool)
    ensures HasCustomModel(custom, id) ==> r
    ensures !HasCustomModel(custom, id) && proxy && server.Some? && |server.value.allowedModels| > 0 ==>
      (r <==> ListsModel(server.value.allowedModels, id))
    ensures !HasCustomModel(custom, id) && !(proxy && server.Some? && |server.value.allowedModels| > 0) ==>
      (r <==> ListsModel(DefaultModels, id))
  {
    if HasCustomModel(custom, id) then true
    else if proxy && server.Some? && |server.value.allowedModels| > 0 then ListsModel(server.value.allowedModels, id)
    else ListsModel(DefaultModels, id)
  }

  /** `getCustomModelConfig()`: the first custom model whose id is the selected model. */
  function FindCustomModel(ms: seq<CustomModel>, id: string): (r: Option<CustomModel>)
    ensures r.Some? <==> HasCustomModel(ms, id)
    ensures r.Some? ==> r.value.model.id == id
    ensures r.Some? ==> exists i :: 0 <= i < |ms| && ms[i] == r.value && forall j :: 0 <= j < i ==> ms[j].model.id != id
  {
    if ms == [] then None
    else if ms[0].model.id == id then Some(ms[0])
    else
      var r := FindCustomModel(ms[1..], id);
      assert r.Some? ==> exists i :: 0 <= i < |ms| && ms[i] == r.value && forall j :: 0 <= j < i ==> ms[j].model.id != id by {
        if r.Some? {
          var i :| 0 <= i < |ms[1..]| && ms[1..][i] == r.value && forall j :: 0 <= j < i ==> ms[1..][j].model.id != id;
          assert ms[i + 1] == r.value;
        }
      }
      assert HasCustomModel(ms[1..], id) ==> HasCustomModel(ms, id);
      assert HasCustomModel(ms, id) && ms[0].model.id != id ==> HasCustomModel(ms[1..], id) by {
        if HasCustomModel(ms, id) && ms[0].model.id != id {
          var i :| 0 <= i < |ms| && ms[i].model.id == id;
          assert ms[1..][i - 1].model.id == id;
        }
      }
      r
  }

  /**
   * `hasAPIKey()`: a request can be made when a key is set, when the proxy holds
   * the key, or when the selected model is a custom model (which carries its own key).
   */
  function HasApiKey(config: ApiConfig, proxy: bool, custom: seq<CustomModel>): (r: bool)
    ensures r <==> config.apiKey != "" || proxy || HasCustomModel(custom, config.model)
  {
    config.apiKey != "" || proxy || FindCustomModel(custom, config.model).Some?
  }

  /** `customModels.filter(m => m.model.id !== id)` */
  function WithoutModel(ms: seq<CustomModel>, id: string): (r: seq<CustomModel>)
    ensures !HasCustomModel(r, id)
    ensures forall c :: c in r <==> c in ms && c.model.id != id
    ensures |r| <= |ms|
  {
    if ms == [] then []
    else if ms[0].model.id == id then WithoutModel(ms[1..], id)
    else
      var r := [ms[0]] + WithoutModel(ms[1..], id);
      assert forall c :: c in ms <==> c == ms[0] || c in ms[1..];
      r
  }

  /** Filtering distributes over concatenation, so the kept entries keep their relative order. */
  lemma {:induction false} WithoutModelAppend(a: seq<CustomModel>, b: seq<CustomModel>, id: string)
    ensures WithoutModel(a + b, id) == WithoutModel(a, id) + WithoutModel(b, id)
  {
    if a == [] {
      assert a + b == b;
    } else {
      assert (a + b)[0] == a[0];
      assert (a + b)[1..] == a[1..] + b;
      WithoutModelAppend(a[1..], b, id);
    }
  }

  /** Filtering out an id that no entry has changes nothing. */
  lemma {:induction false} WithoutAbsentModel(ms: seq<CustomModel>, id: string)
    requires !HasCustomModel(ms, id)
    ensures WithoutModel(ms, id) == ms
  {
    if ms != [] {
      assert ms[0].model.id != id;
      assert !HasCustomModel(ms[1..], id) by {
        forall i | 0 <= i < |ms[1..]| ensures ms[1..][i].model.id != id {
          assert ms[1..][i] == ms[i + 1];
        }
      }
      WithoutAbsentModel(ms[1..], id);
      assert ms == [ms[0]] + ms[1..];
    }
  }

  /** The number of entries with a given id. */
  function CountModel(ms: seq<CustomModel>, id: string): nat {
    if ms == [] then 0 else (if ms[0].model.id == id then 1 else 0) + CountModel(ms[1..], id)
  }

  lemma {:induction false} CountAbsent(ms: seq<CustomModel>, id: string)
    requires !HasCustomModel(ms, id)
    ensures CountModel(ms, id) == 0
  {
    if ms != [] {
      assert ms[0].model.id != id;
      assert !HasCustomModel(ms[1..], id) by {
        forall i | 0 <= i < |ms[1..]| ensures ms[1..][i].model.id != id {
          assert ms[1..][i] == ms[i + 1];
        }
      }
      CountAbsent(ms[1..], id);
    }
  }

  lemma {:induction false} CountAppendOne(ms: seq<CustomModel>, c: CustomModel, id: string)
    ensures CountModel(ms + [c], id) == CountModel(ms, id) + (if c.model.id == id then 1 else 0)
  {
    if ms == [] {
      assert ms + [c] == [c];
    } else {
      assert (ms + [c])[1..] == ms[1..] + [c];
      CountAppendOne(ms[1..], c, id);
    }
  }

  /** The list `addCustomModel(mc)` produces: every entry with `mc`'s id removed, then `mc` appended. */
  function AddedModels(ms: seq<CustomModel>, mc: CustomModel): seq<CustomModel> {
    WithoutModel(ms, mc.model.id) + [mc]
  }

  /** After adding, exactly one entry carries the id: the new one, at the end. */
  lemma AddedModelIsUnique(ms: seq<CustomModel>, mc: CustomModel)
    ensures var r := AddedModels(ms, mc);
      CountModel(r, mc.model.id) == 1 && r[|r| - 1] == mc && FindCustomModel(r, mc.model.id) == Some(mc)
  {
    var w := WithoutModel(ms, mc.model.id);
    CountAbsent(w, mc.model.id);
    CountAppendOne(w, mc, mc.model.id);
    var r := w + [mc];
    var f := FindCustomModel(r, mc.model.id);
    assert r[|w|] == mc;
    assert HasCustomModel(r, mc.model.id);
    var i :| 0 <= i < |r| && r[i] == f.value && forall j :: 0 <= j < i ==> r[j].model.id != mc.model.id;
    assert forall j :: 0 <= j < |w| ==> r[j] == w[j] && w[j].model.id != mc.model.id;
    assert i == |w|;
  }

  /** A custom model that has been added is allowed, whatever the proxy settings. */
  lemma AddedModelIsAllowed(ms: seq<CustomModel>, mc: CustomModel, proxy: bool, server: Option<ServerConfig>)
    ensures IsModelAllowed(AddedModels(ms, mc), proxy, server, mc.model.id)
  {
    var r := AddedModels(ms, mc);
    assert r[|r| - 1].model.id == mc.model.id;
  }

  /** What `load()` takes from the server configuration: a truthy `base_url` and the model list's default entry. */
  function ServerMerged(cfg: ApiConfig, server: Option<ServerConfig>, proxy: bool): (r: ApiConfig)
    ensures r.apiKey == cfg.apiKey && r.webSearchEnabled == cfg.webSearchEnabled
    ensures r.baseUrl == if server.Some? && server.value.baseUrl != "" then server.value.baseUrl else cfg.baseUrl
    ensures r.model == if server.Some? && FindDefault(if proxy then server.value.allowedModels else DefaultModels).Some?
                       then FindDefault(if proxy then server.value.allowedModels else DefaultModels).value.id
                       else cfg.model
  {
    var c1 := if server.Some? && server.value.baseUrl != "" then cfg.(baseUrl := server.value.baseUrl) else cfg;
    if server.Some? then
      var d := FindDefault(if proxy then server.value.allowedModels else DefaultModels);
      if d.Some? then c1.(model := d.value.id) else c1
    else c1
  }

  /** What `load()` takes from the saved configuration: each truthy field, and the model only when allowed. */
  function SavedMerged(cfg: ApiConfig, saved: Option<SavedConfig>, allowed: string -> bool): (r: ApiConfig)
    ensures r.apiKey == if saved.Some? && saved.value.apiKey != "" then saved.value.apiKey else cfg.apiKey
    ensures r.baseUrl == if saved.Some? && saved.value.baseUrl != "" then saved.value.baseUrl else cfg.baseUrl
    ensures r.model == if saved.Some? && saved.value.model != "" && allowed(saved.value.model) then saved.value.model else cfg.model
    ensures r.webSearchEnabled ==
      if saved.Some? && saved.value.webSearchEnabled.Some? then saved.value.webSearchEnabled.value else cfg.webSearchEnabled
  {
    if saved.None? then cfg
    else
      var s := saved.value;
      var c1 := if s.apiKey != "" then cfg.(apiKey := s.apiKey) else cfg;
      var c2 := if s.baseUrl != "" then c1.(baseUrl := s.baseUrl) else c1;
      var c3 := if s.model != "" && allowed(s.model) then c2.(model := s.model) else c2;
      if s.webSearchEnabled.Some? then c3.(webSearchEnabled := s.webSearchEnabled.value) else c3
  }

  /** What `loadAPIConfig()` reads back after `saveAPIConfig(c)` stored `JSON.stringify(c)`. */
  function Stored(c: ApiConfig): SavedConfig {
    SavedConfig(c.apiKey, c.baseUrl, c.model, Some(c.webSearchEnabled))
  }

  /**
   * Save then load: a saved configuration whose strings are all set, and whose
   * model is allowed, comes back whole, whatever the configuration it is merged into.
   */
  lemma SavedConfigRestored(cfg: ApiConfig, c: ApiConfig, allowed: string -> bool)
    requires c.apiKey != "" && c.baseUrl != "" && c.model != "" && allowed(c.model)
    ensures SavedMerged(cfg, Some(Stored(c)), allowed) == c
  {
    var r := SavedMerged(cfg, Some(Stored(c)), allowed);
    assert r.apiKey == c.apiKey && r.baseUrl == c.baseUrl && r.model == c.model;
  }

  /**
   * The configuration `load()` arrives at before any prompt: the server
   * configuration first, then the saved configuration on top of it.
   */
  function MergedConfig(cfg: ApiConfig, server: Option<ServerConfig>, proxy: bool,
                        custom: seq<CustomModel>, saved: Option<SavedConfig>): ApiConfig
  {
    SavedMerged(ServerMerged(cfg, server, proxy), saved, id => IsModelAllowed(custom, proxy, server, id))
  }

  /** A truthy saved base URL wins over the server's `base_url`, which wins over the current one. */
  lemma SavedBaseUrlWins(cfg: ApiConfig, server: Option<ServerConfig>, proxy: bool,
                         custom: seq<CustomModel>, saved: Option<SavedConfig>)
    ensures MergedConfig(cfg, server, proxy, custom, saved).baseUrl ==
      if saved.Some? && saved.value.baseUrl != "" then saved.value.baseUrl
      else if server.Some? && server.value.baseUrl != "" then server.value.baseUrl
      else cfg.baseUrl
  {
  }

  /**
   * The merged model is the saved one exactly when that is set and allowed;
   * otherwise it is what the server step chose (its list's default entry, if any).
   */
  lemma SavedModelOnlyIfAllowed(cfg: ApiConfig, server: Option<ServerConfig>, proxy: bool,
                                custom: seq<CustomModel>, saved: Option<SavedConfig>)
    ensures MergedConfig(cfg, server, proxy, custom, saved).model ==
      if saved.Some? && saved.value.model != "" && IsModelAllowed(custom, proxy, server, saved.value.model)
      then saved.value.model
      else ServerMerged(cfg, server, proxy).model
  {
  }

  /**
   * `showConfigPrompt()` with the user's two answers (`None` for a cancelled prompt):
   * a truthy key is stored together with the base URL, which defaults to the
   * Anthropic endpoint; otherwise nothing changes.
   */
  function PromptedConfig(cfg: ApiConfig, keyAnswer: Option<string>, urlAnswer: Option<string>): (r: ApiConfig)
    ensures keyAnswer.Some? && keyAnswer.value != "" ==>
      r == cfg.(apiKey := keyAnswer.value,
                baseUrl := if urlAnswer.Some? && urlAnswer.value != "" then urlAnswer.value else DefaultBaseUrl)
    ensures !(keyAnswer.Some? && keyAnswer.value != "") ==> r == cfg
    ensures keyAnswer.Some? && keyAnswer.value != "" ==> r.apiKey != "" && r.baseUrl != ""
  {
    if keyAnswer.Some? && keyAnswer.value != "" then
      cfg.(apiKey := keyAnswer.value, baseUrl := if urlAnswer.Some? && urlAnswer.value != "" then urlAnswer.value else DefaultBaseUrl)
    else cfg
  }

  class ConfigManager {
    var config: ApiConfig
    var serverConfig: Option<ServerConfig>
    var devMode: bool
    var customModels: seq<CustomModel>
    /** What `saveAPIConfig` last wrote, if anything. */
    ghost var savedConfig: Option<ApiConfig>
    /** What `saveCustomModels` last wrote. */
    ghost var savedCustomModels: seq<CustomModel>

    constructor(storedDevMode: bool, storedCustomModels: seq<CustomModel>, ghost stored: Option<ApiConfig>)
      ensures config == InitialConfig && serverConfig.None?
      ensures devMode == storedDevMode && customModels == storedCustomModels
      ensures savedConfig == stored && savedCustomModels == storedCustomModels
    {
      config := InitialConfig;
      serverConfig := None;
      devMode := storedDevMode;
      customModels := storedCustomModels;
      savedConfig := stored;
      savedCustomModels := storedCustomModels;
    }

    /** `useProxy()` */
    predicate UsingProxy()
      reads this
    {
      UseProxy(devMode, serverConfig)
    }

    /** `hasAPIKey()` */
    predicate HasAPIKey()
      reads this
    {
      HasApiKey(config, UsingProxy(), customModels)
    }

    /** `getCustomModelConfig()`: the custom model that is selected, if any. */
    function CustomModelConfig(): Option<CustomModel>
      reads this
    {
      FindCustomModel(customModels, config.model)
    }

    /** `loadServerConfig()`: `fetched` is `None` when the fetch fails or the status is not ok. */
    method LoadServerConfig(fetched: Option<ServerConfig>)
      modifies this
      ensures serverConfig == if fetched.Some? then fetched else old(serverConfig)
      ensures config == old(config) && devMode == old(devMode) && customModels == old(customModels)
      ensures savedConfig == old(savedConfig) && savedCustomModels == old(savedCustomModels)
    {
      if fetched.Some? {
        serverConfig := fetched;
      }
    }

    /** `showConfigPrompt()`; `alerted` says whether it ended with the `config.noKeyAlert` alert. */
    method ShowConfigPrompt(keyAnswer: Option<string>, urlAnswer: Option<string>) returns (alerted: bool)
      modifies this
      ensures alerted <==> !(keyAnswer.Some? && keyAnswer.value != "")
      ensures config == PromptedConfig(old(config), keyAnswer, urlAnswer)
      ensures savedConfig == if keyAnswer.Some? && keyAnswer.value != "" then Some(config) else old(savedConfig)
      ensures serverConfig == old(serverConfig) && devMode == old(devMode) && customModels == old(customModels)
      ensures savedCustomModels == old(savedCustomModels)
    {
      if keyAnswer.Some? && keyAnswer.value != "" {
        config := config.(apiKey := keyAnswer.value,
                          baseUrl := if urlAnswer.Some? && urlAnswer.value != "" then urlAnswer.value else DefaultBaseUrl);
        savedConfig := Some(config);
        alerted := false;
      } else {
        alerted := true;
      }
    }

    /**
     * `load()`: fetch the server configuration, merge it with the saved one, and
     * prompt for a key when there is no way to make a request. `alerted` says
     * whether the prompt ended with the `config.noKeyAlert` alert.
     */
    method Load(fetched: Option<ServerConfig>, saved: Option<SavedConfig>,
                keyAnswer: Option<string>, urlAnswer: Option<string>) returns (alerted: bool)
      modifies this
      ensures serverConfig == if fetched.Some? then fetched else old(serverConfig)
      ensures var proxy := UseProxy(devMode, serverConfig);
        var merged := MergedConfig(old(config), serverConfig, proxy, customModels, saved);
        config == if !proxy && merged.apiKey == "" && |customModels| == 0
                  then PromptedConfig(merged, keyAnswer, urlAnswer) else merged
      ensures var proxy := UseProxy(devMode, serverConfig);
        var merged := MergedConfig(old(config), serverConfig, proxy, customModels, saved);
        savedConfig == if !proxy && merged.apiKey == "" && |customModels| == 0 && keyAnswer.Some? && keyAnswer.value != ""
                       then Some(config) else old(savedConfig)
      ensures var proxy := UseProxy(devMode, serverConfig);
        var merged := MergedConfig(old(config), serverConfig, proxy, customModels, saved);
        alerted <==> !proxy && merged.apiKey == "" && |customModels| == 0 && !(keyAnswer.Some? && keyAnswer.value != "")
      ensures devMode == old(devMode) && customModels == old(customModels)
      ensures savedCustomModels == old(savedCustomModels)
    {
      LoadServerConfig(fetched);
      var proxy := UseProxy(devMode, serverConfig);
      config := MergedConfig(config, serverConfig, proxy, customModels, saved);
      if !UseProxy(devMode, serverConfig) && config.apiKey == "" && |customModels| == 0 {
        alerted := ShowConfigPrompt(keyAnswer, urlAnswer);
      } else {
        alerted := false;
      }
    }

    /** `addCustomModel(mc)` */
    method AddCustomModel(mc: CustomModel)
      modifies this
      ensures customModels == AddedModels(old(customModels), mc) && savedCustomModels == customModels
      ensures CountModel(customModels, mc.model.id) == 1 && customModels[|customModels| - 1] == mc
      ensures config == old(config) && serverConfig == old(serverConfig) && devMode == old(devMode)
      ensures savedConfig == old(savedConfig)
    {
      customModels := WithoutModel(customModels, mc.model.id);
      customModels := customModels + [mc];
      savedCustomModels := customModels;
      AddedModelIsUnique(old(customModels), mc);
    }

    /** `removeCustomModel(id)`: a removed selected model falls back to the built-in default. */
    method RemoveCustomModel(id: string)
      modifies this
      ensures customModels == WithoutModel(old(customModels), id) && savedCustomModels == customModels
      ensures !HasCustomModel(customModels, id)
      ensures old(config).model == id ==> config == old(config).(model := DefaultModelId) && savedConfig == Some(config)
      ensures old(config).model != id ==> config == old(config) && savedConfig == old(savedConfig)
      ensures serverConfig == old(serverConfig) && devMode == old(devMode)
    {
      customModels := WithoutModel(customModels, id);
      savedCustomModels := customModels;
      if config.model == id {
        var d := FindDefault(DefaultModels);
        var fallback := d.GetOr(DefaultModels[0]);
        assert fallback == DefaultModels[1];
        config := config.(model := fallback.id);
        savedConfig := Some(config);
      }
    }

    /** `updateModel(model)` from the model selector. */
    method UpdateModel(model: string)
      modifies this
      ensures config == old(config).(model := model) && savedConfig == Some(config)
      ensures serverConfig == old(serverConfig) && devMode == old(devMode) && customModels == old(customModels)
      ensures savedCustomModels == old(savedCustomModels)
    {
      config := config.(model := model);
      savedConfig := Some(config);
    }
  }
}
