/**
 * Asset-URL resolution and configuration loading of the viewer
 * (js/SatelliteConfigurationLoader.js).
 *
 * The loader fetches five JSON configuration files from a remote base URL.
 * If the earth configuration comes back empty it switches to local assets
 * and fetches them again from relative URLs; if that is empty too it falls
 * back to hard-coded defaults.  Missing fields are then filled with `||=`
 * (any falsy value is replaced) or `??=` (only a missing or null one is).
 *
 * The HTTP fetches are inputs: each is given as the outcome it had.
 */
module SatelliteConfigurationLoader {
  import JavaText
  import opened Wrappers

  // ---------------------------------------------------------------------------
  // URL resolution
  // ---------------------------------------------------------------------------

  /** The argument `relativePath`: a string, or any other JavaScript value. */
  datatype PathArg = JsString(s: string) | NotAString

  /** The value of `getFullGitHubUrl`: a string, `null`, or a thrown TypeError. */
  datatype UrlResult = Url(url: string) | NullUrl | Throws

  /** `s.replace(/^\//, '')`: removes one leading slash, if there is one. */
  function StripLeadingSlash(s: string): (r: string)
    ensures |s| > 0 && s[0] == '/' ==> s == "/" + r
    ensures !(|s| > 0 && s[0] == '/') ==> r == s
  {
    if |s| > 0 && s[0] == '/' then s[1..] else s
  }

  /** Exactly one slash goes: a path starting with "//" keeps its second slash. */
  lemma StripRemovesOneSlash(s: string)
    ensures |s| - |StripLeadingSlash(s)| <= 1
    ensures s == (if |s| > 0 && s[0] == '/' then "/" else "") + StripLeadingSlash(s)
    ensures |s| >= 2 && s[0] == '/' && s[1] == '/' ==> StripLeadingSlash(s)[0] == '/'
  {
  }

  /** `JavaScript`'s `startsWith`: `p` is a prefix of `s`. */
  predicate StartsWith(s: string, p: string) {
    |p| <= |s| && s[..|p|] == p
  }

  predicate IsAbsoluteUrl(s: string) {
    StartsWith(s, "http://") || StartsWith(s, "https://")
  }

  /** The text a JavaScript `+` gives a possibly undefined base. */
  function BaseText(base: Option<string>): string
  {
    base.GetOr("undefined")
  }

  /**
   * `getFullGitHubUrl(relativePath, base)` as written, with the module flag
   * `usingLocalAssets` as the parameter `local`.  An invalid path (not a
   * string, or the empty string) yields `null` in remote mode; in local mode
   * it reaches `relativePath.replace`, which a non-string value does not have.
   */
  function FullUrlAsWritten(path: PathArg, base: Option<string>, local: bool): (r: UrlResult)
    ensures r.Throws? <==> local && path.NotAString?
  {
    match path
    case NotAString => if local then Throws else NullUrl
    case JsString(s) =>
      if s == "" then (if local then Url(StripLeadingSlash(s)) else NullUrl)
      else if IsAbsoluteUrl(s) then Url(s)
      else if local then Url(StripLeadingSlash(s))
      else Url(BaseText(base) + StripLeadingSlash(s))
  }

  /** A non-string path in local mode throws instead of yielding `null`. */
  lemma InvalidLocalPathThrows(base: Option<string>)
    ensures FullUrlAsWritten(NotAString, base, true) == Throws
    ensures FullUrlAsWritten(NotAString, base, false) == NullUrl
  {
  }

  /**
   * `getFullGitHubUrl` as evidently intended: an invalid path that is not a
   * string yields `null` in both modes; everything else is as written.
   */
  function FullUrl(path: PathArg, base: Option<string>, local: bool): (r: UrlResult)
    ensures r != Throws
    ensures FullUrlAsWritten(path, base, local) != Throws ==> r == FullUrlAsWritten(path, base, local)
    ensures path.NotAString? ==> r == NullUrl
  {
    if path.NotAString? then NullUrl else FullUrlAsWritten(path, base, local)
  }

  /** The resolution rules: absolute URLs unchanged, local paths lose one slash, remote ones get the base. */
  lemma FullUrlRules(s: string, base: Option<string>, local: bool)
    requires s != ""
    ensures IsAbsoluteUrl(s) ==> FullUrl(JsString(s), base, local) == Url(s)
    ensures !IsAbsoluteUrl(s) && local ==> FullUrl(JsString(s), base, local) == Url(StripLeadingSlash(s))
    ensures !IsAbsoluteUrl(s) && !local ==>
      FullUrl(JsString(s), base, local) == Url(BaseText(base) + StripLeadingSlash(s))
    ensures !IsAbsoluteUrl(s) && !local ==>
      var u := FullUrl(JsString(s), base, local).url;
      StartsWith(u, BaseText(base)) && u[|BaseText(base)|..] == StripLeadingSlash(s)
  {
    if !IsAbsoluteUrl(s) && !local {
      var b, t := BaseText(base), StripLeadingSlash(s);
      assert (b + t)[..|b|] == b;
      assert (b + t)[|b|..] == t;
    }
  }

  /** A falsy path in remote mode resolves to `null`. */
  lemma FalsyRemotePathIsNull(path: PathArg, base: Option<string>)
    requires path.NotAString? || path.s == ""
    ensures FullUrl(path, base, false) == NullUrl
  {
  }

  // ---------------------------------------------------------------------------
  // JSON values and fetchJSON
  // ---------------------------------------------------------------------------

  /** A parsed JSON value. */
  datatype Json =
    | JNull
    | JBool(b: bool)
    | JNumber(n: real)
    | JString(str: string)
    | JArray(items: seq<Json>)
    | JObject(fields: map<string, Json>)

  /** JavaScript truthiness of a JSON value (NaN is not a JSON number). */
  predicate Truthy(j: Json) {
    match j
    case JNull => false
    case JBool(b) => b
    case JNumber(n) => n != 0.0
    case JString(s) => s != ""
    case _ => true
  }

  /** How one `fetch(url)` went. */
  datatype FetchOutcome =
    | Ok(body: Json)      // status ok and a body that parses as JSON
    | HttpError           // `!r.ok`
    | NetworkError        // `fetch` rejected
    | BadJson             // `r.json()` rejected

  /** `fetchJSON(url)`: the body, or `[]` for a TLE URL and `{}` for any other on failure. */
  function FetchJson(url: string, outcome: FetchOutcome): (j: Json)
    ensures outcome.Ok? ==> j == outcome.body
    ensures !outcome.Ok? && JavaText.Contains(url, "/tle/") ==> j == JArray([])
    ensures !outcome.Ok? && !JavaText.Contains(url, "/tle/") ==> j == JObject(map[])
  {
    match outcome
    case Ok(body) => body
    case _ => if JavaText.Contains(url, "/tle/") then JArray([]) else JObject(map[])
  }

  /** `!earthConfig || Object.keys(earthConfig).length === 0`. */
  predicate EmptyConfig(j: Json)
    ensures !EmptyConfig(j) ==> j.JString? || j.JArray? || j.JObject?
  {
    match j
    case JString(s) => |s| == 0                 // a string's keys are its indices
    case JArray(items) => |items| == 0
    case JObject(fields) => |fields| == 0
    case _ => true                              // null, booleans and numbers have no keys
  }

  /** The five configuration slots. */
  datatype ConfigSet = ConfigSet(earth: Json, constants: Json, satellite: Json, scene: Json, controls: Json)

  /** The outcomes of the five fetches of one round, in the order earth, constants, satellite, scene, controls. */
  datatype Fetches = Fetches(earth: FetchOutcome, constants: FetchOutcome, satellite: FetchOutcome,
                             scene: FetchOutcome, controls: FetchOutcome)

  /** One round of `Promise.all([...fetchJSON(configBase + name)])`. */
  function FetchRound(configBase: string, f: Fetches): ConfigSet
  {
    ConfigSet(FetchJson(configBase + "earth.json", f.earth),
              FetchJson(configBase + "constants.json", f.constants),
              FetchJson(configBase + "satellite.json", f.satellite),
              FetchJson(configBase + "scene.json", f.scene),
              FetchJson(configBase + "controls.json", f.controls))
  }

  // ---------------------------------------------------------------------------
  // Defaults
  // ---------------------------------------------------------------------------

  /** WGS84 equatorial radius in km, and the scene radius at 1/1000 scene units per km. */
  const EarthRadiusKm: real := 6378.137
  const EarthSceneRadius: real := EarthRadiusKm * (1.0 / 1000.0)
  const White: real := 16777215.0   // 0xffffff

  /** The text defaults of the earth and satellite configurations. */
  const EarthTexture := "textures/1_earth_16k.jpg"
  const EarthTextureLight := "textures/earthmap1k_light.jpg"
  const SatelliteIcon := "icons/ob_satellite.png"

  function Num3(a: real, b: real, c: real): Json {
    JArray([JNumber(a), JNumber(b), JNumber(c)])
  }

  function DefaultCamera(): Json {
    JObject(map["fov" := JNumber(45.0), "near" := JNumber(0.1), "far" := JNumber(1000.0),
                "position" := Num3(0.0, 0.0, 30.0)])
  }

  function DefaultAmbientLight(): Json {
    JObject(map["color" := JNumber(White), "intensity" := JNumber(0.5)])
  }

  function DefaultDirectionalLight(): Json {
    JObject(map["color" := JNumber(White), "intensity" := JNumber(1.0), "position" := Num3(5.0, 3.0, 5.0)])
  }

  /** The hard-coded configuration used when neither round yields an earth configuration. */
  function HardCoded(): (c: ConfigSet)
    ensures c.earth.JObject? && c.constants.JObject? && c.satellite.JObject? && c.scene.JObject? && c.controls.JObject?
    ensures !EmptyConfig(c.earth)
  {
    ConfigSet(
      JObject(map["diameter" := JNumber(EarthRadiusKm * 2.0),
                  "texture" := JString(EarthTexture),
                  "textureLight" := JString(EarthTextureLight)]),
      JObject(map[]),
      JObject(map["icon" := JString(SatelliteIcon),
                  "scale" := Num3(0.1, 0.1, 0.1),
                  "mercatorIcon" := JString(SatelliteIcon)]),
      JObject(map["camera" := DefaultCamera(), "ambientLight" := DefaultAmbientLight(),
                  "directionalLight" := DefaultDirectionalLight()]),
      JObject(map["enableDamping" := JBool(true), "dampingFactor" := JNumber(0.05)]))
  }

  // ---------------------------------------------------------------------------
  // Default fills
  // ---------------------------------------------------------------------------

  /** `obj.key ||= d` on an object's fields: a missing or falsy field becomes `d`. */
  function FillOr(m: map<string, Json>, key: string, d: Json): (r: map<string, Json>)
    ensures key in m && Truthy(m[key]) ==> r == m
  {
    if key in m && Truthy(m[key]) then m else m[key := d]
  }

  /** `obj.key ??= d`: only a missing (undefined) or null field becomes `d`. */
  function FillNullish(m: map<string, Json>, key: string, d: Json): (r: map<string, Json>)
    ensures key in m && m[key] != JNull ==> r == m
  {
    if key in m && m[key] != JNull then m else m[key := d]
  }

  /** `||=` keeps truthy fields, replaces falsy ones, and leaves every other field alone. */
  lemma FillOrRules(m: map<string, Json>, key: string, d: Json)
    ensures FillOr(m, key, d).Keys == m.Keys + {key}
    ensures key in m && Truthy(m[key]) ==> FillOr(m, key, d) == m
    ensures !(key in m && Truthy(m[key])) ==> FillOr(m, key, d)[key] == d
    ensures forall k :: k in m && k != key ==> FillOr(m, key, d)[k] == m[k]
    ensures Truthy(d) ==> Truthy(FillOr(m, key, d)[key])
  {
  }

  /** `??=` keeps every non-null field, falsy ones included. */
  lemma FillNullishRules(m: map<string, Json>, key: string, d: Json)
    ensures FillNullish(m, key, d).Keys == m.Keys + {key}
    ensures key in m && m[key] != JNull ==> FillNullish(m, key, d) == m
    ensures !(key in m && m[key] != JNull) ==> FillNullish(m, key, d)[key] == d
    ensures forall k :: k in m && k != key ==> FillNullish(m, key, d)[k] == m[k]
  {
  }

  /** Filling twice is filling once, for either operator, when the default survives its own test. */
  lemma FillsIdempotent(m: map<string, Json>, key: string, d: Json)
    ensures Truthy(d) ==> FillOr(FillOr(m, key, d), key, d) == FillOr(m, key, d)
    ensures d != JNull ==> FillNullish(FillNullish(m, key, d), key, d) == FillNullish(m, key, d)
  {
  }

  /** `enableDamping ??= true` keeps an explicit `false` that `||=` would have overwritten. */
  lemma NullishKeepsFalse(m: map<string, Json>)
    requires "enableDamping" in m && m["enableDamping"] == JBool(false)
    ensures FillNullish(m, "enableDamping", JBool(true))["enableDamping"] == JBool(false)
    ensures FillOr(m, "enableDamping", JBool(true))["enableDamping"] == JBool(true)
  {
  }

  /** The two operators differ exactly on present falsy non-null fields. */
  lemma FillsAgreeUnlessFalsy(m: map<string, Json>, key: string, d: Json)
    ensures FillOr(m, key, d) != FillNullish(m, key, d) <==>
      key in m && m[key] != JNull && !Truthy(m[key]) && m[key] != d
  {
    if key in m && m[key] != JNull && !Truthy(m[key]) && m[key] != d {
      assert FillNullish(m, key, d)[key] != FillOr(m, key, d)[key];
    }
  }

  /** The earth fills: diameter, texture and light texture end up truthy, other fields stay. */
  function FilledEarth(m: map<string, Json>): (r: map<string, Json>)
  {
    FillOr(FillOr(FillOr(m, "diameter", JNumber(EarthRadiusKm * 2.0)),
                  "texture", JString(EarthTexture)),
           "textureLight", JString(EarthTextureLight))
  }

  /** The satellite fills: icon, scale and Mercator icon end up truthy, other fields stay. */
  function FilledSatellite(m: map<string, Json>): (r: map<string, Json>)
  {
    FillOr(FillOr(FillOr(m, "icon", JString(SatelliteIcon)), "scale", Num3(0.1, 0.1, 0.1)),
           "mercatorIcon", JString(SatelliteIcon))
  }

  /** The scene fills: camera and both lights end up truthy, other fields stay. */
  function FilledScene(m: map<string, Json>): (r: map<string, Json>)
  {
    FillOr(FillOr(FillOr(m, "camera", DefaultCamera()), "ambientLight", DefaultAmbientLight()),
           "directionalLight", DefaultDirectionalLight())
  }

  /** The controls fills: `enableDamping ??= true`, `dampingFactor ||= 0.05`. */
  function FilledControls(m: map<string, Json>): (r: map<string, Json>)
  {
    FillOr(FillNullish(m, "enableDamping", JBool(true)), "dampingFactor", JNumber(0.05))
  }

  /** `EARTH_SCENE_RADIUS / (earthConfig.diameter / 2)`; `None` when the diameter is not a number. */
  function GlobalScale(earth: Json): (scale: Option<real>)
    ensures (earth.JObject? && "diameter" in earth.fields && earth.fields["diameter"].JNumber? &&
             earth.fields["diameter"].n > 0.0) ==> scale.Some? && scale.value > 0.0
  {
    if earth.JObject? && "diameter" in earth.fields && earth.fields["diameter"].JNumber?
       && earth.fields["diameter"].n != 0.0
    then Some(EarthSceneRadius / (earth.fields["diameter"].n / 2.0))
    else None
  }

  /** The scale is defined exactly for a numeric, non-zero diameter, and it times the radius is EARTH_SCENE_RADIUS. */
  lemma GlobalScaleValue(earth: Json)
    ensures GlobalScale(earth).Some? <==>
      earth.JObject? && "diameter" in earth.fields && earth.fields["diameter"].JNumber? && earth.fields["diameter"].n != 0.0
    ensures GlobalScale(earth).Some? ==>
      GlobalScale(earth).value * (earth.fields["diameter"].n / 2.0) == EarthSceneRadius
  {
    if GlobalScale(earth).Some? {
      var half := earth.fields["diameter"].n / 2.0;
      assert half != 0.0;
      assert (EarthSceneRadius / half) * half == EarthSceneRadius;
    }
  }

  /** The default diameter gives the scene scale of 1/1000 scene units per km. */
  lemma DefaultGlobalScale()
    ensures GlobalScale(HardCoded().earth) == Some(1.0 / 1000.0)
  {
    assert HardCoded().earth.fields["diameter"] == JNumber(EarthRadiusKm * 2.0);
  }

  // ---------------------------------------------------------------------------
  // loadConfigs
  // ---------------------------------------------------------------------------

  /** Where the configuration came from. */
  datatype Source = Remote | Local | BuiltIn

  /** The round the fallback chain settles on. */
  function ChosenSource(remoteBase: string, remote: Fetches, local: Fetches): (src: Source)
    ensures src == Remote <==> !EmptyConfig(FetchRound(remoteBase + "config/", remote).earth)
    ensures src == BuiltIn <==>
      EmptyConfig(FetchRound(remoteBase + "config/", remote).earth) && EmptyConfig(FetchRound("config/", local).earth)
  {
    if !EmptyConfig(FetchRound(remoteBase + "config/", remote).earth) then Remote
    else if !EmptyConfig(FetchRound("config/", local).earth) then Local
    else BuiltIn
  }

  /** The configuration set before the fills. */
  function ChosenConfigs(remoteBase: string, remote: Fetches, local: Fetches): (c: ConfigSet)
  {
    match ChosenSource(remoteBase, remote, local)
    case Remote => FetchRound(remoteBase + "config/", remote)
    case Local => FetchRound("config/", local)
    case BuiltIn => HardCoded()
  }

  /** What `loadConfigs` resolves to, or `Rejected` when a fill throws. */
  datatype LoadResult =
    | Loaded(configBase: string, tleBase: string, satellitesBase: string, globalScale: Option<real>)
    | Rejected

  /** After the earth fills, diameter and both textures are truthy and every truthy field is kept. */
  lemma FilledEarthRules(m: map<string, Json>)
    ensures FilledEarth(m).Keys == m.Keys + {"diameter", "texture", "textureLight"}
    ensures Truthy(FilledEarth(m)["diameter"]) && Truthy(FilledEarth(m)["texture"]) &&
            Truthy(FilledEarth(m)["textureLight"])
    ensures forall k :: k in m && Truthy(m[k]) ==> FilledEarth(m)[k] == m[k]
  {
    var m1 := FillOr(m, "diameter", JNumber(EarthRadiusKm * 2.0));
    var m2 := FillOr(m1, "texture", JString(EarthTexture));
    FillOrRules(m, "diameter", JNumber(EarthRadiusKm * 2.0));
    FillOrRules(m1, "texture", JString(EarthTexture));
    FillOrRules(m2, "textureLight", JString(EarthTextureLight));
  }

  /** After the satellite fills, both icons and the scale are truthy and every truthy field is kept. */
  lemma FilledSatelliteRules(m: map<string, Json>)
    ensures FilledSatellite(m).Keys == m.Keys + {"icon", "scale", "mercatorIcon"}
    ensures Truthy(FilledSatellite(m)["icon"]) && Truthy(FilledSatellite(m)["scale"]) &&
            Truthy(FilledSatellite(m)["mercatorIcon"])
    ensures forall k :: k in m && Truthy(m[k]) ==> FilledSatellite(m)[k] == m[k]
  {
    var m1 := FillOr(m, "icon", JString(SatelliteIcon));
    var m2 := FillOr(m1, "scale", Num3(0.1, 0.1, 0.1));
    FillOrRules(m, "icon", JString(SatelliteIcon));
    FillOrRules(m1, "scale", Num3(0.1, 0.1, 0.1));
    FillOrRules(m2, "mercatorIcon", JString(SatelliteIcon));
  }

  /** After the scene fills, the camera and both lights are truthy and every truthy field is kept. */
  lemma FilledSceneRules(m: map<string, Json>)
    ensures FilledScene(m).Keys == m.Keys + {"camera", "ambientLight", "directionalLight"}
    ensures Truthy(FilledScene(m)["camera"]) && Truthy(FilledScene(m)["ambientLight"]) &&
            Truthy(FilledScene(m)["directionalLight"])
    ensures forall k :: k in m && Truthy(m[k]) ==> FilledScene(m)[k] == m[k]
  {
    var m1 := FillOr(m, "camera", DefaultCamera());
    var m2 := FillOr(m1, "ambientLight", DefaultAmbientLight());
    FillOrRules(m, "camera", DefaultCamera());
    FillOrRules(m1, "ambientLight", DefaultAmbientLight());
    FillOrRules(m2, "directionalLight", DefaultDirectionalLight());
  }

  /** After the controls fills, an explicit `enableDamping` (even `false`) is kept and `dampingFactor` is truthy. */
  lemma FilledControlsRules(m: map<string, Json>)
    ensures FilledControls(m).Keys == m.Keys + {"enableDamping", "dampingFactor"}
    ensures FilledControls(m)["enableDamping"] != JNull && Truthy(FilledControls(m)["dampingFactor"])
    ensures "enableDamping" in m && m["enableDamping"] != JNull ==>
      FilledControls(m)["enableDamping"] == m["enableDamping"]
    ensures forall k :: k in m && Truthy(m[k]) ==> FilledControls(m)[k] == m[k]
  {
    var m1 := FillNullish(m, "enableDamping", JBool(true));
    FillNullishRules(m, "enableDamping", JBool(true));
    FillOrRules(m1, "dampingFactor", JNumber(0.05));
  }

  /** The hard-coded earth configuration survives its fills unchanged. */
  lemma HardCodedEarthIsFilled()
    ensures FilledEarth(HardCoded().earth.fields) == HardCoded().earth.fields
  {
    var m := HardCoded().earth.fields;
    assert Truthy(m["diameter"]) && Truthy(m["texture"]) && Truthy(m["textureLight"]);
  }

  /** The hard-coded controls configuration survives its fills unchanged. */
  lemma HardCodedControlsIsFilled()
    ensures FilledControls(HardCoded().controls.fields) == HardCoded().controls.fields
  {
    var m := HardCoded().controls.fields;
    assert m["enableDamping"] != JNull && Truthy(m["dampingFactor"]);
  }

  /** The module-level state of the loader: the five configurations and the local-assets flag. */
  class ConfigLoader {
    var earthConfig: Json
    var constantsConfig: Json
    var satelliteConfig: Json
    var sceneConfig: Json
    var controlsConfig: Json
    var usingLocalAssets: bool

    constructor ()
      ensures !usingLocalAssets
    {
      earthConfig, constantsConfig, satelliteConfig, sceneConfig, controlsConfig := JNull, JNull, JNull, JNull, JNull;
      usingLocalAssets := false;
    }

    /** Assigns one fetched or hard-coded set to the five slots. */
    method Assign(c: ConfigSet)
      modifies this
      ensures earthConfig == c.earth && constantsConfig == c.constants && satelliteConfig == c.satellite
      ensures sceneConfig == c.scene && controlsConfig == c.controls
      ensures usingLocalAssets == old(usingLocalAssets)
    {
      earthConfig, constantsConfig, satelliteConfig, sceneConfig, controlsConfig :=
        c.earth, c.constants, c.satellite, c.scene, c.controls;
    }

    /**
     * The remote, local, built-in chain of `loadConfigs` (its two `try`
     * blocks): assigns the chosen set and returns the three base URLs.
     */
    method ChooseConfigs(remoteBase: string, remote: Fetches, local: Fetches)
      returns (configBase: string, tleBase: string, satellitesBase: string)
      modifies this
      ensures var src := ChosenSource(remoteBase, remote, local);
        usingLocalAssets == (old(usingLocalAssets) || src != Remote) &&
        (src == Remote ==> configBase == remoteBase + "config/" && tleBase == remoteBase + "json/tle/" &&
                           satellitesBase == remoteBase + "json/satellites/") &&
        (src != Remote ==> configBase == "config/" && tleBase == "json/tle/" && satellitesBase == "json/satellites/")
      ensures var c := ChosenConfigs(remoteBase, remote, local);
        earthConfig == c.earth && constantsConfig == c.constants && satelliteConfig == c.satellite &&
        sceneConfig == c.scene && controlsConfig == c.controls
    {
      configBase := remoteBase + "config/";
      tleBase := remoteBase + "json/tle/";
      satellitesBase := remoteBase + "json/satellites/";
      Assign(FetchRound(configBase, remote));
      if EmptyConfig(earthConfig) {
        usingLocalAssets := true;
        configBase, tleBase, satellitesBase := "config/", "json/tle/", "json/satellites/";
        Assign(FetchRound(configBase, local));
        if EmptyConfig(earthConfig) {
          Assign(HardCoded());
        }
      }
    }

    /** The default fills of `loadConfigs`, field by field in source order; `false` when one throws. */
    method FillDefaults() returns (ok: bool)
      modifies this
      ensures ok <==> old(earthConfig).JObject? && old(satelliteConfig).JObject? &&
                      old(sceneConfig).JObject? && old(controlsConfig).JObject?
      ensures ok ==> earthConfig == JObject(FilledEarth(old(earthConfig).fields)) &&
                     satelliteConfig == JObject(FilledSatellite(old(satelliteConfig).fields)) &&
                     sceneConfig == JObject(FilledScene(old(sceneConfig).fields)) &&
                     controlsConfig == JObject(FilledControls(old(controlsConfig).fields))
      ensures constantsConfig == old(constantsConfig) && usingLocalAssets == old(usingLocalAssets)
    {
      if !earthConfig.JObject? { return false; }
      earthConfig := JObject(FilledEarth(earthConfig.fields));
      if !satelliteConfig.JObject? { return false; }
      satelliteConfig := JObject(FilledSatellite(satelliteConfig.fields));
      if !sceneConfig.JObject? { return false; }
      sceneConfig := JObject(FilledScene(sceneConfig.fields));
      if !controlsConfig.JObject? { return false; }
      controlsConfig := JObject(FilledControls(controlsConfig.fields));
      ok := true;
    }

    /**
     * `loadConfigs(remoteBase)` with the outcomes of the remote and of the
     * local fetches as inputs.  The local flag is only ever switched on.
     */
    method LoadConfigs(remoteBase: string, remote: Fetches, local: Fetches) returns (r: LoadResult)
      modifies this
      ensures var src := ChosenSource(remoteBase, remote, local);
        usingLocalAssets == (old(usingLocalAssets) || src != Remote)
      ensures var c := ChosenConfigs(remoteBase, remote, local);
        (r.Loaded? <==> c.earth.JObject? && c.satellite.JObject? && c.scene.JObject? && c.controls.JObject?) &&
        (r.Loaded? ==>
          earthConfig == JObject(FilledEarth(c.earth.fields)) && constantsConfig == c.constants &&
          satelliteConfig == JObject(FilledSatellite(c.satellite.fields)) &&
          sceneConfig == JObject(FilledScene(c.scene.fields)) &&
          controlsConfig == JObject(FilledControls(c.controls.fields)) &&
          r.globalScale == GlobalScale(earthConfig))
      ensures r.Loaded? && ChosenSource(remoteBase, remote, local) == Remote ==>
        r.configBase == remoteBase + "config/" && r.tleBase == remoteBase + "json/tle/" &&
        r.satellitesBase == remoteBase + "json/satellites/"
      ensures r.Loaded? && ChosenSource(remoteBase, remote, local) != Remote ==>
        r.configBase == "config/" && r.tleBase == "json/tle/" && r.satellitesBase == "json/satellites/"
    {
      var configBase, tleBase, satellitesBase := ChooseConfigs(remoteBase, remote, local);
      var ok := FillDefaults();
      if !ok { return Rejected; }
      r := Loaded(configBase, tleBase, satellitesBase, GlobalScale(earthConfig));
    }
  }
}
