/** The registry of model names and the parameter keys each one requires. */
module ModelRegistry {
  import opened Common
  import opened Context
  import opened RateModels
  import opened VolatilityModels
  import opened AssetPriceModels

  /** initialize(): writes the nine registry entries over whatever `m` holds. */
  function Register(m: map<string, seq<string>>): map<string, seq<string>>
  {
    m["ConstantRateModel" := ["rate"]]
     ["HullWhiteModel" := ["rate", "a_HWM", "sigma_HWM", "dt"]]
     ["GeometricBrownianMotionModel" := ["spot", "dt"]]
     ["JumpDiffusionPriceModel" := ["spot", "dt", "jumpVol_JDPM", "jumpMean_JDPM"]]
     ["ConstantVolatilityModel" := ["volatility"]]
     ["HestonModel" := ["volatility", "kappa_HM", "theta_HM", "xi_HM", "rho_HM", "dt"]]
     ["SABRModel" := ["alpha_SABRM", "beta_SABRM", "rho_SABRM", "nu_SABRM", "dt"]]
     ["GARCHModel" := ["alpha0_GARCHM", "alpha1_GARCHM", "beta_GARCHM", "volatility", "dt"]]
     ["JumpDiffusionModel" := ["volatility", "jumpMean_JDM", "jumpVol_JDM", "dt"]]
  }

  /** The registry as the constructor leaves it. */
  function Registry(): map<string, seq<string>>
  {
    Register(map[])
  }

  /** The required keys absent from a store, in registry order. */
  function Missing(required: seq<string>, data: Store): seq<string>
  {
    if required == [] then []
    else
      var k := required[|required| - 1];
      Missing(required[..|required| - 1], data) + (if k in data then [] else [k])
  }

  /** A key is reported exactly when it is required and absent. */
  lemma {:induction false} MissingIsExactlyTheAbsentKeys(required: seq<string>, data: Store, k: string)
    ensures k in Missing(required, data) <==> k in required && k !in data
    decreases |required|
  {
    if required != [] {
      var init := required[..|required| - 1];
      MissingIsExactlyTheAbsentKeys(init, data, k);
      assert required == init + [required[|required| - 1]];
    }
  }

  /** The report is empty exactly when every required key is present, and never
      longer than the requirement list. */
  lemma {:induction false} MissingEmptyIffAllPresent(required: seq<string>, data: Store)
    ensures Missing(required, data) == [] <==> forall i :: 0 <= i < |required| ==> required[i] in data
    ensures |Missing(required, data)| <= |required|
    decreases |required|
  {
    if required != [] {
      var init := required[..|required| - 1];
      MissingEmptyIffAllPresent(init, data);
      assert forall i :: 0 <= i < |init| ==> init[i] == required[i];
    }
  }

  class ModelParams {
    var modelParams: map<string, seq<string>>

    /** ModelParams(): runs initialize(). */
    constructor ()
      ensures modelParams == Registry()
    {
      modelParams := map[];
      new;
      Initialize();
    }

    /** initialize(): (re)writes the nine registry entries. */
    method Initialize()
      modifies this
      ensures modelParams == Register(old(modelParams))
    {
      modelParams := modelParams["ConstantRateModel" := ["rate"]];
      modelParams := modelParams["HullWhiteModel" := ["rate", "a_HWM", "sigma_HWM", "dt"]];
      modelParams := modelParams["GeometricBrownianMotionModel" := ["spot", "dt"]];
      modelParams := modelParams["JumpDiffusionPriceModel" := ["spot", "dt", "jumpVol_JDPM", "jumpMean_JDPM"]];
      modelParams := modelParams["ConstantVolatilityModel" := ["volatility"]];
      modelParams := modelParams["HestonModel" := ["volatility", "kappa_HM", "theta_HM", "xi_HM", "rho_HM", "dt"]];
      modelParams := modelParams["SABRModel" := ["alpha_SABRM", "beta_SABRM", "rho_SABRM", "nu_SABRM", "dt"]];
      modelParams := modelParams["GARCHModel" := ["alpha0_GARCHM", "alpha1_GARCHM", "beta_GARCHM", "volatility", "dt"]];
      modelParams := modelParams["JumpDiffusionModel" := ["volatility", "jumpMean_JDM", "jumpVol_JDM", "dt"]];
    }

    /** getAvailableModels(): every registered name exactly once, in the map's
        (unspecified) iteration order. */
    method GetAvailableModels() returns (models: seq<string>)
      ensures forall k :: k in models <==> k in modelParams
      ensures forall i, j :: 0 <= i < j < |models| ==> models[i] != models[j]
      ensures |models| == |modelParams.Keys|
    {
      models := [];
      var remaining := modelParams.Keys;
      while remaining != {}
        invariant remaining <= modelParams.Keys
        invariant forall k :: k in modelParams <==> k in remaining || k in models
        invariant forall k :: k in remaining ==> k !in models
        invariant forall i, j :: 0 <= i < j < |models| ==> models[i] != models[j]
        invariant |models| + |remaining| == |modelParams.Keys|
        decreases |remaining|
      {
        var k :| k in remaining;
        models := models + [k];
        remaining := remaining - {k};
      }
    }

    /** getModelParams(name): the stored list, or "Model not found: <name>". */
    function GetModelParams(name: string): (r: Result<seq<string>>)
      reads this
      ensures r.Ok? <==> name in modelParams
      ensures r.Ok? ==> r.value == modelParams[name]
      ensures r.Err? ==> r.error == ModelNotFound(name) && Message(r.error) == "Model not found: " + name
    {
      if name !in modelParams then Err(ModelNotFound(name)) else Ok(modelParams[name])
    }

    /** checkParams(name, params): the required keys that params does not contain,
        in registry order; reads params and changes nothing. */
    method CheckParams(name: string, params: Parameters) returns (r: Result<seq<string>>)
      ensures r.Err? <==> name !in modelParams
      ensures r.Err? ==> r.error == ModelNotFound(name)
      ensures r.Ok? ==> r.value == Missing(modelParams[name], params.data)
    {
      var requiredParams :- GetModelParams(name);
      var missingParams: seq<string> := [];
      for i := 0 to |requiredParams|
        invariant missingParams == Missing(requiredParams[..i], params.data)
      {
        assert requiredParams[..i + 1][..i] == requiredParams[..i];
        if !params.Contains(requiredParams[i]) {
          missingParams := missingParams + [requiredParams[i]];
        }
      }
      assert requiredParams[..|requiredParams|] == requiredParams;
      r := Ok(missingParams);
    }
  }

  /** After construction the registry holds exactly nine names. */
  lemma RegistryHasNineModels()
    ensures |Registry().Keys| == 9
    ensures "HestonModel" in Registry() && "BlackScholesModel" !in Registry()
  {
  }

  /** The keys each model's constructor reads, by registry name. */
  function ConstructorKeys(name: string): seq<string>
  {
    match name
    case "HullWhiteModel" => HullWhiteKeys
    case "GeometricBrownianMotionModel" => GBMKeys
    case "JumpDiffusionPriceModel" => JumpDiffusionPriceKeys
    case "HestonModel" => HestonKeys
    case "SABRModel" => SABRKeys
    case "GARCHModel" => GARCHKeys
    case "JumpDiffusionModel" => JumpDiffusionVolKeys
    case _ => []
  }

  /** For every registered model except the jump-diffusion price model, each key its
      constructor reads is on its registry list: an empty report then means the
      constructor finds all its keys. */
  lemma {:induction false} RegistryCoversConstructors(name: string, data: Store)
    requires name in Registry() && name != "JumpDiffusionPriceModel"
    requires Missing(Registry()[name], data) == []
    ensures forall i :: 0 <= i < |ConstructorKeys(name)| ==> ConstructorKeys(name)[i] in data
  {
    MissingEmptyIffAllPresent(Registry()[name], data);
    forall i | 0 <= i < |ConstructorKeys(name)|
      ensures ConstructorKeys(name)[i] in data
    {
      var k := ConstructorKeys(name)[i];
      assert k in Registry()[name];
    }
  }

  /** A store holding every key the jump-diffusion price entry lists, and nothing else. */
  function JumpDiffusionPriceListedOnly(): Store
  {
    map["spot" := RealValue(100.0), "dt" := RealValue(0.01),
        "jumpVol_JDPM" := RealValue(0.1), "jumpMean_JDPM" := RealValue(0.0)]
  }

  /** The jump-diffusion price entry omits jumpIntensity_JDPM and jumpSize_JDPM:
      a store holding only the keys it lists passes the check. */
  lemma JumpDiffusionPriceRegistryGap()
    ensures Missing(Registry()["JumpDiffusionPriceModel"], JumpDiffusionPriceListedOnly()) == []
  {
    var entry := Registry()["JumpDiffusionPriceModel"];
    assert entry == ["spot", "dt", "jumpVol_JDPM", "jumpMean_JDPM"];
    MissingEmptyIffAllPresent(entry, JumpDiffusionPriceListedOnly());
  }

  /** ... and the constructor then throws on the first unlisted key it reads. */
  lemma JumpDiffusionPriceThrowsOnListedOnly()
    ensures NewJumpDiffusionPrice(JumpDiffusionPriceListedOnly()) == Err(KeyNotFound("jumpIntensity_JDPM"))
  {
    var data := JumpDiffusionPriceListedOnly();
    var keys := JumpDiffusionPriceKeys;
    assert HasReal(data, keys[0]) && HasReal(data, keys[1]) && HasReal(data, keys[2]) && keys[3] !in data;
    var e := NewJumpDiffusionPrice(data).error;
    var i :| FirstFailureAt(data, keys, i) && GetReal(data, keys[i]) == Err(e);
    assert i == 3;
  }

  /** The check on a freshly constructed registry reports an unknown model name. */
  method CheckUnknownModel(params: Parameters) returns (r: Result<seq<string>>)
    ensures r == Err(ModelNotFound("BlackScholesModel"))
  {
    var registry := new ModelParams();
    RegistryHasNineModels();
    r := registry.CheckParams("BlackScholesModel", params);
  }
}
