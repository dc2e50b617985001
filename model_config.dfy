/**
 * Model configuration files (glupredkit/helpers/model_config_manager.py): the
 * record `generate_model_configuration` writes, the schema
 * `ModelConfigurationManager` checks it against, and the getters. The file
 * system is a map from paths to decoded JSON objects.
 */
module ModelConfig {
  import opened Common
  import opened JsonValues

  type Config = map<string, Json>

  /** The schema, in the order `validate_config` walks it. */
  const Schema: seq<(string, PyType)> := [
    ("data", StrType),
    ("subject_ids", ListType),
    ("preprocessor", StrType),
    ("prediction_horizon", IntType),
    ("num_lagged_features", IntType),
    ("num_features", ListType),
    ("cat_features", ListType),
    ("what_if_features", ListType)
  ]

  datatype ConfigError =
    | MissingKey(key: string)                          // "Missing key '…' in the config file."
    | InvalidType(key: string, expected: PyType)       // "Invalid value type for '…' …"
    | PreprocessorNotFound(preprocessor: string)       // "Preprocessor '…' not found …"
    | FileNotFound(path: string)                       // "Config file '…' not found."

  /** What is wrong with one schema entry, checked presence first, then type. */
  function Violation(config: Config, entry: (string, PyType)): Option<ConfigError> {
    if entry.0 !in config then Some(MissingKey(entry.0))
    else if !IsInstance(config[entry.0], entry.1) then Some(InvalidType(entry.0, entry.1))
    else None
  }

  /** Every schema key is present with a value of its type; other keys are not looked at. */
  predicate Conforms(config: Config, schema: seq<(string, PyType)>) {
    forall k :: 0 <= k < |schema| ==> Violation(config, schema[k]).None?
  }

  /**
   * The error `validate_config` raises: none exactly when the configuration
   * conforms, otherwise the violation of the first schema entry that fails,
   * every earlier entry being fine.
   */
  function FirstViolation(config: Config, schema: seq<(string, PyType)>): (r: Option<ConfigError>)
    ensures r.None? <==> Conforms(config, schema)
    ensures r.Some? ==> exists k :: 0 <= k < |schema| && Conforms(config, schema[..k]) && Violation(config, schema[k]) == r
  {
    if |schema| == 0 then None
    else if Violation(config, schema[0]).Some? then
      assert Conforms(config, schema[..0]);
      Violation(config, schema[0])
    else
      var r := FirstViolation(config, schema[1..]);
      if r.Some? then
        var k :| 0 <= k < |schema| - 1 && Conforms(config, schema[1..][..k]) && Violation(config, schema[1..][k]) == r;
        assert schema[..k + 1] == [schema[0]] + schema[1..][..k];
        assert Conforms(config, schema[..k + 1]);
        r
      else
        assert forall k :: 1 <= k < |schema| ==> schema[k] == schema[1..][k - 1];
        r
  }

  /** `validate_config`: walks the schema in order and stops at the first violation. */
  method ValidateConfig(config: Config) returns (r: Option<ConfigError>)
    ensures r == FirstViolation(config, Schema)
  {
    for i := 0 to |Schema|
      invariant FirstViolation(config, Schema) == FirstViolation(config, Schema[i..])
    {
      var (key, valueType) := Schema[i];
      assert Schema[i..][1..] == Schema[i + 1..];
      if key !in config {
        return Some(MissingKey(key));
      }
      if !IsInstance(config[key], valueType) {
        return Some(InvalidType(key, valueType));
      }
    }
    return None;
  }

  /** Configurations that agree on the schema keys validate alike: extra keys are allowed and ignored. */
  lemma {:induction false} ExtraKeysIgnored(c1: Config, c2: Config, schema: seq<(string, PyType)>)
    requires forall k :: 0 <= k < |schema| ==>
      (schema[k].0 in c1 <==> schema[k].0 in c2) && (schema[k].0 in c1 ==> c1[schema[k].0] == c2[schema[k].0])
    ensures FirstViolation(c1, schema) == FirstViolation(c2, schema)
  {
    if |schema| > 0 {
      assert Violation(c1, schema[0]) == Violation(c2, schema[0]);
      ExtraKeysIgnored(c1, c2, schema[1..]);
    }
  }

  // ---------------------------------------------------------------------------
  // Generating a configuration

  const Cgm: Json := JStr("CGM")

  /** The numerical features after the "CGM is required" rule. */
  function WithCgm(items: seq<Json>): seq<Json> {
    if Cgm in items then items else items + [Cgm]
  }

  /** The rule adds "CGM" at most once, at the end, and leaves a list that has it alone. */
  lemma WithCgmFacts(items: seq<Json>)
    ensures Cgm in WithCgm(items)
    ensures WithCgm(WithCgm(items)) == WithCgm(items)
    ensures Cgm in items ==> WithCgm(items) == items
    ensures Cgm !in items ==> WithCgm(items) == items + [Cgm] && Cgm !in WithCgm(items)[..|items|]
  {
    if Cgm !in items {
      assert (items + [Cgm])[..|items|] == items;
    }
  }

  /** The caller's `num_features` list, which `generate_model_configuration` extends in place. */
  class FeatureList {
    var items: seq<Json>

    constructor (items: seq<Json>)
      ensures this.items == items
    {
      this.items := items;
    }
  }

  /** `data/configurations/<name>.json` */
  function ConfigPath(name: string): string {
    "data/configurations/" + name + ".json"
  }

  /** The dictionary `generate_model_configuration` saves. */
  function GeneratedConfig(data: string, subjectIds: Json, preprocessor: string, predictionHorizon: Json,
                           numLaggedFeatures: Json, numFeatures: seq<Json>, catFeatures: Json, whatIfFeatures: Json): Config
  {
    map[
      "data" := JStr(data + ".csv"),
      "subject_ids" := subjectIds,
      "preprocessor" := JStr(preprocessor),
      "prediction_horizon" := predictionHorizon,
      "num_lagged_features" := numLaggedFeatures,
      "num_features" := JList(numFeatures),
      "cat_features" := catFeatures,
      "what_if_features" := whatIfFeatures
    ]
  }

  /**
   * `generate_model_configuration`: adds "CGM" to the caller's feature list
   * when missing (before anything can fail), rejects an unknown
   * preprocessor, and otherwise yields the path and the record to write.
   * Whether the preprocessor module exists is an input.
   */
  method GenerateModelConfiguration(fileName: string, data: string, subjectIds: Json, preprocessor: string,
                                    predictionHorizon: Json, numLaggedFeatures: Json, numFeatures: FeatureList,
                                    catFeatures: Json, whatIfFeatures: Json, preprocessorFound: bool)
    returns (r: Result<(string, Config), ConfigError>)
    modifies numFeatures
    ensures numFeatures.items == WithCgm(old(numFeatures.items))
    ensures !preprocessorFound ==> r == Err(PreprocessorNotFound(preprocessor))
    ensures preprocessorFound ==> r == Ok((ConfigPath(fileName),
      GeneratedConfig(data, subjectIds, preprocessor, predictionHorizon, numLaggedFeatures,
                      numFeatures.items, catFeatures, whatIfFeatures)))
  {
    if Cgm !in numFeatures.items {
      numFeatures.items := numFeatures.items + [Cgm];
    }
    if !preprocessorFound {
      return Err(PreprocessorNotFound(preprocessor));
    }
    var config := GeneratedConfig(data, subjectIds, preprocessor, predictionHorizon, numLaggedFeatures,
                                  numFeatures.items, catFeatures, whatIfFeatures);
    return Ok((ConfigPath(fileName), config));
  }

  /** A generated record passes validation exactly when the caller passed lists and integers where the schema wants them. */
  lemma GeneratedConforms(data: string, subjectIds: Json, preprocessor: string, predictionHorizon: Json,
                          numLaggedFeatures: Json, numFeatures: seq<Json>, catFeatures: Json, whatIfFeatures: Json)
    ensures Conforms(GeneratedConfig(data, subjectIds, preprocessor, predictionHorizon, numLaggedFeatures,
                                     numFeatures, catFeatures, whatIfFeatures), Schema)
        <==> IsInstance(subjectIds, ListType) && IsInstance(predictionHorizon, IntType)
             && IsInstance(numLaggedFeatures, IntType) && IsInstance(catFeatures, ListType)
             && IsInstance(whatIfFeatures, ListType)
  {
    var c := GeneratedConfig(data, subjectIds, preprocessor, predictionHorizon, numLaggedFeatures,
                             numFeatures, catFeatures, whatIfFeatures);
    if Conforms(c, Schema) {
      assert Violation(c, Schema[1]).None? && Violation(c, Schema[3]).None? && Violation(c, Schema[4]).None?;
      assert Violation(c, Schema[6]).None? && Violation(c, Schema[7]).None?;
    }
  }

  // ---------------------------------------------------------------------------
  // Loading and reading a configuration

  /** A loaded `ModelConfigurationManager`. */
  datatype Manager = Manager(configFile: string, config: Config)

  /** The constructor: opens `data/configurations/<name>.json` and validates it. */
  function Load(configFile: string, files: map<string, Config>): (r: Result<Manager, ConfigError>)
    ensures ConfigPath(configFile) !in files ==> r == Err(FileNotFound(ConfigPath(configFile)))
    ensures r.Ok? ==> r.value.configFile == ConfigPath(configFile) && r.value.config == files[ConfigPath(configFile)]
    ensures r.Ok? ==> Conforms(r.value.config, Schema)
    ensures ConfigPath(configFile) in files && Conforms(files[ConfigPath(configFile)], Schema) ==> r.Ok?
  {
    var path := ConfigPath(configFile);
    if path !in files then Err(FileNotFound(path))
    else match FirstViolation(files[path], Schema)
      case Some(e) => Err(e)
      case None => Ok(Manager(path, files[path]))
  }

  function GetData(m: Manager): (r: Json)
    requires "data" in m.config
    ensures Conforms(m.config, Schema) ==> r.JStr?
  {
    assert Schema[0] == ("data", StrType);
    m.config["data"]
  }

  function GetSubjectIds(m: Manager): (r: Json)
    requires "subject_ids" in m.config
    ensures Conforms(m.config, Schema) ==> r.JList?
  {
    assert Schema[1] == ("subject_ids", ListType);
    m.config["subject_ids"]
  }

  function GetPreprocessor(m: Manager): (r: Json)
    requires "preprocessor" in m.config
    ensures Conforms(m.config, Schema) ==> r.JStr?
  {
    assert Schema[2] == ("preprocessor", StrType);
    m.config["preprocessor"]
  }

  function GetPredictionHorizon(m: Manager): (r: Json)
    requires "prediction_horizon" in m.config
    ensures Conforms(m.config, Schema) ==> r.JInt? || r.JBool?
  {
    assert Schema[3] == ("prediction_horizon", IntType);
    m.config["prediction_horizon"]
  }

  function GetNumLaggedFeatures(m: Manager): (r: Json)
    requires "num_lagged_features" in m.config
    ensures Conforms(m.config, Schema) ==> r.JInt? || r.JBool?
  {
    assert Schema[4] == ("num_lagged_features", IntType);
    m.config["num_lagged_features"]
  }

  function GetNumFeatures(m: Manager): (r: Json)
    requires "num_features" in m.config
    ensures Conforms(m.config, Schema) ==> r.JList?
  {
    assert Schema[5] == ("num_features", ListType);
    m.config["num_features"]
  }

  function GetCatFeatures(m: Manager): (r: Json)
    requires "cat_features" in m.config
    ensures Conforms(m.config, Schema) ==> r.JList?
  {
    assert Schema[6] == ("cat_features", ListType);
    m.config["cat_features"]
  }

  function GetWhatIfFeatures(m: Manager): (r: Json)
    requires "what_if_features" in m.config
    ensures Conforms(m.config, Schema) ==> r.JList?
  {
    assert Schema[7] == ("what_if_features", ListType);
    m.config["what_if_features"]
  }

  /**
   * Writing a generated record and loading it by the same name gives a
   * manager whose getters return what was generated: the data file with its
   * ".csv" suffix, and every other field unchanged.
   */
  lemma GenerateThenLoad(files: map<string, Config>, fileName: string, data: string, subjectIds: Json,
                         preprocessor: string, predictionHorizon: Json, numLaggedFeatures: Json,
                         numFeatures: seq<Json>, catFeatures: Json, whatIfFeatures: Json)
    requires IsInstance(subjectIds, ListType) && IsInstance(predictionHorizon, IntType)
    requires IsInstance(numLaggedFeatures, IntType) && IsInstance(catFeatures, ListType) && IsInstance(whatIfFeatures, ListType)
    ensures var written := files[ConfigPath(fileName) := GeneratedConfig(data, subjectIds, preprocessor, predictionHorizon,
                                                                          numLaggedFeatures, numFeatures, catFeatures, whatIfFeatures)];
      var r := Load(fileName, written);
      && r.Ok?
      && GetData(r.value) == JStr(data + ".csv")
      && GetSubjectIds(r.value) == subjectIds
      && GetPreprocessor(r.value) == JStr(preprocessor)
      && GetPredictionHorizon(r.value) == predictionHorizon
      && GetNumLaggedFeatures(r.value) == numLaggedFeatures
      && GetNumFeatures(r.value) == JList(numFeatures)
      && GetCatFeatures(r.value) == catFeatures
      && GetWhatIfFeatures(r.value) == whatIfFeatures
  {
    GeneratedConforms(data, subjectIds, preprocessor, predictionHorizon, numLaggedFeatures, numFeatures,
                      catFeatures, whatIfFeatures);
  }
}
