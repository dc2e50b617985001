/**
 * The unit setting (glupredkit/config_manager.py): whether glucose values
 * are shown in mg/dL or converted to mmol/L. The settings file is the
 * `config` dictionary; writing it back to disk is left out.
 */
module UnitConfig {
  import opened JsonValues

  const UseMgdlKey: string := "use_mgdl"

  /** mg/dL per mmol/L, as the source writes it. */
  const MgdlPerMmol: real := 18.018

  /** `config.get('use_mgdl', True)`: the stored value, or true when the key is absent. */
  function UseMgdlOf(config: map<string, Json>): (r: Json)
    ensures UseMgdlKey in config ==> r == config[UseMgdlKey]
    ensures UseMgdlKey !in config ==> r == JBool(true)
  {
    if UseMgdlKey in config then config[UseMgdlKey] else JBool(true)
  }

  /** A value in mg/dL expressed in the unit the setting selects. */
  function ConvertOf(config: map<string, Json>, value: real): (r: real)
    ensures Truthy(UseMgdlOf(config)) ==> r == value
    ensures !Truthy(UseMgdlOf(config)) ==> r * MgdlPerMmol == value
  {
    if !Truthy(UseMgdlOf(config)) then value / MgdlPerMmol else value
  }

  /** Setting the flag and reading it back gives the value set; converting then follows it; other keys keep their values. */
  lemma SetThenRead(config: map<string, Json>, value: Json, x: real)
    ensures UseMgdlOf(config[UseMgdlKey := value]) == value
    ensures Truthy(value) ==> ConvertOf(config[UseMgdlKey := value], x) == x
    ensures !Truthy(value) ==> ConvertOf(config[UseMgdlKey := value], x) * MgdlPerMmol == x
    ensures forall k :: k in config && k != UseMgdlKey ==> config[UseMgdlKey := value][k] == config[k]
  {
  }

  /** A fresh installation, without the key, shows mg/dL unchanged. */
  lemma DefaultIsMgdl(config: map<string, Json>, x: real)
    requires UseMgdlKey !in config
    ensures ConvertOf(config, x) == x
  {
  }

  class ConfigManager {
    var config: map<string, Json>

    /** The dictionary decoded from the settings file. */
    constructor (loaded: map<string, Json>)
      ensures config == loaded
    {
      config := loaded;
    }

    /** The `use_mgdl` property. */
    function UseMgdl(): (r: Json)
      reads this
      ensures r == UseMgdlOf(config)
    {
      UseMgdlOf(config)
    }

    /** The `use_mgdl` setter: only that key changes. */
    method SetUseMgdl(value: Json)
      modifies this
      ensures config == old(config)[UseMgdlKey := value]
      ensures UseMgdl() == value
    {
      config := config[UseMgdlKey := value];
    }

    /** `convert_value`: unchanged in mg/dL, divided by 18.018 otherwise. */
    function ConvertValue(value: real): (r: real)
      reads this
      ensures Truthy(UseMgdl()) ==> r == value
      ensures !Truthy(UseMgdl()) ==> r * MgdlPerMmol == value
    {
      ConvertOf(config, value)
    }
  }
}
