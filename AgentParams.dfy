/**
 * The adapter that fills an agent's constructor arguments for whichever ADK
 * version is installed: the instruction key, and the generation parameters
 * either as direct fields or folded into a `generate_content_config`.
 *
 * The installed library is an input: the agent class's field set (`None` when it
 * cannot be read), and whether the config library is present and accepts a given
 * config.
 */
module AgentParams {
  import opened Wrappers

  /** A constructor argument. */
  datatype ParamValue =
    | Text(s: string)
    | Number(x: real)
    | Count(n: int)
    | GenerateConfig(temperature: Option<real>, maxOutputTokens: Option<int>)
    | Opaque

  type Params = map<string, ParamValue>

  /** The config library: whether it is importable, and whether building a given config succeeds. */
  datatype Genai = Genai(available: bool, constructs: ParamValue -> bool)

  const TemperatureKey := "temperature"
  const MaxTokensKey := "max_output_tokens"
  const ConfigKey := "generate_content_config"

  /** `llm_agent_supports_field(name)`: every field counts as supported when the field set is unknown. */
  function SupportsField(fields: Option<set<string>>, name: string): (r: bool)
    ensures fields.None? ==> r
    ensures fields.Some? ==> (r <==> name in fields.value)
  {
    fields.None? || name in fields.value
  }

  /** The key `set_instruction_param` writes. */
  function InstructionKey(fields: Option<set<string>>): (k: string)
    ensures k == "instructions" <==> SupportsField(fields, "instructions")
    ensures k == "instruction" <==> !SupportsField(fields, "instructions")
  {
    if SupportsField(fields, "instructions") then "instructions" else "instruction"
  }

  /** The parameters after `set_instruction_param`: one key added or replaced, the rest unchanged. */
  function WithInstruction(params: Params, fields: Option<set<string>>, instructions: string): (r: Params)
    ensures r.Keys == params.Keys + {InstructionKey(fields)}
    ensures r[InstructionKey(fields)] == Text(instructions)
    ensures forall k :: k in params && k != InstructionKey(fields) ==> r[k] == params[k]
  {
    params[InstructionKey(fields) := Text(instructions)]
  }

  /** `_build_generate_content_config(**kwargs)`: `None` without arguments, without the library, or when construction raises. */
  function BuildConfig(temperature: Option<real>, maxTokens: Option<int>, genai: Genai): (r: Option<ParamValue>)
    ensures r.Some? <==> (temperature.Some? || maxTokens.Some?) && genai.available && genai.constructs(GenerateConfig(temperature, maxTokens))
    ensures r.Some? ==> r.value == GenerateConfig(temperature, maxTokens)
  {
    if (temperature.None? && maxTokens.None?) || !genai.available then None
    else if genai.constructs(GenerateConfig(temperature, maxTokens)) then Some(GenerateConfig(temperature, maxTokens))
    else None
  }

  /** A supplied parameter that has no field of its own. */
  predicate Missing<T>(value: Option<T>, fields: Option<set<string>>, key: string)
  {
    value.Some? && !SupportsField(fields, key)
  }

  /** The parameters after `apply_generation_params(params, temperature=..., max_output_tokens=...)`. */
  function WithGeneration(params: Params, fields: Option<set<string>>, temperature: Option<real>, maxTokens: Option<int>, genai: Genai): Params
  {
    if temperature.None? && maxTokens.None? then params
    else
      var p1 := if SupportsField(fields, TemperatureKey) && temperature.Some? then params[TemperatureKey := Number(temperature.value)] else params;
      var p2 := if SupportsField(fields, MaxTokensKey) && maxTokens.Some? then p1[MaxTokensKey := Count(maxTokens.value)] else p1;
      var missingTemp := Missing(temperature, fields, TemperatureKey);
      var missingMax := Missing(maxTokens, fields, MaxTokensKey);
      if !SupportsField(fields, ConfigKey) || (!missingTemp && !missingMax) then p2
      else
        var config := BuildConfig(if missingTemp then temperature else None, if missingMax then maxTokens else None, genai);
        if config.Some? then p2[ConfigKey := config.value] else p2
  }

  /** With neither parameter supplied nothing changes. */
  lemma NoGenerationParams(params: Params, fields: Option<set<string>>, genai: Genai)
    ensures WithGeneration(params, fields, None, None, genai) == params
  {
  }

  /** A supplied parameter is written under its own key exactly when that field is supported; otherwise the key is untouched. */
  lemma DirectFieldsWritten(params: Params, fields: Option<set<string>>, temperature: Option<real>, maxTokens: Option<int>, genai: Genai)
    ensures var r := WithGeneration(params, fields, temperature, maxTokens, genai);
      temperature.Some? && SupportsField(fields, TemperatureKey) ==> TemperatureKey in r && r[TemperatureKey] == Number(temperature.value)
    ensures var r := WithGeneration(params, fields, temperature, maxTokens, genai);
      maxTokens.Some? && SupportsField(fields, MaxTokensKey) ==> MaxTokensKey in r && r[MaxTokensKey] == Count(maxTokens.value)
    ensures var r := WithGeneration(params, fields, temperature, maxTokens, genai);
      !(temperature.Some? && SupportsField(fields, TemperatureKey)) ==> (TemperatureKey in r <==> TemperatureKey in params) && (TemperatureKey in r ==> r[TemperatureKey] == params[TemperatureKey])
    ensures var r := WithGeneration(params, fields, temperature, maxTokens, genai);
      !(maxTokens.Some? && SupportsField(fields, MaxTokensKey)) ==> (MaxTokensKey in r <==> MaxTokensKey in params) && (MaxTokensKey in r ==> r[MaxTokensKey] == params[MaxTokensKey])
  {
  }

  /**
   * The config key changes only when that field is supported and some supplied
   * parameter lacks its own field, and the library builds the config; the config
   * then carries exactly the missing parameters.
   */
  lemma ConfigOnlyForMissing(params: Params, fields: Option<set<string>>, temperature: Option<real>, maxTokens: Option<int>, genai: Genai)
    ensures var r := WithGeneration(params, fields, temperature, maxTokens, genai);
      var missingTemp := Missing(temperature, fields, TemperatureKey);
      var missingMax := Missing(maxTokens, fields, MaxTokensKey);
      var config := GenerateConfig(if missingTemp then temperature else None, if missingMax then maxTokens else None);
      var added := SupportsField(fields, ConfigKey) && (missingTemp || missingMax) && genai.available && genai.constructs(config);
      && (added ==> ConfigKey in r && r[ConfigKey] == config)
      && (!added ==> (ConfigKey in r <==> ConfigKey in params) && (ConfigKey in r ==> r[ConfigKey] == params[ConfigKey]))
  {
  }

  /** No key other than the three generation keys is touched. */
  lemma OtherParamsUnchanged(params: Params, fields: Option<set<string>>, temperature: Option<real>, maxTokens: Option<int>, genai: Genai, k: string)
    requires k != TemperatureKey && k != MaxTokensKey && k != ConfigKey
    ensures var r := WithGeneration(params, fields, temperature, maxTokens, genai);
      (k in r <==> k in params) && (k in r ==> r[k] == params[k])
  {
  }

  /** The caller's keyword-argument dictionary, which both helpers write into. */
  class ParamDict {
    var entries: Params

    constructor(entries: Params)
      ensures this.entries == entries
    {
      this.entries := entries;
    }

    /** `set_instruction_param(params, instructions)`. */
    method SetInstructionParam(fields: Option<set<string>>, instructions: string)
      modifies this
      ensures entries == WithInstruction(old(entries), fields, instructions)
    {
      if SupportsField(fields, "instructions") {
        entries := entries["instructions" := Text(instructions)];
      } else {
        entries := entries["instruction" := Text(instructions)];
      }
    }

    /** `apply_generation_params(params, temperature=..., max_output_tokens=...)`. */
    method ApplyGenerationParams(fields: Option<set<string>>, temperature: Option<real>, maxTokens: Option<int>, genai: Genai)
      modifies this
      ensures entries == WithGeneration(old(entries), fields, temperature, maxTokens, genai)
    {
      if temperature.None? && maxTokens.None? {
        return;
      }
      var hasTempField := SupportsField(fields, TemperatureKey);
      var hasMaxTokensField := SupportsField(fields, MaxTokensKey);
      var hasGenConfig := SupportsField(fields, ConfigKey);
      if hasTempField && temperature.Some? {
        entries := entries[TemperatureKey := Number(temperature.value)];
      }
      if hasMaxTokensField && maxTokens.Some? {
        entries := entries[MaxTokensKey := Count(maxTokens.value)];
      }
      var missingTemp := temperature.Some? && !hasTempField;
      var missingMax := maxTokens.Some? && !hasMaxTokensField;
      if !hasGenConfig || (!missingTemp && !missingMax) {
        return;
      }
      var configTemperature: Option<real> := None;
      var configMaxTokens: Option<int> := None;
      if missingTemp {
        configTemperature := temperature;
      }
      if missingMax {
        configMaxTokens := maxTokens;
      }
      var config := BuildConfig(configTemperature, configMaxTokens, genai);
      if config.Some? {
        entries := entries[ConfigKey := config.value];
      }
    }
  }
}
