/**
 * `validators.py`: the structural checks of a loaded configuration, of a dataset's rows and
 * of runtime values. Each check either passes or raises the first problem it meets, in the
 * order the source tests them; each is paired with a predicate that says, all at once, which
 * inputs pass.
 */
module Validators {
  import opened Wrappers
  import opened Json
  import Dicts
  import Strings

  /** The exception classes `load_config` tells apart. */
  datatype Raised =
    | ValidationError(message: string)
    | ConfigurationError(message: string)
    | OtherError(message: string)   // a `TypeError`, `AttributeError`, `OSError`, ...

  /** A call that returns a value or raises one of `Raised`. */
  datatype Checked<+T> = Ok(value: T) | Raise(exception: Raised)

  const RequiredSections: seq<string> := ["llm_api", "model", "evaluation"]
  const RequiredLlmApiFields: seq<string> := ["api_key", "base_url"]
  const RequiredModelFields: seq<string> := ["name"]
  const RequiredEvaluationFields: seq<string> := ["dataset_paths", "evaluation_method"]
  const NumericModelFields: seq<string> := ["temperature", "top_p", "max_tokens"]
  const ValidOptionColumns: seq<string> := ["A", "B", "C", "D"]

  /** `k in v`: a dict's keys, a list's items, a string's substrings; anything else raises. */
  function PyIn(k: string, v: Value): (r: Checked<bool>)
    ensures v.Object? ==> r == Ok(Dicts.Get(v.fields, k).Some?)
    ensures r.Raise? <==> !(v.Object? || v.List? || v.Str?)
  {
    match v
    case Object(fields) => Ok(Dicts.Get(fields, k).Some?)
    case List(items) => Ok(Str(k) in items)
    case Str(s) => Ok(Strings.Contains(s, k))
    case _ => Raise(OtherError("TypeError: argument is not iterable"))
  }

  // ---------------------------------------------------------------------------------------
  // Value tests

  predicate IsNonNegativeInt(v: Value)
  {
    IsPyInt(v) && NumberOf(v) >= 0.0
  }

  predicate IsPositiveInt(v: Value)
  {
    IsPyInt(v) && NumberOf(v) > 0.0
  }

  predicate IsPositiveNumber(v: Value)
  {
    IsPyNumber(v) && NumberOf(v) > 0.0
  }

  predicate IsUnitNumber(v: Value)
  {
    IsPyNumber(v) && 0.0 <= NumberOf(v) <= 1.0
  }

  predicate IsString(v: Value) { v.Str? }

  predicate IsBoolean(v: Value) { v.Bool? }

  /** An optional field: absent, or present with a value `ok` accepts. */
  predicate Optional(d: Dicts.Dict<Value>, k: string, ok: Value -> bool)
  {
    Dicts.Get(d, k).None? || ok(Dicts.Get(d, k).value)
  }

  /** Field `k` is present with a non-blank string. */
  predicate NonBlankField(d: Dicts.Dict<Value>, k: string)
  {
    Dicts.Get(d, k).Some? && IsNonBlankStr(Dicts.Get(d, k).value)
  }

  /** Every one of `fields` is present with a non-blank string. */
  predicate NonBlankFields(d: Dicts.Dict<Value>, fields: seq<string>)
  {
    forall i :: 0 <= i < |fields| ==> NonBlankField(d, fields[i])
  }

  /** The loop over required string fields: missing, or present but not a non-blank string. */
  function RequireStrings(d: Dicts.Dict<Value>, fields: seq<string>, section: string, title: string): Checked<()>
  {
    if fields == [] then Ok(())
    else match Dicts.Get(d, fields[0])
      case None => Raise(ValidationError("Missing required " + section + " field: " + fields[0]))
      case Some(v) =>
        if !IsNonBlankStr(v) then Raise(ValidationError(title + " field '" + fields[0] + "' must be a non-empty string"))
        else RequireStrings(d, fields[1..], section, title)
  }

  lemma {:induction false} RequireStringsOk(d: Dicts.Dict<Value>, fields: seq<string>, section: string, title: string)
    ensures RequireStrings(d, fields, section, title).Ok? <==> NonBlankFields(d, fields)
  {
    if fields != [] {
      RequireStringsOk(d, fields[1..], section, title);
      assert forall i :: 1 <= i < |fields| ==> fields[i] == fields[1..][i - 1];
    }
  }

  // ---------------------------------------------------------------------------------------
  // The configuration

  /** The loop over the required sections: each present and a dict. */
  function CheckSections(config: Value, names: seq<string>): Checked<()>
  {
    if names == [] then Ok(())
    else match PyIn(names[0], config)
      case Raise(e) => Raise(e)
      case Ok(found) =>
        if !found then Raise(ValidationError("Missing required configuration section: " + names[0]))
        else if !config.Object? then Raise(OtherError("TypeError: indices must be integers"))
        else if !Dicts.Get(config.fields, names[0]).value.Object? then
          Raise(ValidationError("Configuration section '" + names[0] + "' must be a dictionary"))
        else CheckSections(config, names[1..])
  }

  /** The configuration is a dict whose section `name` is a dict. */
  predicate SectionIsDict(config: Value, name: string)
  {
    config.Object? && Dicts.Get(config.fields, name).Some? && Dicts.Get(config.fields, name).value.Object?
  }

  /** The configuration is a dict whose `names` sections are all dicts. */
  predicate HasSections(config: Value, names: seq<string>)
  {
    forall i :: 0 <= i < |names| ==> SectionIsDict(config, names[i])
  }

  /** The three required sections are dicts. */
  predicate HasRequiredSections(config: Value)
  {
    SectionIsDict(config, "llm_api") && SectionIsDict(config, "model") && SectionIsDict(config, "evaluation")
  }

  lemma RequiredSectionsSpelled(config: Value)
    ensures HasSections(config, RequiredSections) <==> HasRequiredSections(config)
  {
    assert RequiredSections[0] == "llm_api" && RequiredSections[1] == "model" && RequiredSections[2] == "evaluation";
  }

  lemma {:induction false} CheckSectionsOk(config: Value, names: seq<string>)
    requires names != []
    ensures CheckSections(config, names).Ok? <==> HasSections(config, names)
  {
    if |names| > 1 {
      CheckSectionsOk(config, names[1..]);
      assert forall i :: 1 <= i < |names| ==> names[i] == names[1..][i - 1];
    }
  }

  /** `_validate_llm_api_config` */
  function ValidateLlmApi(api: Dicts.Dict<Value>): Checked<()>
  {
    match RequireStrings(api, RequiredLlmApiFields, "LLM API", "LLM API")
    case Raise(e) => Raise(e)
    case Ok(_) =>
      if !Optional(api, "type", IsString) then Raise(ValidationError("LLM API 'type' must be a string"))
      else if !Optional(api, "max_retries", IsNonNegativeInt) then
        Raise(ValidationError("LLM API 'max_retries' must be a non-negative integer"))
      else if !Optional(api, "timeout", IsPositiveNumber) then
        Raise(ValidationError("LLM API 'timeout' must be a positive number"))
      else if !Optional(api, "api_rate_limit", IsPyNumber) then
        Raise(ValidationError("LLM API 'api_rate_limit' must be a number"))
      else Ok(())
  }

  /** What an acceptable `llm_api` section holds. */
  predicate LlmApiSound(api: Dicts.Dict<Value>)
  {
    NonBlankField(api, "api_key") && NonBlankField(api, "base_url") &&
    Optional(api, "type", IsString) &&
    Optional(api, "max_retries", IsNonNegativeInt) &&
    Optional(api, "timeout", IsPositiveNumber) &&
    Optional(api, "api_rate_limit", IsPyNumber)
  }

  lemma LlmApiOk(api: Dicts.Dict<Value>)
    ensures ValidateLlmApi(api).Ok? <==> LlmApiSound(api)
  {
    RequireStringsOk(api, RequiredLlmApiFields, "LLM API", "LLM API");
    assert RequiredLlmApiFields[0] == "api_key" && RequiredLlmApiFields[1] == "base_url";
  }

  /** The specific rule for one numeric model field, once it is known to be present. */
  function NumericRule(field: string, v: Value): Checked<()>
  {
    if !IsPyNumber(v) then Raise(ValidationError("Model field '" + field + "' must be a number"))
    else if field == "temperature" && !(0.0 <= NumberOf(v) <= 1.0) then
      Raise(ValidationError("Model 'temperature' must be between 0 and 1"))
    else if field == "top_p" && !(0.0 <= NumberOf(v) <= 1.0) then
      Raise(ValidationError("Model 'top_p' must be between 0 and 1"))
    else if field == "max_tokens" && NumberOf(v) <= 0.0 then
      Raise(ValidationError("Model 'max_tokens' must be positive"))
    else Ok(())
  }

  /** The loop over the optional numeric model fields. */
  function CheckNumeric(model: Dicts.Dict<Value>, fields: seq<string>): Checked<()>
  {
    if fields == [] then Ok(())
    else match Dicts.Get(model, fields[0])
      case None => CheckNumeric(model, fields[1..])
      case Some(v) =>
        match NumericRule(fields[0], v)
        case Raise(e) => Raise(e)
        case Ok(_) => CheckNumeric(model, fields[1..])
  }

  /** What the rule for `field` accepts. */
  predicate NumericSound(field: string, v: Value)
  {
    if field == "max_tokens" then IsPositiveNumber(v)
    else if field == "temperature" || field == "top_p" then IsUnitNumber(v)
    else IsPyNumber(v)
  }

  lemma NumericRuleOk(field: string, v: Value)
    ensures NumericRule(field, v).Ok? <==> NumericSound(field, v)
  {
  }

  lemma {:induction false} CheckNumericOk(model: Dicts.Dict<Value>, fields: seq<string>)
    ensures CheckNumeric(model, fields).Ok? <==>
      forall i :: 0 <= i < |fields| ==>
        Dicts.Get(model, fields[i]).None? || NumericSound(fields[i], Dicts.Get(model, fields[i]).value)
  {
    if fields != [] {
      CheckNumericOk(model, fields[1..]);
      assert forall i :: 1 <= i < |fields| ==> fields[i] == fields[1..][i - 1];
      if Dicts.Get(model, fields[0]).Some? {
        NumericRuleOk(fields[0], Dicts.Get(model, fields[0]).value);
      }
    }
  }

  /** `_validate_model_config` */
  function ValidateModel(model: Dicts.Dict<Value>): Checked<()>
  {
    match RequireStrings(model, RequiredModelFields, "model", "Model")
    case Raise(e) => Raise(e)
    case Ok(_) => CheckNumeric(model, NumericModelFields)
  }

  /** What an acceptable `model` section holds. */
  predicate ModelSound(model: Dicts.Dict<Value>)
  {
    NonBlankField(model, "name") &&
    Optional(model, "temperature", IsUnitNumber) &&
    Optional(model, "top_p", IsUnitNumber) &&
    Optional(model, "max_tokens", IsPositiveNumber)
  }

  lemma ModelOk(model: Dicts.Dict<Value>)
    ensures ValidateModel(model).Ok? <==> ModelSound(model)
  {
    RequireStringsOk(model, RequiredModelFields, "model", "Model");
    assert RequiredModelFields[0] == "name";
    CheckNumericOk(model, NumericModelFields);
    assert NumericModelFields[0] == "temperature" && NumericModelFields[1] == "top_p" && NumericModelFields[2] == "max_tokens";
  }

  /** The loop over the required evaluation fields: each present. */
  function RequirePresent(d: Dicts.Dict<Value>, fields: seq<string>): Checked<()>
  {
    if fields == [] then Ok(())
    else if Dicts.Get(d, fields[0]).None? then Raise(ValidationError("Missing required evaluation field: " + fields[0]))
    else RequirePresent(d, fields[1..])
  }

  lemma {:induction false} RequirePresentOk(d: Dicts.Dict<Value>, fields: seq<string>)
    ensures RequirePresent(d, fields).Ok? <==> forall i :: 0 <= i < |fields| ==> Dicts.Get(d, fields[i]).Some?
  {
    if fields != [] {
      RequirePresentOk(d, fields[1..]);
      assert forall i :: 1 <= i < |fields| ==> fields[i] == fields[1..][i - 1];
    }
  }

  /** `dataset_paths` as the list the validator iterates: a single string is wrapped. */
  function PathList(paths: Value): Option<seq<Value>>
  {
    if paths.Str? then Some([paths]) else if paths.List? then Some(paths.items) else None
  }

  predicate AllNonBlank(xs: seq<Value>)
  {
    forall i :: 0 <= i < |xs| ==> IsNonBlankStr(xs[i])
  }

  /** A prompt map after the `None` fix: a dict whose values are all strings (its keys are strings by construction). */
  predicate PromptMapSound(pm: Value)
  {
    pm.Object? && forall i :: 0 <= i < |pm.fields| ==> pm.fields[i].1.Str?
  }

  /** `datasets_prompt_map` with `None` read as `{}`. */
  function PromptMapOf(v: Value): Value
  {
    if v.Null? then Object([]) else v
  }

  /** A `datasets_prompt_map` setting the validator accepts. */
  predicate IsPromptMapSetting(v: Value)
  {
    PromptMapSound(PromptMapOf(v))
  }

  /**
   * `_validate_evaluation_config`: the section as it is afterwards, where a `None`
   * prompt map has been replaced in place by `{}`.
   */
  function ValidateEvaluation(e: Dicts.Dict<Value>): Checked<Dicts.Dict<Value>>
  {
    match RequirePresent(e, RequiredEvaluationFields)
    case Raise(x) => Raise(x)
    case Ok(_) =>
      RequirePresentOk(e, RequiredEvaluationFields);
      assert RequiredEvaluationFields[0] == "dataset_paths" && RequiredEvaluationFields[1] == "evaluation_method";
      var paths := PathList(Dicts.Get(e, "dataset_paths").value);
      if paths.None? then Raise(ValidationError("Evaluation 'dataset_paths' must be a string or list of strings"))
      else if !AllNonBlank(paths.value) then Raise(ValidationError("All dataset paths must be non-empty strings"))
      else if !IsNonBlankStr(Dicts.Get(e, "evaluation_method").value) then
        Raise(ValidationError("Evaluation 'evaluation_method' must be a non-empty string"))
      else if !Optional(e, "repeat_runs", IsPositiveInt) then
        Raise(ValidationError("Evaluation 'repeat_runs' must be a positive integer"))
      else if !Optional(e, "shuffle_options", IsBoolean) then
        Raise(ValidationError("Evaluation 'shuffle_options' must be a boolean"))
      else match Dicts.Get(e, "datasets_prompt_map")
        case None => Ok(e)
        case Some(v) =>
          var pm := PromptMapOf(v);
          var fixed := if v.Null? then Dicts.Put(e, "datasets_prompt_map", pm) else e;
          if !pm.Object? then Raise(ValidationError("Evaluation 'datasets_prompt_map' must be a dictionary"))
          else if !PromptMapSound(pm) then Raise(ValidationError("All entries in 'datasets_prompt_map' must be strings"))
          else Ok(fixed)
  }

  /** What an acceptable `evaluation` section holds. */
  predicate EvaluationSound(e: Dicts.Dict<Value>)
  {
    Dicts.Get(e, "dataset_paths").Some? && Dicts.Get(e, "evaluation_method").Some? &&
    PathList(Dicts.Get(e, "dataset_paths").value).Some? &&
    AllNonBlank(PathList(Dicts.Get(e, "dataset_paths").value).value) &&
    IsNonBlankStr(Dicts.Get(e, "evaluation_method").value) &&
    Optional(e, "repeat_runs", IsPositiveInt) &&
    Optional(e, "shuffle_options", IsBoolean) &&
    Optional(e, "datasets_prompt_map", IsPromptMapSetting)
  }

  /**
   * The evaluation section passes exactly when it is sound, and the only change is a `None`
   * prompt map becoming `{}`.
   */
  lemma EvaluationOk(e: Dicts.Dict<Value>, k: string)
    ensures ValidateEvaluation(e).Ok? <==> EvaluationSound(e)
    ensures ValidateEvaluation(e).Ok? ==>
      var after := ValidateEvaluation(e).value;
      Dicts.Get(after, k) ==
        if k == "datasets_prompt_map" && Dicts.Get(e, k) == Some(Null) then Some(Object([])) else Dicts.Get(e, k)
  {
    RequirePresentOk(e, RequiredEvaluationFields);
    assert RequiredEvaluationFields[0] == "dataset_paths" && RequiredEvaluationFields[1] == "evaluation_method";
    var v := Dicts.Get(e, "datasets_prompt_map");
    if v == Some(Null) {
      Dicts.GetPut(e, "datasets_prompt_map", Object([]), k);
    }
  }

  /** `validate_config_structure`: the configuration as it is afterwards. */
  function ValidateConfigStructure(config: Value): (r: Checked<Value>)
    ensures r.Ok? ==> HasRequiredSections(config) && HasRequiredSections(r.value)
  {
    match CheckSections(config, RequiredSections)
    case Raise(e) => Raise(e)
    case Ok(_) =>
      CheckSectionsOk(config, RequiredSections);
      RequiredSectionsSpelled(config);
      var fields := config.fields;
      match ValidateLlmApi(Dicts.Get(fields, "llm_api").value.fields)
      case Raise(e) => Raise(e)
      case Ok(_) =>
        match ValidateModel(Dicts.Get(fields, "model").value.fields)
        case Raise(e) => Raise(e)
        case Ok(_) =>
          match ValidateEvaluation(Dicts.Get(fields, "evaluation").value.fields)
          case Raise(e) => Raise(e)
          case Ok(evaluation) =>
            Dicts.GetPut(fields, "evaluation", Object(evaluation), "llm_api");
            Dicts.GetPut(fields, "evaluation", Object(evaluation), "model");
            Dicts.GetPut(fields, "evaluation", Object(evaluation), "evaluation");
            Ok(Object(Dicts.Put(fields, "evaluation", Object(evaluation))))
  }

  /** What an acceptable configuration is. */
  predicate ConfigSound(config: Value)
  {
    HasRequiredSections(config) &&
    LlmApiSound(Dicts.Get(config.fields, "llm_api").value.fields) &&
    ModelSound(Dicts.Get(config.fields, "model").value.fields) &&
    EvaluationSound(Dicts.Get(config.fields, "evaluation").value.fields)
  }

  /**
   * A configuration passes exactly when it is sound: a dict whose three sections are dicts
   * with acceptable contents.
   */
  lemma ConfigStructureOk(config: Value)
    ensures ValidateConfigStructure(config).Ok? <==> ConfigSound(config)
  {
    CheckSectionsOk(config, RequiredSections);
    RequiredSectionsSpelled(config);
    if HasRequiredSections(config) {
      var fields := config.fields;
      LlmApiOk(Dicts.Get(fields, "llm_api").value.fields);
      ModelOk(Dicts.Get(fields, "model").value.fields);
      EvaluationOk(Dicts.Get(fields, "evaluation").value.fields, "");
    }
  }

  /**
   * A configuration that passes keeps every setting except that a `None` prompt map in the
   * `evaluation` section is now `{}`; its three sections remain dicts.
   */
  lemma ConfigStructureUpdate(config: Value, k: string)
    requires ValidateConfigStructure(config).Ok?
    ensures var after := ValidateConfigStructure(config).value;
      (k != "evaluation" ==> Dicts.Get(after.fields, k) == Dicts.Get(config.fields, k)) &&
      var before := Dicts.Get(config.fields, "evaluation").value.fields;
      var now := Dicts.Get(after.fields, "evaluation").value.fields;
      Dicts.Get(now, k) ==
        if k == "datasets_prompt_map" && Dicts.Get(before, k) == Some(Null) then Some(Object([])) else Dicts.Get(before, k)
  {
    var fields := config.fields;
    var before := Dicts.Get(fields, "evaluation").value.fields;
    var now := ValidateEvaluation(before).value;
    EvaluationOk(before, k);
    Dicts.GetPut(fields, "evaluation", Object(now), k);
    Dicts.GetPut(fields, "evaluation", Object(now), "evaluation");
  }

  // ---------------------------------------------------------------------------------------
  // Dataset content

  /** One row: a dict with non-blank `question` and `answer`, the answer a letter A-D with an option. */
  predicate RowSound(row: Value, up: char -> string)
  {
    row.Object? &&
    NonBlankField(row.fields, "question") && NonBlankField(row.fields, "answer") &&
    var answer := Strings.Upper(up, Strings.Strip(Dicts.Get(row.fields, "answer").value.s));
    answer in ValidOptionColumns && Dicts.Get(row.fields, answer).Some?
  }

  /** The checks of one row, in the source's order. */
  function CheckRow(row: Value, idx: nat, file: string, up: char -> string): Checked<()>
  {
    var at := " in row " + Strings.NatToString(idx) + " of " + file;
    if !row.Object? then Raise(ValidationError("Row " + Strings.NatToString(idx) + " in " + file + " is not a dictionary"))
    else match RequireStrings(row.fields, ["question", "answer"], "column", "Column")
      case Raise(e) => Raise(ValidationError(e.message + at))
      case Ok(_) =>
        RequireStringsOk(row.fields, ["question", "answer"], "column", "Column");
        assert ["question", "answer"][0] == "question" && ["question", "answer"][1] == "answer";
        var answer := Strings.Upper(up, Strings.Strip(Dicts.Get(row.fields, "answer").value.s));
        if answer !in ValidOptionColumns then Raise(ValidationError("Invalid answer '" + answer + "'" + at))
        else if Dicts.Get(row.fields, answer).None? then
          Raise(ValidationError("Answer '" + answer + "' has no corresponding option" + at))
        else Ok(())
  }

  lemma CheckRowOk(row: Value, idx: nat, file: string, up: char -> string)
    ensures CheckRow(row, idx, file, up).Ok? <==> RowSound(row, up)
  {
    if row.Object? {
      RequireStringsOk(row.fields, ["question", "answer"], "column", "Column");
      assert ["question", "answer"][0] == "question" && ["question", "answer"][1] == "answer";
    }
  }

  /** The loop over the rows from position `idx` on. */
  function CheckRows(rows: seq<Value>, idx: nat, file: string, up: char -> string): Checked<()>
    decreases |rows| - idx
  {
    if idx >= |rows| then Ok(())
    else match CheckRow(rows[idx], idx, file, up)
      case Raise(e) => Raise(e)
      case Ok(_) => CheckRows(rows, idx + 1, file, up)
  }

  /** `DatasetValidator.validate_dataset_content` */
  function ValidateDatasetContent(data: seq<Value>, file: string, up: char -> string): Checked<()>
  {
    if data == [] then Raise(ValidationError("Dataset file is empty: " + file))
    else CheckRows(data, 0, file, up)
  }

  lemma {:induction false} CheckRowsOk(rows: seq<Value>, idx: nat, file: string, up: char -> string)
    ensures CheckRows(rows, idx, file, up).Ok? <==> forall i :: idx <= i < |rows| ==> RowSound(rows[i], up)
    decreases |rows| - idx
  {
    hide RowSound, CheckRow;
    if idx < |rows| {
      CheckRowOk(rows[idx], idx, file, up);
      CheckRowsOk(rows, idx + 1, file, up);
      assert CheckRows(rows, idx, file, up).Ok? <==>
        CheckRow(rows[idx], idx, file, up).Ok? && CheckRows(rows, idx + 1, file, up).Ok?;
      assert (forall i :: idx <= i < |rows| ==> RowSound(rows[i], up)) <==>
        RowSound(rows[idx], up) && forall i :: idx + 1 <= i < |rows| ==> RowSound(rows[i], up);
    }
  }

  /**
   * When a dataset is rejected for a row, that row is the first unsound one: every row before
   * it passes.
   */
  lemma {:induction false} CheckRowsFirst(rows: seq<Value>, idx: nat, file: string, up: char -> string) returns (bad: nat)
    requires CheckRows(rows, idx, file, up).Raise?
    ensures idx <= bad < |rows| && !RowSound(rows[bad], up)
    ensures forall i :: idx <= i < bad ==> RowSound(rows[i], up)
    ensures CheckRows(rows, idx, file, up) == CheckRow(rows[bad], bad, file, up)
    decreases |rows| - idx
  {
    CheckRowOk(rows[idx], idx, file, up);
    if CheckRow(rows[idx], idx, file, up).Raise? {
      bad := idx;
    } else {
      bad := CheckRowsFirst(rows, idx + 1, file, up);
      forall i | idx <= i < bad
        ensures RowSound(rows[i], up)
      {
        if i == idx {
          assert RowSound(rows[idx], up);
        }
      }
    }
  }

  /** Dataset content passes exactly when there is a row and every row is sound. */
  lemma DatasetContentOk(data: seq<Value>, file: string, up: char -> string)
    ensures ValidateDatasetContent(data, file, up).Ok? <==>
      data != [] && forall i :: 0 <= i < |data| ==> RowSound(data[i], up)
  {
    CheckRowsOk(data, 0, file, up);
  }

  // ---------------------------------------------------------------------------------------
  // Runtime values

  /** `RuntimeValidator.validate_llm_response`: `None` and whitespace-only text are refused. */
  function ValidateLlmResponse(response: Option<string>, context: string): (r: Checked<()>)
    ensures r.Ok? <==> response.Some? && !Strings.IsBlank(response.value)
  {
    var suffix := if context != [] then " for " + context else "";
    if response.None? then Raise(ValidationError("LLM returned None response" + suffix))
    else if Strings.IsBlank(response.value) then Raise(ValidationError("LLM returned empty response" + suffix))
    else Ok(())
  }

  /** `RuntimeValidator.validate_accuracy_calculation`; a bool counts as an int, as in Python. */
  function ValidateAccuracyCalculation(correct: Value, total: Value): (r: Checked<()>)
    ensures r.Ok? <==>
      IsPyInt(correct) && IsPyInt(total) && 0.0 <= NumberOf(correct) <= NumberOf(total) && NumberOf(total) > 0.0
  {
    if !IsNonNegativeInt(correct) then Raise(ValidationError("Correct count must be a non-negative integer"))
    else if !IsPositiveInt(total) then Raise(ValidationError("Total count must be a positive integer"))
    else if NumberOf(correct) > NumberOf(total) then Raise(ValidationError("Correct count cannot exceed total count"))
    else Ok(())
  }

  /** An accepted count gives an accuracy in [0, 1]. */
  lemma AccuracyInUnit(correct: Value, total: Value)
    requires ValidateAccuracyCalculation(correct, total).Ok?
    ensures 0.0 <= NumberOf(correct) / NumberOf(total) <= 1.0
  {
    var c := NumberOf(correct);
    var t := NumberOf(total);
    assert c / t * t == c;
  }
}
