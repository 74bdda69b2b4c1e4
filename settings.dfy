/**
 * The settings routes (routes/settings.js): the settings object the module
 * keeps in `currentSettings`, the range checks of PUT, the recursive
 * `mergeDeep`, `validateSettings` behind the import route, the reset to
 * defaults and the prefix checks of the api-keys route. Reading and
 * writing `data/settings.json` is left out.
 */
module Settings {
  import opened Wrappers
  import opened Json
  import Strings
  import Tables

  // ---------------------------------------------------------------------
  // Property access
  // ---------------------------------------------------------------------

  /** `v[key]` on a value the routes receive (an object or an array). */
  function Prop(v: Value, key: string): Value
  {
    Get(Spread(v), key)
  }

  // ---------------------------------------------------------------------
  // mergeDeep
  // ---------------------------------------------------------------------

  /**
   * What `mergeDeep` stores under a key whose target value is `current`
   * and whose source value is `incoming`.
   */
  function MergedValue(current: Value, incoming: Value): Value
    decreases Size(incoming), 2, 0
  {
    if IsPlainObject(incoming) then MergeDeep(if Truthy(current) then current else Obj([]), incoming)
    else incoming
  }

  /** `mergeDeep(target, source)`: a copy of the target with every property of the source merged in. */
  function MergeDeep(target: Value, source: Value): (r: Value)
    ensures r.Obj?
    decreases Size(source), 1, 0
  {
    Obj(MergeFields(Spread(target), Spread(source), source))
  }

  /** The `for (const key in source)` loop, one property at a time. */
  function MergeFields(acc: seq<Field>, todo: seq<Field>, ghost source: Value): seq<Field>
    requires forall i :: 0 <= i < |todo| && todo[i].value.Obj? ==> Size(todo[i].value) < Size(source)
    decreases Size(source), 0, |todo|
  {
    if |todo| == 0 then acc
    else
      var f := todo[0];
      var merged := if IsPlainObject(f.value) then MergedValue(Get(acc, f.key), f.value) else f.value;
      MergeFields(Put(acc, f.key, merged), todo[1..], source)
  }

  lemma {:induction false} MergeFieldsGet(acc: seq<Field>, todo: seq<Field>, source: Value, key: string)
    requires forall i :: 0 <= i < |todo| && todo[i].value.Obj? ==> Size(todo[i].value) < Size(source)
    requires DistinctKeys(todo)
    ensures Get(MergeFields(acc, todo, source), key)
      == if key in Keys(todo) then MergedValue(Get(acc, key), Get(todo, key)) else Get(acc, key)
    decreases |todo|
  {
    if |todo| > 0 {
      var f := todo[0];
      var merged := if IsPlainObject(f.value) then MergedValue(Get(acc, f.key), f.value) else f.value;
      var next := Put(acc, f.key, merged);
      DistinctTail(todo);
      MergeFieldsGet(next, todo[1..], source, key);
      GetPut(acc, f.key, merged, key);
    }
  }

  /** The names of a non-empty property list: the first one and those of the rest. */
  lemma KeysTail(todo: seq<Field>)
    requires |todo| > 0
    ensures forall key :: key in Keys(todo) <==> key == todo[0].key || key in Keys(todo[1..])
  {
    assert Keys(todo) == [todo[0].key] + Keys(todo[1..]);
  }

  /** The first property of distinct-keyed properties is not among the rest, which stay distinct. */
  lemma DistinctTail(todo: seq<Field>)
    requires |todo| > 0 && DistinctKeys(todo)
    ensures DistinctKeys(todo[1..])
    ensures forall key :: key in Keys(todo) <==> key == todo[0].key || key in Keys(todo[1..])
    ensures todo[0].key !in Keys(todo[1..])
  {
    assert Keys(todo) == [todo[0].key] + Keys(todo[1..]);
    assert Keys(todo[1..]) == Keys(todo)[1..];
  }

  /** The loop adds exactly the source's property names to the target's. */
  lemma {:induction false} MergeFieldsKeys(acc: seq<Field>, todo: seq<Field>, source: Value, key: string)
    requires forall i :: 0 <= i < |todo| && todo[i].value.Obj? ==> Size(todo[i].value) < Size(source)
    ensures key in Keys(MergeFields(acc, todo, source)) <==> key in Keys(acc) || key in Keys(todo)
    decreases |todo|
  {
    if |todo| > 0 {
      var f := todo[0];
      var merged := if IsPlainObject(f.value) then MergedValue(Get(acc, f.key), f.value) else f.value;
      var next := Put(acc, f.key, merged);
      KeysTail(todo);
      assert MergeFields(acc, todo, source) == MergeFields(next, todo[1..], source);
      MergeFieldsKeys(next, todo[1..], source, key);
    }
  }

  /**
   * After `mergeDeep(target, source)` every source property is present,
   * holding the source value, or for a plain-object source value the merge
   * of that value into the target's (into `{}` when the target's is falsy);
   * every other property keeps the target's value, and no other property
   * appears.
   */
  lemma MergeDeepGet(target: Value, source: Value, key: string)
    requires DistinctKeys(Spread(source))
    ensures var r := MergeDeep(target, source).fields;
      Get(r, key) == (if key in Keys(Spread(source)) then MergedValue(Get(Spread(target), key), Get(Spread(source), key))
                      else Get(Spread(target), key)) &&
      (key in Keys(r) <==> key in Keys(Spread(target)) || key in Keys(Spread(source)))
  {
    MergeFieldsGet(Spread(target), Spread(source), source, key);
    MergeFieldsKeys(Spread(target), Spread(source), source, key);
  }

  /** Merging an empty object gives back exactly the target's properties. */
  lemma MergeDeepEmpty(target: Value)
    ensures MergeDeep(target, Obj([])) == Obj(Spread(target))
  {
    assert Spread(Obj([])) == [];
  }

  // ---------------------------------------------------------------------
  // PUT /
  // ---------------------------------------------------------------------

  /** One range check of PUT: a present field outside [lo, hi] is an error. */
  function RangeError(section: Value, field: string, lo: real, hi: real, message: string): Option<string>
  {
    var v := Prop(section, field);
    if v != Undefined && OutOfRange(v, lo, hi) then Some(message) else None
  }

  /** The checks of PUT in their order; the first failure is the answer. */
  function CheckUpdate(updates: Value): Option<string>
  {
    var modelParams := Prop(updates, "modelParams");
    var stockfish := Prop(updates, "stockfish");
    var temperature := if Truthy(modelParams)
      then RangeError(modelParams, "temperature", 0.0, 2.0, "Temperature must be between 0 and 2") else None;
    var maxTokens := if Truthy(modelParams)
      then RangeError(modelParams, "maxTokens", 1.0, 4000.0, "Max tokens must be between 1 and 4000") else None;
    var depth := if Truthy(stockfish)
      then RangeError(stockfish, "depth", 1.0, 30.0, "Stockfish depth must be between 1 and 30") else None;
    if temperature.Some? then temperature
    else if maxTokens.Some? then maxTokens
    else depth
  }

  /**
   * An update is accepted exactly when none of the three fields it carries
   * converts, as JavaScript's `<` and `>` convert it, to a number outside
   * its range (text such as "3" or "" is read as a number, and a value that
   * converts to NaN passes); a bad temperature is reported before a bad
   * token count, and both before a bad depth.
   */
  lemma CheckUpdateRanges(updates: Value)
    ensures var mp := Prop(updates, "modelParams");
      var sf := Prop(updates, "stockfish");
      var badTemperature := Truthy(mp) && OutOfRange(Prop(mp, "temperature"), 0.0, 2.0);
      var badTokens := Truthy(mp) && OutOfRange(Prop(mp, "maxTokens"), 1.0, 4000.0);
      var badDepth := Truthy(sf) && OutOfRange(Prop(sf, "depth"), 1.0, 30.0);
      (CheckUpdate(updates).None? <==> !badTemperature && !badTokens && !badDepth) &&
      (badTemperature ==> CheckUpdate(updates) == Some("Temperature must be between 0 and 2")) &&
      (!badTemperature && badTokens ==> CheckUpdate(updates) == Some("Max tokens must be between 1 and 4000")) &&
      (!badTemperature && !badTokens && badDepth ==> CheckUpdate(updates) == Some("Stockfish depth must be between 1 and 30"))
  {
    var mp := Prop(updates, "modelParams");
    var sf := Prop(updates, "stockfish");
    RangeErrorIff(mp, "temperature", 0.0, 2.0, "Temperature must be between 0 and 2");
    RangeErrorIff(mp, "maxTokens", 1.0, 4000.0, "Max tokens must be between 1 and 4000");
    RangeErrorIff(sf, "depth", 1.0, 30.0, "Stockfish depth must be between 1 and 30");
  }

  lemma RangeErrorIff(section: Value, field: string, lo: real, hi: real, message: string)
    ensures RangeError(section, field, lo, hi, message)
      == if OutOfRange(Prop(section, field), lo, hi) then Some(message) else None
  {
  }

  /**
   * An accepted update that sets the temperature leaves a temperature that
   * does not convert to a number outside [0, 2] in the stored settings: the update's own
   * value, unless that value is itself an object and is merged.
   */
  lemma AcceptedTemperature(current: Value, updates: Value)
    requires CheckUpdate(updates).None? && updates.Obj? && DistinctKeys(updates.fields)
    requires IsPlainObject(Prop(updates, "modelParams"))
    requires DistinctKeys(Prop(updates, "modelParams").fields)
    requires Prop(Prop(updates, "modelParams"), "temperature") != Undefined
    ensures var sent := Prop(Prop(updates, "modelParams"), "temperature");
      var stored := Prop(Prop(MergeDeep(current, updates), "modelParams"), "temperature");
      !OutOfRange(stored, 0.0, 2.0) && (!sent.Obj? ==> stored == sent)
  {
    var mp := Prop(updates, "modelParams");
    var section := StoredSection(current, updates, "modelParams");
    var base := if Truthy(Prop(current, "modelParams")) then Prop(current, "modelParams") else Obj([]);
    assert section == MergeDeep(base, mp);
    var t := Prop(mp, "temperature");
    assert !OutOfRange(t, 0.0, 2.0) by {
      assert RangeError(mp, "temperature", 0.0, 2.0, "Temperature must be between 0 and 2").None?;
    }
    var stored := StoredSection(base, mp, "temperature");
    if t.Obj? {
      assert stored.Obj?;
    }
  }

  /** The value `mergeDeep` stores under a key the (plain-object) source carries. */
  lemma StoredSection(target: Value, source: Value, key: string) returns (stored: Value)
    requires source.Obj? && DistinctKeys(source.fields) && Get(source.fields, key) != Undefined
    ensures stored == Prop(MergeDeep(target, source), key)
    ensures stored == MergedValue(Prop(target, key), Prop(source, key))
  {
    MergeDeepGet(target, source, key);
    stored := Prop(MergeDeep(target, source), key);
  }

  // ---------------------------------------------------------------------
  // validateSettings
  // ---------------------------------------------------------------------

  /** The defaults `validateSettings` writes back. */
  const DefaultTemperature := Num(0.1)
  const DefaultMaxTokens := Num(1000.0)

  /** A field outside its range replaced by its default. */
  function Clamp(fields: seq<Field>, key: string, lo: real, hi: real, default: Value): seq<Field>
  {
    if OutOfRange(Get(fields, key), lo, hi) then Put(fields, key, default) else fields
  }

  /**
   * `validateSettings`: a copy of the settings whose model parameters have
   * an out-of-range temperature reset to 0.1 and an out-of-range token
   * count reset to 1000. Only a plain-object `modelParams` can take the
   * writes; JavaScript drops writes to a property of a primitive.
   */
  function ValidateSettings(settings: Value): (r: Value)
    ensures r.Obj?
  {
    var validated := Spread(settings);
    var mp := Get(validated, "modelParams");
    if IsPlainObject(mp) then
      var fixed := Clamp(Clamp(mp.fields, "temperature", 0.0, 2.0, DefaultTemperature), "maxTokens", 1.0, 4000.0, DefaultMaxTokens);
      Obj(Put(validated, "modelParams", Obj(fixed)))
    else Obj(validated)
  }

  /**
   * After validation neither the temperature nor the token count converts
   * to a number outside its range ([0, 2] and [1, 4000]; text is converted
   * as JavaScript converts it, so "3" is reset); values already in range,
   * and every other property, are left as they were.
   */
  lemma ValidatedRanges(settings: Value, key: string)
    requires IsPlainObject(Prop(settings, "modelParams"))
    ensures var mp := Prop(settings, "modelParams");
      var out := Prop(ValidateSettings(settings), "modelParams");
      out.Obj? &&
      !OutOfRange(Prop(out, "temperature"), 0.0, 2.0) &&
      !OutOfRange(Prop(out, "maxTokens"), 1.0, 4000.0) &&
      (!OutOfRange(Prop(mp, "temperature"), 0.0, 2.0) ==> Prop(out, "temperature") == Prop(mp, "temperature")) &&
      (!OutOfRange(Prop(mp, "maxTokens"), 1.0, 4000.0) ==> Prop(out, "maxTokens") == Prop(mp, "maxTokens")) &&
      (OutOfRange(Prop(mp, "temperature"), 0.0, 2.0) ==> Prop(out, "temperature") == DefaultTemperature) &&
      (OutOfRange(Prop(mp, "maxTokens"), 1.0, 4000.0) ==> Prop(out, "maxTokens") == DefaultMaxTokens) &&
      (key != "temperature" && key != "maxTokens" ==> Prop(out, key) == Prop(mp, key))
    ensures key != "modelParams" ==> Prop(ValidateSettings(settings), key) == Prop(settings, key)
  {
    var validated := Spread(settings);
    var mp := Get(validated, "modelParams");
    var fixed := Clamp(Clamp(mp.fields, "temperature", 0.0, 2.0, DefaultTemperature), "maxTokens", 1.0, 4000.0, DefaultMaxTokens);
    GetPut(validated, "modelParams", Obj(fixed), key);
    ClampedFields(mp.fields, key);
  }

  /** The two clamps of `validateSettings` on the properties of `modelParams`. */
  lemma ClampedFields(fields: seq<Field>, key: string)
    ensures var fixed := Clamp(Clamp(fields, "temperature", 0.0, 2.0, DefaultTemperature), "maxTokens", 1.0, 4000.0, DefaultMaxTokens);
      !OutOfRange(Get(fixed, "temperature"), 0.0, 2.0) &&
      !OutOfRange(Get(fixed, "maxTokens"), 1.0, 4000.0) &&
      (!OutOfRange(Get(fields, "temperature"), 0.0, 2.0) ==> Get(fixed, "temperature") == Get(fields, "temperature")) &&
      (!OutOfRange(Get(fields, "maxTokens"), 1.0, 4000.0) ==> Get(fixed, "maxTokens") == Get(fields, "maxTokens")) &&
      (OutOfRange(Get(fields, "temperature"), 0.0, 2.0) ==> Get(fixed, "temperature") == DefaultTemperature) &&
      (OutOfRange(Get(fields, "maxTokens"), 1.0, 4000.0) ==> Get(fixed, "maxTokens") == DefaultMaxTokens) &&
      (key != "temperature" && key != "maxTokens" ==> Get(fixed, key) == Get(fields, key))
  {
    var once := Clamp(fields, "temperature", 0.0, 2.0, DefaultTemperature);
    GetPut(fields, "temperature", DefaultTemperature, "maxTokens");
    GetPut(fields, "temperature", DefaultTemperature, key);
    GetPut(once, "maxTokens", DefaultMaxTokens, "temperature");
    GetPut(once, "maxTokens", DefaultMaxTokens, key);
    ClampInRange(fields, "temperature", 0.0, 2.0, DefaultTemperature);
    ClampInRange(once, "maxTokens", 1.0, 4000.0, DefaultMaxTokens);
  }

  /** A clamped field is in range, and one already in range is kept. */
  lemma ClampInRange(fields: seq<Field>, key: string, lo: real, hi: real, default: Value)
    requires !OutOfRange(default, lo, hi)
    ensures !OutOfRange(Get(Clamp(fields, key, lo, hi, default), key), lo, hi)
    ensures !OutOfRange(Get(fields, key), lo, hi) ==> Get(Clamp(fields, key, lo, hi, default), key) == Get(fields, key)
    ensures OutOfRange(Get(fields, key), lo, hi) ==> Get(Clamp(fields, key, lo, hi, default), key) == default
  {
    GetPut(fields, key, default, key);
  }

  /**
   * Range values sent as text are compared as JavaScript converts them: the
   * decimal text of an integer temperature is accepted exactly when the
   * integer lies in [0, 2], and blank text or an empty array sent as the
   * token count reads as 0 and is refused.
   */
  lemma TextRangesChecked(i: int, blank: string)
    requires Strings.IsBlank(blank)
    ensures CheckUpdate(Obj([Field("modelParams", Obj([Field("temperature", Str(Strings.IntToString(i)))]))]))
      == if 0 <= i <= 2 then None else Some("Temperature must be between 0 and 2")
    ensures CheckUpdate(Obj([Field("modelParams", Obj([Field("maxTokens", Str(blank))]))]))
      == Some("Max tokens must be between 1 and 4000")
    ensures CheckUpdate(Obj([Field("modelParams", Obj([Field("maxTokens", Arr([]))]))]))
      == Some("Max tokens must be between 1 and 4000")
  {
    TemperatureTextChecked(i);
    BlankTokensChecked(blank);
  }

  lemma BlankTokensChecked(blank: string)
    requires Strings.IsBlank(blank)
    ensures CheckUpdate(Obj([Field("modelParams", Obj([Field("maxTokens", Str(blank))]))]))
      == Some("Max tokens must be between 1 and 4000")
    ensures CheckUpdate(Obj([Field("modelParams", Obj([Field("maxTokens", Arr([]))]))]))
      == Some("Max tokens must be between 1 and 4000")
  {
    BlankTextCompares(blank);
    FiniteRange(Str(blank), 0.0, 1.0, 4000.0);
    FiniteRange(Arr([]), 0.0, 1.0, 4000.0);
    TokensChecked(Str(blank));
    TokensChecked(Arr([]));
  }

  lemma TemperatureTextChecked(i: int)
    ensures CheckUpdate(Obj([Field("modelParams", Obj([Field("temperature", Str(Strings.IntToString(i)))]))]))
      == if 0 <= i <= 2 then None else Some("Temperature must be between 0 and 2")
  {
    IntTextCompares(i);
    FiniteTemperatureChecked(Str(Strings.IntToString(i)), i as real);
  }

  /** A temperature that converts to the finite number x is refused exactly when x is outside [0, 2]. */
  lemma FiniteTemperatureChecked(v: Value, x: real)
    requires ToNumber(v) == NumberText.Finite(x)
    ensures CheckUpdate(Obj([Field("modelParams", Obj([Field("temperature", v)]))]))
      == if 0.0 <= x <= 2.0 then None else Some("Temperature must be between 0 and 2")
  {
    FiniteRange(v, x, 0.0, 2.0);
    TemperatureChecked(v);
  }

  /** A temperature sent on its own is refused exactly when it converts to a number outside [0, 2]. */
  lemma TemperatureChecked(v: Value)
    ensures CheckUpdate(Obj([Field("modelParams", Obj([Field("temperature", v)]))]))
      == if OutOfRange(v, 0.0, 2.0) then Some("Temperature must be between 0 and 2") else None
  {
    var updates := Obj([Field("modelParams", Obj([Field("temperature", v)]))]);
    OnlyField("modelParams", Obj([Field("temperature", v)]), "stockfish");
    OnlyField("temperature", v, "maxTokens");
    CheckUpdateRanges(updates);
  }

  /** A token count sent on its own is refused exactly when it converts to a number outside [1, 4000]. */
  lemma TokensChecked(v: Value)
    ensures CheckUpdate(Obj([Field("modelParams", Obj([Field("maxTokens", v)]))]))
      == if OutOfRange(v, 1.0, 4000.0) then Some("Max tokens must be between 1 and 4000") else None
  {
    var updates := Obj([Field("modelParams", Obj([Field("maxTokens", v)]))]);
    OnlyField("modelParams", Obj([Field("maxTokens", v)]), "stockfish");
    OnlyField("maxTokens", v, "temperature");
    CheckUpdateRanges(updates);
  }

  /** An object with a single property. */
  lemma OnlyField(key: string, v: Value, other: string)
    requires other != key
    ensures Prop(Obj([Field(key, v)]), key) == v && Prop(Obj([Field(key, v)]), other) == Undefined
    ensures IsPlainObject(Obj([Field(key, v)]))
  {
  }

  /** `validateSettings` resets the text of an integer temperature outside [0, 2] to 0.1. */
  lemma TextTemperatureReset(i: int)
    requires i < 0 || i > 2
    ensures var settings := Obj([Field("modelParams", Obj([Field("temperature", Str(Strings.IntToString(i)))]))]);
      Prop(Prop(ValidateSettings(settings), "modelParams"), "temperature") == DefaultTemperature
  {
    var t := Str(Strings.IntToString(i));
    IntTextCompares(i);
    assert OutOfRange(t, 0.0, 2.0);
    TemperatureReset(t);
  }

  /** A temperature that converts to a number outside [0, 2] is reset to 0.1. */
  lemma TemperatureReset(v: Value)
    requires OutOfRange(v, 0.0, 2.0)
    ensures var settings := Obj([Field("modelParams", Obj([Field("temperature", v)]))]);
      Prop(Prop(ValidateSettings(settings), "modelParams"), "temperature") == DefaultTemperature
  {
    var fields := [Field("temperature", v)];
    var settings := Obj([Field("modelParams", Obj(fields))]);
    assert Prop(settings, "modelParams") == Obj(fields);
    assert Prop(Obj(fields), "temperature") == v;
    ValidatedRanges(settings, "temperature");
  }

  // ---------------------------------------------------------------------
  // api-keys
  // ---------------------------------------------------------------------

  datatype KeyCheck = Skipped | Accepted | Rejected(status: nat, error: string)

  /**
   * One key of the api-keys route: a falsy or blank key is skipped, and a
   * key is accepted when the untrimmed string starts with the provider's
   * prefix. A truthy non-string has no `trim` and throws.
   */
  function CheckKey(name: string, key: Value, prefix: string, message: string): KeyCheck
  {
    if !Truthy(key) then Skipped
    else if !key.Str? then Rejected(500, name + ".trim is not a function")
    else if Strings.Trim(key.s) == "" then Skipped
    else if Strings.StartsWith(key.s, prefix) then Accepted
    else Rejected(400, message)
  }

  datatype KeysReply = Configured(providers: seq<string>) | KeysRefused(status: nat, error: string)

  const NoValidKey := "At least one valid API key is required"

  /** The four checks in their order, then the "at least one" rule. */
  function CheckKeys(checks: seq<(string, KeyCheck)>, configured: seq<string>): KeysReply
  {
    if |checks| == 0 then
      if |configured| == 0 then KeysRefused(400, NoValidKey) else Configured(configured)
    else match checks[0].1
      case Rejected(status, error) => KeysRefused(status, error)
      case Accepted => CheckKeys(checks[1..], configured + [checks[0].0])
      case Skipped => CheckKeys(checks[1..], configured)
  }

  function ApiKeyChecks(openai: Value, google: Value, deepseek: Value, groq: Value): seq<(string, KeyCheck)>
  {
    [("openai", CheckKey("openai", openai, "sk-", "OpenAI API key must start with sk-")),
     ("google", CheckKey("google", google, "AI", "Google API key must start with AI")),
     ("deepseek", CheckKey("deepseek", deepseek, "sk-", "DeepSeek API key must start with sk-")),
     ("groq", CheckKey("groq", groq, "gsk_", "Groq API key must start with gsk_"))]
  }

  /** POST /api-keys. */
  function ApiKeys(openai: Value, google: Value, deepseek: Value, groq: Value): KeysReply
  {
    CheckKeys(ApiKeyChecks(openai, google, deepseek, groq), [])
  }

  predicate NoRefusal(checks: seq<(string, KeyCheck)>)
  {
    forall i :: 0 <= i < |checks| ==> !checks[i].1.Rejected?
  }

  function AcceptedNames(checks: seq<(string, KeyCheck)>): seq<string>
  {
    if |checks| == 0 then [] else (if checks[0].1.Accepted? then [checks[0].0] else []) + AcceptedNames(checks[1..])
  }

  /**
   * The reply is the first refusal in check order; without one it lists the
   * accepted providers in order, and is refused when there are none.
   */
  lemma {:induction false} CheckKeysResult(checks: seq<(string, KeyCheck)>, configured: seq<string>)
    ensures NoRefusal(checks) ==>
      CheckKeys(checks, configured) ==
        (if |configured + AcceptedNames(checks)| == 0 then KeysRefused(400, NoValidKey)
         else Configured(configured + AcceptedNames(checks)))
    ensures forall i :: 0 <= i < |checks| && checks[i].1.Rejected? && NoRefusal(checks[..i]) ==>
      CheckKeys(checks, configured) == KeysRefused(checks[i].1.status, checks[i].1.error)
    decreases |checks|
  {
    if |checks| > 0 {
      var next := if checks[0].1.Accepted? then configured + [checks[0].0] else configured;
      CheckKeysResult(checks[1..], next);
      assert NoRefusal(checks) ==> NoRefusal(checks[1..]) by {
        if NoRefusal(checks) {
          forall i | 0 <= i < |checks[1..]|
            ensures !checks[1..][i].1.Rejected?
          {
            assert checks[1..][i] == checks[i + 1];
          }
        }
      }
      if !checks[0].1.Rejected? {
        assert configured + AcceptedNames(checks) == next + AcceptedNames(checks[1..]);
        forall i | 0 < i < |checks| && checks[i].1.Rejected? && NoRefusal(checks[..i])
          ensures CheckKeys(checks, configured) == KeysRefused(checks[i].1.status, checks[i].1.error)
        {
          assert checks[1..][i - 1] == checks[i];
          var before := checks[1..][..i - 1];
          assert NoRefusal(before) by {
            forall k | 0 <= k < |before|
              ensures !before[k].1.Rejected?
            {
              assert before[k] == checks[..i][k + 1];
            }
          }
        }
      }
    }
  }

  /**
   * The prefix is checked on the untrimmed key: a key that is not blank but
   * starts with whitespace, such as " sk-abc", is refused as an OpenAI key.
   */
  lemma UntrimmedPrefix(key: string)
    requires |key| > 0 && Strings.IsWhitespace(key[0]) && !Strings.IsBlank(key)
    ensures ApiKeys(Str(key), Undefined, Undefined, Undefined) == KeysRefused(400, "OpenAI API key must start with sk-")
  {
    assert !Strings.StartsWith(key, "sk-") by {
      if |key| >= 3 {
        assert key[..3][0] == key[0];
      }
    }
    Strings.TrimEmptyIffBlank(key);
    assert CheckKey("openai", Str(key), "sk-", "OpenAI API key must start with sk-")
        == Rejected(400, "OpenAI API key must start with sk-");
  }

  // ---------------------------------------------------------------------
  // Defaults
  // ---------------------------------------------------------------------

  const ModelParams := Obj([
    Field("temperature", Num(0.1)), Field("maxTokens", Num(1000.0)), Field("thinkingTime", Num(5.0)),
    Field("systemPrompt", Str("You are a chess-playing AI. Play the best move in the given position."))])
  const GameSettings := Obj([
    Field("defaultTimeControl", Str("10")), Field("autoSaveGames", Bool(true)), Field("showCoordinates", Bool(true)),
    Field("highlightLastMove", Bool(true)), Field("autoAnalysis", Bool(false)), Field("analysisDepth", Num(12.0)),
    Field("saveAnalysis", Bool(true)), Field("enableSounds", Bool(true)), Field("boardTheme", Str("brown")),
    Field("pieceSet", Str("classic"))])
  const Stockfish := Obj([
    Field("path", Str("/usr/local/bin/stockfish")), Field("depth", Num(15.0)), Field("threads", Num(4.0)),
    Field("hash", Num(256.0))])
  const Ui := Obj([
    Field("theme", Str("dark")), Field("language", Str("pt-BR")), Field("animations", Bool(true)),
    Field("autoRefresh", Bool(true)), Field("refreshInterval", Num(30.0))])
  const Api := Obj([
    Field("rateLimit", Num(100.0)), Field("timeout", Num(30000.0)), Field("retries", Num(3.0)),
    Field("cacheEnabled", Bool(true))])
  const Security := Obj([
    Field("enableCORS", Bool(true)), Field("maxRequestSize", Str("50mb")), Field("enableLogging", Bool(true))])

  /** The settings the module starts with. */
  const Initial := Obj([
    Field("modelParams", ModelParams), Field("gameSettings", GameSettings), Field("stockfish", Stockfish),
    Field("ui", Ui), Field("api", Api), Field("security", Security)])

  /** What POST /reset installs. */
  const ResetDefaults := Obj([
    Field("modelParams", ModelParams), Field("gameSettings", GameSettings), Field("stockfish", Stockfish),
    Field("ui", Ui), Field("api", Api)])

  /** Reset brings back every initial section except `security`, which it drops. */
  lemma ResetDropsSecurity(key: string)
    ensures Prop(ResetDefaults, "security") == Undefined && Prop(Initial, "security") == Security
    ensures key != "security" ==> Prop(ResetDefaults, key) == Prop(Initial, key)
  {
    assert Initial.fields == ResetDefaults.fields + [Field("security", Security)];
    assert "security" !in Keys(ResetDefaults.fields);
    GetSnoc(ResetDefaults.fields, "security", Security, key);
    GetSnoc(ResetDefaults.fields, "security", Security, "security");
  }

  // ---------------------------------------------------------------------
  // The routes that change `currentSettings`
  // ---------------------------------------------------------------------

  datatype Reply = Saved(settings: Value) | Refused(status: nat, error: string)

  class SettingsStore {
    var current: Value

    constructor ()
      ensures current == Initial
    {
      current := Initial;
    }

    /** PUT /: the first failing range check, or the update merged in. */
    method Update(updates: Value) returns (reply: Reply)
      modifies this
      ensures CheckUpdate(updates).Some? ==>
        reply == Refused(400, CheckUpdate(updates).value) && current == old(current)
      ensures CheckUpdate(updates).None? ==>
        current == MergeDeep(old(current), updates) && reply == Saved(current)
    {
      var error := CheckUpdate(updates);
      if error.Some? {
        return Refused(400, error.value);
      }
      current := MergeDeep(current, updates);
      reply := Saved(current);
    }

    /** POST /reset. */
    method Reset() returns (reply: Reply)
      modifies this
      ensures current == ResetDefaults && reply == Saved(ResetDefaults)
    {
      current := ResetDefaults;
      reply := Saved(current);
    }

    /** POST /import: refused without a truthy `settings`, otherwise the validated settings replace the current ones. */
    method Import(body: Value) returns (reply: Reply)
      modifies this
      ensures !Truthy(Prop(body, "settings")) ==>
        reply == Refused(400, "Invalid settings file format") && current == old(current)
      ensures Truthy(Prop(body, "settings")) ==>
        current == ValidateSettings(Prop(body, "settings")) && reply == Saved(current)
    {
      var settings := Prop(body, "settings");
      if !Truthy(settings) {
        return Refused(400, "Invalid settings file format");
      }
      current := ValidateSettings(settings);
      reply := Saved(current);
    }
  }
}
