/** The process-wide Genkit client and `configureGenkitInstance`, which
    rebuilds it whenever the API key changes.

    The library calls are inputs: whether building the client with the Google
    AI plugin succeeds is a `Completion<()>`, and the probe of the current
    client's model registry is a `RegistryProbe`. */
module Genkit {
  import opened Outcomes
  import opened JsString

  const DefaultModelName := "googleai/gemini-2.0-flash"

  const ApiKeyRequiredForAi := "API Key is required to " + "use AI features."

  const ConfigureFailed :=
    "Failed to configure AI " + "service with the " + "provided API key. "
    + "Please check the key " + "and try again."

  const KeyNotValid :=
    "The provided API key is " + "not valid. Please check " + "the key and try again."

  const QuotaProblem :=
    "The API key may be " + "valid, but an issue " + "occurred (e.g., quota "
    + "exceeded). Please check " + "your Google Cloud " + "console."

  const PermissionProblem :=
    "The API key may be " + "valid, but lacks " + "permissions for the "
    + "Gemini API. Please " + "ensure the API is " + "enabled in your Google "
    + "Cloud project and the " + "key has the 'AI " + "Platform Model User' or "
    + "'Vertex AI User' role."

  /** The error text names a key the provider rejected. The request handler
      applies the same test to the errors it catches. */
  predicate MentionsInvalidKey(message: string) {
    Includes(ToLower(message), "api key not valid") || Includes(ToLower(message), "invalid api key")
  }

  /** The error text mentions a quota, in any letter case. The request
      handler applies the same test. */
  predicate MentionsQuota(message: string) {
    Includes(ToLower(message), "quota")
  }

  predicate MentionsPermissionDenied(message: string) {
    Includes(ToLower(message), "permission denied")
  }

  /** The message of the error thrown when building the client fails: the
      first matching test in a fixed order picks it, and anything that is
      not an `Error`, or matches none of the tests, gets the generic one. */
  function ConfigFailureMessage(error: Thrown): (m: string)
    ensures m == KeyNotValid <==> error.Error? && MentionsInvalidKey(error.message)
    ensures m == QuotaProblem <==>
      error.Error? && !MentionsInvalidKey(error.message) && MentionsQuota(error.message)
    ensures m == PermissionProblem <==>
      error.Error? && !MentionsInvalidKey(error.message) && !MentionsQuota(error.message)
      && MentionsPermissionDenied(error.message)
    ensures m == ConfigureFailed <==>
      !error.Error? || (!MentionsInvalidKey(error.message) && !MentionsQuota(error.message)
      && !MentionsPermissionDenied(error.message))
  {
    if !error.Error? then ConfigureFailed
    else if MentionsInvalidKey(error.message) then KeyNotValid
    else if MentionsQuota(error.message) then QuotaProblem
    else if MentionsPermissionDenied(error.message) then PermissionProblem
    else ConfigureFailed
  }

  /** What `Object.keys(ai.registry.models).length` gives for the current
      client, or that reading it threw. */
  datatype RegistryProbe = ModelCount(count: nat) | ProbeThrew

  /** The three ways a call goes: the key is missing, the client is kept,
      or the client is rebuilt. */
  datatype Step = MissingKey | KeepClient | Rebuild

  function StepFor(lastKey: Option<string>, apiKey: string, probe: RegistryProbe): Step {
    if apiKey == "" then MissingKey
    else if lastKey == Some(apiKey) && probe.ModelCount? && probe.count > 0 then KeepClient
    else Rebuild
  }

  /** How `configureGenkitInstance(apiKey)` ends, given the key recorded
      before the call. */
  function ConfigureOutcome(lastKey: Option<string>, apiKey: string, probe: RegistryProbe,
                            construction: Completion<()>): Completion<()>
  {
    match StepFor(lastKey, apiKey, probe)
    case MissingKey => Threw(Error(ApiKeyRequiredForAi))
    case KeepClient => Normal(())
    case Rebuild =>
      if construction.Normal? then Normal(()) else Threw(Error(ConfigFailureMessage(construction.thrown)))
  }

  /** The key recorded after the call. */
  function NextConfiguredKey(lastKey: Option<string>, apiKey: string, probe: RegistryProbe,
                             construction: Completion<()>): Option<string>
  {
    match StepFor(lastKey, apiKey, probe)
    case MissingKey => None
    case KeepClient => lastKey
    case Rebuild => if construction.Normal? then Some(apiKey) else None
  }

  /** A Genkit client; once built it does not change. */
  class GenkitInstance {
    /** The key given to its Google AI plugin; `None` when it has no plugins. */
    const googleAiKey: Option<string>
    const defaultModel: Option<string>

    /** `genkit({ plugins: [] })` */
    constructor Unconfigured()
      ensures googleAiKey == None && defaultModel == None
    {
      googleAiKey := None;
      defaultModel := None;
    }

    /** `genkit({ plugins: [googleAI({ apiKey })], model: DEFAULT_MODEL_NAME })` */
    constructor WithGoogleAi(apiKey: string)
      ensures googleAiKey == Some(apiKey) && defaultModel == Some(DefaultModelName)
    {
      googleAiKey := Some(apiKey);
      defaultModel := Some(DefaultModelName);
    }
  }

  /** The module's state: the exported client `ai` and the key it was last
      configured with. */
  class GenkitModule {
    var ai: GenkitInstance
    var lastConfiguredApiKey: Option<string>

    /** The recorded key is never empty, it is exactly the key the live
        client was built with, and the client has the default model exactly
        when it has the Google AI plugin. */
    ghost predicate Valid()
      reads this
    {
      lastConfiguredApiKey != Some("") && ai.googleAiKey == lastConfiguredApiKey
      && ai.defaultModel == (if ai.googleAiKey.None? then None else Some(DefaultModelName))
    }

    /** The state when the module is loaded. */
    constructor ()
      ensures Valid() && fresh(ai)
      ensures ai.googleAiKey == None && ai.defaultModel == None && lastConfiguredApiKey == None
    {
      ai := new GenkitInstance.Unconfigured();
      lastConfiguredApiKey := None;
    }

    method ConfigureGenkitInstance(apiKey: string, probe: RegistryProbe, construction: Completion<()>)
      returns (outcome: Completion<()>)
      requires Valid()
      modifies this
      ensures Valid()
      ensures outcome == ConfigureOutcome(old(lastConfiguredApiKey), apiKey, probe, construction)
      ensures lastConfiguredApiKey == NextConfiguredKey(old(lastConfiguredApiKey), apiKey, probe, construction)
      ensures StepFor(old(lastConfiguredApiKey), apiKey, probe) == MissingKey ==>
        if old(lastConfiguredApiKey) == None then ai == old(ai)
        else fresh(ai) && ai.googleAiKey == None && ai.defaultModel == None
      ensures StepFor(old(lastConfiguredApiKey), apiKey, probe) == KeepClient ==> ai == old(ai)
      ensures StepFor(old(lastConfiguredApiKey), apiKey, probe) == Rebuild ==>
        fresh(ai) && ai.googleAiKey == (if construction.Normal? then Some(apiKey) else None)
        && ai.defaultModel == (if construction.Normal? then Some(DefaultModelName) else None)
    {
      if apiKey == "" {
        if lastConfiguredApiKey != None {
          ai := new GenkitInstance.Unconfigured();
          lastConfiguredApiKey := None;
        }
        return Threw(Error(ApiKeyRequiredForAi));
      }
      if Some(apiKey) == lastConfiguredApiKey {
        if probe.ModelCount? && probe.count > 0 {
          return Normal(());
        }
      }
      if construction.Normal? {
        ai := new GenkitInstance.WithGoogleAi(apiKey);
        lastConfiguredApiKey := Some(apiKey);
        outcome := Normal(());
      } else {
        ai := new GenkitInstance.Unconfigured();
        lastConfiguredApiKey := None;
        outcome := Threw(Error(ConfigFailureMessage(construction.thrown)));
      }
    }
  }

  /** An empty key always makes the call throw the "API Key is required"
      error and leaves no key recorded. */
  lemma EmptyKeyThrows(lastKey: Option<string>, probe: RegistryProbe, construction: Completion<()>)
    ensures ConfigureOutcome(lastKey, "", probe, construction) == Threw(Error(ApiKeyRequiredForAi))
    ensures NextConfiguredKey(lastKey, "", probe, construction) == None
  {
  }

  /** Supplying the recorded key again while the registry lists a model
      changes nothing and throws nothing. */
  lemma SameKeyWithModelsIsNoOp(key: string, count: nat, construction: Completion<()>)
    requires key != "" && count > 0
    ensures ConfigureOutcome(Some(key), key, ModelCount(count), construction) == Normal(())
    ensures NextConfiguredKey(Some(key), key, ModelCount(count), construction) == Some(key)
  {
  }

  /** The client is rebuilt exactly when the key is non-empty and either
      differs from the recorded one or the registry probe finds no model. */
  lemma RebuildIff(lastKey: Option<string>, apiKey: string, probe: RegistryProbe)
    ensures StepFor(lastKey, apiKey, probe) == Rebuild <==>
      apiKey != "" && (lastKey != Some(apiKey) || probe == ProbeThrew || probe == ModelCount(0))
  {
  }

  /** A rebuild that succeeds records the supplied key; one that fails
      records none and throws a mapped message. */
  lemma RebuildResult(lastKey: Option<string>, apiKey: string, probe: RegistryProbe, construction: Completion<()>)
    requires StepFor(lastKey, apiKey, probe) == Rebuild
    ensures construction.Normal? ==>
      NextConfiguredKey(lastKey, apiKey, probe, construction) == Some(apiKey)
      && ConfigureOutcome(lastKey, apiKey, probe, construction) == Normal(())
    ensures construction.Threw? ==>
      NextConfiguredKey(lastKey, apiKey, probe, construction) == None
      && ConfigureOutcome(lastKey, apiKey, probe, construction)
         == Threw(Error(ConfigFailureMessage(construction.thrown)))
  {
  }

  /** The call returns normally exactly when, afterwards, the recorded key
      is the supplied one; every failure is an `Error` and leaves no key
      recorded. */
  lemma NormalIffKeyRecorded(lastKey: Option<string>, apiKey: string, probe: RegistryProbe,
                             construction: Completion<()>)
    requires lastKey != Some("")
    ensures ConfigureOutcome(lastKey, apiKey, probe, construction).Normal?
      <==> NextConfiguredKey(lastKey, apiKey, probe, construction) == Some(apiKey)
    ensures ConfigureOutcome(lastKey, apiKey, probe, construction).Threw? ==>
      ConfigureOutcome(lastKey, apiKey, probe, construction).thrown.Error?
      && NextConfiguredKey(lastKey, apiKey, probe, construction) == None
  {
  }

  /** The recorded key is never the empty string: it only ever becomes
      `undefined` or a non-empty supplied key. */
  lemma RecordedKeyNeverEmpty(lastKey: Option<string>, apiKey: string, probe: RegistryProbe,
                              construction: Completion<()>)
    requires lastKey != Some("")
    ensures NextConfiguredKey(lastKey, apiKey, probe, construction) != Some("")
  {
  }
}
