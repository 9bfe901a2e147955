/** One request end to end: `handleVectorizeImageAction` calling
    `configureGenkitInstance` on the shared client module and then
    `vectorizeImage`, with the two library calls (building the client and
    generating) and the registry probe as inputs. */
module Pipeline {
  import opened Outcomes
  import opened JsString
  import Genkit
  import opened VectorizeImageFlow
  import opened Actions

  /** How the awaited `vectorizeImage(input)` looks to the request handler:
      the output it returned, or the value it threw. */
  function SeenByHandler(run: FlowRun): Completion<Option<VectorizeImageOutput>> {
    match run.completion
    case Normal(output) => Normal(Some(output))
    case Threw(e) => Threw(e)
  }

  /** The handler's result when the key recorded before the request is
      `lastKey`. */
  function Vectorize(drawingDataUri: string, apiKey: string, lastKey: Option<string>,
                     probe: Genkit.RegistryProbe, construction: Completion<()>,
                     generation: Completion<GenerateResponse>): VectorizeResult
  {
    HandleVectorizeImageAction(drawingDataUri, apiKey,
      Genkit.ConfigureOutcome(lastKey, apiKey, probe, construction),
      SeenByHandler(VectorizeImage(generation)))
  }

  /** A request against the module's state. The client is configured only
      once the arguments have passed validation, and with the key exactly
      as given: the handler trims it only to test it. */
  method HandleRequest(m: Genkit.GenkitModule, drawingDataUri: string, apiKey: string,
                       probe: Genkit.RegistryProbe, construction: Completion<()>,
                       generation: Completion<GenerateResponse>)
    returns (r: VectorizeResult)
    requires m.Valid()
    modifies m
    ensures m.Valid()
    ensures r == Vectorize(drawingDataUri, apiKey, old(m.lastConfiguredApiKey), probe, construction, generation)
    ensures !PassesValidation(drawingDataUri, apiKey) ==>
      m.lastConfiguredApiKey == old(m.lastConfiguredApiKey) && m.ai == old(m.ai)
    ensures PassesValidation(drawingDataUri, apiKey) ==>
      m.lastConfiguredApiKey == Genkit.NextConfiguredKey(old(m.lastConfiguredApiKey), apiKey, probe, construction)
    ensures r.svgData.Some? ==> m.lastConfiguredApiKey == Some(apiKey)
  {
    var configure: Completion<()> := Normal(());
    if PassesValidation(drawingDataUri, apiKey) {
      Genkit.NormalIffKeyRecorded(m.lastConfiguredApiKey, apiKey, probe, construction);
      configure := m.ConfigureGenkitInstance(apiKey, probe, construction);
    }
    r := HandleVectorizeImageAction(drawingDataUri, apiKey, configure, SeenByHandler(VectorizeImage(generation)));
  }

  /** The flow never returns a missing output or an empty `svgData`, so the
      handler's own "no SVG data" branch is never taken. */
  lemma FlowNeverReturnsEmpty(generation: Completion<GenerateResponse>)
    ensures SeenByHandler(VectorizeImage(generation)).Normal? ==>
      SeenByHandler(VectorizeImage(generation)).value.Some?
      && SeenByHandler(VectorizeImage(generation)).value.value.svgData != ""
  {
  }

  /** A request returns SVG exactly when the arguments pass validation, the
      client is (or already was) configured, and the model returns a
      non-empty `svgData`; that text is returned untrimmed. */
  lemma SuccessIff(drawingDataUri: string, apiKey: string, lastKey: Option<string>,
                   probe: Genkit.RegistryProbe, construction: Completion<()>,
                   generation: Completion<GenerateResponse>)
    ensures Vectorize(drawingDataUri, apiKey, lastKey, probe, construction, generation).svgData.Some? <==>
      PassesValidation(drawingDataUri, apiKey)
      && Genkit.ConfigureOutcome(lastKey, apiKey, probe, construction).Normal?
      && generation.Normal? && generation.value.output.Some? && generation.value.output.value.svgData != ""
    ensures Vectorize(drawingDataUri, apiKey, lastKey, probe, construction, generation).svgData.Some? ==>
      Vectorize(drawingDataUri, apiKey, lastKey, probe, construction, generation).svgData.value
      == generation.value.output.value.svgData
  {
  }

  /** A key that passes the handler's check is never empty, so the client
      configuration's own "API Key is required" error cannot occur. */
  lemma ConfigureNeverSeesMissingKey(lastKey: Option<string>, apiKey: string, probe: Genkit.RegistryProbe)
    requires !IsBlank(apiKey)
    ensures Genkit.StepFor(lastKey, apiKey, probe) != Genkit.MissingKey
  {
  }

  /** Once validation passes, the result is that of the `try` block over
      configuration and the flow. */
  lemma ValidatedRequestTries(drawingDataUri: string, apiKey: string, lastKey: Option<string>,
                              probe: Genkit.RegistryProbe, construction: Completion<()>,
                              generation: Completion<GenerateResponse>)
    requires PassesValidation(drawingDataUri, apiKey)
    ensures Vectorize(drawingDataUri, apiKey, lastKey, probe, construction, generation)
      == TryVectorize(Genkit.ConfigureOutcome(lastKey, apiKey, probe, construction),
                      SeenByHandler(VectorizeImage(generation)))
  {
  }

  /** What the caller sees when building the client fails: a rejected key
      keeps its message, the configuration's quota message is replaced by the
      handler's own, and the permission and generic messages pass through
      unchanged. The flow's outcome plays no part. */
  lemma ConfigureFailureMessages(lastKey: Option<string>, apiKey: string, probe: Genkit.RegistryProbe,
                                 e: Thrown, flow: Completion<Option<VectorizeImageOutput>>)
    requires Genkit.StepFor(lastKey, apiKey, probe) == Genkit.Rebuild
    ensures e.Error? && Genkit.MentionsInvalidKey(e.message) ==>
      TryVectorize(Genkit.ConfigureOutcome(lastKey, apiKey, probe, Threw(e)), flow) == Failure(KeyNotValid)
    ensures (e.Error? && !Genkit.MentionsInvalidKey(e.message) && Genkit.MentionsQuota(e.message)) ==>
      TryVectorize(Genkit.ConfigureOutcome(lastKey, apiKey, probe, Threw(e)), flow) == Failure(QuotaIssue)
    ensures (e.Error? && !Genkit.MentionsInvalidKey(e.message) && !Genkit.MentionsQuota(e.message)
             && Genkit.MentionsPermissionDenied(e.message)) ==>
      TryVectorize(Genkit.ConfigureOutcome(lastKey, apiKey, probe, Threw(e)), flow) == Failure(Genkit.PermissionProblem)
    ensures (!e.Error? || (!Genkit.MentionsInvalidKey(e.message) && !Genkit.MentionsQuota(e.message)
             && !Genkit.MentionsPermissionDenied(e.message))) ==>
      TryVectorize(Genkit.ConfigureOutcome(lastKey, apiKey, probe, Threw(e)), flow) == Failure(Genkit.ConfigureFailed)
  {
    var m := Genkit.ConfigFailureMessage(e);
    assert Genkit.ConfigureOutcome(lastKey, apiKey, probe, Threw(e)) == Threw(Error(m));
    ConfigFailureMessageMapped(e);
  }

  /** The handler's mapping applied to each message the client configuration
      can throw when building the client fails. */
  lemma ConfigFailureMessageMapped(e: Thrown)
    ensures e.Error? && Genkit.MentionsInvalidKey(e.message) ==>
      MapErrorMessage(Genkit.ConfigFailureMessage(e)) == KeyNotValid
    ensures (e.Error? && !Genkit.MentionsInvalidKey(e.message) && Genkit.MentionsQuota(e.message)) ==>
      MapErrorMessage(Genkit.ConfigFailureMessage(e)) == QuotaIssue
    ensures (e.Error? && !Genkit.MentionsInvalidKey(e.message) && !Genkit.MentionsQuota(e.message)
             && Genkit.MentionsPermissionDenied(e.message)) ==>
      MapErrorMessage(Genkit.ConfigFailureMessage(e)) == Genkit.PermissionProblem
    ensures (!e.Error? || (!Genkit.MentionsInvalidKey(e.message) && !Genkit.MentionsQuota(e.message)
             && !Genkit.MentionsPermissionDenied(e.message))) ==>
      MapErrorMessage(Genkit.ConfigFailureMessage(e)) == Genkit.ConfigureFailed
  {
    var m := Genkit.ConfigFailureMessage(e);
    if m == Genkit.KeyNotValid {
      KeyNotValidUnmapped();
    } else if m == Genkit.QuotaProblem {
      QuotaProblemRemapped();
    } else if m == Genkit.PermissionProblem {
      PermissionProblemKept();
    } else {
      ConfigureFailedKept();
    }
  }

  /** What the caller sees when the flow fails after the client is
      configured: a missing output gives the flow's own message, an
      unavailable model the flow's replacement, and anything else goes
      through the handler's mapping. */
  lemma FlowFailureMessages(generation: Completion<GenerateResponse>)
    ensures (generation.Normal? && (generation.value.output.None? || generation.value.output.value.svgData == "")) ==>
      TryVectorize(Normal(()), SeenByHandler(VectorizeImage(generation))) == Failure(MissingSvgData)
    ensures (generation.Threw? && generation.thrown.Error? && Includes(generation.thrown.message, NotAvailableMarker)) ==>
      TryVectorize(Normal(()), SeenByHandler(VectorizeImage(generation))) == Failure(ModelUnavailable)
    ensures (generation.Threw? && !(generation.thrown.Error? && Includes(generation.thrown.message, NotAvailableMarker))) ==>
      TryVectorize(Normal(()), SeenByHandler(VectorizeImage(generation))) == Failure(MapErrorMessage(MessageOf(generation.thrown)))
  {
    if generation.Normal? && (generation.value.output.None? || generation.value.output.value.svgData == "") {
      MissingOutputFails(generation.value);
      MissingSvgDataKept();
    }
    ModelUnavailableKept();
  }

  lemma QuotaProblemRemapped()
    ensures MapErrorMessage(Genkit.QuotaProblem) == QuotaIssue
  {
    QuotaProblemNoApiKeyNotValid();
    QuotaProblemNoInvalidApiKey();
    QuotaProblemNoDeadline();
    QuotaProblemNoTimeout();
    assert MatchAt(ToLower(Genkit.QuotaProblem), "quota", 55);
  }

  lemma PermissionProblemKept()
    ensures MapErrorMessage(Genkit.PermissionProblem) == Genkit.PermissionProblem
  {
    PermissionProblemNoApiKeyNotValid();
    PermissionProblemNoInvalidApiKey();
    PermissionProblemNoDeadline();
    PermissionProblemNoTimeout();
    PermissionProblemNoQuota();
  }

  lemma ConfigureFailedKept()
    ensures MapErrorMessage(Genkit.ConfigureFailed) == Genkit.ConfigureFailed
  {
    ConfigureFailedNoApiKeyNotValid();
    ConfigureFailedNoInvalidApiKey();
    ConfigureFailedNoDeadline();
    ConfigureFailedNoTimeout();
    ConfigureFailedNoQuota();
  }

  lemma ModelUnavailableKept()
    ensures MapErrorMessage(ModelUnavailable) == ModelUnavailable
  {
    ModelUnavailableNoApiKeyNotValid();
    ModelUnavailableNoInvalidApiKey();
    ModelUnavailableNoDeadline();
    ModelUnavailableNoTimeout();
    ModelUnavailableNoQuota();
  }

  lemma MissingSvgDataKept()
    ensures MapErrorMessage(MissingSvgData) == MissingSvgData
  {
    MissingSvgDataNoApiKeyNotValid();
    MissingSvgDataNoInvalidApiKey();
    MissingSvgDataNoDeadline();
    MissingSvgDataNoTimeout();
    MissingSvgDataNoQuota();
  }

  // ----- Which phrases the fixed messages contain -----

  lemma QuotaProblemNoApiKeyNotValidUpTo71()
    ensures NoMatchBefore(ToLower(Genkit.QuotaProblem), "api key not valid", 71)
  {
    var s := ToLower(Genkit.QuotaProblem);
    ScanBlocker(s, "api key not valid", 0, 16);
    ScanBlocker(s, "api key not valid", 17, 27);
    ScanBlocker(s, "api key not valid", 28, 44);
    ScanBlocker(s, "api key not valid", 45, 56);
    ScanBlocker(s, "api key not valid", 57, 70);
  }

  /** `QuotaProblem` does not contain "api key not valid" in any letter case. */
  lemma QuotaProblemNoApiKeyNotValid()
    ensures !Includes(ToLower(Genkit.QuotaProblem), "api key not valid")
  {
    var s := ToLower(Genkit.QuotaProblem);
    QuotaProblemNoApiKeyNotValidUpTo71();
    ScanBlocker(s, "api key not valid", 71, 87);
    ScanBlocker(s, "api key not valid", 88, 103);
    ScanDone(s, "api key not valid", 104);
  }

  lemma QuotaProblemNoInvalidApiKeyUpTo71()
    ensures NoMatchBefore(ToLower(Genkit.QuotaProblem), "invalid api key", 71)
  {
    var s := ToLower(Genkit.QuotaProblem);
    ScanBlocker(s, "invalid api key", 0, 12);
    ScanBlocker(s, "invalid api key", 13, 27);
    ScanBlocker(s, "invalid api key", 28, 42);
    ScanBlocker(s, "invalid api key", 43, 57);
    ScanBlocker(s, "invalid api key", 58, 70);
  }

  /** `QuotaProblem` does not contain "invalid api key" in any letter case. */
  lemma QuotaProblemNoInvalidApiKey()
    ensures !Includes(ToLower(Genkit.QuotaProblem), "invalid api key")
  {
    var s := ToLower(Genkit.QuotaProblem);
    QuotaProblemNoInvalidApiKeyUpTo71();
    ScanBlocker(s, "invalid api key", 71, 82);
    ScanBlocker(s, "invalid api key", 83, 97);
    ScanDone(s, "invalid api key", 98);
  }

  lemma QuotaProblemNoDeadlineUpTo36()
    ensures NoMatchBefore(Genkit.QuotaProblem, "deadline", 36)
  {
    var s := Genkit.QuotaProblem;
    ScanBlocker(s, "deadline", 0, 7);
    ScanBlocker(s, "deadline", 8, 15);
    ScanBlocker(s, "deadline", 16, 19);
    ScanBlocker(s, "deadline", 20, 27);
    ScanBlocker(s, "deadline", 28, 35);
  }

  lemma QuotaProblemNoDeadlineUpTo72()
    ensures NoMatchBefore(Genkit.QuotaProblem, "deadline", 72)
  {
    var s := Genkit.QuotaProblem;
    QuotaProblemNoDeadlineUpTo36();
    ScanBlocker(s, "deadline", 36, 43);
    ScanBlocker(s, "deadline", 44, 51);
    ScanBlocker(s, "deadline", 52, 58);
    ScanBlocker(s, "deadline", 59, 63);
    ScanBlocker(s, "deadline", 64, 71);
  }

  /** `QuotaProblem` does not contain "deadline". */
  lemma QuotaProblemNoDeadline()
    ensures !Includes(Genkit.QuotaProblem, "deadline")
  {
    var s := Genkit.QuotaProblem;
    QuotaProblemNoDeadlineUpTo72();
    ScanBlocker(s, "deadline", 72, 79);
    ScanBlocker(s, "deadline", 80, 87);
    ScanBlocker(s, "deadline", 88, 93);
    ScanBlocker(s, "deadline", 94, 100);
    ScanBlocker(s, "deadline", 101, 107);
    ScanDone(s, "deadline", 108);
  }

  lemma QuotaProblemNoTimeoutUpTo33()
    ensures NoMatchBefore(ToLower(Genkit.QuotaProblem), "timeout", 33)
  {
    var s := ToLower(Genkit.QuotaProblem);
    ScanBlocker(s, "timeout", 0, 5);
    ScanBlocker(s, "timeout", 6, 11);
    ScanBlocker(s, "timeout", 12, 18);
    ScanBlocker(s, "timeout", 19, 25);
    ScanBlocker(s, "timeout", 26, 32);
  }

  lemma QuotaProblemNoTimeoutUpTo63()
    ensures NoMatchBefore(ToLower(Genkit.QuotaProblem), "timeout", 63)
  {
    var s := ToLower(Genkit.QuotaProblem);
    QuotaProblemNoTimeoutUpTo33();
    ScanBlocker(s, "timeout", 33, 38);
    ScanBlocker(s, "timeout", 39, 44);
    ScanBlocker(s, "timeout", 45, 51);
    ScanBlocker(s, "timeout", 52, 55);
    ScanBlocker(s, "timeout", 56, 62);
  }

  lemma QuotaProblemNoTimeoutUpTo98()
    ensures NoMatchBefore(ToLower(Genkit.QuotaProblem), "timeout", 98)
  {
    var s := ToLower(Genkit.QuotaProblem);
    QuotaProblemNoTimeoutUpTo63();
    ScanBlocker(s, "timeout", 63, 69);
    ScanBlocker(s, "timeout", 70, 76);
    ScanBlocker(s, "timeout", 77, 83);
    ScanBlocker(s, "timeout", 84, 90);
    ScanBlocker(s, "timeout", 91, 97);
  }

  /** `QuotaProblem` does not contain "timeout" in any letter case. */
  lemma QuotaProblemNoTimeout()
    ensures !Includes(ToLower(Genkit.QuotaProblem), "timeout")
  {
    var s := ToLower(Genkit.QuotaProblem);
    QuotaProblemNoTimeoutUpTo98();
    ScanBlocker(s, "timeout", 98, 103);
    ScanBlocker(s, "timeout", 104, 110);
    ScanDone(s, "timeout", 111);
  }

  /** `ConfigureFailed` does not contain "api key not valid" in any letter case. */
  lemma ConfigureFailedNoApiKeyNotValid()
    ensures !Includes(ToLower(Genkit.ConfigureFailed), "api key not valid")
  {
    var s := ToLower(Genkit.ConfigureFailed);
    ScanBlocker(s, "api key not valid", 0, 16);
    ScanBlocker(s, "api key not valid", 17, 31);
    ScanBlocker(s, "api key not valid", 32, 41);
    ScanBlocker(s, "api key not valid", 42, 56);
    ScanBlocker(s, "api key not valid", 57, 72);
    ScanBlocker(s, "api key not valid", 73, 88);
    ScanDone(s, "api key not valid", 89);
  }

  /** `ConfigureFailed` does not contain "invalid api key" in any letter case. */
  lemma ConfigureFailedNoInvalidApiKey()
    ensures !Includes(ToLower(Genkit.ConfigureFailed), "invalid api key")
  {
    var s := ToLower(Genkit.ConfigureFailed);
    ScanBlocker(s, "invalid api key", 0, 13);
    ScanBlocker(s, "invalid api key", 14, 28);
    ScanBlocker(s, "invalid api key", 29, 42);
    ScanBlocker(s, "invalid api key", 43, 56);
    ScanBlocker(s, "invalid api key", 57, 71);
    ScanBlocker(s, "invalid api key", 72, 84);
    ScanDone(s, "invalid api key", 85);
  }

  lemma ConfigureFailedNoDeadlineUpTo40()
    ensures NoMatchBefore(Genkit.ConfigureFailed, "deadline", 40)
  {
    var s := Genkit.ConfigureFailed;
    ScanBlocker(s, "deadline", 0, 7);
    ScanBlocker(s, "deadline", 8, 15);
    ScanBlocker(s, "deadline", 16, 23);
    ScanBlocker(s, "deadline", 24, 31);
    ScanBlocker(s, "deadline", 32, 39);
  }

  lemma ConfigureFailedNoDeadlineUpTo75()
    ensures NoMatchBefore(Genkit.ConfigureFailed, "deadline", 75)
  {
    var s := Genkit.ConfigureFailed;
    ConfigureFailedNoDeadlineUpTo40();
    ScanBlocker(s, "deadline", 40, 43);
    ScanBlocker(s, "deadline", 44, 51);
    ScanBlocker(s, "deadline", 52, 58);
    ScanBlocker(s, "deadline", 59, 66);
    ScanBlocker(s, "deadline", 67, 74);
  }

  /** `ConfigureFailed` does not contain "deadline". */
  lemma ConfigureFailedNoDeadline()
    ensures !Includes(Genkit.ConfigureFailed, "deadline")
  {
    var s := Genkit.ConfigureFailed;
    ConfigureFailedNoDeadlineUpTo75();
    ScanBlocker(s, "deadline", 75, 82);
    ScanBlocker(s, "deadline", 83, 88);
    ScanDone(s, "deadline", 89);
  }

  lemma ConfigureFailedNoTimeoutUpTo32()
    ensures NoMatchBefore(ToLower(Genkit.ConfigureFailed), "timeout", 32)
  {
    var s := ToLower(Genkit.ConfigureFailed);
    ScanBlocker(s, "timeout", 0, 6);
    ScanBlocker(s, "timeout", 7, 13);
    ScanBlocker(s, "timeout", 14, 20);
    ScanBlocker(s, "timeout", 21, 26);
    ScanBlocker(s, "timeout", 27, 31);
  }

  lemma ConfigureFailedNoTimeoutUpTo65()
    ensures NoMatchBefore(ToLower(Genkit.ConfigureFailed), "timeout", 65)
  {
    var s := ToLower(Genkit.ConfigureFailed);
    ConfigureFailedNoTimeoutUpTo32();
    ScanBlocker(s, "timeout", 32, 37);
    ScanBlocker(s, "timeout", 38, 43);
    ScanBlocker(s, "timeout", 44, 50);
    ScanBlocker(s, "timeout", 51, 57);
    ScanBlocker(s, "timeout", 58, 64);
  }

  /** `ConfigureFailed` does not contain "timeout" in any letter case. */
  lemma ConfigureFailedNoTimeout()
    ensures !Includes(ToLower(Genkit.ConfigureFailed), "timeout")
  {
    var s := ToLower(Genkit.ConfigureFailed);
    ConfigureFailedNoTimeoutUpTo65();
    ScanBlocker(s, "timeout", 65, 70);
    ScanBlocker(s, "timeout", 71, 77);
    ScanBlocker(s, "timeout", 78, 84);
    ScanBlocker(s, "timeout", 85, 91);
    ScanDone(s, "timeout", 92);
  }

  lemma ConfigureFailedNoQuotaUpTo25()
    ensures NoMatchBefore(ToLower(Genkit.ConfigureFailed), "quota", 25)
  {
    var s := ToLower(Genkit.ConfigureFailed);
    ScanBlocker(s, "quota", 0, 4);
    ScanBlocker(s, "quota", 5, 9);
    ScanBlocker(s, "quota", 10, 14);
    ScanBlocker(s, "quota", 15, 19);
    ScanBlocker(s, "quota", 20, 24);
  }

  lemma ConfigureFailedNoQuotaUpTo49()
    ensures NoMatchBefore(ToLower(Genkit.ConfigureFailed), "quota", 49)
  {
    var s := ToLower(Genkit.ConfigureFailed);
    ConfigureFailedNoQuotaUpTo25();
    ScanBlocker(s, "quota", 25, 29);
    ScanBlocker(s, "quota", 30, 34);
    ScanBlocker(s, "quota", 35, 39);
    ScanBlocker(s, "quota", 40, 44);
    ScanBlocker(s, "quota", 45, 48);
  }

  lemma ConfigureFailedNoQuotaUpTo74()
    ensures NoMatchBefore(ToLower(Genkit.ConfigureFailed), "quota", 74)
  {
    var s := ToLower(Genkit.ConfigureFailed);
    ConfigureFailedNoQuotaUpTo49();
    ScanBlocker(s, "quota", 49, 53);
    ScanBlocker(s, "quota", 54, 58);
    ScanBlocker(s, "quota", 59, 63);
    ScanBlocker(s, "quota", 64, 68);
    ScanBlocker(s, "quota", 69, 73);
  }

  /** `ConfigureFailed` does not contain "quota" in any letter case. */
  lemma ConfigureFailedNoQuota()
    ensures !Includes(ToLower(Genkit.ConfigureFailed), "quota")
  {
    var s := ToLower(Genkit.ConfigureFailed);
    ConfigureFailedNoQuotaUpTo74();
    ScanBlocker(s, "quota", 74, 78);
    ScanBlocker(s, "quota", 79, 82);
    ScanBlocker(s, "quota", 83, 86);
    ScanBlocker(s, "quota", 87, 91);
    ScanDone(s, "quota", 92);
  }

  lemma ModelUnavailableNoApiKeyNotValidUpTo72()
    ensures NoMatchBefore(ToLower(ModelUnavailable), "api key not valid", 72)
  {
    var s := ToLower(ModelUnavailable);
    ScanBlocker(s, "api key not valid", 0, 16);
    ScanBlocker(s, "api key not valid", 17, 26);
    ScanBlocker(s, "api key not valid", 27, 39);
    ScanBlocker(s, "api key not valid", 40, 56);
    ScanBlocker(s, "api key not valid", 57, 71);
  }

  /** `ModelUnavailable` does not contain "api key not valid" in any letter case. */
  lemma ModelUnavailableNoApiKeyNotValid()
    ensures !Includes(ToLower(ModelUnavailable), "api key not valid")
  {
    var s := ToLower(ModelUnavailable);
    ModelUnavailableNoApiKeyNotValidUpTo72();
    ScanBlocker(s, "api key not valid", 72, 81);
    ScanBlocker(s, "api key not valid", 82, 96);
    ScanDone(s, "api key not valid", 97);
  }

  lemma ModelUnavailableNoInvalidApiKeyUpTo66()
    ensures NoMatchBefore(ToLower(ModelUnavailable), "invalid api key", 66)
  {
    var s := ToLower(ModelUnavailable);
    ScanBlocker(s, "invalid api key", 0, 14);
    ScanBlocker(s, "invalid api key", 15, 26);
    ScanBlocker(s, "invalid api key", 27, 39);
    ScanBlocker(s, "invalid api key", 40, 52);
    ScanBlocker(s, "invalid api key", 53, 65);
  }

  /** `ModelUnavailable` does not contain "invalid api key" in any letter case. */
  lemma ModelUnavailableNoInvalidApiKey()
    ensures !Includes(ToLower(ModelUnavailable), "invalid api key")
  {
    var s := ToLower(ModelUnavailable);
    ModelUnavailableNoInvalidApiKeyUpTo66();
    ScanBlocker(s, "invalid api key", 66, 80);
    ScanBlocker(s, "invalid api key", 81, 81);
    ScanBlocker(s, "invalid api key", 82, 96);
    ScanDone(s, "invalid api key", 97);
  }

  lemma ModelUnavailableNoDeadlineUpTo38()
    ensures NoMatchBefore(ModelUnavailable, "deadline", 38)
  {
    var s := ModelUnavailable;
    ScanBlocker(s, "deadline", 0, 7);
    ScanBlocker(s, "deadline", 8, 15);
    ScanBlocker(s, "deadline", 16, 22);
    ScanBlocker(s, "deadline", 23, 29);
    ScanBlocker(s, "deadline", 30, 37);
  }

  lemma ModelUnavailableNoDeadlineUpTo76()
    ensures NoMatchBefore(ModelUnavailable, "deadline", 76)
  {
    var s := ModelUnavailable;
    ModelUnavailableNoDeadlineUpTo38();
    ScanBlocker(s, "deadline", 38, 45);
    ScanBlocker(s, "deadline", 46, 52);
    ScanBlocker(s, "deadline", 53, 59);
    ScanBlocker(s, "deadline", 60, 67);
    ScanBlocker(s, "deadline", 68, 75);
  }

  /** `ModelUnavailable` does not contain "deadline". */
  lemma ModelUnavailableNoDeadline()
    ensures !Includes(ModelUnavailable, "deadline")
  {
    var s := ModelUnavailable;
    ModelUnavailableNoDeadlineUpTo76();
    ScanBlocker(s, "deadline", 76, 83);
    ScanBlocker(s, "deadline", 84, 91);
    ScanBlocker(s, "deadline", 92, 97);
    ScanBlocker(s, "deadline", 98, 104);
    ScanDone(s, "deadline", 105);
  }

  lemma ModelUnavailableNoTimeoutUpTo33()
    ensures NoMatchBefore(ToLower(ModelUnavailable), "timeout", 33)
  {
    var s := ToLower(ModelUnavailable);
    ScanBlocker(s, "timeout", 0, 6);
    ScanBlocker(s, "timeout", 7, 12);
    ScanBlocker(s, "timeout", 13, 19);
    ScanBlocker(s, "timeout", 20, 25);
    ScanBlocker(s, "timeout", 26, 32);
  }

  lemma ModelUnavailableNoTimeoutUpTo67()
    ensures NoMatchBefore(ToLower(ModelUnavailable), "timeout", 67)
  {
    var s := ToLower(ModelUnavailable);
    ModelUnavailableNoTimeoutUpTo33();
    ScanBlocker(s, "timeout", 33, 39);
    ScanBlocker(s, "timeout", 40, 45);
    ScanBlocker(s, "timeout", 46, 52);
    ScanBlocker(s, "timeout", 53, 59);
    ScanBlocker(s, "timeout", 60, 66);
  }

  /** `ModelUnavailable` does not contain "timeout" in any letter case. */
  lemma ModelUnavailableNoTimeout()
    ensures !Includes(ToLower(ModelUnavailable), "timeout")
  {
    var s := ToLower(ModelUnavailable);
    ModelUnavailableNoTimeoutUpTo67();
    ScanBlocker(s, "timeout", 67, 73);
    ScanBlocker(s, "timeout", 74, 79);
    ScanBlocker(s, "timeout", 80, 85);
    ScanBlocker(s, "timeout", 86, 92);
    ScanBlocker(s, "timeout", 93, 98);
    ScanBlocker(s, "timeout", 99, 103);
    ScanDone(s, "timeout", 104);
  }

  lemma ModelUnavailableNoQuotaUpTo22()
    ensures NoMatchBefore(ToLower(ModelUnavailable), "quota", 22)
  {
    var s := ToLower(ModelUnavailable);
    ScanBlocker(s, "quota", 0, 3);
    ScanBlocker(s, "quota", 4, 7);
    ScanBlocker(s, "quota", 8, 12);
    ScanBlocker(s, "quota", 13, 16);
    ScanBlocker(s, "quota", 17, 21);
  }

  lemma ModelUnavailableNoQuotaUpTo45()
    ensures NoMatchBefore(ToLower(ModelUnavailable), "quota", 45)
  {
    var s := ToLower(ModelUnavailable);
    ModelUnavailableNoQuotaUpTo22();
    ScanBlocker(s, "quota", 22, 25);
    ScanBlocker(s, "quota", 26, 29);
    ScanBlocker(s, "quota", 30, 34);
    ScanBlocker(s, "quota", 35, 39);
    ScanBlocker(s, "quota", 40, 44);
  }

  lemma ModelUnavailableNoQuotaUpTo70()
    ensures NoMatchBefore(ToLower(ModelUnavailable), "quota", 70)
  {
    var s := ToLower(ModelUnavailable);
    ModelUnavailableNoQuotaUpTo45();
    ScanBlocker(s, "quota", 45, 49);
    ScanBlocker(s, "quota", 50, 54);
    ScanBlocker(s, "quota", 55, 59);
    ScanBlocker(s, "quota", 60, 64);
    ScanBlocker(s, "quota", 65, 69);
  }

  lemma ModelUnavailableNoQuotaUpTo94()
    ensures NoMatchBefore(ToLower(ModelUnavailable), "quota", 94)
  {
    var s := ToLower(ModelUnavailable);
    ModelUnavailableNoQuotaUpTo70();
    ScanBlocker(s, "quota", 70, 74);
    ScanBlocker(s, "quota", 75, 79);
    ScanBlocker(s, "quota", 80, 83);
    ScanBlocker(s, "quota", 84, 88);
    ScanBlocker(s, "quota", 89, 93);
  }

  /** `ModelUnavailable` does not contain "quota" in any letter case. */
  lemma ModelUnavailableNoQuota()
    ensures !Includes(ToLower(ModelUnavailable), "quota")
  {
    var s := ToLower(ModelUnavailable);
    ModelUnavailableNoQuotaUpTo94();
    ScanBlocker(s, "quota", 94, 98);
    ScanBlocker(s, "quota", 99, 102);
    ScanDone(s, "quota", 103);
  }

  /** `MissingSvgData` does not contain "api key not valid" in any letter case. */
  lemma MissingSvgDataNoApiKeyNotValid()
    ensures !Includes(ToLower(MissingSvgData), "api key not valid")
  {
    var s := ToLower(MissingSvgData);
    ScanBlocker(s, "api key not valid", 0, 3);
    ScanBlocker(s, "api key not valid", 4, 20);
    ScanBlocker(s, "api key not valid", 21, 37);
    ScanDone(s, "api key not valid", 38);
  }

  /** `MissingSvgData` does not contain "invalid api key" in any letter case. */
  lemma MissingSvgDataNoInvalidApiKey()
    ensures !Includes(ToLower(MissingSvgData), "invalid api key")
  {
    var s := ToLower(MissingSvgData);
    ScanBlocker(s, "invalid api key", 0, 14);
    ScanBlocker(s, "invalid api key", 15, 29);
    ScanBlocker(s, "invalid api key", 30, 43);
    ScanDone(s, "invalid api key", 44);
  }

  lemma MissingSvgDataNoDeadlineUpTo34()
    ensures NoMatchBefore(MissingSvgData, "deadline", 34)
  {
    var s := MissingSvgData;
    ScanBlocker(s, "deadline", 0, 4);
    ScanBlocker(s, "deadline", 5, 12);
    ScanBlocker(s, "deadline", 13, 20);
    ScanBlocker(s, "deadline", 21, 27);
    ScanBlocker(s, "deadline", 28, 33);
  }

  /** `MissingSvgData` does not contain "deadline". */
  lemma MissingSvgDataNoDeadline()
    ensures !Includes(MissingSvgData, "deadline")
  {
    var s := MissingSvgData;
    MissingSvgDataNoDeadlineUpTo34();
    ScanBlocker(s, "deadline", 34, 40);
    ScanBlocker(s, "deadline", 41, 48);
    ScanDone(s, "deadline", 49);
  }

  lemma MissingSvgDataNoTimeoutUpTo31()
    ensures NoMatchBefore(ToLower(MissingSvgData), "timeout", 31)
  {
    var s := ToLower(MissingSvgData);
    ScanBlocker(s, "timeout", 0, 5);
    ScanBlocker(s, "timeout", 6, 12);
    ScanBlocker(s, "timeout", 13, 17);
    ScanBlocker(s, "timeout", 18, 23);
    ScanBlocker(s, "timeout", 24, 30);
  }

  /** `MissingSvgData` does not contain "timeout" in any letter case. */
  lemma MissingSvgDataNoTimeout()
    ensures !Includes(ToLower(MissingSvgData), "timeout")
  {
    var s := ToLower(MissingSvgData);
    MissingSvgDataNoTimeoutUpTo31();
    ScanBlocker(s, "timeout", 31, 37);
    ScanBlocker(s, "timeout", 38, 44);
    ScanBlocker(s, "timeout", 45, 50);
    ScanDone(s, "timeout", 51);
  }

  lemma MissingSvgDataNoQuotaUpTo24()
    ensures NoMatchBefore(ToLower(MissingSvgData), "quota", 24)
  {
    var s := ToLower(MissingSvgData);
    ScanBlocker(s, "quota", 0, 3);
    ScanBlocker(s, "quota", 4, 8);
    ScanBlocker(s, "quota", 9, 13);
    ScanBlocker(s, "quota", 14, 18);
    ScanBlocker(s, "quota", 19, 23);
  }

  /** `MissingSvgData` does not contain "quota" in any letter case. */
  lemma MissingSvgDataNoQuota()
    ensures !Includes(ToLower(MissingSvgData), "quota")
  {
    var s := ToLower(MissingSvgData);
    MissingSvgDataNoQuotaUpTo24();
    ScanBlocker(s, "quota", 24, 28);
    ScanBlocker(s, "quota", 29, 32);
    ScanBlocker(s, "quota", 33, 37);
    ScanBlocker(s, "quota", 38, 41);
    ScanBlocker(s, "quota", 42, 46);
    ScanBlocker(s, "quota", 47, 49);
    ScanDone(s, "quota", 50);
  }

  lemma PermissionProblemNoApiKeyNotValidUpTo59()
    ensures NoMatchBefore(ToLower(Genkit.PermissionProblem), "api key not valid", 59)
  {
    var s := ToLower(Genkit.PermissionProblem);
    ScanBlocker(s, "api key not valid", 0, 16);
    ScanBlocker(s, "api key not valid", 17, 32);
    ScanBlocker(s, "api key not valid", 33, 48);
    ScanBlocker(s, "api key not valid", 49, 58);
  }

  lemma PermissionProblemNoApiKeyNotValidUpTo113()
    ensures NoMatchBefore(ToLower(Genkit.PermissionProblem), "api key not valid", 113)
  {
    var s := ToLower(Genkit.PermissionProblem);
    PermissionProblemNoApiKeyNotValidUpTo59();
    ScanBlocker(s, "api key not valid", 59, 72);
    ScanBlocker(s, "api key not valid", 73, 83);
    ScanBlocker(s, "api key not valid", 84, 96);
    ScanBlocker(s, "api key not valid", 97, 112);
  }

  lemma PermissionProblemNoApiKeyNotValidUpTo179()
    ensures NoMatchBefore(ToLower(Genkit.PermissionProblem), "api key not valid", 179)
  {
    var s := ToLower(Genkit.PermissionProblem);
    PermissionProblemNoApiKeyNotValidUpTo113();
    ScanBlocker(s, "api key not valid", 113, 127);
    ScanBlocker(s, "api key not valid", 128, 144);
    ScanBlocker(s, "api key not valid", 145, 161);
    ScanBlocker(s, "api key not valid", 162, 178);
  }

  /** `PermissionProblem` does not contain "api key not valid" in any letter case. */
  lemma PermissionProblemNoApiKeyNotValid()
    ensures !Includes(ToLower(Genkit.PermissionProblem), "api key not valid")
  {
    var s := ToLower(Genkit.PermissionProblem);
    PermissionProblemNoApiKeyNotValidUpTo179();
    ScanBlocker(s, "api key not valid", 179, 195);
    ScanDone(s, "api key not valid", 196);
  }

  lemma PermissionProblemNoInvalidApiKeyUpTo57()
    ensures NoMatchBefore(ToLower(Genkit.PermissionProblem), "invalid api key", 57)
  {
    var s := ToLower(Genkit.PermissionProblem);
    ScanBlocker(s, "invalid api key", 0, 12);
    ScanBlocker(s, "invalid api key", 13, 27);
    ScanBlocker(s, "invalid api key", 28, 42);
    ScanBlocker(s, "invalid api key", 43, 56);
  }

  lemma PermissionProblemNoInvalidApiKeyUpTo107()
    ensures NoMatchBefore(ToLower(Genkit.PermissionProblem), "invalid api key", 107)
  {
    var s := ToLower(Genkit.PermissionProblem);
    PermissionProblemNoInvalidApiKeyUpTo57();
    ScanBlocker(s, "invalid api key", 57, 66);
    ScanBlocker(s, "invalid api key", 67, 79);
    ScanBlocker(s, "invalid api key", 80, 91);
    ScanBlocker(s, "invalid api key", 92, 106);
  }

  lemma PermissionProblemNoInvalidApiKeyUpTo162()
    ensures NoMatchBefore(ToLower(Genkit.PermissionProblem), "invalid api key", 162)
  {
    var s := ToLower(Genkit.PermissionProblem);
    PermissionProblemNoInvalidApiKeyUpTo107();
    ScanBlocker(s, "invalid api key", 107, 119);
    ScanBlocker(s, "invalid api key", 120, 134);
    ScanBlocker(s, "invalid api key", 135, 147);
    ScanBlocker(s, "invalid api key", 148, 161);
  }

  /** `PermissionProblem` does not contain "invalid api key" in any letter case. */
  lemma PermissionProblemNoInvalidApiKey()
    ensures !Includes(ToLower(Genkit.PermissionProblem), "invalid api key")
  {
    var s := ToLower(Genkit.PermissionProblem);
    PermissionProblemNoInvalidApiKeyUpTo162();
    ScanBlocker(s, "invalid api key", 162, 176);
    ScanBlocker(s, "invalid api key", 177, 190);
    ScanDone(s, "invalid api key", 191);
  }

  lemma PermissionProblemNoDeadlineUpTo28()
    ensures NoMatchBefore(Genkit.PermissionProblem, "deadline", 28)
  {
    var s := Genkit.PermissionProblem;
    ScanBlocker(s, "deadline", 0, 7);
    ScanBlocker(s, "deadline", 8, 15);
    ScanBlocker(s, "deadline", 16, 19);
    ScanBlocker(s, "deadline", 20, 27);
  }

  lemma PermissionProblemNoDeadlineUpTo59()
    ensures NoMatchBefore(Genkit.PermissionProblem, "deadline", 59)
  {
    var s := Genkit.PermissionProblem;
    PermissionProblemNoDeadlineUpTo28();
    ScanBlocker(s, "deadline", 28, 35);
    ScanBlocker(s, "deadline", 36, 42);
    ScanBlocker(s, "deadline", 43, 50);
    ScanBlocker(s, "deadline", 51, 58);
  }

  lemma PermissionProblemNoDeadlineUpTo90()
    ensures NoMatchBefore(Genkit.PermissionProblem, "deadline", 90)
  {
    var s := Genkit.PermissionProblem;
    PermissionProblemNoDeadlineUpTo59();
    ScanBlocker(s, "deadline", 59, 66);
    ScanBlocker(s, "deadline", 67, 74);
    ScanBlocker(s, "deadline", 75, 82);
    ScanBlocker(s, "deadline", 83, 89);
  }

  lemma PermissionProblemNoDeadlineUpTo120()
    ensures NoMatchBefore(Genkit.PermissionProblem, "deadline", 120)
  {
    var s := Genkit.PermissionProblem;
    PermissionProblemNoDeadlineUpTo90();
    ScanBlocker(s, "deadline", 90, 96);
    ScanBlocker(s, "deadline", 97, 104);
    ScanBlocker(s, "deadline", 105, 112);
    ScanBlocker(s, "deadline", 113, 119);
  }

  lemma PermissionProblemNoDeadlineUpTo151()
    ensures NoMatchBefore(Genkit.PermissionProblem, "deadline", 151)
  {
    var s := Genkit.PermissionProblem;
    PermissionProblemNoDeadlineUpTo120();
    ScanBlocker(s, "deadline", 120, 127);
    ScanBlocker(s, "deadline", 128, 135);
    ScanBlocker(s, "deadline", 136, 142);
    ScanBlocker(s, "deadline", 143, 150);
  }

  lemma PermissionProblemNoDeadlineUpTo180()
    ensures NoMatchBefore(Genkit.PermissionProblem, "deadline", 180)
  {
    var s := Genkit.PermissionProblem;
    PermissionProblemNoDeadlineUpTo151();
    ScanBlocker(s, "deadline", 151, 158);
    ScanBlocker(s, "deadline", 159, 164);
    ScanBlocker(s, "deadline", 165, 172);
    ScanBlocker(s, "deadline", 173, 179);
  }

  /** `PermissionProblem` does not contain "deadline". */
  lemma PermissionProblemNoDeadline()
    ensures !Includes(Genkit.PermissionProblem, "deadline")
  {
    var s := Genkit.PermissionProblem;
    PermissionProblemNoDeadlineUpTo180();
    ScanBlocker(s, "deadline", 180, 187);
    ScanBlocker(s, "deadline", 188, 195);
    ScanDone(s, "deadline", 196);
  }

  lemma PermissionProblemNoTimeoutUpTo26()
    ensures NoMatchBefore(ToLower(Genkit.PermissionProblem), "timeout", 26)
  {
    var s := ToLower(Genkit.PermissionProblem);
    ScanBlocker(s, "timeout", 0, 5);
    ScanBlocker(s, "timeout", 6, 11);
    ScanBlocker(s, "timeout", 12, 18);
    ScanBlocker(s, "timeout", 19, 25);
  }

  lemma PermissionProblemNoTimeoutUpTo52()
    ensures NoMatchBefore(ToLower(Genkit.PermissionProblem), "timeout", 52)
  {
    var s := ToLower(Genkit.PermissionProblem);
    PermissionProblemNoTimeoutUpTo26();
    ScanBlocker(s, "timeout", 26, 32);
    ScanBlocker(s, "timeout", 33, 38);
    ScanBlocker(s, "timeout", 39, 45);
    ScanBlocker(s, "timeout", 46, 51);
  }

  lemma PermissionProblemNoTimeoutUpTo77()
    ensures NoMatchBefore(ToLower(Genkit.PermissionProblem), "timeout", 77)
  {
    var s := ToLower(Genkit.PermissionProblem);
    PermissionProblemNoTimeoutUpTo52();
    ScanBlocker(s, "timeout", 52, 56);
    ScanBlocker(s, "timeout", 57, 63);
    ScanBlocker(s, "timeout", 64, 69);
    ScanBlocker(s, "timeout", 70, 76);
  }

  lemma PermissionProblemNoTimeoutUpTo104()
    ensures NoMatchBefore(ToLower(Genkit.PermissionProblem), "timeout", 104)
  {
    var s := ToLower(Genkit.PermissionProblem);
    PermissionProblemNoTimeoutUpTo77();
    ScanBlocker(s, "timeout", 77, 83);
    ScanBlocker(s, "timeout", 84, 89);
    ScanBlocker(s, "timeout", 90, 96);
    ScanBlocker(s, "timeout", 97, 103);
  }

  lemma PermissionProblemNoTimeoutUpTo131()
    ensures NoMatchBefore(ToLower(Genkit.PermissionProblem), "timeout", 131)
  {
    var s := ToLower(Genkit.PermissionProblem);
    PermissionProblemNoTimeoutUpTo104();
    ScanBlocker(s, "timeout", 104, 109);
    ScanBlocker(s, "timeout", 110, 116);
    ScanBlocker(s, "timeout", 117, 123);
    ScanBlocker(s, "timeout", 124, 130);
  }

  lemma PermissionProblemNoTimeoutUpTo159()
    ensures NoMatchBefore(ToLower(Genkit.PermissionProblem), "timeout", 159)
  {
    var s := ToLower(Genkit.PermissionProblem);
    PermissionProblemNoTimeoutUpTo131();
    ScanBlocker(s, "timeout", 131, 137);
    ScanBlocker(s, "timeout", 138, 144);
    ScanBlocker(s, "timeout", 145, 151);
    ScanBlocker(s, "timeout", 152, 158);
  }

  lemma PermissionProblemNoTimeoutUpTo187()
    ensures NoMatchBefore(ToLower(Genkit.PermissionProblem), "timeout", 187)
  {
    var s := ToLower(Genkit.PermissionProblem);
    PermissionProblemNoTimeoutUpTo159();
    ScanBlocker(s, "timeout", 159, 165);
    ScanBlocker(s, "timeout", 166, 172);
    ScanBlocker(s, "timeout", 173, 179);
    ScanBlocker(s, "timeout", 180, 186);
  }

  /** `PermissionProblem` does not contain "timeout" in any letter case. */
  lemma PermissionProblemNoTimeout()
    ensures !Includes(ToLower(Genkit.PermissionProblem), "timeout")
  {
    var s := ToLower(Genkit.PermissionProblem);
    PermissionProblemNoTimeoutUpTo187();
    ScanBlocker(s, "timeout", 187, 193);
    ScanDone(s, "timeout", 194);
  }

  lemma PermissionProblemNoQuotaUpTo18()
    ensures NoMatchBefore(ToLower(Genkit.PermissionProblem), "quota", 18)
  {
    var s := ToLower(Genkit.PermissionProblem);
    ScanBlocker(s, "quota", 0, 3);
    ScanBlocker(s, "quota", 4, 8);
    ScanBlocker(s, "quota", 9, 12);
    ScanBlocker(s, "quota", 13, 17);
  }

  lemma PermissionProblemNoQuotaUpTo36()
    ensures NoMatchBefore(ToLower(Genkit.PermissionProblem), "quota", 36)
  {
    var s := ToLower(Genkit.PermissionProblem);
    PermissionProblemNoQuotaUpTo18();
    ScanBlocker(s, "quota", 18, 22);
    ScanBlocker(s, "quota", 23, 26);
    ScanBlocker(s, "quota", 27, 30);
    ScanBlocker(s, "quota", 31, 35);
  }

  lemma PermissionProblemNoQuotaUpTo56()
    ensures NoMatchBefore(ToLower(Genkit.PermissionProblem), "quota", 56)
  {
    var s := ToLower(Genkit.PermissionProblem);
    PermissionProblemNoQuotaUpTo36();
    ScanBlocker(s, "quota", 36, 40);
    ScanBlocker(s, "quota", 41, 45);
    ScanBlocker(s, "quota", 46, 50);
    ScanBlocker(s, "quota", 51, 55);
  }

  lemma PermissionProblemNoQuotaUpTo76()
    ensures NoMatchBefore(ToLower(Genkit.PermissionProblem), "quota", 76)
  {
    var s := ToLower(Genkit.PermissionProblem);
    PermissionProblemNoQuotaUpTo56();
    ScanBlocker(s, "quota", 56, 60);
    ScanBlocker(s, "quota", 61, 65);
    ScanBlocker(s, "quota", 66, 70);
    ScanBlocker(s, "quota", 71, 75);
  }

  lemma PermissionProblemNoQuotaUpTo95()
    ensures NoMatchBefore(ToLower(Genkit.PermissionProblem), "quota", 95)
  {
    var s := ToLower(Genkit.PermissionProblem);
    PermissionProblemNoQuotaUpTo76();
    ScanBlocker(s, "quota", 76, 80);
    ScanBlocker(s, "quota", 81, 85);
    ScanBlocker(s, "quota", 86, 90);
    ScanBlocker(s, "quota", 91, 94);
  }

  lemma PermissionProblemNoQuotaUpTo115()
    ensures NoMatchBefore(ToLower(Genkit.PermissionProblem), "quota", 115)
  {
    var s := ToLower(Genkit.PermissionProblem);
    PermissionProblemNoQuotaUpTo95();
    ScanBlocker(s, "quota", 95, 99);
    ScanBlocker(s, "quota", 100, 104);
    ScanBlocker(s, "quota", 105, 109);
    ScanBlocker(s, "quota", 110, 114);
  }

  lemma PermissionProblemNoQuotaUpTo133()
    ensures NoMatchBefore(ToLower(Genkit.PermissionProblem), "quota", 133)
  {
    var s := ToLower(Genkit.PermissionProblem);
    PermissionProblemNoQuotaUpTo115();
    ScanBlocker(s, "quota", 115, 117);
    ScanBlocker(s, "quota", 118, 122);
    ScanBlocker(s, "quota", 123, 127);
    ScanBlocker(s, "quota", 128, 132);
  }

  lemma PermissionProblemNoQuotaUpTo153()
    ensures NoMatchBefore(ToLower(Genkit.PermissionProblem), "quota", 153)
  {
    var s := ToLower(Genkit.PermissionProblem);
    PermissionProblemNoQuotaUpTo133();
    ScanBlocker(s, "quota", 133, 137);
    ScanBlocker(s, "quota", 138, 142);
    ScanBlocker(s, "quota", 143, 147);
    ScanBlocker(s, "quota", 148, 152);
  }

  lemma PermissionProblemNoQuotaUpTo171()
    ensures NoMatchBefore(ToLower(Genkit.PermissionProblem), "quota", 171)
  {
    var s := ToLower(Genkit.PermissionProblem);
    PermissionProblemNoQuotaUpTo153();
    ScanBlocker(s, "quota", 153, 155);
    ScanBlocker(s, "quota", 156, 160);
    ScanBlocker(s, "quota", 161, 165);
    ScanBlocker(s, "quota", 166, 170);
  }

  lemma PermissionProblemNoQuotaUpTo189()
    ensures NoMatchBefore(ToLower(Genkit.PermissionProblem), "quota", 189)
  {
    var s := ToLower(Genkit.PermissionProblem);
    PermissionProblemNoQuotaUpTo171();
    ScanBlocker(s, "quota", 171, 174);
    ScanBlocker(s, "quota", 175, 179);
    ScanBlocker(s, "quota", 180, 184);
    ScanBlocker(s, "quota", 185, 188);
  }

  /** `PermissionProblem` does not contain "quota" in any letter case. */
  lemma PermissionProblemNoQuota()
    ensures !Includes(ToLower(Genkit.PermissionProblem), "quota")
  {
    var s := ToLower(Genkit.PermissionProblem);
    PermissionProblemNoQuotaUpTo189();
    ScanBlocker(s, "quota", 189, 193);
    ScanBlocker(s, "quota", 194, 198);
    ScanDone(s, "quota", 199);
  }
}
