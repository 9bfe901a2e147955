/** `handleVectorizeImageAction`, the server action behind the "Vectorize"
    button: it validates its two arguments, configures the shared Genkit
    client, runs the vectorization flow and folds every outcome into a
    `{ svgData, error }` record. It never throws.

    The two awaited calls are inputs: `configure` is how
    `configureGenkitInstance(apiKey)` ended and `flow` is how
    `vectorizeImage({ drawingDataUri })` ended. Each is read only on the path
    where the source reaches that call. */
module Actions {
  import opened Outcomes
  import opened JsString
  import Genkit
  import VectorizeImageFlow

  /** `VectorizeResult`; `null` is `None`. */
  datatype VectorizeResult = VectorizeResult(svgData: Option<string>, error: Option<string>)

  function Success(svgData: string): VectorizeResult {
    VectorizeResult(Some(svgData), None)
  }

  function Failure(error: string): VectorizeResult {
    VectorizeResult(None, Some(error))
  }

  /** Exactly one of the two fields is set, and a returned `svgData` is never
      the empty string. */
  predicate WellFormed(r: VectorizeResult) {
    r.svgData.Some? != r.error.Some? && (r.svgData.Some? ==> r.svgData.value != "")
  }

  const ApiKeyRequired := "API Key is required."

  const NoDrawingData :=
    "No drawing data " + "provided. Please draw " + "something on the canvas "
    + "first."

  const InvalidImageFormat :=
    "Invalid image data " + "format. Expected a " + "Base64 encoded image "
    + "data URI."

  const NoSvgData :=
    "AI model did not return " + "SVG data. The drawing " + "might be too complex or "
    + "empty."

  const UnexpectedError :=
    "Failed to vectorize " + "image due to an " + "unexpected error."

  const KeyNotValid :=
    "The provided API key is " + "not valid. Please check " + "the key and try again."

  const TimedOut :=
    "The vectorization " + "process timed out. " + "Please try again with a "
    + "simpler drawing or " + "check your network " + "connection."

  const QuotaIssue :=
    "The API key is valid, " + "but an issue occurred " + "(e.g. exceeded quota). "
    + "Please check your " + "Google Cloud console."

  /** `!apiKey || !apiKey.trim()` */
  predicate IsBlank(apiKey: string) {
    apiKey == "" || Trim(apiKey) == ""
  }

  /** A key is blank exactly when every character of it is whitespace. */
  lemma BlankIffAllWhitespace(apiKey: string)
    ensures IsBlank(apiKey) <==> forall i :: 0 <= i < |apiKey| ==> IsWhitespace(apiKey[i])
  {
    TrimEmptyIff(apiKey);
  }

  /** The three argument checks, in the order the handler makes them, all
      pass. */
  predicate PassesValidation(drawingDataUri: string, apiKey: string) {
    !IsBlank(apiKey) && drawingDataUri != "" && IsImageDataUri(drawingDataUri)
  }

  // ----- The data-URI test `/^data:image\/(png|jpeg|gif|webp);base64,/` -----

  const DataUriPrefix := "data:image/"
  const Base64Marker := ";base64,"
  const ImageSubtypes := ["png", "jpeg", "gif", "webp"]

  /** The group `(png|jpeg|gif|webp)` followed by `;base64,`, matched at the
      start of `s`, trying the alternatives in order. */
  function MatchAlternatives(s: string, alternatives: seq<string>): (b: bool)
    ensures b <==> exists i :: 0 <= i < |alternatives| && StartsWith(s, alternatives[i] + Base64Marker)
  {
    if alternatives == [] then false
    else if StartsWith(s, alternatives[0] + Base64Marker) then true
    else
      var rest := MatchAlternatives(s, alternatives[1..]);
      assert forall i :: 1 <= i < |alternatives| ==> alternatives[i] == alternatives[1..][i - 1];
      rest
  }

  /** `/^data:image\/(png|jpeg|gif|webp);base64,/.test(s)`: the expression is
      anchored, has no flags, and nothing after the comma is examined. */
  function IsImageDataUri(s: string): (b: bool)
    ensures b <==> exists t :: t in ImageSubtypes && StartsWith(s, DataUriPrefix + t + Base64Marker)
  {
    if !StartsWith(s, DataUriPrefix) then
      assert forall t :: !StartsWith(s, DataUriPrefix + t + Base64Marker) by {
        forall t ensures !StartsWith(s, DataUriPrefix + t + Base64Marker) {
          StartsWithAppend(s, DataUriPrefix, t + Base64Marker);
        }
      }
      false
    else
      var b := MatchAlternatives(s[|DataUriPrefix|..], ImageSubtypes);
      assert forall t :: StartsWith(s, DataUriPrefix + t + Base64Marker)
                         <==> StartsWith(s[|DataUriPrefix|..], t + Base64Marker) by {
        forall t ensures StartsWith(s, DataUriPrefix + t + Base64Marker)
                         <==> StartsWith(s[|DataUriPrefix|..], t + Base64Marker) {
          StartsWithAppend(s, DataUriPrefix, t + Base64Marker);
        }
      }
      b
  }

  /** Any payload, the empty one included, passes after an accepted prefix. */
  lemma PayloadNotExamined(subtype: string, payload: string)
    requires subtype in ImageSubtypes
    ensures IsImageDataUri(DataUriPrefix + subtype + Base64Marker + payload)
  {
    var s := DataUriPrefix + subtype + Base64Marker + payload;
    assert s[..|DataUriPrefix + subtype + Base64Marker|] == DataUriPrefix + subtype + Base64Marker;
  }

  /** `image/jpg` and `image/svg+xml` are not among the accepted subtypes. */
  lemma OtherSubtypesRejected(payload: string)
    ensures !IsImageDataUri(DataUriPrefix + "jpg" + Base64Marker + payload)
    ensures !IsImageDataUri(DataUriPrefix + "svg+xml" + Base64Marker + payload)
  {
    var s1 := DataUriPrefix + "jpg" + Base64Marker + payload;
    var s2 := DataUriPrefix + "svg+xml" + Base64Marker + payload;
    forall t | t in ImageSubtypes ensures !StartsWith(s1, DataUriPrefix + t + Base64Marker) {
      assert s1[11] == 'j' && s1[12] == 'p' && s1[13] == 'g' && s1[14] == ';';
    }
    forall t | t in ImageSubtypes ensures !StartsWith(s2, DataUriPrefix + t + Base64Marker) {
      assert s2[11] == 's' && s2[12] == 'v';
    }
  }

  /** The test is case-sensitive and anchored: an upper-case scheme and a
      leading space are both rejected. */
  lemma CaseSensitiveAndAnchored(rest: string)
    ensures !IsImageDataUri("DATA:" + rest)
    ensures !IsImageDataUri(" " + rest)
  {
    assert ("DATA:" + rest)[0] == 'D';
    assert (" " + rest)[0] == ' ';
  }

  // ----- The catch block -----

  /** The message the catch block starts from: that of an `Error`, or the
      generic one for any other thrown value. */
  function MessageOf(e: Thrown): string {
    match e
    case Error(message) => message
    case NonError => UnexpectedError
  }

  /** `errorMessage.includes('deadline') || errorMessage.toLowerCase().includes('timeout')` */
  predicate MentionsTimeout(message: string) {
    Includes(message, "deadline") || Includes(ToLower(message), "timeout")
  }

  /** The first matching test picks the replacement: an invalid key, then a
      timeout, then a quota; a message that matches none, such as the one
      about failing to configure the AI service, is kept. */
  function MapErrorMessage(message: string): (r: string)
    ensures Genkit.MentionsInvalidKey(message) ==> r == KeyNotValid
    ensures !Genkit.MentionsInvalidKey(message) && MentionsTimeout(message) ==> r == TimedOut
    ensures (!Genkit.MentionsInvalidKey(message) && !MentionsTimeout(message)
             && Genkit.MentionsQuota(message)) ==> r == QuotaIssue
    ensures (!Genkit.MentionsInvalidKey(message) && !MentionsTimeout(message)
             && !Genkit.MentionsQuota(message)) ==> r == message
  {
    if Genkit.MentionsInvalidKey(message) then KeyNotValid
    else if MentionsTimeout(message) then TimedOut
    else if Genkit.MentionsQuota(message) then QuotaIssue
    else message
  }

  /** What the catch block returns for a thrown value. */
  function Caught(e: Thrown): VectorizeResult {
    Failure(MapErrorMessage(MessageOf(e)))
  }

  /** The result for what the flow returned: `!result || !result.svgData`
      gives the "no SVG data" error, anything else is returned as it is. */
  function FromFlowOutput(result: Option<VectorizeImageFlow.VectorizeImageOutput>): (r: VectorizeResult)
    ensures WellFormed(r)
    ensures r.svgData.Some? <==> result.Some? && result.value.svgData != ""
    ensures r.svgData.Some? ==> r.svgData.value == result.value.svgData
    ensures r.error.Some? ==> r.error.value == NoSvgData
  {
    if result.None? || result.value.svgData == "" then Failure(NoSvgData)
    else Success(result.value.svgData)
  }

  /** The `try`/`catch` block: configure the client, run the flow, and turn
      whatever either of them throws into an error result. */
  function TryVectorize(configure: Completion<()>,
                        flow: Completion<Option<VectorizeImageFlow.VectorizeImageOutput>>): (r: VectorizeResult)
    ensures WellFormed(r)
    ensures r.svgData.Some? <==>
      configure.Normal? && flow.Normal? && flow.value.Some? && flow.value.value.svgData != ""
    ensures r.svgData.Some? ==> r.svgData.value == flow.value.value.svgData
    ensures configure.Threw? ==> r == Failure(MapErrorMessage(MessageOf(configure.thrown)))
    ensures configure.Normal? && flow.Threw? ==> r == Failure(MapErrorMessage(MessageOf(flow.thrown)))
  {
    if configure.Threw? then Caught(configure.thrown)
    else if flow.Threw? then Caught(flow.thrown)
    else FromFlowOutput(flow.value)
  }

  function HandleVectorizeImageAction(drawingDataUri: string, apiKey: string, configure: Completion<()>,
                                      flow: Completion<Option<VectorizeImageFlow.VectorizeImageOutput>>)
    : (r: VectorizeResult)
    ensures WellFormed(r)
    ensures r.svgData.Some? <==>
      !IsBlank(apiKey) && drawingDataUri != "" && IsImageDataUri(drawingDataUri)
      && configure.Normal? && flow.Normal? && flow.value.Some? && flow.value.value.svgData != ""
    ensures r.svgData.Some? ==> r.svgData.value == flow.value.value.svgData
  {
    if IsBlank(apiKey) then Failure(ApiKeyRequired)
    else if drawingDataUri == "" then Failure(NoDrawingData)
    else if !IsImageDataUri(drawingDataUri) then Failure(InvalidImageFormat)
    else TryVectorize(configure, flow)
  }

  /** An empty or all-whitespace key is rejected first, whatever the drawing
      is and however the later calls would have ended. */
  lemma BlankKeyRejectedFirst(drawingDataUri: string, apiKey: string, configure: Completion<()>,
                                                 flow: Completion<Option<VectorizeImageFlow.VectorizeImageOutput>>)
    requires forall i :: 0 <= i < |apiKey| ==> IsWhitespace(apiKey[i])
    ensures HandleVectorizeImageAction(drawingDataUri, apiKey, configure, flow) == Failure(ApiKeyRequired)
  {
    BlankIffAllWhitespace(apiKey);
  }

  /** With a usable key, an empty drawing is rejected next. */
  lemma EmptyDrawingRejected(apiKey: string, configure: Completion<()>,
                             flow: Completion<Option<VectorizeImageFlow.VectorizeImageOutput>>)
    requires exists i :: 0 <= i < |apiKey| && !IsWhitespace(apiKey[i])
    ensures HandleVectorizeImageAction("", apiKey, configure, flow) == Failure(NoDrawingData)
  {
    BlankIffAllWhitespace(apiKey);
  }

  /** With a usable key and a non-empty drawing, a drawing the data-URI test
      rejects gives the "Invalid image data format" result. */
  lemma InvalidFormatRejected(drawingDataUri: string, apiKey: string, configure: Completion<()>,
                              flow: Completion<Option<VectorizeImageFlow.VectorizeImageOutput>>)
    requires !IsBlank(apiKey) && drawingDataUri != "" && !IsImageDataUri(drawingDataUri)
    ensures HandleVectorizeImageAction(drawingDataUri, apiKey, configure, flow) == Failure(InvalidImageFormat)
  {
  }

  /** A data URI of another media type, here `text/plain`, fails the test. */
  lemma TextDataUriRejected(apiKey: string, configure: Completion<()>,
                            flow: Completion<Option<VectorizeImageFlow.VectorizeImageOutput>>)
    requires !IsBlank(apiKey)
    ensures HandleVectorizeImageAction("data:text/plain;base64,AAAA", apiKey, configure, flow)
      == Failure(InvalidImageFormat)
  {
    TextDataUriNotImage();
    InvalidFormatRejected("data:text/plain;base64,AAAA", apiKey, configure, flow);
  }

  /** The pattern rejects a `text/plain` data URI at its sixth character. */
  lemma TextDataUriNotImage()
    ensures !IsImageDataUri("data:text/plain;base64,AAAA")
  {
    var s := "data:text/plain;base64,AAAA";
    assert s[..|DataUriPrefix|] != DataUriPrefix by {
      assert s[..|DataUriPrefix|][5] == 't';
    }
  }

  /** When both calls return normally but the flow's result is missing or has
      an empty `svgData`, the result is the "did not return SVG data" error. */
  lemma EmptyFlowResultGivesNoSvgData(drawingDataUri: string, apiKey: string,
                                      result: Option<VectorizeImageFlow.VectorizeImageOutput>)
    requires PassesValidation(drawingDataUri, apiKey)
    requires result.None? || result.value.svgData == ""
    ensures HandleVectorizeImageAction(drawingDataUri, apiKey, Normal(()), Normal(result)) == Failure(NoSvgData)
  {
  }

  /** The three validation failures return before the client is configured
      or the flow runs: their result does not depend on either outcome, and
      it is one of the three validation messages. */
  lemma ValidationPrecedesCalls(drawingDataUri: string, apiKey: string,
                                configure1: Completion<()>, configure2: Completion<()>,
                                flow1: Completion<Option<VectorizeImageFlow.VectorizeImageOutput>>,
                                flow2: Completion<Option<VectorizeImageFlow.VectorizeImageOutput>>)
    requires !PassesValidation(drawingDataUri, apiKey)
    ensures HandleVectorizeImageAction(drawingDataUri, apiKey, configure1, flow1)
         == HandleVectorizeImageAction(drawingDataUri, apiKey, configure2, flow2)
    ensures HandleVectorizeImageAction(drawingDataUri, apiKey, configure1, flow1).error
         in {Some(ApiKeyRequired), Some(NoDrawingData), Some(InvalidImageFormat)}
  {
  }

  /** When configuring the client throws, the flow does not run and the
      thrown value becomes the error. */
  lemma ConfigureFailureSkipsFlow(drawingDataUri: string, apiKey: string, e: Thrown,
                                  flow1: Completion<Option<VectorizeImageFlow.VectorizeImageOutput>>,
                                  flow2: Completion<Option<VectorizeImageFlow.VectorizeImageOutput>>)
    requires PassesValidation(drawingDataUri, apiKey)
    ensures HandleVectorizeImageAction(drawingDataUri, apiKey, Threw(e), flow1)
         == HandleVectorizeImageAction(drawingDataUri, apiKey, Threw(e), flow2)
         == Failure(MapErrorMessage(MessageOf(e)))
  {
  }

  /** Every failure of the flow is caught and returned as an error. */
  lemma FlowFailureCaught(drawingDataUri: string, apiKey: string, e: Thrown)
    requires PassesValidation(drawingDataUri, apiKey)
    ensures HandleVectorizeImageAction(drawingDataUri, apiKey, Normal(()), Threw(e))
         == Failure(MapErrorMessage(MessageOf(e)))
  {
  }

  /** The replacement is always either the message itself or one of the
      three fixed texts. */
  lemma MapErrorMessageRange(message: string)
    ensures MapErrorMessage(message) in {message, KeyNotValid, TimedOut, QuotaIssue}
  {
  }

  /** Mapping a mapped message again changes nothing: none of the three
      replacement texts triggers a test that would pick a different one. */
  lemma MapErrorMessageIdempotent(message: string)
    ensures MapErrorMessage(MapErrorMessage(message)) == MapErrorMessage(message)
  {
    KeyNotValidUnmapped();
    TimedOutUnmapped();
    QuotaIssueRemapsToItself();
  }

  /** A thrown value that is not an `Error` gives the generic message, which
      no test changes. */
  lemma NonErrorGivesUnexpectedError()
    ensures Caught(NonError) == Failure(UnexpectedError)
  {
    UnexpectedErrorNoApiKeyNotValid();
    UnexpectedErrorNoInvalidApiKey();
    UnexpectedErrorNoDeadline();
    UnexpectedErrorNoTimeout();
    UnexpectedErrorNoQuota();
  }

  /** The "deadline" test, unlike the other four, does not fold letter case:
      a message starting with "Deadline" is kept as it is. */
  lemma DeadlineTestIsCaseSensitive()
    ensures MapErrorMessage("deadline exceeded") == TimedOut
    ensures MapErrorMessage("Deadline exceeded") == "Deadline exceeded"
  {
    DeadlineMessagesNameNoKey();
    assert MatchAt("deadline exceeded", "deadline", 0);
    UpperDeadlineNoDeadline();
    UpperDeadlineNoTimeoutOrQuota();
  }

  lemma KeyNotValidUnmapped()
    ensures MapErrorMessage(KeyNotValid) == KeyNotValid
  {
    KeyNotValidNoDeadline();
    KeyNotValidNoTimeout();
    KeyNotValidNoQuota();
  }

  lemma TimedOutUnmapped()
    ensures MapErrorMessage(TimedOut) == TimedOut
  {
    TimedOutNoApiKeyNotValid();
    TimedOutNoInvalidApiKey();
    TimedOutNoQuota();
  }

  lemma QuotaIssueRemapsToItself()
    ensures MapErrorMessage(QuotaIssue) == QuotaIssue
  {
    QuotaIssueNoApiKeyNotValid();
    QuotaIssueNoInvalidApiKey();
    QuotaIssueNoDeadline();
    QuotaIssueNoTimeout();
    QuotaIssueMentionsQuota();
  }

  lemma QuotaIssueMentionsQuota()
    ensures Genkit.MentionsQuota(QuotaIssue)
  {
    assert MatchAt(ToLower(QuotaIssue), "quota", 59);
  }

  // ----- Which phrases the fixed messages contain -----

  /** `UnexpectedError` does not contain "api key not valid" in any letter case. */
  lemma UnexpectedErrorNoApiKeyNotValid()
    ensures !Includes(ToLower(UnexpectedError), "api key not valid")
  {
    var s := ToLower(UnexpectedError);
    ScanBlocker(s, "api key not valid", 0, 15);
    ScanBlocker(s, "api key not valid", 16, 27);
    ScanBlocker(s, "api key not valid", 28, 42);
    ScanDone(s, "api key not valid", 43);
  }

  /** `UnexpectedError` does not contain "invalid api key" in any letter case. */
  lemma UnexpectedErrorNoInvalidApiKey()
    ensures !Includes(ToLower(UnexpectedError), "invalid api key")
  {
    var s := ToLower(UnexpectedError);
    ScanBlocker(s, "invalid api key", 0, 14);
    ScanBlocker(s, "invalid api key", 15, 27);
    ScanBlocker(s, "invalid api key", 28, 42);
    ScanDone(s, "invalid api key", 43);
  }

  /** `UnexpectedError` does not contain "deadline". */
  lemma UnexpectedErrorNoDeadline()
    ensures !Includes(UnexpectedError, "deadline")
  {
    var s := UnexpectedError;
    ScanBlocker(s, "deadline", 0, 7);
    ScanBlocker(s, "deadline", 8, 15);
    ScanBlocker(s, "deadline", 16, 23);
    ScanBlocker(s, "deadline", 24, 31);
    ScanBlocker(s, "deadline", 32, 39);
    ScanBlocker(s, "deadline", 40, 46);
    ScanDone(s, "deadline", 47);
  }

  /** `UnexpectedError` does not contain "timeout" in any letter case. */
  lemma UnexpectedErrorNoTimeout()
    ensures !Includes(ToLower(UnexpectedError), "timeout")
  {
    var s := ToLower(UnexpectedError);
    ScanBlocker(s, "timeout", 0, 6);
    ScanBlocker(s, "timeout", 7, 12);
    ScanBlocker(s, "timeout", 13, 19);
    ScanBlocker(s, "timeout", 20, 26);
    ScanBlocker(s, "timeout", 27, 33);
    ScanBlocker(s, "timeout", 34, 40);
    ScanBlocker(s, "timeout", 41, 46);
    ScanDone(s, "timeout", 47);
  }

  /** `UnexpectedError` does not contain "quota" in any letter case. */
  lemma UnexpectedErrorNoQuota()
    ensures !Includes(ToLower(UnexpectedError), "quota")
  {
    var s := ToLower(UnexpectedError);
    ScanBlocker(s, "quota", 0, 4);
    ScanBlocker(s, "quota", 5, 9);
    ScanBlocker(s, "quota", 10, 12);
    ScanBlocker(s, "quota", 13, 17);
    ScanBlocker(s, "quota", 18, 21);
    ScanBlocker(s, "quota", 22, 26);
    ScanBlocker(s, "quota", 27, 29);
    ScanBlocker(s, "quota", 30, 34);
    ScanBlocker(s, "quota", 35, 39);
    ScanBlocker(s, "quota", 40, 44);
    ScanBlocker(s, "quota", 45, 49);
    ScanDone(s, "quota", 50);
  }

  /** `KeyNotValid` does not contain "deadline". */
  lemma KeyNotValidNoDeadline()
    ensures !Includes(KeyNotValid, "deadline")
  {
    var s := KeyNotValid;
    ScanBlocker(s, "deadline", 0, 7);
    ScanBlocker(s, "deadline", 8, 15);
    ScanBlocker(s, "deadline", 16, 23);
    ScanBlocker(s, "deadline", 24, 28);
    ScanBlocker(s, "deadline", 29, 35);
    ScanBlocker(s, "deadline", 36, 43);
    ScanBlocker(s, "deadline", 44, 51);
    ScanBlocker(s, "deadline", 52, 59);
    ScanBlocker(s, "deadline", 60, 65);
    ScanDone(s, "deadline", 66);
  }

  /** `KeyNotValid` does not contain "timeout" in any letter case. */
  lemma KeyNotValidNoTimeout()
    ensures !Includes(ToLower(KeyNotValid), "timeout")
  {
    var s := ToLower(KeyNotValid);
    ScanBlocker(s, "timeout", 0, 5);
    ScanBlocker(s, "timeout", 6, 12);
    ScanBlocker(s, "timeout", 13, 19);
    ScanBlocker(s, "timeout", 20, 24);
    ScanBlocker(s, "timeout", 25, 30);
    ScanBlocker(s, "timeout", 31, 36);
    ScanBlocker(s, "timeout", 37, 43);
    ScanBlocker(s, "timeout", 44, 49);
    ScanBlocker(s, "timeout", 50, 56);
    ScanBlocker(s, "timeout", 57, 63);
    ScanDone(s, "timeout", 64);
  }

  /** `TimedOut` does not contain "api key not valid" in any letter case. */
  lemma TimedOutNoApiKeyNotValid()
    ensures !Includes(ToLower(TimedOut), "api key not valid")
  {
    var s := ToLower(TimedOut);
    ScanBlocker(s, "api key not valid", 0, 11);
    ScanBlocker(s, "api key not valid", 12, 28);
    ScanBlocker(s, "api key not valid", 29, 45);
    ScanBlocker(s, "api key not valid", 46, 61);
    ScanBlocker(s, "api key not valid", 62, 78);
    ScanBlocker(s, "api key not valid", 79, 94);
    ScanDone(s, "api key not valid", 95);
  }

  /** `TimedOut` does not contain "invalid api key" in any letter case. */
  lemma TimedOutNoInvalidApiKey()
    ensures !Includes(ToLower(TimedOut), "invalid api key")
  {
    var s := ToLower(TimedOut);
    ScanBlocker(s, "invalid api key", 0, 13);
    ScanBlocker(s, "invalid api key", 14, 28);
    ScanBlocker(s, "invalid api key", 29, 41);
    ScanBlocker(s, "invalid api key", 42, 56);
    ScanBlocker(s, "invalid api key", 57, 70);
    ScanBlocker(s, "invalid api key", 71, 83);
    ScanBlocker(s, "invalid api key", 84, 96);
    ScanDone(s, "invalid api key", 97);
  }

  /** `QuotaIssue` does not contain "api key not valid" in any letter case. */
  lemma QuotaIssueNoApiKeyNotValid()
    ensures !Includes(ToLower(QuotaIssue), "api key not valid")
  {
    var s := ToLower(QuotaIssue);
    ScanBlocker(s, "api key not valid", 0, 13);
    ScanBlocker(s, "api key not valid", 14, 30);
    ScanBlocker(s, "api key not valid", 31, 47);
    ScanBlocker(s, "api key not valid", 48, 64);
    ScanBlocker(s, "api key not valid", 65, 77);
    ScanBlocker(s, "api key not valid", 78, 92);
    ScanDone(s, "api key not valid", 93);
  }

  /** `QuotaIssue` does not contain "invalid api key" in any letter case. */
  lemma QuotaIssueNoInvalidApiKey()
    ensures !Includes(ToLower(QuotaIssue), "invalid api key")
  {
    var s := ToLower(QuotaIssue);
    ScanBlocker(s, "invalid api key", 0, 13);
    ScanBlocker(s, "invalid api key", 14, 24);
    ScanBlocker(s, "invalid api key", 25, 39);
    ScanBlocker(s, "invalid api key", 40, 52);
    ScanBlocker(s, "invalid api key", 53, 65);
    ScanBlocker(s, "invalid api key", 66, 77);
    ScanBlocker(s, "invalid api key", 78, 92);
    ScanDone(s, "invalid api key", 93);
  }

  lemma QuotaIssueNoDeadlineUpTo68()
    ensures NoMatchBefore(QuotaIssue, "deadline", 68)
  {
    var s := QuotaIssue;
    ScanBlocker(s, "deadline", 0, 7);
    ScanBlocker(s, "deadline", 8, 15);
    ScanBlocker(s, "deadline", 16, 23);
    ScanBlocker(s, "deadline", 24, 31);
    ScanBlocker(s, "deadline", 32, 39);
    ScanBlocker(s, "deadline", 40, 47);
    ScanBlocker(s, "deadline", 48, 52);
    ScanBlocker(s, "deadline", 53, 60);
    ScanBlocker(s, "deadline", 61, 67);
  }

  /** `QuotaIssue` does not contain "deadline". */
  lemma QuotaIssueNoDeadline()
    ensures !Includes(QuotaIssue, "deadline")
  {
    var s := QuotaIssue;
    QuotaIssueNoDeadlineUpTo68();
    ScanBlocker(s, "deadline", 68, 75);
    ScanBlocker(s, "deadline", 76, 83);
    ScanBlocker(s, "deadline", 84, 91);
    ScanBlocker(s, "deadline", 92, 99);
    ScanDone(s, "deadline", 100);
  }

  lemma TimedOutNoQuotaUpTo42()
    ensures NoMatchBefore(ToLower(TimedOut), "quota", 42)
  {
    var s := ToLower(TimedOut);
    ScanBlocker(s, "quota", 0, 4);
    ScanBlocker(s, "quota", 5, 9);
    ScanBlocker(s, "quota", 10, 14);
    ScanBlocker(s, "quota", 15, 19);
    ScanBlocker(s, "quota", 20, 24);
    ScanBlocker(s, "quota", 25, 29);
    ScanBlocker(s, "quota", 30, 31);
    ScanBlocker(s, "quota", 32, 36);
    ScanBlocker(s, "quota", 37, 41);
  }

  lemma TimedOutNoQuotaUpTo86()
    ensures NoMatchBefore(ToLower(TimedOut), "quota", 86)
  {
    var s := ToLower(TimedOut);
    TimedOutNoQuotaUpTo42();
    ScanBlocker(s, "quota", 42, 46);
    ScanBlocker(s, "quota", 47, 51);
    ScanBlocker(s, "quota", 52, 55);
    ScanBlocker(s, "quota", 56, 60);
    ScanBlocker(s, "quota", 61, 65);
    ScanBlocker(s, "quota", 66, 70);
    ScanBlocker(s, "quota", 71, 75);
    ScanBlocker(s, "quota", 76, 80);
    ScanBlocker(s, "quota", 81, 85);
  }

  /** `TimedOut` does not contain "quota" in any letter case. */
  lemma TimedOutNoQuota()
    ensures !Includes(ToLower(TimedOut), "quota")
  {
    var s := ToLower(TimedOut);
    TimedOutNoQuotaUpTo86();
    ScanBlocker(s, "quota", 86, 90);
    ScanBlocker(s, "quota", 91, 94);
    ScanBlocker(s, "quota", 95, 99);
    ScanBlocker(s, "quota", 100, 104);
    ScanBlocker(s, "quota", 105, 109);
    ScanDone(s, "quota", 110);
  }

  /** Neither spelling of "deadline exceeded" names a rejected key. */
  lemma DeadlineMessagesNameNoKey()
    ensures !Genkit.MentionsInvalidKey("Deadline exceeded")
    ensures !Genkit.MentionsInvalidKey("deadline exceeded")
  {
    var upper := ToLower("Deadline exceeded");
    ScanBlocker(upper, "api key not valid", 0, 11);
    ScanDone(upper, "api key not valid", 12);
    ScanBlocker(upper, "invalid api key", 0, 11);
    ScanDone(upper, "invalid api key", 12);
    var lower := ToLower("deadline exceeded");
    ScanBlocker(lower, "api key not valid", 0, 11);
    ScanDone(lower, "api key not valid", 12);
    ScanBlocker(lower, "invalid api key", 0, 11);
    ScanDone(lower, "invalid api key", 12);
  }

  /** "Deadline exceeded" does not contain "deadline": the window at 0
      differs in its first letter, and the one at 9 too. */
  lemma UpperDeadlineNoDeadline()
    ensures !Includes("Deadline exceeded", "deadline")
  {
    var s := "Deadline exceeded";
    ScanMismatch(s, "deadline", 0, 0);
    ScanBlocker(s, "deadline", 1, 8);
    ScanMismatch(s, "deadline", 9, 0);
    ScanDone(s, "deadline", 10);
  }

  /** "Deadline exceeded" does not contain "timeout" or "quota" in any letter
      case: it has no letter 't' and no letter 'q'. */
  lemma UpperDeadlineNoTimeoutOrQuota()
    ensures !Includes(ToLower("Deadline exceeded"), "timeout")
    ensures !Includes(ToLower("Deadline exceeded"), "quota")
  {
    var s := "Deadline exceeded";
    LowerCharAbsent(s, 't');
    MissingCharExcludes(ToLower(s), "timeout", 't');
    LowerCharAbsent(s, 'q');
    MissingCharExcludes(ToLower(s), "quota", 'q');
  }

  lemma KeyNotValidNoQuotaUpTo25()
    ensures NoMatchBefore(ToLower(KeyNotValid), "quota", 25)
  {
    var s := ToLower(KeyNotValid);
    ScanBlocker(s, "quota", 0, 4);
    ScanBlocker(s, "quota", 5, 9);
    ScanBlocker(s, "quota", 10, 14);
    ScanBlocker(s, "quota", 15, 19);
    ScanBlocker(s, "quota", 20, 24);
  }

  lemma KeyNotValidNoQuotaUpTo48()
    ensures NoMatchBefore(ToLower(KeyNotValid), "quota", 48)
  {
    var s := ToLower(KeyNotValid);
    KeyNotValidNoQuotaUpTo25();
    ScanBlocker(s, "quota", 25, 28);
    ScanBlocker(s, "quota", 29, 33);
    ScanBlocker(s, "quota", 34, 37);
    ScanBlocker(s, "quota", 38, 42);
    ScanBlocker(s, "quota", 43, 47);
  }

  /** `KeyNotValid` does not contain "quota" in any letter case. */
  lemma KeyNotValidNoQuota()
    ensures !Includes(ToLower(KeyNotValid), "quota")
  {
    var s := ToLower(KeyNotValid);
    KeyNotValidNoQuotaUpTo48();
    ScanBlocker(s, "quota", 48, 52);
    ScanBlocker(s, "quota", 53, 57);
    ScanBlocker(s, "quota", 58, 62);
    ScanBlocker(s, "quota", 63, 67);
    ScanDone(s, "quota", 68);
  }

  lemma QuotaIssueNoTimeoutUpTo29()
    ensures NoMatchBefore(ToLower(QuotaIssue), "timeout", 29)
  {
    var s := ToLower(QuotaIssue);
    ScanBlocker(s, "timeout", 0, 5);
    ScanBlocker(s, "timeout", 6, 11);
    ScanBlocker(s, "timeout", 12, 17);
    ScanBlocker(s, "timeout", 18, 22);
    ScanBlocker(s, "timeout", 23, 28);
  }

  lemma QuotaIssueNoTimeoutUpTo60()
    ensures NoMatchBefore(ToLower(QuotaIssue), "timeout", 60)
  {
    var s := ToLower(QuotaIssue);
    QuotaIssueNoTimeoutUpTo29();
    ScanBlocker(s, "timeout", 29, 34);
    ScanBlocker(s, "timeout", 35, 40);
    ScanBlocker(s, "timeout", 41, 47);
    ScanBlocker(s, "timeout", 48, 52);
    ScanBlocker(s, "timeout", 53, 59);
  }

  lemma QuotaIssueNoTimeoutUpTo93()
    ensures NoMatchBefore(ToLower(QuotaIssue), "timeout", 93)
  {
    var s := ToLower(QuotaIssue);
    QuotaIssueNoTimeoutUpTo60();
    ScanBlocker(s, "timeout", 60, 66);
    ScanBlocker(s, "timeout", 67, 73);
    ScanBlocker(s, "timeout", 74, 80);
    ScanBlocker(s, "timeout", 81, 85);
    ScanBlocker(s, "timeout", 86, 92);
  }

  /** `QuotaIssue` does not contain "timeout" in any letter case. */
  lemma QuotaIssueNoTimeout()
    ensures !Includes(ToLower(QuotaIssue), "timeout")
  {
    var s := ToLower(QuotaIssue);
    QuotaIssueNoTimeoutUpTo93();
    ScanBlocker(s, "timeout", 93, 98);
    ScanBlocker(s, "timeout", 99, 105);
    ScanDone(s, "timeout", 106);
  }
}
