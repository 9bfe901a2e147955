/** `vectorizeImage`: one call of the hosted model, the check of what it
    returned, and the rewriting of one kind of error.

    The model call `ai.generate(...)` is an input: it either resolves with a
    response whose `output` may be missing, or rejects with a thrown value.
    The prompt text does not influence anything checked here. */
module VectorizeImageFlow {
  import opened Outcomes
  import opened JsString

  /** `VectorizeImageOutput`: the one string field the model is asked for. A
      missing `svgData` is represented by the empty string, which every
      check below treats the same way. */
  datatype VectorizeImageOutput = VectorizeImageOutput(svgData: string)

  /** The part of what `ai.generate` resolves with that the flow reads. */
  datatype GenerateResponse = GenerateResponse(output: Option<VectorizeImageOutput>)

  /** How a call of the flow ends, and whether it logged the warning that the
      output does not look like SVG. */
  datatype FlowRun = FlowRun(completion: Completion<VectorizeImageOutput>, warnedNotSvg: bool)

  const MissingSvgData :=
    "AI model did not return " + "the expected SVG data " + "format."

  const ModelUnavailable :=
    "The AI model is " + "currently unavailable " + "or not configured "
    + "correctly. Please check " + "the API key and model " + "name."

  const NotAvailableMarker := "model is not available"

  /** The lenient shape check: after trimming, the text starts with `<svg`
      and ends with `</svg>`. */
  predicate LooksLikeSvg(svgData: string) {
    StartsWith(Trim(svgData), "<svg") && EndsWith(Trim(svgData), "</svg>")
  }

  /** The catch block: an `Error` whose message mentions that the model is
      not available (case-sensitive) is replaced, anything else is thrown
      again as it is. */
  function CatchGenerationError(e: Thrown): (r: Thrown)
    ensures r != e ==> r == Error(ModelUnavailable)
    ensures r == Error(ModelUnavailable) <==>
      (e.Error? && Includes(e.message, NotAvailableMarker)) || e == Error(ModelUnavailable)
  {
    if e.Error? && Includes(e.message, NotAvailableMarker) then Error(ModelUnavailable) else e
  }

  function VectorizeImage(generation: Completion<GenerateResponse>): (run: FlowRun)
    ensures run.completion.Normal? ==> run.completion.value.svgData != ""
    ensures run.completion.Normal? <==>
      generation.Normal? && generation.value.output.Some? && generation.value.output.value.svgData != ""
    ensures run.completion.Normal? ==> run.completion == Normal(generation.value.output.value)
    ensures run.warnedNotSvg ==> run.completion.Normal?
  {
    match generation
    case Threw(e) => FlowRun(Threw(CatchGenerationError(e)), false)
    case Normal(response) =>
      if response.output.None? || response.output.value.svgData == "" then
        FlowRun(Threw(CatchGenerationError(Error(MissingSvgData))), false)
      else
        FlowRun(Normal(response.output.value), !LooksLikeSvg(response.output.value.svgData))
  }

  /** The flow's own "missing output" message does not mention that the model
      is not available. */
  lemma MissingSvgDataKeptByCatch()
    ensures CatchGenerationError(Error(MissingSvgData)) == Error(MissingSvgData)
  {
    MissingCharExcludes(MissingSvgData, NotAvailableMarker, 'b');
  }

  /** A missing output, or an output with empty `svgData`, makes the flow
      fail with the "missing output" error, unchanged by its catch block. */
  lemma MissingOutputFails(response: GenerateResponse)
    requires response.output.None? || response.output.value.svgData == ""
    ensures VectorizeImage(Normal(response)) == FlowRun(Threw(Error(MissingSvgData)), false)
  {
    MissingSvgDataKeptByCatch();
  }

  /** Output with non-empty `svgData` is returned exactly as the model gave
      it (not trimmed), whether or not it looks like SVG; the shape check
      only decides whether a warning is logged. */
  lemma ShapeCheckOnlyWarns(output: VectorizeImageOutput)
    requires output.svgData != ""
    ensures VectorizeImage(Normal(GenerateResponse(Some(output)))).completion == Normal(output)
    ensures VectorizeImage(Normal(GenerateResponse(Some(output)))).warnedNotSvg <==> !LooksLikeSvg(output.svgData)
  {
  }

  /** An output that is SVG only once one space and one line break around it
      are trimmed still comes back with them. */
  lemma UntrimmedOutputReturned(svg: string)
    requires StartsWith(svg, "<svg") && EndsWith(svg, "</svg>")
    ensures LooksLikeSvg(" " + svg + "\n")
    ensures VectorizeImage(Normal(GenerateResponse(Some(VectorizeImageOutput(" " + svg + "\n")))))
      == FlowRun(Normal(VectorizeImageOutput(" " + svg + "\n")), false)
  {
    PaddingTrimmed(svg);
  }

  lemma PaddingTrimmed(svg: string)
    requires svg != [] && !IsWhitespace(svg[0]) && !IsWhitespace(svg[|svg| - 1])
    ensures Trim(" " + svg + "\n") == svg
  {
    var s := " " + svg + "\n";
    var t := svg + "\n";
    assert s[1..] == t && t[0] == svg[0];
    assert TrimStart(s) == t;
    assert t[..|t| - 1] == svg;
  }

  /** Errors from the model call: those mentioning that the model is not
      available are replaced by one fixed message, all others are thrown
      again unchanged. */
  lemma GenerationErrorsRethrown(e: Thrown)
    ensures e.Error? && Includes(e.message, NotAvailableMarker) ==>
      VectorizeImage(Threw(e)) == FlowRun(Threw(Error(ModelUnavailable)), false)
    ensures !(e.Error? && Includes(e.message, NotAvailableMarker)) ==>
      VectorizeImage(Threw(e)) == FlowRun(Threw(e), false)
  {
  }

  /** The replacement message does not itself mention that the model is not
      available, so catching it a second time leaves it as it is. */
  lemma CatchGenerationErrorIdempotent(e: Thrown)
    ensures CatchGenerationError(CatchGenerationError(e)) == CatchGenerationError(e)
  {
    ModelUnavailableNoMarker();
  }

  /** `ModelUnavailable` does not itself contain `NotAvailableMarker`. */
  lemma ModelUnavailableNoMarker()
    ensures !Includes(ModelUnavailable, NotAvailableMarker)
  {
    var s := ModelUnavailable;
    ScanBlocker(s, NotAvailableMarker, 0, 19);
    ScanBlocker(s, NotAvailableMarker, 20, 39);
    ScanBlocker(s, NotAvailableMarker, 40, 61);
    ScanBlocker(s, NotAvailableMarker, 62, 81);
    ScanBlocker(s, NotAvailableMarker, 82, 90);
    ScanDone(s, NotAvailableMarker, 91);
  }
}
