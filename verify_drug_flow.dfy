/** The model chain of src/ai/flows/verify-drug-flow.ts: ask Gemini first
    and keep its answer only when it names a drug; otherwise take whatever
    OpenAI returns; when neither gives an answer, throw. The models
    themselves are outside the model: each one's answer is a parameter,
    `None` standing for a call that threw or returned no output. */
module VerifyDrugFlow {
  import opened Common
  import opened Text

  datatype VerifyDrugOutput = VerifyDrugOutput(
    isSuspect: bool,
    reason: string,
    drugName: Option<string>,
    manufacturer: Option<string>,
    approvalInfo: Option<string>,
    sourceModel: Option<string>)

  const GeminiTag := "Gemini 1.5 Pro"
  const OpenAiTag := "OpenAI GPT-4o Mini"
  const AllModelsFailed := "All AI models failed to process the request. Please try again later."
  /** The name Gemini is told to give a drug it cannot identify. */
  const NotIdentified := "not identified"

  /** Gemini's answer is used when there is one, it names a drug, and the
      name is not "not identified" in any letter case. */
  predicate GeminiAccepts(answer: Option<VerifyDrugOutput>)
  {
    answer.Some? && Truthy(answer.value.drugName) &&
    Lower(answer.value.drugName.value) != NotIdentified
  }

  /** `{ ...output, sourceModel: tag }`. */
  function Tagged(o: VerifyDrugOutput, tag: string): (r: VerifyDrugOutput)
    ensures r.sourceModel == Some(tag)
    ensures r.(sourceModel := o.sourceModel) == o
  {
    o.(sourceModel := Some(tag))
  }

  /** The flow, given what each model answered. */
  function VerifyDrug(gemini: Option<VerifyDrugOutput>, openAi: Option<VerifyDrugOutput>): (r: Result<VerifyDrugOutput>)
    ensures r.Ok? <==> GeminiAccepts(gemini) || openAi.Some?
    ensures r.Err? ==> r.error == AllModelsFailed
    ensures GeminiAccepts(gemini) ==> r == Ok(Tagged(gemini.value, GeminiTag))
    ensures !GeminiAccepts(gemini) && openAi.Some? ==> r == Ok(Tagged(openAi.value, OpenAiTag))
  {
    if GeminiAccepts(gemini) then Ok(Tagged(gemini.value, GeminiTag))
    else if openAi.Some? then Ok(Tagged(openAi.value, OpenAiTag))
    else Err(AllModelsFailed)
  }

  /** Every answer the flow gives says which model produced it, and is that
      model's answer with only `sourceModel` replaced. */
  lemma ProvenanceIsRecorded(gemini: Option<VerifyDrugOutput>, openAi: Option<VerifyDrugOutput>)
    ensures var r := VerifyDrug(gemini, openAi);
            r.Ok? ==> (r.value.sourceModel == Some(GeminiTag) && gemini.Some? &&
                       r.value.(sourceModel := gemini.value.sourceModel) == gemini.value) ||
                      (r.value.sourceModel == Some(OpenAiTag) && openAi.Some? &&
                       r.value.(sourceModel := openAi.value.sourceModel) == openAi.value)
  {
  }

  /** Once Gemini names a drug, OpenAI's answer plays no part. */
  lemma AcceptedGeminiIgnoresOpenAi(gemini: Option<VerifyDrugOutput>, a: Option<VerifyDrugOutput>, b: Option<VerifyDrugOutput>)
    requires GeminiAccepts(gemini)
    ensures VerifyDrug(gemini, a) == VerifyDrug(gemini, b)
  {
  }

  /** Gemini's answer is judged ignoring the letter case of the name it
      gives: "NOT IDENTIFIED" falls through exactly as "not identified" does. */
  lemma {:induction false} GeminiCheckIgnoresCase(o: VerifyDrugOutput, name: string, openAi: Option<VerifyDrugOutput>)
    ensures VerifyDrug(Some(o.(drugName := Some(name))), openAi).Ok? ==
            VerifyDrug(Some(o.(drugName := Some(Lower(name)))), openAi).Ok?
    ensures GeminiAccepts(Some(o.(drugName := Some(name)))) == GeminiAccepts(Some(o.(drugName := Some(Lower(name)))))
  {
    LowerIdempotent(name);
  }

  /** Gemini's answer counts as absent when it names no drug. */
  lemma UnnamedGeminiFallsThrough(o: VerifyDrugOutput, openAi: Option<VerifyDrugOutput>)
    requires !Truthy(o.drugName)
    ensures VerifyDrug(Some(o), openAi) == VerifyDrug(None, openAi)
  {
  }

  /** OpenAI's answer is taken without any check on the drug name, even one
      Gemini would have been refused for. */
  lemma OpenAiIsNotChecked(gemini: Option<VerifyDrugOutput>, o: VerifyDrugOutput)
    requires !GeminiAccepts(gemini)
    ensures VerifyDrug(gemini, Some(o)).Ok?
    ensures VerifyDrug(gemini, Some(o)).value.drugName == o.drugName
  {
  }
}
