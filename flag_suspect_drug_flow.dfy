/** The shaping around the model call in
    src/ai/flows/flag-suspect-drug-flow.ts: pick the code to look up (NDC,
    else GTIN), give a fixed suspect verdict when there is none or when the
    model gives no answer, and otherwise keep the model's verdict but take
    the names from the OpenFDA record. The lookup and the model are
    parameters: `lookup` is what `searchOpenFDA` returns for a code (`None`
    for null), `model` the prompt's output (`None` when it has none). */
module FlagSuspectDrugFlow {
  import opened Common
  import opened Text

  /** The OpenFDA record fields the flow reads; a missing list is empty. */
  datatype FdaRecord = FdaRecord(
    productNdc: string,
    genericName: seq<string>,
    brandName: seq<string>,
    manufacturerName: seq<string>)

  datatype FlagInput = FlagInput(drugName: Option<string>, ndc: Option<string>, gtin: Option<string>)

  /** The `apiData` field: absent, or the lookup's result (possibly null). */
  datatype ApiData = Absent | LookedUp(record: Option<FdaRecord>)

  datatype FlagOutput = FlagOutput(
    isSuspect: bool,
    reason: string,
    drugName: Option<string>,
    manufacturer: Option<string>,
    apiData: ApiData)

  const NoBarcodeReason := "No barcode (NDC or GTIN) was provided for database lookup. Verification is not possible without a unique identifier."
  const NoAnalysisReason := "The AI model failed to provide an analysis. This may be a temporary issue. The attempt has been logged."
  const NotProvided := "Not Provided"
  const NotAvailable := "N/A"
  const NotIdentified := "Not Identified"

  /** `userInput.ndc || userInput.gtin`, with an empty result as none. */
  function LookupKey(input: FlagInput): (r: Option<string>)
    ensures r.Some? <==> Truthy(input.ndc) || Truthy(input.gtin)
    ensures r.Some? ==> r.value != ""
    ensures Truthy(input.ndc) ==> r == input.ndc
    ensures !Truthy(input.ndc) && Truthy(input.gtin) ==> r == input.gtin
  {
    if Truthy(input.ndc) then input.ndc
    else if Truthy(input.gtin) then input.gtin
    else None
  }

  /** `fdaData?.brand_name?.[0]`. */
  function FirstBrand(fda: Option<FdaRecord>): Option<string>
  {
    if fda.Some? then Head(fda.value.brandName) else None
  }

  /** `fdaData?.generic_name?.[0]`. */
  function FirstGeneric(fda: Option<FdaRecord>): Option<string>
  {
    if fda.Some? then Head(fda.value.genericName) else None
  }

  /** `fdaData?.manufacturer_name?.[0]`. */
  function FirstManufacturer(fda: Option<FdaRecord>): Option<string>
  {
    if fda.Some? then Head(fda.value.manufacturerName) else None
  }

  /** Brand name, else generic name, else the user's name, else "Not Identified". */
  function DisplayName(fda: Option<FdaRecord>, userName: Option<string>): (r: string)
    ensures r != ""
    ensures Truthy(FirstBrand(fda)) ==> r == fda.value.brandName[0]
    ensures !Truthy(FirstBrand(fda)) && Truthy(FirstGeneric(fda)) ==>
              r == fda.value.genericName[0]
    ensures !Truthy(FirstBrand(fda)) && !Truthy(FirstGeneric(fda)) ==>
              r == OrElse(userName, NotIdentified)
  {
    var brand := FirstBrand(fda);
    var generic := FirstGeneric(fda);
    if Truthy(brand) then brand.value
    else if Truthy(generic) then generic.value
    else OrElse(userName, NotIdentified)
  }

  /** The first listed manufacturer, else "Not Identified". */
  function DisplayManufacturer(fda: Option<FdaRecord>): (r: string)
    ensures r != ""
    ensures Truthy(FirstManufacturer(fda)) ==> r == fda.value.manufacturerName[0]
    ensures !Truthy(FirstManufacturer(fda)) ==> r == NotIdentified
  {
    OrElse(FirstManufacturer(fda), NotIdentified)
  }

  /** The flow, given the lookup service and the model's answer. */
  function FlagSuspectDrug(input: FlagInput, lookup: string -> Option<FdaRecord>, model: Option<FlagOutput>): (r: FlagOutput)
    ensures LookupKey(input).None? ==>
              r == FlagOutput(true, NoBarcodeReason, Some(OrElse(input.drugName, NotProvided)), None, Absent)
    ensures LookupKey(input).Some? && model.None? ==>
              r == FlagOutput(true, NoAnalysisReason, Some(OrElse(input.drugName, NotAvailable)),
                              Some(NotAvailable), LookedUp(lookup(LookupKey(input).value)))
    ensures LookupKey(input).Some? && model.Some? ==>
              var fda := lookup(LookupKey(input).value);
              r.isSuspect == model.value.isSuspect && r.reason == model.value.reason &&
              r.drugName == Some(DisplayName(fda, input.drugName)) &&
              r.manufacturer == Some(DisplayManufacturer(fda)) &&
              r.apiData == LookedUp(fda)
  {
    var key := LookupKey(input);
    if key.None? then
      FlagOutput(true, NoBarcodeReason, Some(OrElse(input.drugName, NotProvided)), None, Absent)
    else
      var fda := lookup(key.value);
      if model.None? then
        FlagOutput(true, NoAnalysisReason, Some(OrElse(input.drugName, NotAvailable)), Some(NotAvailable), LookedUp(fda))
      else
        model.value.(drugName := Some(DisplayName(fda, input.drugName)),
                     manufacturer := Some(DisplayManufacturer(fda)),
                     apiData := LookedUp(fda))
  }

  /** Fail-safe: with no code to look up, or no answer from the model, the
      drug is flagged as suspect. */
  lemma FailSafe(input: FlagInput, lookup: string -> Option<FdaRecord>, model: Option<FlagOutput>)
    requires LookupKey(input).None? || model.None?
    ensures FlagSuspectDrug(input, lookup, model).isSuspect
  {
  }

  /** Only the model decides the verdict once there is a code and an answer. */
  lemma VerdictIsTheModels(input: FlagInput, lookup: string -> Option<FdaRecord>, o: FlagOutput)
    requires LookupKey(input).Some?
    ensures FlagSuspectDrug(input, lookup, Some(o)).isSuspect == o.isSuspect
  {
  }

  /** With no code, neither the lookup nor the model is consulted. */
  lemma NoKeyConsultsNothing(input: FlagInput, lookup1: string -> Option<FdaRecord>, lookup2: string -> Option<FdaRecord>,
                             model1: Option<FlagOutput>, model2: Option<FlagOutput>)
    requires LookupKey(input).None?
    ensures FlagSuspectDrug(input, lookup1, model1) == FlagSuspectDrug(input, lookup2, model2)
  {
  }

  /** The names and the data in the model's answer are always replaced. */
  lemma ModelNamesAreOverwritten(input: FlagInput, lookup: string -> Option<FdaRecord>, o: FlagOutput,
                                 name: Option<string>, maker: Option<string>, data: ApiData)
    requires LookupKey(input).Some?
    ensures FlagSuspectDrug(input, lookup, Some(o)) ==
            FlagSuspectDrug(input, lookup, Some(o.(drugName := name, manufacturer := maker, apiData := data)))
  {
  }

  /** Every answer carries a non-empty drug name. */
  lemma NameIsNeverEmpty(input: FlagInput, lookup: string -> Option<FdaRecord>, model: Option<FlagOutput>)
    ensures FlagSuspectDrug(input, lookup, model).drugName.Some?
    ensures FlagSuspectDrug(input, lookup, model).drugName.value != ""
  {
  }

  /** A non-empty brand name in the record found for the NDC is the name
      shown, whatever the user typed and whatever the model answered. */
  lemma BrandNameWins(input: FlagInput, lookup: string -> Option<FdaRecord>, o: FlagOutput, record: FdaRecord)
    requires Truthy(input.ndc)
    requires lookup(input.ndc.value) == Some(record)
    requires |record.brandName| > 0 && record.brandName[0] != ""
    ensures FlagSuspectDrug(input, lookup, Some(o)).drugName == Some(record.brandName[0])
  {
  }
}
