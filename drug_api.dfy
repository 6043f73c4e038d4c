/** Evidence assembly for a barcode, src/services/drug-api.ts: a match in
    the internal NDC dataset, a summary of the OpenFDA answer, and the merge
    of the two into one set of details in which OpenFDA wins and the three
    product fields default to 'N/A'. */
module DrugApi {
  import opened Common
  import opened Text

  /** A row of the internal NDC dataset. */
  datatype NdcRecord = NdcRecord(
    itemCode: string,
    ndc11: string,
    proprietaryName: string,
    dosageForm: string,
    marketingCategory: string,
    applicationNumber: string,
    productType: string,
    marketingStartDate: string,
    marketingEndDate: Option<string>)

  /** The first element of the `results` of an OpenFDA answer. A missing
      name is the empty string; a missing `openfda` block has no
      manufacturer names. */
  datatype FdaProduct = FdaProduct(
    productNdc: string,
    genericName: string,
    brandName: string,
    manufacturerNames: seq<string>)

  /** What `fetch` and `response.json()` yield: a response whose `ok` is
      false, with its status; a parsed body with its `results` list (empty
      when absent); or a thrown exception. */
  datatype FdaResponse = Status(code: nat) | Results(products: seq<FdaProduct>) | Exception

  /** What `searchOpenFDA` returns: a manufacturer only when a product was
      found, and always a details text. */
  datatype FdaSummary = FdaSummary(manufacturer: Option<string>, openFDADetails: string)

  /** The partial details record `getDrugDetailsFromAPI` builds and returns. */
  datatype DrugDetails = DrugDetails(
    manufacturer: Option<string>,
    productionDate: Option<string>,
    batchNumber: Option<string>,
    internalDatasetDetails: Option<string>,
    gs1Details: Option<string>,
    openFDADetails: Option<string>)

  const Gs1NotConnected := "GS1 Source not connected."
  const BatchNotInDataset := "N/A (Not in this dataset)"
  const NotAvailable := "N/A"
  const FetchFailedPrefix := "Failed to fetch data from OpenFDA. Status: "
  const ConnectionError := "An error occurred while connecting to the OpenFDA service."
  const UnknownManufacturer := "Unknown Manufacturer"
  const UnknownDrugName := "Unknown Drug Name"

  /** A dataset row matches when its item code equals the barcode once
      hyphens are removed from both, or its NDC11 equals the raw barcode. */
  predicate MatchesBarcode(rec: NdcRecord, barcode: string)
  {
    StripHyphens(rec.itemCode) == StripHyphens(barcode) || rec.ndc11 == barcode
  }

  /** The test `ndcDataset.find` applies, as a function value. */
  function BarcodeMatcher(barcode: string): NdcRecord -> bool
  {
    rec => MatchesBarcode(rec, barcode)
  }

  /** `ndcDataset.find(...)`: the first matching row. */
  function FindInternalRecord(dataset: seq<NdcRecord>, barcode: string): (r: Option<NdcRecord>)
    ensures r.None? <==> forall i :: 0 <= i < |dataset| ==> !MatchesBarcode(dataset[i], barcode)
    ensures r.Some? ==> exists i :: IsFirst(dataset, BarcodeMatcher(barcode), i) && dataset[i] == r.value
  {
    Find(dataset, BarcodeMatcher(barcode))
  }

  /** The item-code comparison does not care where hyphens stand in the
      barcode: a hyphen between `a` and `b` neither makes nor breaks it. */
  lemma {:induction false} ItemCodeIgnoresHyphens(rec: NdcRecord, a: string, b: string)
    ensures StripHyphens(rec.itemCode) == StripHyphens(a + "-" + b) <==>
            StripHyphens(rec.itemCode) == StripHyphens(a + b)
  {
    HyphenPlacementIgnored(a, b);
  }

  /** The NDC11 comparison applies no normalisation: a hyphenated barcode
      never equals an NDC11, so a row whose NDC11 is the barcode with the
      hyphens removed still does not match unless its item code does. */
  lemma Ndc11IsExact(rec: NdcRecord, barcode: string)
    requires '-' in barcode
    requires rec.ndc11 == StripHyphens(barcode)
    ensures MatchesBarcode(rec, barcode) <==> StripHyphens(rec.itemCode) == rec.ndc11
  {
  }

  /** `drugInfo.openfda?.manufacturer_name?.[0] || 'Unknown Manufacturer'`. */
  function ManufacturerOf(p: FdaProduct): (r: string)
    ensures r != ""
    ensures |p.manufacturerNames| > 0 && p.manufacturerNames[0] != "" ==> r == p.manufacturerNames[0]
    ensures |p.manufacturerNames| == 0 || p.manufacturerNames[0] == "" ==> r == UnknownManufacturer
  {
    OrElse(Head(p.manufacturerNames), UnknownManufacturer)
  }

  /** `drugInfo.brand_name || drugInfo.generic_name || 'Unknown Drug Name'`. */
  function DrugNameOf(p: FdaProduct): (r: string)
    ensures r != ""
    ensures p.brandName != "" ==> r == p.brandName
    ensures p.brandName == "" && p.genericName != "" ==> r == p.genericName
    ensures p.brandName == "" && p.genericName == "" ==> r == UnknownDrugName
  {
    if p.brandName != "" then p.brandName
    else if p.genericName != "" then p.genericName
    else UnknownDrugName
  }

  /** The details text for a found product names the drug and the
      manufacturer. */
  function FoundMessage(p: FdaProduct): (r: string)
    ensures Contains(r, DrugNameOf(p)) && Contains(r, ManufacturerOf(p))
  {
    var lead := "Successfully found drug in OpenFDA database. Name: ";
    var name, maker := DrugNameOf(p), ManufacturerOf(p);
    var r := lead + name + ", Manufacturer: " + maker + ".";
    assert r == lead + name + (", Manufacturer: " + maker + ".");
    OccursInside(lead, name, ", Manufacturer: " + maker + ".");
    OccursInside(lead + name + ", Manufacturer: ", maker, ".");
    r
  }

  /** The details text for an empty result names the barcode. */
  function NotFoundMessage(barcode: string): (r: string)
    ensures Contains(r, barcode)
  {
    var tail := "\" in the OpenFDA database. This could be a non-US drug, a non-prescription item, or a counterfeit product.";
    OccursInside("No drug found for barcode \"", barcode, tail);
    "No drug found for barcode \"" + barcode + tail
  }

  /** The details text for a failed request ends with the status in decimal. */
  function StatusMessage(code: nat): (r: string)
    ensures FetchFailedPrefix <= r
    ensures var digits := r[|FetchFailedPrefix|..];
            (forall i :: 0 <= i < |digits| ==> '0' <= digits[i] <= '9') && DecimalValue(digits) == code
    ensures var digits := r[|FetchFailedPrefix|..];
            |digits| > 0 && (|digits| > 1 ==> digits[0] != '0')
  {
    var r := FetchFailedPrefix + DecimalString(code);
    assert r[|FetchFailedPrefix|..] == DecimalString(code);
    DecimalRoundTrip(code);
    r
  }

  /** `searchOpenFDA`: it never throws; it names a manufacturer exactly when
      a product was found, and otherwise explains why in the details. */
  function SearchOpenFDA(barcode: string, response: FdaResponse): (r: FdaSummary)
    ensures r.manufacturer.Some? <==> response.Results? && |response.products| > 0
    ensures r.manufacturer.Some? ==> r.manufacturer.value == ManufacturerOf(response.products[0])
    ensures response.Status? ==>
              FetchFailedPrefix <= r.openFDADetails &&
              var digits := r.openFDADetails[|FetchFailedPrefix|..];
              (forall i :: 0 <= i < |digits| ==> '0' <= digits[i] <= '9') && DecimalValue(digits) == response.code
    ensures response.Results? && response.products == [] ==> Contains(r.openFDADetails, barcode)
    ensures response.Exception? ==> r.openFDADetails == ConnectionError
    ensures response.Results? && |response.products| > 0 ==>
              Contains(r.openFDADetails, DrugNameOf(response.products[0])) &&
              Contains(r.openFDADetails, ManufacturerOf(response.products[0]))
  {
    match response
    case Status(code) => FdaSummary(None, StatusMessage(code))
    case Exception => FdaSummary(None, ConnectionError)
    case Results(products) =>
      if |products| > 0 then
        FdaSummary(Some(ManufacturerOf(products[0])), FoundMessage(products[0]))
      else
        FdaSummary(None, NotFoundMessage(barcode))
  }

  function MatchMessage(rec: NdcRecord): string
  {
    "Match found in internal dataset: " + rec.proprietaryName + ", App No: " + rec.applicationNumber
  }

  function NoMatchMessage(barcode: string): string
  {
    "No match found for barcode \"" + barcode + "\" in the internal CUSTECH dataset."
  }

  /** `getDrugDetailsFromAPI`: build the details step by step from the
      internal match, overlay the OpenFDA summary, then default the three
      product fields. `response` is what the OpenFDA request yields. */
  method GetDrugDetailsFromAPI(dataset: seq<NdcRecord>, barcode: string, response: FdaResponse)
    returns (details: DrugDetails)
    ensures details.gs1Details == Some(Gs1NotConnected)
    ensures details.openFDADetails == Some(SearchOpenFDA(barcode, response).openFDADetails)
    ensures Truthy(details.manufacturer) && Truthy(details.productionDate) && Truthy(details.batchNumber)
    ensures SearchOpenFDA(barcode, response).manufacturer.Some? ==>
              details.manufacturer == SearchOpenFDA(barcode, response).manufacturer
    ensures FindInternalRecord(dataset, barcode).Some? ==>
              var rec := FindInternalRecord(dataset, barcode).value;
              && details.internalDatasetDetails == Some(MatchMessage(rec))
              && details.batchNumber == Some(BatchNotInDataset)
              && details.productionDate == Some(OrElse(Some(rec.marketingStartDate), NotAvailable))
              && (SearchOpenFDA(barcode, response).manufacturer.None? ==>
                    details.manufacturer == Some(OrElse(Some(rec.proprietaryName), NotAvailable)))
    ensures FindInternalRecord(dataset, barcode).None? ==>
              && details.internalDatasetDetails == Some(NoMatchMessage(barcode))
              && details.batchNumber == Some(NotAvailable)
              && details.productionDate == Some(NotAvailable)
              && (SearchOpenFDA(barcode, response).manufacturer.None? ==> details.manufacturer == Some(NotAvailable))
  {
    var internalRecord := FindInternalRecord(dataset, barcode);
    details := DrugDetails(None, None, None, None, Some(Gs1NotConnected), None);
    if internalRecord.Some? {
      var rec := internalRecord.value;
      details := details.(manufacturer := Some(rec.proprietaryName));
      details := details.(productionDate := Some(rec.marketingStartDate));
      details := details.(batchNumber := Some(BatchNotInDataset));
      details := details.(internalDatasetDetails := Some(MatchMessage(rec)));
    } else {
      details := details.(internalDatasetDetails := Some(NoMatchMessage(barcode)));
    }

    var openFDA := SearchOpenFDA(barcode, response);
    // The spread copies only the properties the summary has.
    if openFDA.manufacturer.Some? {
      details := details.(manufacturer := openFDA.manufacturer);
    }
    details := details.(openFDADetails := Some(openFDA.openFDADetails));
    details := FillDefaults(details);
  }

  /** A field after defaulting: a blank one becomes "N/A", any other stays. */
  function OrNotAvailable(o: Option<string>): (r: Option<string>)
    ensures Truthy(r)
    ensures Truthy(o) ==> r == o
    ensures !Truthy(o) ==> r == Some(NotAvailable)
  {
    Some(OrElse(o, NotAvailable))
  }

  /** The last step of `getDrugDetailsFromAPI`: each of the three product
      fields that is missing or empty is set to "N/A"; nothing else changes. */
  method FillDefaults(d: DrugDetails) returns (details: DrugDetails)
    ensures details == d.(manufacturer := OrNotAvailable(d.manufacturer),
                          productionDate := OrNotAvailable(d.productionDate),
                          batchNumber := OrNotAvailable(d.batchNumber))
  {
    details := d;
    if !Truthy(details.manufacturer) {
      details := details.(manufacturer := Some(NotAvailable));
    }
    if !Truthy(details.productionDate) {
      details := details.(productionDate := Some(NotAvailable));
    }
    if !Truthy(details.batchNumber) {
      details := details.(batchNumber := Some(NotAvailable));
    }
  }
}
