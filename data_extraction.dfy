/**
 * `show_extraction_ui` of `frontend/components/data_extraction.py`: the guards before the request
 * to `/extract_data` and the filter that drops absent fields from the reply. The reply is an
 * input (the result of the POST).
 */
module DataExtraction {
  import opened Common
  import opened Session
  import Backend

  /** A JSON value of the extraction reply: null, a string, or a number. */
  datatype Json = JNull | JStr(s: string) | JNum(r: real)

  /** `{k: v for k, v in extracted_data.items() if v is not None}`. */
  function DropNulls(data: map<string, Json>): (r: map<string, Json>)
    ensures forall k :: k in r <==> k in data && data[k] != JNull
    ensures forall k :: k in r ==> r[k] == data[k]
  {
    map k | k in data && data[k] != JNull :: data[k]
  }

  /** Filtering twice filters nothing more. */
  lemma DropNullsIdempotent(data: map<string, Json>)
    ensures DropNulls(DropNulls(data)) == DropNulls(data)
  {
  }

  /** The filtered result is empty exactly when every field is null. */
  lemma DropNullsEmpty(data: map<string, Json>)
    ensures DropNulls(data) == map[] <==> forall k :: k in data ==> data[k] == JNull
  {
    if DropNulls(data) == map[] {
      forall k | k in data ensures data[k] == JNull {
        assert k !in DropNulls(data);
      }
    }
  }

  /** How the back end's `Invoice` arrives as JSON: all four fields, absent ones as null. */
  function InvoiceJson(inv: Backend.Invoice): (d: map<string, Json>)
    ensures d.Keys == {"invoice_id", "vendor_name", "invoice_date", "total_amount"}
  {
    map[
      "invoice_id" := (if inv.invoiceId.Some? then JStr(inv.invoiceId.value) else JNull),
      "vendor_name" := (if inv.vendorName.Some? then JStr(inv.vendorName.value) else JNull),
      "invoice_date" := (if inv.invoiceDate.Some? then JStr(inv.invoiceDate.value) else JNull),
      "total_amount" := (if inv.totalAmount.Some? then JNum(inv.totalAmount.value) else JNull)]
  }

  /** A field shows in the table exactly when the back end filled it in. */
  lemma InvoiceFieldsShown(inv: Backend.Invoice)
    ensures "invoice_id" in DropNulls(InvoiceJson(inv)) <==> inv.invoiceId.Some?
    ensures "vendor_name" in DropNulls(InvoiceJson(inv)) <==> inv.vendorName.Some?
    ensures "invoice_date" in DropNulls(InvoiceJson(inv)) <==> inv.invoiceDate.Some?
    ensures "total_amount" in DropNulls(InvoiceJson(inv)) <==> inv.totalAmount.Some?
  {
  }

  /** The JSON body posted to `/extract_data`: exactly these two fields. */
  datatype ExtractionPayload = ExtractionPayload(inputText: string, uploadedFileName: Option<string>)

  /** Why the request failed: a `requests` exception or any other. */
  datatype Failure = RequestFailed(message: string) | OtherFailure(message: string)

  /** What the extraction panel ends up showing. */
  datatype Shown =
    | NotProcessedWarning     // "Please upload and process a document first."
    | Waiting                 // the button was not clicked
    | EmptyPromptError        // "Please enter what you want to extract."
    | ErrorMessage(text: string)
    | NoData                  // "No data was extracted for the specified fields."
    | Table(row: map<string, Json>)

  /**
   * The request the panel sends, if any: none without a processed document, without a click, or
   * with an empty prompt; otherwise the prompt and the stored file name.
   */
  function RequestSent(vars: map<Key, Value>, prompt: string, clicked: bool): (r: Option<ExtractionPayload>)
    requires WellTyped(vars) && UploadedFileName in vars
    ensures r.Some? <==> Truthy(Get(vars, DocumentProcessed, Bool(false))) && clicked && prompt != ""
    ensures r.Some? ==> r.value.inputText == prompt
    ensures r.Some? && vars[UploadedFileName].Str? ==> r.value.uploadedFileName == Some(vars[UploadedFileName].s)
    ensures r.Some? && vars[UploadedFileName].Null? ==> r.value.uploadedFileName.None?
  {
    if !Truthy(Get(vars, DocumentProcessed, Bool(false))) || !clicked || prompt == "" then None
    else
      var name := vars[UploadedFileName];
      Some(ExtractionPayload(prompt, if name.Str? then Some(name.s) else None))
  }

  /**
   * `show_extraction_ui`: the two guards come first; a reply is shown as a one-row table of its
   * non-null fields, or as "no data" when there are none.
   */
  function ShowExtractionUi(
    vars: map<Key, Value>, prompt: string, clicked: bool,
    post: ExtractionPayload -> Result<map<string, Json>, Failure>): (shown: Shown)
    requires WellTyped(vars) && UploadedFileName in vars
    ensures !Truthy(Get(vars, DocumentProcessed, Bool(false))) ==> shown == NotProcessedWarning
    ensures Truthy(Get(vars, DocumentProcessed, Bool(false))) && clicked && prompt == "" ==> shown == EmptyPromptError
    ensures shown.NoData? || shown.Table? || shown.ErrorMessage? ==> RequestSent(vars, prompt, clicked).Some?
    ensures shown.Table? ==>
              && post(RequestSent(vars, prompt, clicked).value).Ok?
              && shown.row == DropNulls(post(RequestSent(vars, prompt, clicked).value).value)
              && shown.row != map[]
    ensures shown.NoData? ==>
              && post(RequestSent(vars, prompt, clicked).value).Ok?
              && DropNulls(post(RequestSent(vars, prompt, clicked).value).value) == map[]
    ensures Truthy(Get(vars, DocumentProcessed, Bool(false))) && !clicked ==> shown == Waiting
    ensures RequestSent(vars, prompt, clicked).Some? ==>
              var reply := post(RequestSent(vars, prompt, clicked).value);
              && (reply.Err? && reply.error.RequestFailed? ==>
                    shown == ErrorMessage("Error communicating with backend: " + reply.error.message))
              && (reply.Err? && reply.error.OtherFailure? ==>
                    shown == ErrorMessage("An unexpected error occurred: " + reply.error.message))
              && (reply.Ok? && DropNulls(reply.value) == map[] ==> shown == NoData)
              && (reply.Ok? && DropNulls(reply.value) != map[] ==> shown == Table(DropNulls(reply.value)))
  {
    if !Truthy(Get(vars, DocumentProcessed, Bool(false))) then NotProcessedWarning
    else if !clicked then Waiting
    else if prompt == "" then EmptyPromptError
    else
      match post(RequestSent(vars, prompt, clicked).value)
      case Err(RequestFailed(m)) => ErrorMessage("Error communicating with backend: " + m)
      case Err(OtherFailure(m)) => ErrorMessage("An unexpected error occurred: " + m)
      case Ok(extracted) =>
        var filtered := DropNulls(extracted);
        if filtered == map[] then NoData else Table(filtered)
  }

  /**
   * An answer the back end filled with nothing (every field absent, as `ExtractData` returns
   * for a missing answer) is shown as "no data" once the request was sent.
   */
  lemma EmptyInvoiceShowsNoData(
    vars: map<Key, Value>, prompt: string, clicked: bool,
    post: ExtractionPayload -> Result<map<string, Json>, Failure>)
    requires WellTyped(vars) && UploadedFileName in vars
    requires RequestSent(vars, prompt, clicked).Some?
    requires post(RequestSent(vars, prompt, clicked).value) == Ok(InvoiceJson(Backend.EmptyInvoice))
    ensures ShowExtractionUi(vars, prompt, clicked, post) == NoData
  {
    DropNullsEmpty(InvoiceJson(Backend.EmptyInvoice));
  }
}
