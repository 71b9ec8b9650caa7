/** The VibeLink lead capture endpoint, `POST /api/leads`: four required
    fields, a fixed-column record appended to the leads file, an optional
    best-effort webhook forward, and a response with `details` redacted. */
module LeadCapture {
  import opened Wrappers
  import opened JsValues

  datatype LeadRequest = LeadRequest(name: JsValue, phone: JsValue, zip: JsValue, project: JsValue, details: JsValue)

  /** One row of the leads file. */
  datatype Lead = Lead(timestamp: string, name: JsValue, phone: JsValue, zip: JsValue, project: JsValue, details: JsValue)

  /** `MissingFields` is answered with status 400; `WriteFailed` (the CSV
      append threw) with status 500. */
  datatype LeadError = MissingFields | WriteFailed
  {
    function Status(): nat
    {
      match this
      case MissingFields => 400
      case WriteFailed => 500
    }

    function Message(): string
    {
      match this
      case MissingFields => "Missing required fields: name, phone, zip, project"
      case WriteFailed => "Failed to process lead"
    }
  }

  /** The CSV header: column ids and titles, in file order. */
  const Columns: seq<(string, string)> := [
    ("timestamp", "Timestamp"),
    ("name", "Name"),
    ("phone", "Phone"),
    ("zip", "ZIP"),
    ("project", "Project"),
    ("details", "Details")
  ]

  /** The field of a lead that a column id names. */
  function Field(lead: Lead, id: string): JsValue
  {
    if id == "timestamp" then Str(lead.timestamp)
    else if id == "name" then lead.name
    else if id == "phone" then lead.phone
    else if id == "zip" then lead.zip
    else if id == "project" then lead.project
    else if id == "details" then lead.details
    else Undefined
  }

  /** The values the CSV writer puts on a lead's line: one per header column,
      in header order. */
  function CsvRow(lead: Lead): (row: seq<JsValue>)
    ensures |row| == |Columns|
    ensures forall k :: 0 <= k < |Columns| ==> row[k] == Field(lead, Columns[k].0)
  {
    [Str(lead.timestamp), lead.name, lead.phone, lead.zip, lead.project, lead.details]
  }

  /** The file's column ids are pairwise distinct, so each field has one column. */
  lemma ColumnIdsDistinct()
    ensures forall i, j :: 0 <= i < j < |Columns| ==> Columns[i].0 != Columns[j].0
  {
  }

  /** `name`, `phone`, `zip` and `project` are all present: none of them is
      one of the falsy values. `details` is optional. */
  function HasRequiredFields(req: LeadRequest): (ok: bool)
    ensures ok <==> req.name !in Falsy && req.phone !in Falsy && req.zip !in Falsy && req.project !in Falsy
  {
    Truthy(req.name) && Truthy(req.phone) && Truthy(req.zip) && Truthy(req.project)
  }

  /** The record stored for a valid request at time `now`. */
  function BuildLead(req: LeadRequest, now: string): (lead: Lead)
    requires HasRequiredFields(req)
    ensures lead.timestamp == now
    ensures lead.name == req.name && lead.phone == req.phone && lead.zip == req.zip && lead.project == req.project
    ensures Truthy(req.details) ==> lead.details == req.details
    ensures !Truthy(req.details) ==> lead.details == Str("")
  {
    Lead(now, req.name, req.phone, req.zip, req.project, OrElse(req.details, Str("")))
  }

  /** The lead echoed in the response: the stored record with `details`
      replaced by a marker of whether the request had any. */
  function Redacted(req: LeadRequest, lead: Lead): (shown: Lead)
    ensures shown.(details := lead.details) == lead
    ensures shown.details == Str("(provided)") <==> Truthy(req.details)
    ensures shown.details == Str("(none)") <==> !Truthy(req.details)
  {
    lead.(details := if Truthy(req.details) then Str("(provided)") else Str("(none)"))
  }

  /** The redaction never reveals the details: two requests that differ only
      in (truthy) details get the same response lead. */
  lemma RedactionHidesDetails(req1: LeadRequest, req2: LeadRequest, now: string)
    requires HasRequiredFields(req1) && req2 == req1.(details := req2.details)
    requires Truthy(req1.details) == Truthy(req2.details)
    ensures Redacted(req1, BuildLead(req1, now)) == Redacted(req2, BuildLead(req2, now))
  {
  }

  /** The response lead's marker agrees with the stored record's `details`. */
  lemma RedactionMatchesStored(req: LeadRequest, now: string)
    requires HasRequiredFields(req)
    ensures Redacted(req, BuildLead(req, now)).details == Str("(provided)") <==> BuildLead(req, now).details != Str("")
  {
  }

  /** An environment variable as JavaScript reads it: `undefined` when unset. */
  function EnvValue(v: Option<string>): JsValue
  {
    if v.Some? then Str(v.value) else Undefined
  }

  /** A webhook URL is configured when `WEBHOOK_URL` is set and not empty,
      which is when `if (webhookUrl)` takes its branch. */
  function WebhookConfigured(url: Option<string>): (b: bool)
    ensures b <==> Truthy(EnvValue(url))
    ensures b ==> url.Some? && url.value != ""
  {
    url.Some? && url.value != ""
  }

  /** The server's persistent effects: the records of the leads file and the
      records sent towards the webhook. */
  class LeadServer {
    const webhookUrl: Option<string>
    var leads: seq<Lead>
    var webhookAttempts: seq<Lead>
    var webhookDeliveries: seq<Lead>

    /** Start with the records already in the file (the writer appends when the file exists). */
    constructor (webhookUrl: Option<string>, existing: seq<Lead>)
      ensures this.webhookUrl == webhookUrl
      ensures leads == existing && webhookAttempts == [] && webhookDeliveries == []
    {
      this.webhookUrl := webhookUrl;
      leads := existing;
      webhookAttempts, webhookDeliveries := [], [];
    }

    /** The handler. `now` is the request time, `writeSucceeds` whether the CSV
        append completes, `webhookSucceeds` whether the webhook POST completes. */
    method SubmitLead(req: LeadRequest, now: string, writeSucceeds: bool, webhookSucceeds: bool)
      returns (r: Result<Lead, LeadError>)
      modifies this`leads, this`webhookAttempts, this`webhookDeliveries
      ensures !HasRequiredFields(req) ==>
        r == Err(MissingFields) && leads == old(leads) &&
        webhookAttempts == old(webhookAttempts) && webhookDeliveries == old(webhookDeliveries)
      ensures HasRequiredFields(req) && !writeSucceeds ==>
        r == Err(WriteFailed) && leads == old(leads) &&
        webhookAttempts == old(webhookAttempts) && webhookDeliveries == old(webhookDeliveries)
      ensures HasRequiredFields(req) && writeSucceeds ==>
        var lead := BuildLead(req, now);
        && r == Ok(Redacted(req, lead))
        && leads == old(leads) + [lead]
        && webhookAttempts == (if WebhookConfigured(webhookUrl) then old(webhookAttempts) + [lead] else old(webhookAttempts))
        && webhookDeliveries == (if WebhookConfigured(webhookUrl) && webhookSucceeds then old(webhookDeliveries) + [lead] else old(webhookDeliveries))
    {
      if !HasRequiredFields(req) {
        return Err(MissingFields);
      }
      var lead := BuildLead(req, now);
      if !writeSucceeds {
        return Err(WriteFailed);
      }
      leads := leads + [lead];
      if WebhookConfigured(webhookUrl) {
        webhookAttempts := webhookAttempts + [lead];
        if webhookSucceeds {
          webhookDeliveries := webhookDeliveries + [lead];
        }
      }
      r := Ok(Redacted(req, lead));
    }
  }
}
