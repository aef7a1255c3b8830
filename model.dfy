/** The records the monitoring engine and its helpers exchange.
    JavaScript objects read from JSON become datatypes; a property the
    JavaScript code tests for presence (`x.trackingDetails || []`,
    `!oldResult`) becomes an `Option`. Timestamps, stored by the program
    as ISO strings, are integer milliseconds here. */
module Model {

  datatype Option<T> = None | Some(value: T)

  /** One checkpoint of a shipment (an element of `trackingDetails`). */
  datatype Step = Step(where: string, timeString: string, kind: Option<string>)

  /** A tracking lookup's answer: the completion flag and the checkpoints,
      oldest first. `trackingDetails` may be missing from the answer. */
  datatype TrackingResult = TrackingResult(complete: bool, trackingDetails: Option<seq<Step>>)

  /** `result.trackingDetails || []`: a missing step list reads as empty. */
  function Steps(r: TrackingResult): (s: seq<Step>)
    ensures r.trackingDetails.None? ==> s == []
    ensures r.trackingDetails.Some? ==> s == r.trackingDetails.value
  {
    match r.trackingDetails
    case None => []
    case Some(steps) => steps
  }

  /** `trackingResult?.trackingDetails?.length > 0` */
  predicate HasSteps(r: Option<TrackingResult>) {
    r.Some? && |Steps(r.value)| > 0
  }

  /** The most recent checkpoint. */
  function LastStep(r: TrackingResult): Step
    requires |Steps(r)| > 0
  {
    Steps(r)[|Steps(r)| - 1]
  }

  /** A tracked shipment as kept in the record list. */
  datatype Record = Record(
    trackingNumber: string,
    carrierCode: string,
    carrierName: string,
    trackingResult: Option<TrackingResult>,
    createdAt: int,
    lastUpdated: int)

  /** An object spread over a record (`{ ...item, ...patch }`): the fields it
      defines are `Some`. */
  datatype RecordPatch = RecordPatch(
    trackingNumber: Option<string>,
    carrierCode: Option<string>,
    carrierName: Option<string>,
    trackingResult: Option<Option<TrackingResult>>,
    createdAt: Option<int>,
    lastUpdated: Option<int>)

  /** The monitoring settings, complete. */
  datatype Settings = Settings(
    slackWebhookUrl: string,
    monitoringInterval: int,
    notifyOnShipment: bool,
    notifyOnDelay: bool,
    notifyOnDelivery: bool,
    notifyOnException: bool)

  /** A saved settings object, which may define only some of the fields. */
  datatype SettingsPatch = SettingsPatch(
    slackWebhookUrl: Option<string>,
    monitoringInterval: Option<int>,
    notifyOnShipment: Option<bool>,
    notifyOnDelay: Option<bool>,
    notifyOnDelivery: Option<bool>,
    notifyOnException: Option<bool>)

  /** The Slack webhook payload. */
  datatype Field = Field(title: string, value: string, short: bool)
  datatype Attachment = Attachment(color: string, fields: seq<Field>, footer: string)
  datatype SlackMessage = SlackMessage(text: string, attachments: seq<Attachment>)

  /** Outbound HTTP requests, in the order they are issued. */
  datatype Request =
    | TrackingQuery(apiKey: string, carrierCode: string, invoice: string)
    | SlackPost(url: string, body: SlackMessage)

  /** What the tracking server answers, or the message of the error it raises. */
  datatype Reply = Fetched(result: TrackingResult) | FetchError(message: string)

  /** What posting to the webhook does: accepted, or the message of the error
      the request raised (a network failure or a non-2xx status). */
  datatype Delivery = Accepted | Refused(message: string)

  /** Concatenation regroups freely; stated once so that long logs and
      lists need not be regrouped element by element. */
  lemma AppendAssoc<T>(a: seq<T>, b: seq<T>, c: seq<T>)
    ensures (a + b) + c == a + (b + c)
  {
  }
}
