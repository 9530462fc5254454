/**
 * Rows of the tables whose model files are not part of this model (Campaign,
 * CampaignRecipient, CampaignSend, Email, EmailEvent, BounceEvent, the
 * verification registry, list uploads), with the fields the core reads and
 * writes, and the payloads of the queues that carry more than an id.
 */
module Records {
  import opened Wrappers
  import opened Ids
  import G = CampaignGuards
  import T = TemplateRenderer

  datatype Campaign = Campaign(
    id: Id,
    userId: Id,
    senderId: Id,
    listBatchId: Id,
    name: string,
    subject: string,
    htmlBody: Option<string>,
    textBody: Option<string>,
    status: G.CampaignStatus,
    scheduledAt: Option<int>,
    timezone: Option<string>,
    throttlePerMinute: int,
    totalSent: int)

  datatype RecipientStatus = Pending | Sent | Completed | Stopped | Bounced

  /** `currentStep` may be missing (not an integer); the handlers then use step 0. */
  datatype Recipient = Recipient(
    id: Id,
    campaignId: Id,
    email: string,
    name: Option<string>,
    metadata: map<string, T.Value>,
    status: RecipientStatus,
    currentStep: Option<int>,
    nextRunAt: Option<int>,
    lastSentAt: Option<int>)

  datatype SendStatus = SendQueued | SendSent | SendFailed

  type SendKey = (Id, Id, int)

  /** The idempotency row for `(campaignId, recipientId, step)`. */
  datatype CampaignSend = CampaignSend(
    campaignId: Id,
    recipientId: Id,
    step: int,
    senderId: Id,
    status: SendStatus,
    emailId: Option<Id>,
    error: Option<string>,
    sentAt: Option<int>)

  datatype EmailStatus = EmailCreated | EmailSent | EmailFailed

  /** Mailbox providers the MTA detector reports. */
  datatype MailProvider = Google | Microsoft | Yahoo | Unknown | OtherProvider(name: string)

  /**
   * An Email row. The orchestrator stores the rendered subject and html and the
   * step under the row's `metadata`; here they are plain fields.
   */
  datatype Email = Email(
    id: Id,
    userId: Id,
    campaignId: Option<Id>,
    senderId: Option<Id>,
    recipientEmail: string,
    subject: string,
    htmlBody: string,
    step: int,
    status: EmailStatus,
    providerMessageId: Option<string>,
    sentAt: Option<int>,
    lastError: Option<string>,
    deliveryProvider: Option<MailProvider>,
    deliveryConfidence: Option<real>,
    routedAt: Option<int>)

  datatype EventType = QueuedEvent | SentEvent

  datatype EmailEvent = EmailEvent(emailId: Id, eventType: EventType, eventTimestamp: int)

  datatype BounceType = Hard | Soft

  datatype BounceEvent = BounceEvent(emailId: Id, bounceType: BounceType, reason: string, occurredAt: int)

  /** A list upload and one parsed record of it. */
  datatype ListBatch = ListBatch(id: Id, userId: Id, status: string)

  datatype ListRecord = ListRecord(batchId: Id, normalizedEmail: string, status: string)

  /** Key of a rate-limit counter: the provider and the minute bucket. */
  type RateKey = (MailProvider, int)

  /** What the MTA detector returns for a recipient address. */
  datatype MtaResult = MtaResult(provider: Option<MailProvider>, confidence: real)

  /** `campaign.send` payload: `{campaignId, recipientId, step}`. */
  datatype SendJob = SendJob(campaignId: Id, recipientId: Id, step: Option<int>)

  /** `email.route` payload: `{emailId}`, or content that does not parse as JSON. */
  datatype RouteMessage = Unparsable | RouteRequest(emailId: Option<Id>)
}
