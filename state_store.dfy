/**
 * The state store every worker and controller reads and writes: one field per
 * table (a map keyed by primary or unique key, or an append-only sequence), the
 * rate-limit counters, the four queues, and the calls made to the campaign
 * completion checker. Fresh row ids come from a counter.
 */
module StateStore {
  import opened Wrappers
  import opened Ids
  import opened Records
  import opened CampaignStepModel
  import opened SenderModel

  class Store {
    var campaigns: map<Id, Campaign>
    var recipients: map<Id, Recipient>
    var steps: map<StepKey, CampaignStep>
    var sends: map<SendKey, CampaignSend>
    var emails: map<Id, Email>
    var emailEvents: seq<EmailEvent>
    var bounceEvents: seq<BounceEvent>
    var senders: map<Id, Sender>
    /** The verification registry: `normalizedEmail` to `verificationStatus`. */
    var registry: map<string, string>
    var batches: map<Id, ListBatch>
    var listRecords: seq<ListRecord>
    var rateCounters: map<RateKey, int>
    var campaignSendQueue: seq<SendJob>
    var routeQueue: seq<RouteMessage>
    var sendQueue: seq<Id>
    /** `campaign.tick` payloads: the ids of campaigns whose scheduling was kicked. */
    var tickQueue: seq<Id>
    /** Campaign ids handed to the completion checker, in call order. */
    var completionChecks: seq<Id>
    var nextId: nat

    ghost predicate Valid()
      reads this
    {
      && CampaignsKeyed(campaigns, nextId)
      && RecipientsKeyed(recipients, nextId)
      && EmailsKeyed(emails, nextId)
      && SendersKeyed(senders, nextId)
      && StepsKeyed(steps)
      && SendsKeyed(sends)
      && SendLinksValid(sends, emails)
      && SendLinksUnique(sends)
      && UniqueEmails(senders)
      && RecipientsUnique(recipients)
    }

    constructor ()
      ensures Valid()
      ensures campaigns == map[] && recipients == map[] && steps == map[] && sends == map[]
      ensures emails == map[] && senders == map[] && emailEvents == [] && bounceEvents == []
      ensures rateCounters == map[] && campaignSendQueue == [] && routeQueue == [] && sendQueue == [] && tickQueue == []
      ensures completionChecks == [] && nextId == 0
    {
      campaigns, recipients, steps, sends, emails := map[], map[], map[], map[], map[];
      emailEvents, bounceEvents, senders, registry := [], [], map[], map[];
      batches, listRecords, rateCounters := map[], [], map[];
      campaignSendQueue, routeQueue, sendQueue, tickQueue, completionChecks := [], [], [], [], [];
      nextId := 0;
    }

    /** A new primary key, distinct from every id handed out before. */
    method NewId() returns (id: Id)
      requires Valid()
      modifies this`nextId
      ensures id == old(nextId) && nextId == id + 1
      ensures id !in campaigns && id !in recipients && id !in emails && id !in senders
      ensures Valid()
    {
      id := nextId;
      nextId := nextId + 1;
    }
  }

  /** Every row sits under its own id, and every id is below the id counter. */
  ghost predicate CampaignsKeyed(campaigns: map<Id, Campaign>, nextId: nat)
  {
    forall id :: id in campaigns ==> campaigns[id].id == id && id < nextId
  }

  ghost predicate RecipientsKeyed(recipients: map<Id, Recipient>, nextId: nat)
  {
    forall id :: id in recipients ==> recipients[id].id == id && id < nextId
  }

  ghost predicate EmailsKeyed(emails: map<Id, Email>, nextId: nat)
  {
    forall id :: id in emails ==> emails[id].id == id && id < nextId
  }

  ghost predicate SendersKeyed(senders: map<Id, Sender>, nextId: nat)
  {
    forall id :: id in senders ==> senders[id].id == id && id < nextId
  }

  /** Every CampaignSend row sits under its own `(campaignId, recipientId, step)` key. */
  ghost predicate SendsKeyed(sends: map<SendKey, CampaignSend>)
  {
    forall k :: k in sends ==> sends[k].campaignId == k.0 && sends[k].recipientId == k.1 && sends[k].step == k.2
  }

  /** A CampaignSend links an existing Email. */
  ghost predicate SendLinksValid(sends: map<SendKey, CampaignSend>, emails: map<Id, Email>)
  {
    forall k :: k in sends && sends[k].emailId.Some? ==> sends[k].emailId.value in emails
  }

  /** At most one CampaignSend links any one Email. */
  ghost predicate SendLinksUnique(sends: map<SendKey, CampaignSend>)
  {
    forall a, b :: a in sends && b in sends && a != b && sends[a].emailId.Some? ==> sends[a].emailId != sends[b].emailId
  }

  /** At most one recipient per `(campaignId, email)`. */
  ghost predicate RecipientsUnique(recipients: map<Id, Recipient>)
  {
    forall a, b :: a in recipients && b in recipients && a != b ==>
      recipients[a].campaignId != recipients[b].campaignId || recipients[a].email != recipients[b].email
  }

  /** Whether a recipient of `campaignId` with address `email` exists. */
  predicate HasRecipient(recipients: map<Id, Recipient>, campaignId: Id, email: string)
  {
    exists id :: id in recipients && recipients[id].campaignId == campaignId && recipients[id].email == email
  }

  /** Storing a send row that links a new Email keeps every row keyed and every link valid. */
  lemma LinkNewEmail(sends: map<SendKey, CampaignSend>, emails: map<Id, Email>, key: SendKey, send: CampaignSend, e: Email)
    requires SendsKeyed(sends) && SendLinksValid(sends, emails) && SendLinksUnique(sends)
    requires send.campaignId == key.0 && send.recipientId == key.1 && send.step == key.2
    requires e.id !in emails
    ensures SendsKeyed(sends[key := send.(emailId := Some(e.id))])
    ensures SendLinksValid(sends[key := send.(emailId := Some(e.id))], emails[e.id := e])
    ensures SendLinksUnique(sends[key := send.(emailId := Some(e.id))])
  {
  }

  /** Replacing a recipient by one with the same id, campaign and address keeps the table keyed and unique. */
  lemma UpdateRecipient(recipients: map<Id, Recipient>, nextId: nat, rid: Id, r: Recipient)
    requires RecipientsKeyed(recipients, nextId) && RecipientsUnique(recipients)
    requires rid in recipients && r.id == recipients[rid].id
    requires r.campaignId == recipients[rid].campaignId && r.email == recipients[rid].email
    ensures RecipientsKeyed(recipients[rid := r], nextId) && RecipientsUnique(recipients[rid := r])
  {
  }

  /** Replacing an Email by one with the same id keeps the table keyed and every link valid. */
  lemma UpdateEmail(emails: map<Id, Email>, sends: map<SendKey, CampaignSend>, nextId: nat, id: Id, e: Email)
    requires EmailsKeyed(emails, nextId) && SendLinksValid(sends, emails)
    requires id in emails && e.id == id
    ensures EmailsKeyed(emails[id := e], nextId) && SendLinksValid(sends, emails[id := e])
  {
  }

  /** Adding a recipient under a fresh id, for a `(campaignId, email)` pair not yet present, keeps the table keyed and unique. */
  lemma InsertRecipient(recipients: map<Id, Recipient>, nextId: nat, r: Recipient)
    requires RecipientsKeyed(recipients, nextId) && RecipientsUnique(recipients)
    requires r.id == nextId && !HasRecipient(recipients, r.campaignId, r.email)
    ensures RecipientsKeyed(recipients[r.id := r], nextId + 1) && RecipientsUnique(recipients[r.id := r])
  {
  }

  /** Replacing a campaign by one with the same id keeps the table keyed. */
  lemma UpdateCampaign(campaigns: map<Id, Campaign>, nextId: nat, c: Campaign)
    requires CampaignsKeyed(campaigns, nextId) && c.id in campaigns
    ensures CampaignsKeyed(campaigns[c.id := c], nextId)
  {
  }
}
