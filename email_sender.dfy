/**
 * The email sender: consumes `email.send` messages, dispatches the Email through
 * its sender's transport and records the result — the Email, its CampaignSend,
 * the campaign's `totalSent` and the event log on success; the Email, the
 * CampaignSend and a hard BounceEvent on failure.
 */
module EmailSender {
  import opened Wrappers
  import opened Ids
  import opened Records
  import opened SenderModel
  import opened StateStore
  import opened Text

  /** Messages are cut to this many characters before they are stored. */
  const MaxErrorLength: nat := 500

  /** `err.message.slice(0, 500)`. */
  function Truncate(message: string): (r: string)
    ensures |r| <= MaxErrorLength && r <= message
    ensures |message| <= MaxErrorLength ==> r == message
    ensures |message| > MaxErrorLength ==> |r| == MaxErrorLength
  {
    Prefix(message, MaxErrorLength)
  }

  /** The domain part of a sender address as a template literal prints it: `undefined` without an `@`. */
  function DomainText(senderEmail: string): (d: string)
    ensures '@' !in d
    ensures '@' !in senderEmail ==> d == "undefined"
  {
    var domain := AfterFirstAt(senderEmail);
    if domain.Some? then domain.value else "undefined"
  }

  /** `<emailId.nonce.ms`: everything of the message id before the `@`. */
  function MessageIdHead(emailId: Id, uuid: string, nowMs: int): (h: string)
    ensures |h| >= 1 && h[0] == '<'
    ensures '@' !in Prefix(uuid, 8) ==> '@' !in h
    ensures var id := IntToDecimal(emailId); |h| > 1 + |id| && h[1..1 + |id|] == id && h[1 + |id|] == '.'
  {
    var id := IntToDecimal(emailId);
    var rest := "." + Prefix(uuid, 8) + "." + IntToDecimal(nowMs);
    assert ("<" + id + rest)[1..1 + |id|] == id;
    "<" + id + rest
  }

  /**
   * `generateMessageId(emailId, domain)`: `<emailId.nonce.ms@domain>`, where the
   * nonce is the first 8 characters of a fresh UUID (`uuid`) and `nowMs` is the
   * clock in milliseconds.
   */
  function GenerateMessageId(emailId: Id, uuid: string, nowMs: int, domain: string): string
  {
    MessageIdHead(emailId, uuid, nowMs) + "@" + domain + ">"
  }

  /** The message id is bracketed and opens with the Email's id followed by a dot. */
  lemma MessageIdOpensWithEmailId(emailId: Id, uuid: string, nowMs: int, domain: string)
    ensures var r := GenerateMessageId(emailId, uuid, nowMs, domain);
      var id := IntToDecimal(emailId);
      && |r| >= 2 && r[0] == '<' && r[|r| - 1] == '>'
      && r[1..1 + |id|] == id && r[1 + |id|] == '.'
  {
    var head := MessageIdHead(emailId, uuid, nowMs);
    var r := GenerateMessageId(emailId, uuid, nowMs, domain);
    var id := IntToDecimal(emailId);
    assert r[..|head|] == head;
    assert r[1..1 + |id|] == head[1..1 + |id|];
  }

  /**
   * When the nonce holds no `@`, splitting the message id (without its closing
   * bracket) at `@` gives back exactly the sender's domain.
   */
  lemma MessageIdCarriesDomain(emailId: Id, uuid: string, nowMs: int, senderEmail: string)
    requires '@' !in Prefix(uuid, 8)
    ensures var r := GenerateMessageId(emailId, uuid, nowMs, DomainText(senderEmail));
      |r| >= 1 && AfterFirstAt(r[..|r| - 1]) == Some(DomainText(senderEmail))
  {
    var head := MessageIdHead(emailId, uuid, nowMs);
    var d := DomainText(senderEmail);
    var r := GenerateMessageId(emailId, uuid, nowMs, d);
    assert r[..|r| - 1] == head + "@" + d;
    AfterFirstAtJoin(head, d);
  }

  /** A sender address `local@domain` yields `domain` in the message id. */
  lemma SenderDomainRecovered(local: string, domain: string)
    requires '@' !in local && '@' !in domain
    ensures DomainText(local + "@" + domain) == domain
  {
    AfterFirstAtJoin(local, domain);
  }

  /** What the transport (SMTP, or the Graph API) reports. */
  datatype Dispatch = Delivered | Rejected(message: string)

  datatype Outcome =
    | EmailMissing
    | AlreadySent
    | SenderUnavailable
    | SendNotQueued
    | Succeeded(messageId: string)
    | Failed(error: string)

  /** The error raised when the Email's sender is missing, soft-deleted or unverified. */
  const SenderUnavailableMessage: string := "Sender unavailable"

  /** `Sender.findByPk(email.senderId)` and the `isVerified` check. */
  predicate SenderUsable(senders: map<Id, Sender>, e: Email)
  {
    e.senderId.Some? && e.senderId.value in senders
    && IsLive(senders[e.senderId.value]) && senders[e.senderId.value].isVerified
  }

  /** `CampaignSend.findOne({ where: { emailId } })` found a row. */
  predicate HasLinkedSend(sends: map<SendKey, CampaignSend>, emailId: Id)
  {
    exists k :: k in sends && sends[k].emailId == Some(emailId)
  }

  /** The row `CampaignSend.findOne({ where: { emailId } })` finds exists and is no longer `queued`. */
  predicate LinkedSendNotQueued(sends: map<SendKey, CampaignSend>, emailId: Id)
  {
    exists k :: k in sends && sends[k].emailId == Some(emailId) && sends[k].status != SendQueued
  }

  /** With at most one row per Email, the row `findOne` picks decides the guard for every linked row. */
  lemma FoundRowDecides(sends: map<SendKey, CampaignSend>, emailId: Id, k: SendKey)
    requires SendLinksUnique(sends)
    requires k in sends && sends[k].emailId == Some(emailId)
    ensures LinkedSendNotQueued(sends, emailId) <==> sends[k].status != SendQueued
  {
    if LinkedSendNotQueued(sends, emailId) {
      var j :| j in sends && sends[j].emailId == Some(emailId) && sends[j].status != SendQueued;
      assert j == k;
    }
  }

  /** `CampaignSend.update(changes, { where: { emailId } })`: every row linked to the Email gets `status` (and `sentAt` or `error`). */
  function UpdateLinked(sends: map<SendKey, CampaignSend>, emailId: Id, status: SendStatus,
                        sentAt: Option<int>, error: Option<string>): (r: map<SendKey, CampaignSend>)
    ensures r.Keys == sends.Keys
    ensures forall k :: k in sends && sends[k].emailId == Some(emailId) ==>
      r[k] == sends[k].(status := status,
                        sentAt := if sentAt.Some? then sentAt else sends[k].sentAt,
                        error := if error.Some? then error else sends[k].error)
    ensures forall k :: k in sends && sends[k].emailId != Some(emailId) ==> r[k] == sends[k]
  {
    map k | k in sends :: if sends[k].emailId == Some(emailId) then
      sends[k].(status := status,
                sentAt := if sentAt.Some? then sentAt else sends[k].sentAt,
                error := if error.Some? then error else sends[k].error)
      else sends[k]
  }

  /** `Campaign.increment("totalSent", { where: { id } })`; no row matches a missing id. */
  function IncrementTotalSent(campaigns: map<Id, Campaign>, campaignId: Option<Id>): (r: map<Id, Campaign>)
    ensures r.Keys == campaigns.Keys
    ensures forall id :: id in campaigns && campaignId == Some(id) ==>
      r[id] == campaigns[id].(totalSent := campaigns[id].totalSent + 1)
    ensures forall id :: id in campaigns && campaignId != Some(id) ==> r[id] == campaigns[id]
  {
    if campaignId.Some? && campaignId.value in campaigns then
      campaigns[campaignId.value := campaigns[campaignId.value].(totalSent := campaigns[campaignId.value].totalSent + 1)]
    else campaigns
  }

  /** Updating the status columns of linked send rows keeps every row keyed and every link valid. */
  lemma UpdateLinkedKeepsStore(sends: map<SendKey, CampaignSend>, emails: map<Id, Email>, emailId: Id,
                               status: SendStatus, sentAt: Option<int>, error: Option<string>)
    requires SendsKeyed(sends) && SendLinksValid(sends, emails) && SendLinksUnique(sends)
    ensures var r := UpdateLinked(sends, emailId, status, sentAt, error);
      SendsKeyed(r) && SendLinksValid(r, emails) && SendLinksUnique(r)
  {
    var r := UpdateLinked(sends, emailId, status, sentAt, error);
    assert forall k :: k in r ==>
      && r[k].emailId == sends[k].emailId && r[k].campaignId == sends[k].campaignId
      && r[k].recipientId == sends[k].recipientId && r[k].step == sends[k].step;
  }

  /** The failure bookkeeping: the Email `failed`, the linked send rows `failed` when one was loaded, one hard bounce. */
  method RecordFailure(db: Store, emailId: Id, message: string, sendLoaded: bool, now: int)
    requires db.Valid() && emailId in db.emails
    modifies db`emails, db`sends, db`bounceEvents
    ensures db.Valid()
    ensures db.emails == old(db.emails)[emailId :=
      old(db.emails)[emailId].(status := EmailFailed, lastError := Some(Truncate(message)))]
    ensures sendLoaded ==>
      db.sends == UpdateLinked(old(db.sends), emailId, SendFailed, None, Some(Truncate(message)))
    ensures !sendLoaded ==> db.sends == old(db.sends)
    ensures db.bounceEvents == old(db.bounceEvents) + [BounceEvent(emailId, Hard, Truncate(message), now)]
  {
    var e := db.emails[emailId].(status := EmailFailed, lastError := Some(Truncate(message)));
    UpdateEmail(db.emails, db.sends, db.nextId, emailId, e);
    db.emails := db.emails[emailId := e];
    if sendLoaded {
      UpdateLinkedKeepsStore(db.sends, db.emails, emailId, SendFailed, None, Some(Truncate(message)));
      db.sends := UpdateLinked(db.sends, emailId, SendFailed, None, Some(Truncate(message)));
    }
    db.bounceEvents := db.bounceEvents + [BounceEvent(emailId, Hard, Truncate(message), now)];
  }

  /** The success bookkeeping: the Email `sent` with its message id, the linked sends `sent`, `totalSent` + 1, one `sent` event. */
  method RecordSuccess(db: Store, emailId: Id, messageId: string, now: int)
    requires db.Valid() && emailId in db.emails
    modifies db`emails, db`sends, db`campaigns, db`emailEvents
    ensures db.Valid()
    ensures db.emails == old(db.emails)[emailId := old(db.emails)[emailId].(
      status := EmailSent, providerMessageId := Some(messageId), sentAt := Some(now))]
    ensures db.sends == UpdateLinked(old(db.sends), emailId, SendSent, Some(now), None)
    ensures db.campaigns == IncrementTotalSent(old(db.campaigns), old(db.emails)[emailId].campaignId)
    ensures db.emailEvents == old(db.emailEvents) + [EmailEvent(emailId, SentEvent, now)]
  {
    var e := db.emails[emailId];
    var sent := e.(status := EmailSent, providerMessageId := Some(messageId), sentAt := Some(now));
    UpdateEmail(db.emails, db.sends, db.nextId, emailId, sent);
    db.emails := db.emails[emailId := sent];
    UpdateLinkedKeepsStore(db.sends, db.emails, emailId, SendSent, Some(now), None);
    db.sends := UpdateLinked(db.sends, emailId, SendSent, Some(now), None);
    db.campaigns := IncrementTotalSent(db.campaigns, e.campaignId);
    db.emailEvents := db.emailEvents + [EmailEvent(emailId, SentEvent, now)];
  }

  /**
   * The handler past the email and sender guards, for the Email `emailId` whose
   * sender `sender` is usable: the send-row guard, the `queued` event, the
   * message id, the dispatch and its bookkeeping.
   */
  method Deliver(db: Store, emailId: Id, sender: Sender, uuid: string, now: int, dispatch: Dispatch)
    returns (outcome: Outcome)
    requires db.Valid() && emailId in db.emails
    modifies db`emails, db`sends, db`campaigns, db`emailEvents, db`bounceEvents
    ensures db.Valid()
    ensures outcome.SendNotQueued? || outcome.Succeeded? || outcome.Failed?
    ensures outcome.SendNotQueued? <==> LinkedSendNotQueued(old(db.sends), emailId)
    ensures outcome.SendNotQueued? ==>
      && db.emails == old(db.emails) && db.sends == old(db.sends) && db.campaigns == old(db.campaigns)
      && db.emailEvents == old(db.emailEvents) && db.bounceEvents == old(db.bounceEvents)
    ensures !outcome.SendNotQueued? ==> (outcome.Succeeded? <==> dispatch.Delivered?)
    ensures outcome.Succeeded? ==>
      var e := old(db.emails)[emailId];
      && outcome.messageId == GenerateMessageId(emailId, uuid, now, DomainText(sender.email))
      && db.emails == old(db.emails)[emailId := e.(
           status := EmailSent, providerMessageId := Some(outcome.messageId), sentAt := Some(now))]
      && db.sends == UpdateLinked(old(db.sends), emailId, SendSent, Some(now), None)
      && db.campaigns == IncrementTotalSent(old(db.campaigns), e.campaignId)
      && db.emailEvents == old(db.emailEvents) + [EmailEvent(emailId, QueuedEvent, now), EmailEvent(emailId, SentEvent, now)]
      && db.bounceEvents == old(db.bounceEvents)
    ensures outcome.Failed? ==>
      && dispatch == Rejected(outcome.error)
      && db.emails == old(db.emails)[emailId := old(db.emails)[emailId].(
           status := EmailFailed, lastError := Some(Truncate(outcome.error)))]
      && (HasLinkedSend(old(db.sends), emailId) ==>
            db.sends == UpdateLinked(old(db.sends), emailId, SendFailed, None, Some(Truncate(outcome.error))))
      && (!HasLinkedSend(old(db.sends), emailId) ==> db.sends == old(db.sends))
      && db.campaigns == old(db.campaigns)
      && db.emailEvents == old(db.emailEvents) + [EmailEvent(emailId, QueuedEvent, now)]
      && db.bounceEvents == old(db.bounceEvents) + [BounceEvent(emailId, Hard, Truncate(outcome.error), now)]
  {
    var linked := HasLinkedSend(db.sends, emailId);
    if linked {
      var k :| k in db.sends && db.sends[k].emailId == Some(emailId);
      FoundRowDecides(db.sends, emailId, k);
      if db.sends[k].status != SendQueued {
        return SendNotQueued;
      }
    }

    db.emailEvents := db.emailEvents + [EmailEvent(emailId, QueuedEvent, now)];
    var messageId := GenerateMessageId(emailId, uuid, now, DomainText(sender.email));

    match dispatch {
      case Delivered =>
        RecordSuccess(db, emailId, messageId, now);
        return Succeeded(messageId);
      case Rejected(message) =>
        RecordFailure(db, emailId, message, linked, now);
        return Failed(message);
    }
  }

  /**
   * The `email.send` handler for `{ emailId }`. `uuid` is the fresh UUID the
   * message id takes its nonce from, `now` the clock in milliseconds and
   * `dispatch` what the transport reports. Every outcome acknowledges the
   * message; none requeues it.
   */
  method HandleSend(db: Store, emailId: Id, uuid: string, now: int, dispatch: Dispatch) returns (outcome: Outcome)
    requires db.Valid()
    modifies db`emails, db`sends, db`campaigns, db`emailEvents, db`bounceEvents
    ensures db.Valid()
    ensures outcome.EmailMissing? <==> emailId !in old(db.emails)
    ensures outcome.AlreadySent? <==> emailId in old(db.emails) && old(db.emails)[emailId].status == EmailSent
    ensures outcome.SenderUnavailable? <==>
      && emailId in old(db.emails) && old(db.emails)[emailId].status != EmailSent
      && !SenderUsable(db.senders, old(db.emails)[emailId])
    ensures outcome.SendNotQueued? <==>
      && emailId in old(db.emails) && old(db.emails)[emailId].status != EmailSent
      && SenderUsable(db.senders, old(db.emails)[emailId])
      && LinkedSendNotQueued(old(db.sends), emailId)
    // The guards that discard the message change nothing.
    ensures outcome.EmailMissing? || outcome.AlreadySent? || outcome.SendNotQueued? ==>
      && db.emails == old(db.emails) && db.sends == old(db.sends) && db.campaigns == old(db.campaigns)
      && db.emailEvents == old(db.emailEvents) && db.bounceEvents == old(db.bounceEvents)
    // An unusable sender fails the Email before any send row is loaded and before any event.
    ensures outcome.SenderUnavailable? ==>
      && db.emails == old(db.emails)[emailId := old(db.emails)[emailId].(
           status := EmailFailed, lastError := Some(SenderUnavailableMessage))]
      && db.sends == old(db.sends) && db.campaigns == old(db.campaigns)
      && db.emailEvents == old(db.emailEvents)
      && db.bounceEvents == old(db.bounceEvents) + [BounceEvent(emailId, Hard, SenderUnavailableMessage, now)]
    // Past the guards: one `queued` event, then the transport's verdict.
    ensures outcome.Succeeded? || outcome.Failed? ==>
      && emailId in old(db.emails) && SenderUsable(db.senders, old(db.emails)[emailId])
      && (outcome.Succeeded? <==> dispatch.Delivered?)
      && |db.emailEvents| >= |old(db.emailEvents)| + 1
      && db.emailEvents[|old(db.emailEvents)|] == EmailEvent(emailId, QueuedEvent, now)
    ensures outcome.Succeeded? ==>
      var e := old(db.emails)[emailId];
      && outcome.messageId == GenerateMessageId(emailId, uuid, now, DomainText(db.senders[e.senderId.value].email))
      && db.emails == old(db.emails)[emailId := e.(
           status := EmailSent, providerMessageId := Some(outcome.messageId), sentAt := Some(now))]
      && db.sends == UpdateLinked(old(db.sends), emailId, SendSent, Some(now), None)
      && db.campaigns == IncrementTotalSent(old(db.campaigns), e.campaignId)
      && db.emailEvents == old(db.emailEvents) + [EmailEvent(emailId, QueuedEvent, now), EmailEvent(emailId, SentEvent, now)]
      && db.bounceEvents == old(db.bounceEvents)
    ensures outcome.Failed? ==>
      && dispatch == Rejected(outcome.error)
      && db.emails == old(db.emails)[emailId := old(db.emails)[emailId].(
           status := EmailFailed, lastError := Some(Truncate(outcome.error)))]
      && (HasLinkedSend(old(db.sends), emailId) ==>
            db.sends == UpdateLinked(old(db.sends), emailId, SendFailed, None, Some(Truncate(outcome.error))))
      && (!HasLinkedSend(old(db.sends), emailId) ==> db.sends == old(db.sends))
      && db.campaigns == old(db.campaigns)
      && db.emailEvents == old(db.emailEvents) + [EmailEvent(emailId, QueuedEvent, now)]
      && db.bounceEvents == old(db.bounceEvents) + [BounceEvent(emailId, Hard, Truncate(outcome.error), now)]
    // A sent Email is discarded on redelivery.
    ensures outcome.Succeeded? ==> db.emails[emailId].status == EmailSent
  {
    if emailId !in db.emails {
      return EmailMissing;
    }
    var email := db.emails[emailId];
    if email.status == EmailSent {
      return AlreadySent;
    }

    if !SenderUsable(db.senders, email) {
      RecordFailure(db, emailId, SenderUnavailableMessage, false, now);
      return SenderUnavailable;
    }
    outcome := Deliver(db, emailId, db.senders[email.senderId.value], uuid, now, dispatch);
  }
}
