/**
 * The campaign endpoints: `createCampaign` validates the request and the list
 * upload and stores a `draft` campaign; `activateCampaign` turns the upload's
 * usable records into recipients and schedules the campaign at once;
 * `pauseCampaign` and `resumeCampaign` move the status through the guard.
 */
module CampaignController {
  import opened Wrappers
  import opened Ids
  import opened Records
  import opened StateStore
  import G = CampaignGuards
  import T = TemplateRenderer
  import S = CampaignScheduler

  /** The request body fields `createCampaign` reads; an absent field is None. */
  datatype CampaignRequest = CampaignRequest(
    name: Option<string>,
    subject: Option<string>,
    htmlBody: Option<string>,
    textBody: Option<string>,
    senderId: Option<Id>,
    listBatchId: Option<Id>,
    scheduledAt: Option<int>,
    timezone: Option<string>,
    throttlePerMinute: Option<int>)

  datatype CampaignError =
    /** `AppError("Missing required fields", 400)`. */
    | MissingFields
    /** `AppError("List batch not ready", 400)`. */
    | BatchNotReady
    /** `AppError("Campaign not found", 404)`. */
    | CampaignNotFound
    /** Reading `status` of a campaign `findByPk` did not find: a TypeError, answered with 500. */
    | NoCampaign
    /** The lifecycle guard threw. */
    | Rejected(error: G.TransitionError)

  /** JavaScript truthiness of an optional string: present and not empty. */
  predicate Present(s: Option<string>)
  {
    s.Some? && s.value != ""
  }

  /** `throttlePerMinute || 10`. */
  function ThrottleOrDefault(t: Option<int>): (n: int)
    ensures t.None? || t == Some(0) ==> n == 10
    ensures t.None? || t == Some(0) <==> n == 10 && t != Some(10)
    ensures t.Some? && t.value != 0 ==> n == t.value
  {
    if t.None? || t.value == 0 then 10 else t.value
  }

  /** The batch `ListUploadBatch.findOne({where: {id, userId}})` finds is there and `completed`. */
  predicate BatchReady(batches: map<Id, ListBatch>, batchId: Id, userId: Id)
  {
    batchId in batches && batches[batchId].userId == userId && batches[batchId].status == "completed"
  }

  /** The checks of `createCampaign`, in order, before anything is written. */
  function CreateCheck(batches: map<Id, ListBatch>, userId: Id, req: CampaignRequest): (r: Option<CampaignError>)
    ensures r == Some(MissingFields) <==>
      !Present(req.name) || !Present(req.subject) || req.senderId.None? || req.listBatchId.None?
    ensures r.None? <==>
      && Present(req.name) && Present(req.subject) && req.senderId.Some? && req.listBatchId.Some?
      && BatchReady(batches, req.listBatchId.value, userId)
    ensures r.Some? ==> r == Some(MissingFields) || r == Some(BatchNotReady)
  {
    if !Present(req.name) || !Present(req.subject) || req.senderId.None? || req.listBatchId.None? then Some(MissingFields)
    else if !BatchReady(batches, req.listBatchId.value, userId) then Some(BatchNotReady)
    else None
  }

  /** The row `Campaign.create` inserts once the checks pass. */
  function NewCampaign(id: Id, userId: Id, req: CampaignRequest): (c: Campaign)
    requires Present(req.name) && Present(req.subject) && req.senderId.Some? && req.listBatchId.Some?
    ensures c.id == id && c.userId == userId && c.status == G.Draft && c.totalSent == 0
    ensures c.senderId == req.senderId.value && c.listBatchId == req.listBatchId.value
    ensures c.name == req.name.value && c.subject == req.subject.value
    ensures c.htmlBody == req.htmlBody && c.textBody == req.textBody
    ensures c.scheduledAt == req.scheduledAt && c.timezone == req.timezone
    ensures c.throttlePerMinute == ThrottleOrDefault(req.throttlePerMinute) != 0
  {
    Campaign(id, userId, req.senderId.value, req.listBatchId.value, req.name.value, req.subject.value,
             req.htmlBody, req.textBody, G.Draft, req.scheduledAt, req.timezone,
             ThrottleOrDefault(req.throttlePerMinute), 0)
  }

  /** A new campaign's status admits exactly one move, activation. */
  lemma NewCampaignOnlyActivates(id: Id, userId: Id, req: CampaignRequest, to: G.CampaignStatus)
    requires Present(req.name) && Present(req.subject) && req.senderId.Some? && req.listBatchId.Some?
    ensures G.AssertTransition(NewCampaign(id, userId, req).status, to).None? <==> to == G.Scheduled
  {
  }

  /** `createCampaign`: a `draft` campaign is stored when the checks pass; otherwise nothing changes. */
  method CreateCampaign(db: Store, userId: Id, req: CampaignRequest) returns (r: Result<Campaign, CampaignError>)
    requires db.Valid()
    modifies db`campaigns, db`nextId
    ensures db.Valid()
    ensures r.Err? <==> CreateCheck(old(db.batches), userId, req).Some?
    ensures r.Err? ==> Some(r.error) == CreateCheck(old(db.batches), userId, req) && db.campaigns == old(db.campaigns)
    ensures r.Ok? ==>
      && r.value == NewCampaign(r.value.id, userId, req)
      && r.value.id !in old(db.campaigns)
      && db.campaigns == old(db.campaigns)[r.value.id := r.value]
  {
    var check := CreateCheck(db.batches, userId, req);
    if check.Some? {
      return Err(check.value);
    }
    var id := db.NewId();
    var c := NewCampaign(id, userId, req);
    db.campaigns := db.campaigns[id := c];
    r := Ok(c);
  }

  /** `ListUploadRecord.findAll({where: {batchId, status: ["parsed", "duplicate"]}})`. */
  predicate Selected(rec: ListRecord, batchId: Id)
  {
    rec.batchId == batchId && (rec.status == "parsed" || rec.status == "duplicate")
  }

  /** Some selected record of `batchId` carries `email`. */
  ghost predicate FromBatch(records: seq<ListRecord>, batchId: Id, email: string)
  {
    exists i :: 0 <= i < |records| && Selected(records[i], batchId) && records[i].normalizedEmail == email
  }

  /**
   * A recipient row built from `{campaignId, email}`; the other columns take
   * their defaults: no name, no metadata, `pending`, step 0, no times.
   */
  function NewRecipient(id: Id, campaignId: Id, email: string): (r: Recipient)
    ensures r.id == id && r.campaignId == campaignId && r.email == email
    ensures r.status == Pending && r.currentStep == Some(0)
  {
    Recipient(id, campaignId, email, None, map[], Pending, Some(0), None, None)
  }

  /** `after` keeps every row of `before`, and each row it adds is a default row for an address of the batch. */
  ghost predicate Extends(before: map<Id, Recipient>, after: map<Id, Recipient>, campaignId: Id, records: seq<ListRecord>, batchId: Id)
  {
    && (forall rid :: rid in before ==> rid in after && after[rid] == before[rid])
    && (forall rid :: rid in after && rid !in before ==>
          after[rid] == NewRecipient(rid, campaignId, after[rid].email) && FromBatch(records, batchId, after[rid].email))
  }

  /** Every selected record among the first `n` has a recipient of the campaign. */
  ghost predicate Covers(recipients: map<Id, Recipient>, campaignId: Id, records: seq<ListRecord>, batchId: Id, n: nat)
    requires n <= |records|
  {
    forall k :: 0 <= k < n && Selected(records[k], batchId) ==> HasRecipient(recipients, campaignId, records[k].normalizedEmail)
  }

  /** Adding the default row for record `i` under a fresh id keeps both facts. */
  lemma InsertForRecord(before: map<Id, Recipient>, recipients: map<Id, Recipient>, campaignId: Id,
                        records: seq<ListRecord>, batchId: Id, i: nat, rid: Id)
    requires i < |records| && Selected(records[i], batchId)
    requires Extends(before, recipients, campaignId, records, batchId) && Covers(recipients, campaignId, records, batchId, i)
    requires rid !in recipients
    ensures var after := recipients[rid := NewRecipient(rid, campaignId, records[i].normalizedEmail)];
      Extends(before, after, campaignId, records, batchId) && Covers(after, campaignId, records, batchId, i + 1)
  {
    var after := recipients[rid := NewRecipient(rid, campaignId, records[i].normalizedEmail)];
    assert after[rid].email == records[i].normalizedEmail;
    forall k | 0 <= k < i + 1 && Selected(records[k], batchId)
      ensures HasRecipient(after, campaignId, records[k].normalizedEmail)
    {
      if k < i {
        var w :| w in recipients && recipients[w].campaignId == campaignId && recipients[w].email == records[k].normalizedEmail;
        assert after[w] == recipients[w];
      } else {
        assert after[rid].campaignId == campaignId;
      }
    }
  }

  /**
   * `CampaignRecipient.bulkCreate(..., {ignoreDuplicates: true})` for the
   * selected records of `batchId`: a row is added for each address the
   * campaign has no recipient for yet, in record order; existing rows are
   * left as they are. Fresh ids are taken from `nextId` upwards.
   */
  method BulkInsert(recipients: map<Id, Recipient>, nextId: nat, campaignId: Id, records: seq<ListRecord>, batchId: Id)
    returns (after: map<Id, Recipient>, nextAfter: nat)
    requires RecipientsKeyed(recipients, nextId) && RecipientsUnique(recipients)
    ensures RecipientsKeyed(after, nextAfter) && RecipientsUnique(after) && nextAfter >= nextId
    ensures Extends(recipients, after, campaignId, records, batchId)
    ensures Covers(after, campaignId, records, batchId, |records|)
  {
    after, nextAfter := recipients, nextId;
    var i := 0;
    while i < |records|
      invariant 0 <= i <= |records|
      invariant RecipientsKeyed(after, nextAfter) && RecipientsUnique(after) && nextAfter >= nextId
      invariant Extends(recipients, after, campaignId, records, batchId)
      invariant Covers(after, campaignId, records, batchId, i)
    {
      var rec := records[i];
      if Selected(rec, batchId) && !HasRecipient(after, campaignId, rec.normalizedEmail) {
        var row := NewRecipient(nextAfter, campaignId, rec.normalizedEmail);
        InsertRecipient(after, nextAfter, row);
        InsertForRecord(recipients, after, campaignId, records, batchId, i, nextAfter);
        after := after[nextAfter := row];
        nextAfter := nextAfter + 1;
      }
      i := i + 1;
    }
  }

  /**
   * `activateCampaign`: only a `draft` campaign is activated. Its recipients
   * are materialised, it becomes `scheduled` with `scheduledAt` set to now
   * (whatever start time it was created with), and a tick is published.
   */
  method ActivateCampaign(db: Store, id: Option<Id>, now: int) returns (err: Option<CampaignError>)
    requires db.Valid()
    modifies db`campaigns, db`recipients, db`nextId, db`tickQueue
    ensures db.Valid()
    ensures err == Some(CampaignNotFound) <==> id.None? || id.value !in old(db.campaigns)
    ensures err.None? <==> id.Some? && id.value in old(db.campaigns) && old(db.campaigns[id.value]).status == G.Draft
    ensures err.Some? ==> err == Some(CampaignNotFound) || err == Some(Rejected(G.InvalidTransition(old(db.campaigns[id.value]).status, G.Scheduled)))
    ensures err.Some? ==>
      db.campaigns == old(db.campaigns) && db.recipients == old(db.recipients) && db.tickQueue == old(db.tickQueue)
    ensures err.None? ==>
      var c := old(db.campaigns[id.value]);
      && db.campaigns == old(db.campaigns)[id.value := c.(status := G.Scheduled, scheduledAt := Some(now))]
      && db.tickQueue == old(db.tickQueue) + [id.value]
      && Extends(old(db.recipients), db.recipients, id.value, db.listRecords, c.listBatchId)
      && Covers(db.recipients, id.value, db.listRecords, c.listBatchId, |db.listRecords|)
  {
    err := None;
    if id.None? || id.value !in db.campaigns {
      return Some(CampaignNotFound);
    }
    var c := db.campaigns[id.value];
    var guard := G.AssertTransition(c.status, G.Scheduled);
    if guard.Some? {
      return Some(Rejected(guard.value));
    }
    var recipients, nextId := BulkInsert(db.recipients, db.nextId, id.value, db.listRecords, c.listBatchId);
    db.recipients, db.nextId := recipients, nextId;
    UpdateCampaign(db.campaigns, db.nextId, c.(status := G.Scheduled, scheduledAt := Some(now)));
    db.campaigns := db.campaigns[id.value := c.(status := G.Scheduled, scheduledAt := Some(now))];
    db.tickQueue := db.tickQueue + [id.value];
  }

  /** An activated campaign is due on every tick from the activation instant on. */
  lemma ActivatedIsDue(c: Campaign, now: int, t: int)
    requires t >= now
    ensures S.Due(c.(status := G.Scheduled, scheduledAt := Some(now)), t)
    ensures S.Active(c.(status := G.Scheduled, scheduledAt := Some(now)))
  {
  }

  /**
   * The shared body of `pauseCampaign` and `resumeCampaign`: the guard decides,
   * and only an accepted move writes the new status.
   */
  method MoveCampaign(db: Store, id: Option<Id>, target: G.CampaignStatus) returns (err: Option<CampaignError>)
    requires db.Valid()
    modifies db`campaigns
    ensures db.Valid()
    ensures err == Some(NoCampaign) <==> id.None? || id.value !in old(db.campaigns)
    ensures err.None? <==> id.Some? && id.value in old(db.campaigns) && G.LifecycleEdge(old(db.campaigns[id.value]).status, target)
    ensures err.Some? && err != Some(NoCampaign) ==>
      err == Some(Rejected(G.InvalidTransition(old(db.campaigns[id.value]).status, target)))
    ensures err.Some? ==> db.campaigns == old(db.campaigns)
    ensures err.None? ==> db.campaigns == old(db.campaigns)[id.value := old(db.campaigns[id.value]).(status := target)]
  {
    err := None;
    if id.None? || id.value !in db.campaigns {
      return Some(NoCampaign);
    }
    var c := db.campaigns[id.value];
    var guard := G.AssertTransition(c.status, target);
    if guard.Some? {
      return Some(Rejected(guard.value));
    }
    UpdateCampaign(db.campaigns, db.nextId, c.(status := target));
    db.campaigns := db.campaigns[id.value := c.(status := target)];
  }

  /** `pauseCampaign`: accepted exactly from `scheduled` and `running`. */
  method PauseCampaign(db: Store, id: Option<Id>) returns (err: Option<CampaignError>)
    requires db.Valid()
    modifies db`campaigns
    ensures db.Valid()
    ensures err.None? <==>
      id.Some? && id.value in old(db.campaigns) && old(db.campaigns[id.value]).status in {G.Scheduled, G.Running}
    ensures err.Some? ==> db.campaigns == old(db.campaigns)
    ensures err.None? ==> db.campaigns == old(db.campaigns)[id.value := old(db.campaigns[id.value]).(status := G.Paused)]
  {
    err := MoveCampaign(db, id, G.Paused);
  }

  /** `resumeCampaign`: accepted exactly from `scheduled` and `paused`; an accepted resume also publishes a tick. */
  method ResumeCampaign(db: Store, id: Option<Id>) returns (err: Option<CampaignError>)
    requires db.Valid()
    modifies db`campaigns, db`tickQueue
    ensures db.Valid()
    ensures err.None? <==>
      id.Some? && id.value in old(db.campaigns) && old(db.campaigns[id.value]).status in {G.Scheduled, G.Paused}
    ensures err.Some? ==> db.campaigns == old(db.campaigns) && db.tickQueue == old(db.tickQueue)
    ensures err.None? ==>
      && db.campaigns == old(db.campaigns)[id.value := old(db.campaigns[id.value]).(status := G.Running)]
      && db.tickQueue == old(db.tickQueue) + [id.value]
  {
    err := MoveCampaign(db, id, G.Running);
    if err.None? {
      db.tickQueue := db.tickQueue + [id.value];
    }
  }

  /** Pausing and then resuming an accepted campaign brings it to `running`, whichever of the two it started in. */
  lemma PauseThenResume(s: G.CampaignStatus)
    requires G.AssertTransition(s, G.Paused).None?
    ensures G.AssertTransition(G.Paused, G.Running).None?
    ensures s == G.Scheduled || s == G.Running
  {
  }
}
