/**
 * The campaign orchestrator: consumes `campaign.send` jobs and turns one pending
 * recipient of a running campaign into one Email for its current step, or
 * finishes that recipient. Each job ends in exactly one `Outcome`, and every
 * outcome acknowledges the job.
 */
module CampaignOrchestrator {
  import opened Wrappers
  import opened Ids
  import opened Records
  import opened CampaignStepModel
  import opened StateStore
  import G = CampaignGuards
  import T = TemplateRenderer
  import Text

  datatype Outcome =
    | CampaignNotRunning
    | RecipientNotPending
    | NoMoreSteps
    | AddressNotVerified
    | AlreadyHandled
    | Routed(emailId: Id)

  /** The step row `ensureStepZero` creates from the campaign's own content. */
  function StepZeroFor(c: Campaign): CampaignStep
  {
    CampaignStep(c.id, 0, None, Some(c.subject), c.htmlBody, c.textBody, Some(0), DefaultCondition)
  }

  /** The step table after the step-0 safety net for a recipient at `step`. */
  function WithStepZero(steps: map<StepKey, CampaignStep>, c: Campaign, step: int): map<StepKey, CampaignStep>
  {
    if step == 0 && (c.id, 0) !in steps then steps[(c.id, 0) := StepZeroFor(c)] else steps
  }

  /**
   * `ensureStepZero`: get-or-create of the campaign's step 0. An existing row is
   * returned untouched; otherwise exactly one row is added, at `(campaign.id, 0)`.
   */
  method EnsureStepZero(db: Store, campaign: Campaign) returns (step: CampaignStep)
    requires db.Valid()
    modifies db`steps
    ensures db.Valid()
    ensures step.campaignId == campaign.id && step.stepOrder == 0
    ensures (campaign.id, 0) in old(db.steps) ==>
      db.steps == old(db.steps) && step == old(db.steps)[(campaign.id, 0)]
    ensures (campaign.id, 0) !in old(db.steps) ==>
      && db.steps == old(db.steps)[(campaign.id, 0) := step]
      && step.delayMinutes == Some(0) && step.condition == Always
      && step.subject == Some(campaign.subject)
      && step.htmlBody == campaign.htmlBody && step.textBody == campaign.textBody
      && step.templateId.None?
    ensures db.steps == WithStepZero(old(db.steps), campaign, 0)
  {
    if (campaign.id, 0) in db.steps {
      step := db.steps[(campaign.id, 0)];
      return;
    }
    step := StepZeroFor(campaign);
    db.steps := db.steps[(campaign.id, 0) := step];
  }

  /** The step a recipient is at: `currentStep` when it is an integer, else 0. */
  function StepOf(r: Recipient): (n: int)
    ensures r.currentStep.None? ==> n == 0
    ensures r.currentStep.Some? ==> n == r.currentStep.value
  {
    r.currentStep.GetOr(0)
  }

  /** The hard guards: the campaign is running and the recipient is pending. */
  predicate Accepts(campaigns: map<Id, Campaign>, recipients: map<Id, Recipient>, job: SendJob)
  {
    && job.campaignId in campaigns && campaigns[job.campaignId].status == G.Running
    && job.recipientId in recipients && recipients[job.recipientId].status == Pending
  }

  /** The registry holds a `"valid"` entry for the lower-cased address. */
  predicate IsVerifiedAddress(registry: map<string, string>, email: string)
  {
    var key := Text.ToLower(email);
    key in registry && registry[key] == "valid"
  }

  /** `recipient.name || "there"`. */
  function NameOrThere(r: Recipient): string
  {
    if r.name.None? || r.name.value == "" then "there" else r.name.value
  }

  /**
   * The template variables: `name` (default "there") and `email`, then every
   * metadata entry, which wins over both.
   */
  function TemplateVars(r: Recipient): (vars: map<string, T.Value>)
    ensures vars.Keys == r.metadata.Keys + {"name", "email"}
    ensures forall k :: k in r.metadata ==> vars[k] == r.metadata[k]
    ensures "name" !in r.metadata ==>
      vars["name"] == T.Str(if r.name.None? || r.name == Some("") then "there" else r.name.value)
    ensures "email" !in r.metadata ==> vars["email"] == T.Str(r.email)
  {
    map["name" := T.Str(NameOrThere(r)), "email" := T.Str(r.email)] + r.metadata
  }

  /** One minute in milliseconds. */
  const MinuteMs: int := 60000

  /** A finished recipient: its new status, no next run, and one completion check of its campaign. */
  method FinishRecipient(db: Store, cid: Id, rid: Id, status: RecipientStatus)
    requires db.Valid() && rid in db.recipients
    modifies db`recipients, db`completionChecks
    ensures db.Valid()
    ensures db.recipients == old(db.recipients)[rid := old(db.recipients)[rid].(status := status, nextRunAt := None)]
    ensures db.completionChecks == old(db.completionChecks) + [cid]
  {
    var r := db.recipients[rid];
    UpdateRecipient(db.recipients, db.nextId, rid, r.(status := status, nextRunAt := None));
    db.recipients := db.recipients[rid := r.(status := status, nextRunAt := None)];
    db.completionChecks := db.completionChecks + [cid];
  }

  /**
   * The row `CampaignSend.findOrCreate` yields for `key`: the existing one, or a
   * new `queued` row with the campaign's sender.
   */
  function SendRow(sends: map<SendKey, CampaignSend>, key: SendKey, senderId: Id): (send: CampaignSend)
    ensures key in sends ==> send == sends[key]
    ensures key !in sends ==> send.status == SendQueued && send.senderId == senderId && send.emailId.None?
  {
    if key in sends then sends[key] else CampaignSend(key.0, key.1, key.2, senderId, SendQueued, None, None, None)
  }

  /**
   * The Email the success path creates: the campaign's owner and sender, the
   * recipient's address, and the step's subject and html rendered with the
   * recipient's template variables.
   */
  function NewEmail(id: Id, campaign: Campaign, cid: Id, r: Recipient, step: int, cfg: CampaignStep): Email
  {
    Email(id, campaign.userId, Some(cid), Some(campaign.senderId), r.email,
      T.RenderTemplate(cfg.subject, TemplateVars(r)), T.RenderTemplate(cfg.htmlBody, TemplateVars(r)),
      step, EmailCreated, None, None, None, None, None, None)
  }

  /**
   * `Email.create` followed by `send.update({ emailId })`: a fresh Email, and the
   * send row (found or created under `key`) stored linking it.
   */
  method CreateLinkedEmail(db: Store, campaign: Campaign, cid: Id, r: Recipient, step: int, cfg: CampaignStep,
                           key: SendKey, send: CampaignSend) returns (id: Id)
    requires db.Valid()
    requires send.campaignId == key.0 && send.recipientId == key.1 && send.step == key.2
    modifies db`emails, db`sends, db`nextId
    ensures db.Valid()
    ensures id == old(db.nextId) && id !in old(db.emails)
    ensures db.emails == old(db.emails)[id := NewEmail(id, campaign, cid, r, step, cfg)]
    ensures db.sends == old(db.sends)[key := send.(emailId := Some(id))]
  {
    id := db.NewId();
    var email := NewEmail(id, campaign, cid, r, step, cfg);
    LinkNewEmail(db.sends, db.emails, key, send, email);
    db.sends := db.sends[key := send.(emailId := Some(id))];
    db.emails := db.emails[id := email];
  }

  /** The recipient after sending `step`: `sent`, at `step + 1`, next run `delayMinutes` from now. */
  function Advanced(r: Recipient, step: int, cfg: CampaignStep, now: int): Recipient
  {
    r.(status := Sent, currentStep := Some(step + 1), lastSentAt := Some(now),
       nextRunAt := Some(now + DelayOf(cfg) * MinuteMs))
  }

  method AdvanceRecipient(db: Store, rid: Id, step: int, cfg: CampaignStep, now: int)
    requires db.Valid() && rid in db.recipients
    modifies db`recipients
    ensures db.Valid()
    ensures db.recipients == old(db.recipients)[rid := Advanced(old(db.recipients)[rid], step, cfg, now)]
  {
    var advanced := Advanced(db.recipients[rid], step, cfg, now);
    UpdateRecipient(db.recipients, db.nextId, rid, advanced);
    db.recipients := db.recipients[rid := advanced];
  }

  /**
   * The success path for `step` with its row `cfg`: one Email created and linked
   * from the send row, the recipient advanced, one route message emitted.
   */
  method SendStep(db: Store, cid: Id, rid: Id, c: Campaign, r: Recipient, step: int, cfg: CampaignStep, now: int)
    returns (id: Id)
    requires db.Valid() && rid in db.recipients && db.recipients[rid] == r
    modifies db`recipients, db`sends, db`emails, db`routeQueue, db`nextId
    ensures db.Valid()
    ensures id == old(db.nextId) && id !in old(db.emails)
    ensures db.emails == old(db.emails)[id := NewEmail(id, c, cid, r, step, cfg)]
    ensures db.recipients == old(db.recipients)[rid := Advanced(r, step, cfg, now)]
    ensures db.sends == old(db.sends)[(cid, rid, step) :=
      SendRow(old(db.sends), (cid, rid, step), c.senderId).(emailId := Some(id))]
    ensures db.routeQueue == old(db.routeQueue) + [RouteRequest(Some(id))]
  {
    var key := (cid, rid, step);
    var send := SendRow(db.sends, key, c.senderId);
    id := CreateLinkedEmail(db, c, cid, r, step, cfg, key, send);
    AdvanceRecipient(db, rid, step, cfg, now);
    db.routeQueue := db.routeQueue + [RouteRequest(Some(id))];
  }

  /**
   * The steps after a step row `cfg` was found: the address check, the
   * idempotent send row, then the success path.
   */
  method ProcessFoundStep(db: Store, cid: Id, rid: Id, c: Campaign, r: Recipient, step: int, cfg: CampaignStep, now: int)
    returns (outcome: Outcome)
    requires db.Valid() && rid in db.recipients && db.recipients[rid] == r
    modifies db`recipients, db`sends, db`emails, db`routeQueue, db`completionChecks, db`nextId
    ensures db.Valid()
    ensures
      var verified := IsVerifiedAddress(db.registry, r.email);
      var queued := SendRow(old(db.sends), (cid, rid, step), c.senderId).status == SendQueued;
      && (outcome.AddressNotVerified? <==> !verified)
      && (outcome.AlreadyHandled? <==> verified && !queued)
      && (outcome.Routed? <==> verified && queued)
    ensures outcome.AddressNotVerified? ==>
      && db.recipients == old(db.recipients)[rid := r.(status := Stopped, nextRunAt := None)]
      && db.completionChecks == old(db.completionChecks) + [cid]
      && db.sends == old(db.sends) && db.emails == old(db.emails) && db.routeQueue == old(db.routeQueue)
    ensures outcome.AlreadyHandled? ==>
      && db.recipients == old(db.recipients) && db.sends == old(db.sends) && db.emails == old(db.emails)
      && db.routeQueue == old(db.routeQueue) && db.completionChecks == old(db.completionChecks)
    ensures outcome.Routed? ==>
      var id := outcome.emailId;
      && id == old(db.nextId) && id !in old(db.emails)
      && db.emails == old(db.emails)[id := NewEmail(id, c, cid, r, step, cfg)]
      && db.recipients == old(db.recipients)[rid := Advanced(r, step, cfg, now)]
      && db.sends == old(db.sends)[(cid, rid, step) :=
           SendRow(old(db.sends), (cid, rid, step), c.senderId).(emailId := Some(id))]
      && db.routeQueue == old(db.routeQueue) + [RouteRequest(Some(id))]
      && db.completionChecks == old(db.completionChecks)
  {
    if !IsVerifiedAddress(db.registry, r.email) {
      FinishRecipient(db, cid, rid, Stopped);
      return AddressNotVerified;
    }
    if SendRow(db.sends, (cid, rid, step), c.senderId).status != SendQueued {
      return AlreadyHandled;
    }
    var id := SendStep(db, cid, rid, c, r, step, cfg, now);
    return Routed(id);
  }

  /**
   * Everything after the hard guards, for the running campaign `c` and the
   * pending recipient `r`: step resolution, the step-0 safety net, the address
   * check, the idempotent send row and the success path.
   */
  method ProcessStep(db: Store, cid: Id, rid: Id, c: Campaign, r: Recipient, now: int) returns (outcome: Outcome)
    requires db.Valid()
    requires cid in db.campaigns && db.campaigns[cid] == c && rid in db.recipients && db.recipients[rid] == r
    modifies db`steps, db`recipients, db`sends, db`emails, db`routeQueue, db`completionChecks, db`nextId
    ensures db.Valid()
    ensures
      var step := StepOf(r);
      var key := (cid, rid, step);
      var found := (cid, step) in db.steps;
      var verified := IsVerifiedAddress(db.registry, r.email);
      && db.steps == WithStepZero(old(db.steps), c, step)
      && (outcome.NoMoreSteps? <==> !found)
      && (outcome.AddressNotVerified? <==> found && !verified)
      && (outcome.AlreadyHandled? <==> found && verified && SendRow(old(db.sends), key, c.senderId).status != SendQueued)
      && (outcome.Routed? <==> found && verified && SendRow(old(db.sends), key, c.senderId).status == SendQueued)
    ensures outcome.NoMoreSteps? || outcome.AddressNotVerified? ==>
      && db.recipients == old(db.recipients)[rid :=
           r.(status := if outcome.NoMoreSteps? then Completed else Stopped, nextRunAt := None)]
      && db.completionChecks == old(db.completionChecks) + [cid]
      && db.sends == old(db.sends) && db.emails == old(db.emails) && db.routeQueue == old(db.routeQueue)
    ensures outcome.AlreadyHandled? ==>
      && db.recipients == old(db.recipients) && db.sends == old(db.sends) && db.emails == old(db.emails)
      && db.routeQueue == old(db.routeQueue) && db.completionChecks == old(db.completionChecks)
    ensures outcome.Routed? ==>
      var step := StepOf(r);
      var cfg := db.steps[(cid, step)];
      var key := (cid, rid, step);
      var id := outcome.emailId;
      && id == old(db.nextId) && id !in old(db.emails)
      && db.emails == old(db.emails)[id := NewEmail(id, c, cid, r, step, cfg)]
      && db.recipients == old(db.recipients)[rid := Advanced(r, step, cfg, now)]
      && db.sends == old(db.sends)[key := SendRow(old(db.sends), key, c.senderId).(emailId := Some(id))]
      && db.routeQueue == old(db.routeQueue) + [RouteRequest(Some(id))]
      && db.completionChecks == old(db.completionChecks)
  {
    var step := StepOf(r);
    if step == 0 {
      var _ := EnsureStepZero(db, c);
    }
    var stepConfig := FindStep(db.steps, cid, step);

    if stepConfig.None? {
      FinishRecipient(db, cid, rid, Completed);
      return NoMoreSteps;
    }

    outcome := ProcessFoundStep(db, cid, rid, c, r, step, stepConfig.value, now);
  }

  /**
   * The `campaign.send` handler. `now` is the clock reading (milliseconds); the
   * job's own `step` field is never read.
   */
  method HandleCampaignSend(db: Store, job: SendJob, now: int) returns (outcome: Outcome)
    requires db.Valid()
    modifies db`steps, db`recipients, db`sends, db`emails, db`routeQueue, db`completionChecks, db`nextId
    ensures db.Valid()
    // The two hard guards.
    ensures outcome.CampaignNotRunning? <==>
      !(job.campaignId in old(db.campaigns) && old(db.campaigns)[job.campaignId].status == G.Running)
    ensures outcome.RecipientNotPending? <==>
      && job.campaignId in old(db.campaigns) && old(db.campaigns)[job.campaignId].status == G.Running
      && !(job.recipientId in old(db.recipients) && old(db.recipients)[job.recipientId].status == Pending)
    ensures outcome.CampaignNotRunning? || outcome.RecipientNotPending? ==>
      && db.steps == old(db.steps) && db.recipients == old(db.recipients) && db.sends == old(db.sends)
      && db.emails == old(db.emails) && db.routeQueue == old(db.routeQueue)
      && db.completionChecks == old(db.completionChecks)
    // Which outcome an accepted job reaches.
    ensures Accepts(old(db.campaigns), old(db.recipients), job) ==>
      var c := old(db.campaigns)[job.campaignId];
      var r := old(db.recipients)[job.recipientId];
      var step := StepOf(r);
      var key := (job.campaignId, job.recipientId, step);
      var found := (job.campaignId, step) in db.steps;
      var verified := IsVerifiedAddress(db.registry, r.email);
      && db.steps == WithStepZero(old(db.steps), c, step)
      && (outcome.NoMoreSteps? <==> !found)
      && (outcome.AddressNotVerified? <==> found && !verified)
      && (outcome.AlreadyHandled? <==> found && verified && SendRow(old(db.sends), key, c.senderId).status != SendQueued)
      && (outcome.Routed? <==> found && verified && SendRow(old(db.sends), key, c.senderId).status == SendQueued)
    // Finishing a recipient: no Email, no CampaignSend, one completion check.
    ensures outcome.NoMoreSteps? || outcome.AddressNotVerified? ==>
      && db.recipients == old(db.recipients)[job.recipientId :=
           old(db.recipients)[job.recipientId].(
             status := if outcome.NoMoreSteps? then Completed else Stopped, nextRunAt := None)]
      && db.completionChecks == old(db.completionChecks) + [job.campaignId]
      && db.sends == old(db.sends) && db.emails == old(db.emails) && db.routeQueue == old(db.routeQueue)
    ensures outcome.AlreadyHandled? ==>
      && db.recipients == old(db.recipients) && db.sends == old(db.sends) && db.emails == old(db.emails)
      && db.routeQueue == old(db.routeQueue) && db.completionChecks == old(db.completionChecks)
    // The success path: one Email, the recipient advanced, the send linked, one route message.
    ensures outcome.Routed? ==>
      var c := old(db.campaigns)[job.campaignId];
      var r := old(db.recipients)[job.recipientId];
      var step := StepOf(r);
      var cfg := db.steps[(job.campaignId, step)];
      var key := (job.campaignId, job.recipientId, step);
      var id := outcome.emailId;
      && id == old(db.nextId) && id !in old(db.emails)
      && db.emails == old(db.emails)[id := NewEmail(id, c, job.campaignId, r, step, cfg)]
      && db.recipients == old(db.recipients)[job.recipientId := Advanced(r, step, cfg, now)]
      && db.sends == old(db.sends)[key := SendRow(old(db.sends), key, c.senderId).(emailId := Some(id))]
      && db.routeQueue == old(db.routeQueue) + [RouteRequest(Some(id))]
      && db.completionChecks == old(db.completionChecks)
    // A redelivered job is discarded once the first delivery finished or advanced the recipient.
    ensures !outcome.AlreadyHandled? ==> !Accepts(db.campaigns, db.recipients, job)
  {
    var cid, rid := job.campaignId, job.recipientId;
    if cid !in db.campaigns || db.campaigns[cid].status != G.Running {
      return CampaignNotRunning;
    }
    if rid !in db.recipients || db.recipients[rid].status != Pending {
      return RecipientNotPending;
    }
    outcome := ProcessStep(db, cid, rid, db.campaigns[cid], db.recipients[rid], now);
  }
}
