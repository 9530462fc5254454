/**
 * How the stages meet: facts that involve more than one handler or a handler
 * and a schema, stated over the code as written.
 */
module Pipeline {
  import opened Wrappers
  import opened Ids
  import opened Records
  import opened StateStore
  import opened SenderModel
  import opened CampaignStepModel
  import O = CampaignOrchestrator
  import R = EmailRouter
  import S = CampaignScheduler
  import SC = SenderController

  /**
   * A `campaign.send` job followed by delivery of the `email.route` message it
   * emits. The orchestrator stores the campaign's sender on the new Email, so
   * the router discards it as already routed: nothing reaches `email.send`.
   */
  method OrchestrateThenRoute(db: Store, job: SendJob, now: int, mta: MtaResult, routeNow: int)
    returns (orchestrated: O.Outcome, routed: Option<R.Outcome>)
    requires db.Valid() && R.RateWithinLimits(db.rateCounters)
    modifies db
    ensures db.Valid()
    ensures orchestrated.Routed? ==> routed == Some(R.AlreadyRouted)
    ensures !orchestrated.Routed? ==> routed.None?
    ensures db.sendQueue == old(db.sendQueue)
    ensures db.rateCounters == old(db.rateCounters)
  {
    orchestrated := O.HandleCampaignSend(db, job, now);
    routed := None;
    if orchestrated.Routed? {
      var id := orchestrated.emailId;
      assert id in db.emails && db.emails[id].senderId.Some?;
      var outcome := R.HandleRoute(db, RouteRequest(Some(id)), mta, routeNow);
      routed := Some(outcome);
    }
  }

  /** A sender created through the endpoint is not verified, so the router never selects it. */
  lemma CreatedSenderNeverEligible(id: Id, userId: Id, req: SC.SenderRequest, now: int, preferred: Option<string>)
    requires SC.SenderRow(id, userId, req, now).Ok?
    ensures !R.Eligible(SC.SenderRow(id, userId, req, now).value, preferred)
  {
  }

  /** A recipient the orchestrator has advanced is no longer `pending`, so later ticks never select it again. */
  lemma AdvancedRecipientLeavesWindow(recipients: map<Id, Recipient>, rid: Id, cid: Id, step: int, cfg: CampaignStep, now: int)
    requires rid in recipients
    ensures rid !in S.PendingOf(recipients[rid := O.Advanced(recipients[rid], step, cfg, now)], cid)
  {
  }

  /** The step 0 row the orchestrator creates has no `templateId`, which the schema declares required. */
  lemma StepZeroBreaksDeclaredSchema(c: Campaign)
    ensures !SatisfiesDeclaredSchema(O.StepZeroFor(c))
    ensures O.StepZeroFor(c).stepOrder == 0 && DelayOf(O.StepZeroFor(c)) == 0
  {
  }
}
