/**
 * The CampaignStep table: one step of a campaign's sequence. Rows are keyed by
 * `(campaignId, stepOrder)`, which is the unique index of the schema, so at most
 * one step exists per key and a lookup by that key is deterministic.
 */
module CampaignStepModel {
  import opened Wrappers
  import opened Ids

  datatype StepCondition = Always | NoReply

  /** The schema's default for `condition`. */
  const DefaultCondition: StepCondition := Always

  /**
   * A step row. `subject`, `htmlBody` and `textBody` are the content columns the
   * orchestrator writes and reads; the declared schema does not list them.
   */
  datatype CampaignStep = CampaignStep(
    campaignId: Id,
    stepOrder: int,
    templateId: Option<Id>,
    subject: Option<string>,
    htmlBody: Option<string>,
    textBody: Option<string>,
    delayMinutes: Option<int>,
    condition: StepCondition)

  /** `stepConfig.delayMinutes || 0`: a missing delay (and the default) is zero minutes. */
  function DelayOf(step: CampaignStep): (d: int)
    ensures step.delayMinutes.None? ==> d == 0
    ensures step.delayMinutes.Some? ==> d == step.delayMinutes.value
  {
    step.delayMinutes.GetOr(0)
  }

  /** The schema's NOT NULL columns: `campaignId` and `stepOrder` are always present by type; `templateId` must be set. */
  predicate SatisfiesDeclaredSchema(step: CampaignStep)
  {
    step.templateId.Some?
  }

  type StepKey = (Id, int)

  /** Every row sits under its own `(campaignId, stepOrder)` key: the unique index holds. */
  ghost predicate StepsKeyed(steps: map<StepKey, CampaignStep>)
  {
    forall key :: key in steps ==> steps[key].campaignId == key.0 && steps[key].stepOrder == key.1
  }

  /** `CampaignStep.findOne({ where: { campaignId, stepOrder } })`. */
  function FindStep(steps: map<StepKey, CampaignStep>, campaignId: Id, stepOrder: int): (r: Option<CampaignStep>)
    requires StepsKeyed(steps)
    ensures r.Some? <==> (campaignId, stepOrder) in steps
    ensures r.Some? ==> r.value.campaignId == campaignId && r.value.stepOrder == stepOrder
  {
    if (campaignId, stepOrder) in steps then Some(steps[(campaignId, stepOrder)]) else None
  }
}
