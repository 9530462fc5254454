/**
 * One tick of the campaign scheduler: every `scheduled` or `running` campaign
 * that is due is moved to `running`, and up to its per-minute throttle of its
 * `pending` recipients are published to the `campaign.send` queue as
 * `{campaignId, recipientId, step}` jobs.
 */
module CampaignScheduler {
  import opened Wrappers
  import opened Ids
  import opened Records
  import opened StateStore
  import G = CampaignGuards

  /** The statuses the tick's `findAll` selects. */
  predicate Active(c: Campaign)
  {
    c.status == G.Scheduled || c.status == G.Running
  }

  /** A campaign is skipped only while it has a start time that lies in the future. */
  predicate Due(c: Campaign, now: int)
  {
    c.scheduledAt.None? || now >= c.scheduledAt.value
  }

  /** `throttlePerMinute || 10`: a zero throttle falls back to ten. */
  function Window(c: Campaign): (n: int)
    ensures n != 0
    ensures c.throttlePerMinute == 0 ==> n == 10
    ensures c.throttlePerMinute != 0 ==> n == c.throttlePerMinute
    ensures n < 0 <==> c.throttlePerMinute < 0
  {
    if c.throttlePerMinute == 0 then 10 else c.throttlePerMinute
  }

  /** Ids of the `pending` recipients of campaign `cid`. */
  function PendingOf(recipients: map<Id, Recipient>, cid: Id): set<Id>
  {
    set id | id in recipients && recipients[id].campaignId == cid && recipients[id].status == Pending
  }

  /** The job published for the recipient stored under `id`: its campaign, its id and its current step, as stored. */
  function JobFor(id: Id, r: Recipient): SendJob
  {
    SendJob(r.campaignId, id, r.currentStep)
  }

  /**
   * A send window for campaign `cid`: as many jobs as the limit allows and the
   * campaign has pending recipients, each for a different pending recipient.
   */
  ghost predicate WindowJobs(recipients: map<Id, Recipient>, cid: Id, limit: nat, jobs: seq<SendJob>)
  {
    var pending := PendingOf(recipients, cid);
    && |jobs| == (if limit < |pending| then limit else |pending|)
    && (forall i :: 0 <= i < |jobs| ==> jobs[i].recipientId in pending && jobs[i] == JobFor(jobs[i].recipientId, recipients[jobs[i].recipientId]))
    && (forall i, j :: 0 <= i < j < |jobs| ==> jobs[i].recipientId != jobs[j].recipientId)
  }

  /**
   * `CampaignRecipient.findAll({where: {campaignId, status: "pending"}, limit})`
   * turned into jobs. The database returns the rows in no stated order, so
   * which pending recipients fill the window is left open.
   */
  method SelectPending(recipients: map<Id, Recipient>, cid: Id, limit: nat) returns (jobs: seq<SendJob>)
    ensures WindowJobs(recipients, cid, limit, jobs)
    ensures forall i :: 0 <= i < |jobs| ==> jobs[i].campaignId == cid
  {
    var pending := PendingOf(recipients, cid);
    var todo := pending;
    jobs := [];
    while |jobs| < limit && todo != {}
      invariant todo <= pending
      invariant |jobs| + |todo| == |pending|
      invariant |jobs| <= limit
      invariant forall i :: 0 <= i < |jobs| ==> jobs[i].recipientId in pending - todo
      invariant forall i :: 0 <= i < |jobs| ==> jobs[i] == JobFor(jobs[i].recipientId, recipients[jobs[i].recipientId])
      invariant forall i :: 0 <= i < |jobs| ==> jobs[i].campaignId == cid
      invariant forall i, j :: 0 <= i < j < |jobs| ==> jobs[i].recipientId != jobs[j].recipientId
      decreases |todo|
    {
      var id :| id in todo;
      jobs := jobs + [JobFor(id, recipients[id])];
      todo := todo - {id};
    }
  }

  /** What the tick did with one campaign. `LimitRejected`: a negative throttle, taken to make the recipient query fail. */
  datatype WindowOutcome = NotDue | LimitRejected | NoPending | Enqueued(count: nat)

  /**
   * The body of the tick's loop for one campaign: the campaigns afterwards and
   * the jobs it publishes.
   */
  method ProcessCampaign(campaigns: map<Id, Campaign>, recipients: map<Id, Recipient>, cid: Id, now: int)
    returns (after: map<Id, Campaign>, outcome: WindowOutcome, jobs: seq<SendJob>)
    requires cid in campaigns && Active(campaigns[cid])
    ensures var c := campaigns[cid];
      && (outcome.NotDue? <==> !Due(c, now))
      && (outcome.LimitRejected? <==> Due(c, now) && Window(c) < 0)
      && (outcome.NotDue? ==> after == campaigns)
      && (!outcome.NotDue? ==> after == campaigns[cid := c.(status := G.Running)])
      && (outcome.NotDue? || outcome.LimitRejected? ==> jobs == [])
      && (!outcome.NotDue? && !outcome.LimitRejected? ==> WindowJobs(recipients, cid, Window(c), jobs))
    ensures outcome.NoPending? <==> !outcome.NotDue? && !outcome.LimitRejected? && jobs == []
    ensures outcome.Enqueued? ==> outcome.count == |jobs| > 0
    ensures forall i :: 0 <= i < |jobs| ==> jobs[i].campaignId == cid
  {
    var c := campaigns[cid];
    after, jobs := campaigns, [];
    if !Due(c, now) {
      return after, NotDue, jobs;
    }
    if c.status == G.Scheduled {
      after := campaigns[cid := c.(status := G.Running)];
    } else {
      assert after == campaigns[cid := c.(status := G.Running)];
    }
    var limit := Window(c);
    if limit < 0 {
      return after, LimitRejected, jobs;
    }
    jobs := SelectPending(recipients, cid, limit);
    if |jobs| == 0 {
      return after, NoPending, jobs;
    }
    outcome := Enqueued(|jobs|);
  }

  /** The jobs of `jobs` that belong to campaign `cid`, in order. */
  function JobsOf(jobs: seq<SendJob>, cid: Id): (r: seq<SendJob>)
    ensures |r| <= |jobs|
    ensures forall i :: 0 <= i < |r| ==> r[i].campaignId == cid && r[i] in jobs
  {
    if jobs == [] then []
    else (if jobs[0].campaignId == cid then [jobs[0]] else []) + JobsOf(jobs[1..], cid)
  }

  lemma {:induction false} JobsOfAppend(a: seq<SendJob>, b: seq<SendJob>, cid: Id)
    ensures JobsOf(a + b, cid) == JobsOf(a, cid) + JobsOf(b, cid)
  {
    if a == [] {
      assert a + b == b;
    } else {
      assert (a + b)[1..] == a[1..] + b;
      JobsOfAppend(a[1..], b, cid);
    }
  }

  lemma {:induction false} JobsOfUniform(jobs: seq<SendJob>, cid: Id, other: Id)
    requires forall i :: 0 <= i < |jobs| ==> jobs[i].campaignId == cid
    ensures JobsOf(jobs, cid) == jobs
    ensures other != cid ==> JobsOf(jobs, other) == []
  {
    if jobs != [] {
      JobsOfUniform(jobs[1..], cid, other);
    }
  }

  /** Appending one campaign's window leaves the jobs of every other campaign as they were. */
  lemma AppendWindow(sent: seq<SendJob>, jobs: seq<SendJob>, cid: Id)
    requires forall i :: 0 <= i < |jobs| ==> jobs[i].campaignId == cid
    ensures JobsOf(sent + jobs, cid) == JobsOf(sent, cid) + jobs
    ensures forall other :: other != cid ==> JobsOf(sent + jobs, other) == JobsOf(sent, other)
  {
    JobsOfAppend(sent, jobs, cid);
    JobsOfUniform(jobs, cid, cid);
    forall other | other != cid
      ensures JobsOf(sent + jobs, other) == JobsOf(sent, other)
    {
      JobsOfAppend(sent, jobs, other);
      JobsOfUniform(jobs, cid, other);
    }
  }

  /** Ids of the campaigns the tick's `findAll` returns. */
  function ActiveIds(campaigns: map<Id, Campaign>): set<Id>
  {
    set id | id in campaigns && Active(campaigns[id])
  }

  /** How a campaign may differ after a tick: unchanged, or a due `scheduled` campaign now `running`. */
  ghost predicate TickStatusChange(before: Campaign, after: Campaign, now: int)
  {
    after == before || (before.status == G.Scheduled && Due(before, now) && after == before.(status := G.Running))
  }

  /**
   * The campaigns after the tick has visited `done`: the same keys, every change
   * a `scheduled` to `running` move of a due campaign, every due visited
   * campaign `running`, and every unvisited one untouched.
   */
  ghost predicate CampaignsProgress(before: map<Id, Campaign>, campaigns: map<Id, Campaign>, done: set<Id>, now: int)
  {
    && campaigns.Keys == before.Keys
    && (forall id :: id in campaigns ==> TickStatusChange(before[id], campaigns[id], now))
    && (forall id :: id in ActiveIds(before) - done ==> campaigns[id] == before[id])
    && (forall id :: id in done && id in before && Due(before[id], now) ==> campaigns[id].status == G.Running)
  }

  lemma VisitCampaigns(before: map<Id, Campaign>, campaigns: map<Id, Campaign>, done: set<Id>, cid: Id, after: map<Id, Campaign>, now: int)
    requires CampaignsProgress(before, campaigns, done, now)
    requires cid in ActiveIds(before) - done
    requires after == if Due(before[cid], now) then campaigns[cid := before[cid].(status := G.Running)] else campaigns
    ensures CampaignsProgress(before, after, done + {cid}, now)
  {
  }

  /** Every published job is for a pending recipient of a due campaign the tick selected. */
  ghost predicate PublishedFrom(before: map<Id, Campaign>, recipients: map<Id, Recipient>, published: seq<SendJob>, now: int)
  {
    forall i :: 0 <= i < |published| ==>
      var cid := published[i].campaignId;
      && cid in ActiveIds(before) && Due(before[cid], now) && published[i].recipientId in PendingOf(recipients, cid)
  }

  /** Every visited due campaign had a positive window, and its jobs fill it. */
  ghost predicate WindowsFull(before: map<Id, Campaign>, recipients: map<Id, Recipient>, done: set<Id>, published: seq<SendJob>, now: int)
  {
    forall cid :: cid in done && cid in before && Due(before[cid], now) ==>
      Window(before[cid]) > 0 && WindowJobs(recipients, cid, Window(before[cid]), JobsOf(published, cid))
  }

  /** No job was published for a campaign not visited or not due. */
  ghost predicate OthersEmpty(before: map<Id, Campaign>, done: set<Id>, published: seq<SendJob>, now: int)
  {
    forall cid :: cid !in done || cid !in before || !Due(before[cid], now) ==> JobsOf(published, cid) == []
  }

  /**
   * Whatever the tick published for a campaign, even when it stopped early, is
   * one window of it: a due selected campaign with a positive window, at most
   * that many jobs and at most its pending recipients, each for a different one.
   */
  ghost predicate WindowsBounded(before: map<Id, Campaign>, recipients: map<Id, Recipient>, published: seq<SendJob>, now: int)
  {
    forall cid :: JobsOf(published, cid) != [] ==>
      && cid in ActiveIds(before) && Due(before[cid], now) && Window(before[cid]) > 0
      && WindowJobs(recipients, cid, Window(before[cid]), JobsOf(published, cid))
  }

  /** Full windows for the campaigns in `filled` and no jobs for the others bound every campaign's jobs. */
  lemma FilledBounded(before: map<Id, Campaign>, recipients: map<Id, Recipient>, filled: set<Id>,
                      published: seq<SendJob>, now: int)
    requires filled <= ActiveIds(before)
    requires WindowsFull(before, recipients, filled, published, now) && OthersEmpty(before, filled, published, now)
    ensures WindowsBounded(before, recipients, published, now)
  {
  }

  lemma VisitPublished(before: map<Id, Campaign>, recipients: map<Id, Recipient>, published: seq<SendJob>,
                       cid: Id, jobs: seq<SendJob>, now: int)
    requires PublishedFrom(before, recipients, published, now)
    requires cid in ActiveIds(before) && (jobs != [] ==> Due(before[cid], now))
    requires forall i :: 0 <= i < |jobs| ==> jobs[i].campaignId == cid && jobs[i].recipientId in PendingOf(recipients, cid)
    ensures PublishedFrom(before, recipients, published + jobs, now)
  {
    var all := published + jobs;
    forall i | 0 <= i < |all|
      ensures var c := all[i].campaignId;
        c in ActiveIds(before) && Due(before[c], now) && all[i].recipientId in PendingOf(recipients, c)
    {
      if i >= |published| {
        assert all[i] == jobs[i - |published|];
      }
    }
  }

  lemma VisitWindows(before: map<Id, Campaign>, recipients: map<Id, Recipient>, done: set<Id>, published: seq<SendJob>,
                     cid: Id, jobs: seq<SendJob>, now: int)
    requires WindowsFull(before, recipients, done, published, now) && OthersEmpty(before, done, published, now)
    requires cid in before && cid !in done
    requires forall i :: 0 <= i < |jobs| ==> jobs[i].campaignId == cid
    requires !Due(before[cid], now) ==> jobs == []
    requires Due(before[cid], now) ==> Window(before[cid]) > 0 && WindowJobs(recipients, cid, Window(before[cid]), jobs)
    ensures WindowsFull(before, recipients, done + {cid}, published + jobs, now)
    ensures OthersEmpty(before, done + {cid}, published + jobs, now)
  {
    AppendWindow(published, jobs, cid);
  }

  /**
   * The tick's loop over the campaigns its `findAll` returns, visited in the
   * order the database returns them (left open). A negative throttle is taken to
   * make the recipient query fail, which ends the tick (`completed` false) with
   * the earlier campaigns' effects kept.
   */
  method RunTick(before: map<Id, Campaign>, recipients: map<Id, Recipient>, now: int)
    returns (campaigns: map<Id, Campaign>, completed: bool, published: seq<SendJob>)
    ensures campaigns.Keys == before.Keys
    ensures forall id :: id in campaigns ==> TickStatusChange(before[id], campaigns[id], now)
    ensures PublishedFrom(before, recipients, published, now)
    ensures WindowsBounded(before, recipients, published, now)
    ensures completed ==> WindowsFull(before, recipients, ActiveIds(before), published, now)
    ensures completed ==> OthersEmpty(before, ActiveIds(before), published, now)
    ensures completed ==> forall id :: id in ActiveIds(before) && Due(before[id], now) ==> campaigns[id].status == G.Running
    ensures !completed ==> exists id :: id in ActiveIds(before) && Due(before[id], now) && Window(before[id]) < 0
  {
    var todo := ActiveIds(before);
    var done: set<Id> := {};
    ghost var filled: set<Id> := {};
    campaigns, published, completed := before, [], true;
    while todo != {} && completed
      invariant todo !! done && todo + done == ActiveIds(before)
      invariant filled <= done && (completed ==> filled == done)
      invariant CampaignsProgress(before, campaigns, done, now)
      invariant PublishedFrom(before, recipients, published, now)
      invariant WindowsFull(before, recipients, filled, published, now)
      invariant OthersEmpty(before, filled, published, now)
      invariant !completed ==> exists id :: id in ActiveIds(before) && Due(before[id], now) && Window(before[id]) < 0
      decreases |todo|
    {
      var cid :| cid in todo;
      var after, outcome, jobs := ProcessCampaign(campaigns, recipients, cid, now);
      VisitCampaigns(before, campaigns, done, cid, after, now);
      campaigns := after;
      if outcome.LimitRejected? {
        completed := false;
      } else {
        VisitPublished(before, recipients, published, cid, jobs, now);
        VisitWindows(before, recipients, filled, published, cid, jobs, now);
        published := published + jobs;
        filled := filled + {cid};
      }
      MoveVisited(todo, done, ActiveIds(before), cid);
      todo := todo - {cid};
      done := done + {cid};
    }
    FilledBounded(before, recipients, filled, published, now);
  }

  /** A tick's status changes keep every campaign under its own id. */
  lemma TickKeepsKeys(before: map<Id, Campaign>, after: map<Id, Campaign>, nextId: nat, now: int)
    requires CampaignsKeyed(before, nextId) && after.Keys == before.Keys
    requires forall id :: id in after ==> TickStatusChange(before[id], after[id], now)
    ensures CampaignsKeyed(after, nextId)
  {
  }

  /**
   * One tick against the store: the campaigns take the statuses the loop gave
   * them and the `campaign.send` queue grows by the published jobs.
   */
  method SchedulerTick(db: Store, now: int) returns (completed: bool, published: seq<SendJob>)
    requires db.Valid()
    modifies db`campaigns, db`campaignSendQueue
    ensures db.Valid()
    ensures db.campaigns.Keys == old(db.campaigns.Keys)
    ensures forall id :: id in db.campaigns ==> TickStatusChange(old(db.campaigns[id]), db.campaigns[id], now)
    ensures db.campaignSendQueue == old(db.campaignSendQueue) + published
    ensures PublishedFrom(old(db.campaigns), db.recipients, published, now)
    ensures WindowsBounded(old(db.campaigns), db.recipients, published, now)
    ensures completed ==> WindowsFull(old(db.campaigns), db.recipients, ActiveIds(old(db.campaigns)), published, now)
    ensures completed ==> OthersEmpty(old(db.campaigns), ActiveIds(old(db.campaigns)), published, now)
    ensures completed ==> forall id :: id in ActiveIds(old(db.campaigns)) && Due(old(db.campaigns[id]), now) ==>
      db.campaigns[id].status == G.Running
    ensures !completed ==> exists id :: id in ActiveIds(old(db.campaigns)) && Due(old(db.campaigns[id]), now) && Window(old(db.campaigns[id])) < 0
  {
    var campaigns;
    campaigns, completed, published := RunTick(db.campaigns, db.recipients, now);
    TickKeepsKeys(db.campaigns, campaigns, db.nextId, now);
    db.campaigns := campaigns;
    db.campaignSendQueue := db.campaignSendQueue + published;
  }

  lemma MoveVisited(todo: set<Id>, done: set<Id>, all: set<Id>, cid: Id)
    requires todo !! done && todo + done == all && cid in todo
    ensures (todo - {cid}) !! (done + {cid}) && (todo - {cid}) + (done + {cid}) == all
  {
  }

  /** The tick moves a campaign from `scheduled` to `running` without the guard; that edge is one the guard accepts. */
  lemma TickEdgeIsGuarded()
    ensures G.AssertTransition(G.Scheduled, G.Running).None?
    ensures G.LifecycleEdge(G.Scheduled, G.Running)
  {
  }
}
