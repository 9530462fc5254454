/**
 * The email router: consumes `email.route` messages, applies a per-provider
 * fixed-window rate limit, picks the least recently updated verified sender
 * (preferring the sender type that matches the recipient's mailbox provider),
 * assigns it to the Email and forwards the Email to the send queue.
 */
module EmailRouter {
  import opened Wrappers
  import opened Ids
  import opened Records
  import opened SenderModel
  import opened StateStore

  /** `PROVIDER_LIMITS[provider] || PROVIDER_LIMITS.default`: sends per provider per minute. */
  function ProviderLimit(p: MailProvider): (n: int)
    ensures 5 <= n <= 20
    ensures n > 5 <==> p == Google || p == Microsoft || p == Yahoo
    ensures p == Google ==> n == 20
    ensures p == Microsoft ==> n == 15
    ensures p == Yahoo ==> n == 10
  {
    match p
    case Google => 20
    case Microsoft => 15
    case Yahoo => 10
    case _ => 5
  }

  /** `mta.provider || EmailProvider.UNKNOWN`: an absent or empty provider is UNKNOWN. */
  function DetectedProvider(mta: MtaResult): (p: MailProvider)
    ensures mta.provider.None? ==> p == Unknown
    ensures mta.provider.Some? && mta.provider.value != OtherProvider("") ==> p == mta.provider.value
  {
    if mta.provider.None? || mta.provider.value == OtherProvider("") then Unknown else mta.provider.value
  }

  /** `mapProviderToSenderType`: the sender type preferred for a mailbox provider, if any. */
  function MapProviderToSenderType(p: MailProvider): (t: Option<string>)
    ensures t.Some? <==> p == Google || p == Microsoft
    ensures p == Google ==> t == Some("gmail")
    ensures p == Microsoft ==> t == Some("outlook")
  {
    match p
    case Google => Some("gmail")
    case Microsoft => Some("outlook")
    case _ => None
  }

  /**
   * The preferred type names a sender provider for GOOGLE only: MICROSOFT's
   * "outlook" is outside the provider enum, so no sender ever matches it.
   */
  lemma PreferredTypeMatchesOnlyForGoogle(p: MailProvider)
    ensures MapProviderToSenderType(p).Some? ==>
      (ParseProvider(MapProviderToSenderType(p).value).Some? <==> p == Google)
    ensures p == Google ==> ParseProvider(MapProviderToSenderType(p).value) == Some(Gmail)
  {
    if p == Microsoft {
      assert ParseProvider("outlook").None?;
    }
  }

  // ---------------------------------------------------------------------------
  // The fixed-window counter

  /** One minute in milliseconds; the window key's bucket is `floor(nowMs / 60000)`. */
  const MinuteMs: int := 60000

  /**
   * `incr`, compare with the limit, and `decr` on overflow: whether the request
   * passes, and the counter afterwards.
   */
  function RateCheck(count: int, limit: int): (r: (bool, int))
    ensures r.0 <==> count < limit
    ensures r.0 ==> r.1 == count + 1
    ensures !r.0 ==> r.1 == count
  {
    var incremented := count + 1;
    if incremented > limit then (false, incremented - 1) else (true, incremented)
  }

  /** Every counter lies between 0 and its provider's limit. */
  ghost predicate RateWithinLimits(counters: map<RateKey, int>)
  {
    forall k :: k in counters ==> 0 <= counters[k] <= ProviderLimit(k.0)
  }

  /** `n` requests in one window, one at a time, from counter `count`: how many pass, and the final counter. */
  function RunWindow(count: int, limit: int, n: nat): (int, int)
    decreases n
  {
    if n == 0 then (0, count)
    else
      var (passed, next) := RateCheck(count, limit);
      var (rest, final) := RunWindow(next, limit, n - 1);
      (if passed then rest + 1 else rest, final)
  }

  /**
   * Within one window exactly the first `limit - count` requests pass and the
   * rest are turned back, so no more than `limit` pass from an empty counter and
   * the counter never goes past the limit.
   */
  lemma {:induction false} WindowAdmitsAtMostLimit(count: int, limit: int, n: nat)
    requires 0 <= count
    ensures var (passed, final) := RunWindow(count, limit, n);
      var room := if limit > count then limit - count else 0;
      && passed == (if n < room then n else room)
      && final == count + passed
      && (count <= limit ==> final <= limit)
    decreases n
  {
    if n > 0 {
      var (_, next) := RateCheck(count, limit);
      WindowAdmitsAtMostLimit(next, limit, n - 1);
    }
  }

  // ---------------------------------------------------------------------------
  // Sender selection

  /** A sender `Sender.findOne` may return: live, verified, and of the preferred type when one is given. */
  predicate Eligible(s: Sender, preferred: Option<string>)
  {
    IsLive(s) && s.isVerified && (preferred.None? || ProviderName(s.provider) == preferred.value)
  }

  /** `id` is an eligible sender with the smallest `updatedAt` among the eligible ones. */
  ghost predicate Oldest(senders: map<Id, Sender>, preferred: Option<string>, id: Id)
  {
    && id in senders && Eligible(senders[id], preferred)
    && forall other :: other in senders && Eligible(senders[other], preferred) ==>
         senders[id].updatedAt <= senders[other].updatedAt
  }

  ghost predicate AnyEligible(senders: map<Id, Sender>, preferred: Option<string>)
  {
    exists id :: id in senders && Eligible(senders[id], preferred)
  }

  /** The selection rule: the oldest sender of the preferred type, else the oldest verified sender. */
  ghost predicate Chosen(senders: map<Id, Sender>, preferred: Option<string>, id: Id)
  {
    if preferred.Some? && AnyEligible(senders, preferred) then Oldest(senders, preferred, id)
    else Oldest(senders, None, id)
  }

  /** `Sender.findOne({ where, order: [["updatedAt", "ASC"]] })`. */
  method FindOldest(senders: map<Id, Sender>, preferred: Option<string>) returns (r: Option<Id>)
    ensures r.None? <==> !AnyEligible(senders, preferred)
    ensures r.Some? ==> Oldest(senders, preferred, r.value)
  {
    r := None;
    var todo := senders.Keys;
    while todo != {}
      invariant todo <= senders.Keys
      invariant r.None? ==> forall id :: id in senders && id !in todo ==> !Eligible(senders[id], preferred)
      invariant r.Some? ==> r.value in senders && Eligible(senders[r.value], preferred)
      invariant r.Some? ==> forall id :: id in senders && id !in todo && Eligible(senders[id], preferred) ==>
        senders[r.value].updatedAt <= senders[id].updatedAt
      decreases |todo|
    {
      var id :| id in todo;
      if Eligible(senders[id], preferred) && (r.None? || senders[id].updatedAt < senders[r.value].updatedAt) {
        r := Some(id);
      }
      todo := todo - {id};
    }
  }

  /** The provider-matched lookup, then the fallback to any verified sender. */
  method SelectSender(senders: map<Id, Sender>, preferred: Option<string>) returns (r: Option<Id>)
    ensures r.None? <==> !AnyEligible(senders, None)
    ensures r.Some? ==> Chosen(senders, preferred, r.value)
    ensures r.Some? ==> IsLive(senders[r.value]) && senders[r.value].isVerified
  {
    r := None;
    if preferred.Some? {
      r := FindOldest(senders, preferred);
    }
    if r.None? {
      if preferred.Some? {
        assert !AnyEligible(senders, preferred);
      }
      r := FindOldest(senders, None);
    } else {
      assert AnyEligible(senders, None) by {
        assert Eligible(senders[r.value], None);
      }
    }
  }

  // ---------------------------------------------------------------------------
  // The handler

  datatype Outcome =
    | Unparsed
    | EmailMissing
    | AlreadyRouted
    | RateLimited
    | NoSender
    | RoutedTo(senderId: Id)

  /** The Email a route message names, if it exists. */
  predicate Names(emails: map<Id, Email>, msg: RouteMessage)
  {
    msg.RouteRequest? && msg.emailId.Some? && msg.emailId.value in emails
  }

  /** The counter's value before the request: an absent key counts as 0. */
  function CountOf(counters: map<RateKey, int>, key: RateKey): int
  {
    if key in counters then counters[key] else 0
  }

  /**
   * One request against the window `key`: `incr`, then `decr` when the count
   * went past the provider's limit. The counters stay within their limits.
   */
  method CountRequest(db: Store, key: RateKey) returns (passed: bool)
    requires RateWithinLimits(db.rateCounters)
    modifies db`rateCounters
    ensures RateWithinLimits(db.rateCounters)
    ensures passed <==> CountOf(old(db.rateCounters), key) < ProviderLimit(key.0)
    ensures db.rateCounters == old(db.rateCounters)[key :=
      if passed then CountOf(old(db.rateCounters), key) + 1 else CountOf(old(db.rateCounters), key)]
  {
    var check := RateCheck(CountOf(db.rateCounters, key), ProviderLimit(key.0));
    db.rateCounters := db.rateCounters[key := check.1];
    passed := check.0;
  }

  /** `email.update(...)` with the chosen sender, then the push to the send queue. */
  method AssignSender(db: Store, id: Id, senderId: Id, provider: MailProvider, confidence: real, now: int)
    requires db.Valid() && id in db.emails
    modifies db`emails, db`sendQueue
    ensures db.Valid()
    ensures db.emails == old(db.emails)[id := old(db.emails)[id].(
      senderId := Some(senderId), deliveryProvider := Some(provider),
      deliveryConfidence := Some(confidence), routedAt := Some(now))]
    ensures db.sendQueue == old(db.sendQueue) + [id]
  {
    var e := db.emails[id].(
      senderId := Some(senderId), deliveryProvider := Some(provider),
      deliveryConfidence := Some(confidence), routedAt := Some(now));
    UpdateEmail(db.emails, db.sends, db.nextId, id, e);
    db.emails := db.emails[id := e];
    db.sendQueue := db.sendQueue + [id];
  }

  /**
   * The `email.route` handler. `mta` is what the MTA detector reports for the
   * recipient; `now` is the clock reading in milliseconds. Every outcome
   * acknowledges the message.
   */
  method HandleRoute(db: Store, msg: RouteMessage, mta: MtaResult, now: int) returns (outcome: Outcome)
    requires db.Valid() && RateWithinLimits(db.rateCounters)
    modifies db`emails, db`rateCounters, db`routeQueue, db`sendQueue
    ensures db.Valid() && RateWithinLimits(db.rateCounters)
    ensures outcome.Unparsed? <==> msg.Unparsable?
    ensures outcome.EmailMissing? <==> msg.RouteRequest? && !Names(old(db.emails), msg)
    ensures outcome.AlreadyRouted? <==>
      Names(old(db.emails), msg) && old(db.emails)[msg.emailId.value].senderId.Some?
    // Discarded messages change nothing.
    ensures outcome.Unparsed? || outcome.EmailMissing? || outcome.AlreadyRouted? ==>
      && db.emails == old(db.emails) && db.rateCounters == old(db.rateCounters)
      && db.routeQueue == old(db.routeQueue) && db.sendQueue == old(db.sendQueue)
    // The rate window of the detected provider and the current minute.
    ensures Names(old(db.emails), msg) && old(db.emails)[msg.emailId.value].senderId.None? ==>
      var key := (DetectedProvider(mta), now / MinuteMs);
      var count := CountOf(old(db.rateCounters), key);
      && (outcome.RateLimited? <==> count >= ProviderLimit(key.0))
      && db.rateCounters == old(db.rateCounters)[key := if outcome.RateLimited? then count else count + 1]
    ensures outcome.RateLimited? ==>
      && db.emails == old(db.emails) && db.sendQueue == old(db.sendQueue)
      && db.routeQueue == old(db.routeQueue) + [msg]
    // No verified sender: the counter keeps its increment, nothing else changes.
    ensures outcome.NoSender? ==>
      && !AnyEligible(db.senders, None)
      && db.emails == old(db.emails) && db.routeQueue == old(db.routeQueue) && db.sendQueue == old(db.sendQueue)
    ensures outcome.RoutedTo? ==>
      var id := msg.emailId.value;
      var provider := DetectedProvider(mta);
      && Chosen(db.senders, MapProviderToSenderType(provider), outcome.senderId)
      && db.emails == old(db.emails)[id := old(db.emails)[id].(
           senderId := Some(outcome.senderId), deliveryProvider := Some(provider),
           deliveryConfidence := Some(mta.confidence), routedAt := Some(now))]
      && db.sendQueue == old(db.sendQueue) + [id]
      && db.routeQueue == old(db.routeQueue)
    // Routing is idempotent: a routed Email is discarded on redelivery.
    ensures outcome.RoutedTo? ==> db.emails[msg.emailId.value].senderId.Some?
  {
    if msg.Unparsable? {
      return Unparsed;
    }
    if msg.emailId.None? || msg.emailId.value !in db.emails {
      return EmailMissing;
    }
    var id := msg.emailId.value;
    var email := db.emails[id];
    if email.senderId.Some? {
      return AlreadyRouted;
    }

    var provider := DetectedProvider(mta);
    var passed := CountRequest(db, (provider, now / MinuteMs));
    if !passed {
      db.routeQueue := db.routeQueue + [msg];
      return RateLimited;
    }

    var preferred := MapProviderToSenderType(provider);
    var sender := SelectSender(db.senders, preferred);
    if sender.None? {
      return NoSender;
    }

    AssignSender(db, id, sender.value, provider, mta.confidence, now);
    return RoutedTo(sender.value);
  }
}
