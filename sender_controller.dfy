/**
 * The sender endpoints: `createSender` checks the two required fields, derives
 * the domain from the address and inserts a Sender row owned by the requester;
 * `listSenders` returns the requester's live senders, newest first.
 */
module SenderController {
  import opened Wrappers
  import opened Ids
  import opened SenderModel
  import opened StateStore
  import Text

  /** The request body fields the handler reads; an absent field is None. */
  datatype SenderRequest = SenderRequest(
    email: Option<string>,
    displayName: Option<string>,
    provider: Option<string>,
    smtpHost: Option<string>,
    smtpPort: Option<int>,
    smtpSecure: Option<bool>,
    smtpUser: Option<string>,
    smtpPassword: Option<string>)

  datatype SenderError =
    /** `AppError("Email and provider are required", 400)`. */
    | MissingFields
    /** A required column (`displayName` or `domain`) would be null. */
    | NullColumn
    /** A `provider` outside the column's enumeration. */
    | InvalidProvider(value: string)
    /** The unique index on `email` refuses the row. */
    | EmailInUse

  /** JavaScript truthiness of an optional string: present and not empty. */
  predicate Present(s: Option<string>)
  {
    s.Some? && s.value != ""
  }

  /**
   * The row `Sender.create` would insert under `id`, or the error that stops
   * it before the unique index is consulted. `isVerified` is not a column, so
   * it reads as false.
   */
  function SenderRow(id: Id, userId: Id, req: SenderRequest, now: int): (r: Result<Sender, SenderError>)
    ensures r == Err(MissingFields) <==> !Present(req.email) || !Present(req.provider)
    ensures r.Ok? <==>
      && Present(req.email) && Present(req.provider) && req.displayName.Some?
      && Text.AfterFirstAt(req.email.value).Some? && ParseProvider(req.provider.value).Some?
    ensures r == Err(NullColumn) <==>
      Present(req.email) && Present(req.provider) && (req.displayName.None? || '@' !in req.email.value)
    ensures r.Ok? ==>
      && r.value.id == id && r.value.userId == userId
      && r.value.email == req.email.value && r.value.displayName == req.displayName.value
      && Some(r.value.domain) == Text.AfterFirstAt(req.email.value) && '@' !in r.value.domain
      && ProviderName(r.value.provider) == req.provider.value
      && r.value.smtpHost == req.smtpHost && r.value.smtpPort == req.smtpPort && r.value.smtpUser == req.smtpUser
      && r.value.smtpPass == req.smtpPassword
      && r.value.smtpSecure == req.smtpSecure.GetOr(false)
      && !r.value.isVerified && IsLive(r.value)
      && r.value.createdAt == now && r.value.updatedAt == now
  {
    if !Present(req.email) || !Present(req.provider) then Err(MissingFields)
    else
      var domain := Text.AfterFirstAt(req.email.value);
      if req.displayName.None? || domain.None? then Err(NullColumn)
      else
        match ParseProvider(req.provider.value)
        case None => Err(InvalidProvider(req.provider.value))
        case Some(p) =>
          Ok(Sender(id, userId, req.email.value, req.displayName.value, domain.value, p,
                    req.smtpHost, req.smtpPort, req.smtpSecure.GetOr(false), req.smtpUser, req.smtpPassword,
                    false, now, now, None))
  }

  /** An address `local@domain` with one `@` is stored with exactly that domain. */
  lemma StoredDomainOfPlainAddress(id: Id, userId: Id, req: SenderRequest, now: int, local: string, domain: string)
    requires '@' !in local && '@' !in domain
    requires req.email == Some(local + "@" + domain)
    requires SenderRow(id, userId, req, now).Ok?
    ensures SenderRow(id, userId, req, now).value.domain == domain
  {
    Text.AfterFirstAtJoin(local, domain);
  }

  /** `createSender`: on success the table gains exactly the new row; on any error it is unchanged. */
  method CreateSender(db: Store, userId: Id, req: SenderRequest, now: int) returns (r: Result<Sender, SenderError>)
    requires db.Valid()
    modifies db`senders, db`nextId
    ensures db.Valid()
    ensures r.Ok? ==>
      && SenderRow(r.value.id, userId, req, now) == r
      && r.value.id !in old(db.senders)
      && !EmailTaken(old(db.senders), r.value.email)
      && db.senders == old(db.senders)[r.value.id := r.value]
    ensures r.Err? ==> db.senders == old(db.senders)
    ensures r.Err? ==>
      || SenderRow(old(db.nextId), userId, req, now) == r
      || (r == Err(EmailInUse) && SenderRow(old(db.nextId), userId, req, now).Ok? && EmailTaken(old(db.senders), req.email.value))
    ensures r == Err(EmailInUse) <==> SenderRow(old(db.nextId), userId, req, now).Ok? && EmailTaken(old(db.senders), req.email.value)
  {
    var id := db.NewId();
    r := SenderRow(id, userId, req, now);
    if r.Err? {
      return;
    }
    if EmailTaken(db.senders, r.value.email) {
      return Err(EmailInUse);
    }
    InsertKeepsEmailsUnique(db.senders, r.value);
    db.senders := db.senders[id := r.value];
  }

  /** The requester's senders that ordinary reads see. */
  function OwnedLive(senders: map<Id, Sender>, userId: Id): set<Id>
  {
    set id | id in senders && senders[id].userId == userId && IsLive(senders[id])
  }

  /** `order: [["createdAt", "DESC"]]`. */
  ghost predicate NewestFirst(list: seq<Sender>)
  {
    forall i, j :: 0 <= i < j < |list| ==> list[i].createdAt >= list[j].createdAt
  }

  /** Every non-empty set of senders has one created no earlier than the others. */
  lemma {:induction false} NewestExists(senders: map<Id, Sender>, ids: set<Id>)
    requires ids != {} && ids <= senders.Keys
    ensures exists id :: id in ids && forall o :: o in ids ==> senders[o].createdAt <= senders[id].createdAt
    decreases |ids|
  {
    var x :| x in ids;
    var rest := ids - {x};
    if rest == {} {
      assert ids == {x};
    } else {
      NewestExists(senders, rest);
      var y :| y in rest && forall o :: o in rest ==> senders[o].createdAt <= senders[y].createdAt;
      if senders[x].createdAt <= senders[y].createdAt {
        assert forall o :: o in ids ==> senders[o].createdAt <= senders[y].createdAt;
      } else {
        assert forall o :: o in ids ==> senders[o].createdAt <= senders[x].createdAt;
      }
    }
  }

  /**
   * Progress of `listSenders` after taking every id of `matching` outside
   * `todo`: each taken sender listed once, newest first, none of them older
   * than a sender still to take.
   */
  ghost predicate Listed(senders: map<Id, Sender>, matching: set<Id>, todo: set<Id>, list: seq<Sender>)
  {
    && todo <= matching <= senders.Keys
    && (forall i :: 0 <= i < |list| ==> list[i].id in matching - todo && senders[list[i].id] == list[i])
    && (forall id :: id in matching - todo ==> senders[id] in list)
    && (forall i, j :: 0 <= i < j < |list| ==> list[i].id != list[j].id)
    && NewestFirst(list)
    && (forall i, o :: 0 <= i < |list| && o in todo ==> senders[o].createdAt <= list[i].createdAt)
  }

  /** Taking the newest remaining sender keeps the progress. */
  lemma TakeNewest(senders: map<Id, Sender>, matching: set<Id>, todo: set<Id>, list: seq<Sender>, id: Id)
    requires Listed(senders, matching, todo, list)
    requires id in todo && senders[id].id == id
    requires forall o :: o in todo ==> senders[o].createdAt <= senders[id].createdAt
    ensures Listed(senders, matching, todo - {id}, list + [senders[id]])
  {
    var next := list + [senders[id]];
    assert forall i :: 0 <= i < |list| ==> next[i] == list[i];
    assert next[|list|] == senders[id];
    forall k | k in matching - (todo - {id}) ensures senders[k] in next {
      if k != id {
        assert senders[k] in list;
      }
    }
  }

  /**
   * `listSenders`: every live sender of the requester, each once, newest
   * first. Senders created at the same instant come in no stated order.
   */
  method ListSenders(db: Store, userId: Id) returns (list: seq<Sender>)
    requires db.Valid()
    ensures forall i :: 0 <= i < |list| ==>
      list[i].id in OwnedLive(db.senders, userId) && db.senders[list[i].id] == list[i]
    ensures forall id :: id in OwnedLive(db.senders, userId) ==> db.senders[id] in list
    ensures forall i, j :: 0 <= i < j < |list| ==> list[i].id != list[j].id
    ensures NewestFirst(list)
  {
    list := SortNewestFirst(db.senders, OwnedLive(db.senders, userId));
  }

  /** The senders under `ids`, each once, newest first. */
  method SortNewestFirst(senders: map<Id, Sender>, ids: set<Id>) returns (list: seq<Sender>)
    requires ids <= senders.Keys
    requires forall id :: id in ids ==> senders[id].id == id
    ensures Listed(senders, ids, {}, list)
  {
    var todo := ids;
    list := [];
    while todo != {}
      invariant Listed(senders, ids, todo, list)
      decreases |todo|
    {
      NewestExists(senders, todo);
      var id :| id in todo && forall o :: o in todo ==> senders[o].createdAt <= senders[id].createdAt;
      TakeNewest(senders, ids, todo, list, id);
      list := list + [senders[id]];
      todo := todo - {id};
    }
  }
}
