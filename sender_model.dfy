/**
 * The Sender table: an outbound identity. `email` is unique across all rows,
 * including soft-deleted ones (the table is paranoid: a deletion only sets
 * `deletedAt`, and ordinary reads skip such rows).
 */
module SenderModel {
  import opened Wrappers
  import opened Ids

  /** The `provider` column's enumeration; `"outlook"` is not among its values. */
  datatype SenderProvider = Smtp | Gmail | Ses

  const DefaultProvider: SenderProvider := Smtp

  function ProviderName(p: SenderProvider): string
  {
    match p
    case Smtp => "smtp"
    case Gmail => "gmail"
    case Ses => "ses"
  }

  /** Reading a provider string into the enumeration; values outside it are refused. */
  function ParseProvider(s: string): (r: Option<SenderProvider>)
    ensures r.Some? <==> (s == "smtp" || s == "gmail" || s == "ses")
    ensures r.Some? ==> ProviderName(r.value) == s
  {
    if s == "smtp" then Some(Smtp)
    else if s == "gmail" then Some(Gmail)
    else if s == "ses" then Some(Ses)
    else None
  }

  /** Reading back the stored name gives the same provider. */
  lemma ProviderNameRoundTrip(p: SenderProvider)
    ensures ParseProvider(ProviderName(p)) == Some(p)
  {
  }

  /** No value of the enumeration is called `"outlook"`. */
  lemma OutlookIsNotAProvider(p: SenderProvider)
    ensures ProviderName(p) != "outlook"
    ensures ParseProvider("outlook") == None
  {
  }

  /**
   * A sender row. `isVerified` is read by the router and the sender worker but
   * is not declared by the schema, so nothing in the modelled code sets it.
   */
  datatype Sender = Sender(
    id: Id,
    userId: Id,
    email: string,
    displayName: string,
    domain: string,
    provider: SenderProvider,
    smtpHost: Option<string>,
    smtpPort: Option<int>,
    smtpSecure: bool,
    smtpUser: Option<string>,
    smtpPass: Option<string>,
    isVerified: bool,
    createdAt: int,
    updatedAt: int,
    deletedAt: Option<int>)

  /** The row is visible to ordinary (non-paranoid-bypassing) reads. */
  predicate IsLive(s: Sender) { s.deletedAt.None? }

  /** The unique index on `email`, over every row including soft-deleted ones. */
  ghost predicate UniqueEmails(senders: map<Id, Sender>)
  {
    forall a, b :: a in senders && b in senders && a != b ==> senders[a].email != senders[b].email
  }

  /** Whether some row (live or soft-deleted) already uses `email`. */
  predicate EmailTaken(senders: map<Id, Sender>, email: string)
  {
    exists id :: id in senders && senders[id].email == email
  }

  /** Adding a row whose email is not taken keeps the index unique. */
  lemma {:induction false} InsertKeepsEmailsUnique(senders: map<Id, Sender>, s: Sender)
    requires UniqueEmails(senders) && !EmailTaken(senders, s.email) && s.id !in senders
    ensures UniqueEmails(senders[s.id := s])
  {
    var m := senders[s.id := s];
    forall a, b | a in m && b in m && a != b ensures m[a].email != m[b].email {
      if a == s.id {
        assert b in senders && senders[b] == m[b];
      } else if b == s.id {
        assert a in senders && senders[a] == m[a];
      } else {
        assert senders[a] == m[a] && senders[b] == m[b];
      }
    }
  }
}
