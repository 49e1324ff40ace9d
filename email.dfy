/** packages/email: the two fixed campaigns, and sending a transactional email, which
    only records an audit-log entry and returns a preview. */
module Email {
  import opened Wrappers
  import opened Json
  import opened Utils
  import opened DbRecords
  import opened Db

  const PreviewPrefix: string := "https://email.preview/"
  const EmailSentAction: string := "email.sent"

  /** `opens` is the `opened` count (`opened` is a reserved word here). */
  datatype EmailCampaign = EmailCampaign(id: string, name: string, subject: string, delivered: int, opens: int)

  /** The module-level `campaigns`, whose ids are drawn once when the module loads:
      `first` and `second` are their random bytes. */
  function Campaigns(first: Entropy, second: Entropy): seq<EmailCampaign> {
    [ EmailCampaign(CreateId(Evt, first), "Welcome Series", "Your AI workspace is ready", 482, 401),
      EmailCampaign(CreateId(Evt, second), "Feature Spotlight", "Voice-first customer support", 311, 204) ]
  }

  /** `listEmailCampaigns()`: a copy of the fixed list. */
  function ListEmailCampaigns(first: Entropy, second: Entropy): (r: seq<EmailCampaign>)
    ensures |r| == 2
    ensures r[0].id == CreateId(Evt, first) && r[1].id == CreateId(Evt, second)
    ensures forall k :: 0 <= k < |r| ==> 0 <= r[k].opens <= r[k].delivered
  {
    Campaigns(first, second)[..]
  }

  /** The two campaigns have different ids unless the same random bytes were drawn
      twice. */
  lemma CampaignIdsDistinct(first: Entropy, second: Entropy)
    requires first != second
    ensures ListEmailCampaigns(first, second)[0].id != ListEmailCampaigns(first, second)[1].id
  {
    if CreateId(Evt, first) == CreateId(Evt, second) {
      CreateIdInjective(Evt, first, second);
    }
  }

  datatype TransactionalEmail = TransactionalEmail(id: string, to: string, template: string,
                                                   variables: map<string, string>, previewUrl: string)

  /** `sendTransactionalEmail(to, template, variables)`: `logRandom` and `emailRandom`
      are the random bytes of the audit-log id and of the email id, `now` the clock.
      Nothing is delivered. */
  method SendTransactionalEmail(db: Database, to: string, template: string, variables: map<string, string>,
                                logRandom: Entropy, emailRandom: Entropy, now: string)
    returns (email: TransactionalEmail)
    modifies db, db.disk
    ensures email == TransactionalEmail(CreateId(Evt, emailRandom), to, template, variables, PreviewPrefix + template)
    ensures db.schema == old(db.schema).(auditLogs := old(db.schema.auditLogs) + [SentLog(to, template, variables, logRandom, now)])
    ensures db.disk.files == old(db.disk.files)[db.path := Store(db.schema)]
  {
    var _ := db.AddAuditLog(AuditLogDraft(None, to, EmailSentAction, template, None, Some(StringRecord(variables))),
                            logRandom, now);
    email := TransactionalEmail(CreateId(Evt, emailRandom), to, template, variables, PreviewPrefix + template);
  }

  /** The audit-log entry of a sent email: the recipient as actor, the template as
      target, the variables as metadata. */
  function SentLog(to: string, template: string, variables: map<string, string>, random: Entropy, now: string)
    : (entry: AuditLog)
    ensures entry.id == CreateId(Evt, random) && entry.createdAt == now
    ensures entry.actorId == to && entry.action == EmailSentAction && entry.target == template
    ensures entry.metadata.Some? && entry.metadata.value.Keys == variables.Keys
    ensures forall k :: k in variables ==> entry.metadata.value[k] == JString(variables[k])
  {
    NewAuditLog(AuditLogDraft(None, to, EmailSentAction, template, None, Some(StringRecord(variables))), random, now)
  }
}
