/** The records of packages/db: the nine collections of the data file, the drafts the
    `upsert*`/`add*` methods accept, how a draft is merged into an existing record or
    turned into a new one, and how a snapshot is read from and written to the file. */
module DbRecords {
  import opened Wrappers
  import opened Json
  import opened Utils

  /** `'user' | 'admin'` */
  datatype AccountRole = MemberRole | AdminRole

  function AccountRoleName(r: AccountRole): string {
    match r
    case MemberRole => "user"
    case AdminRole => "admin"
  }

  /** `'month' | 'year'` */
  datatype Interval = Month | Year

  function IntervalName(i: Interval): string {
    match i
    case Month => "month"
    case Year => "year"
  }

  /** `'active' | 'trialing' | 'canceled'` */
  datatype Status = Active | Trialing | Canceled

  function StatusName(s: Status): string {
    match s
    case Active => "active"
    case Trialing => "trialing"
    case Canceled => "canceled"
  }

  /** `'system' | 'user' | 'assistant'` */
  datatype ChatRole = SystemRole | UserRole | AssistantRole

  datatype User = User(id: string, email: string, name: string, avatarUrl: Option<string>,
                       role: AccountRole, passwordHash: Option<string>)

  datatype Product = Product(id: string, name: string, description: string, priceCents: int, interval: Interval)

  datatype Subscription = Subscription(id: string, userId: string, productId: string, status: Status,
                                       currentPeriodEnd: string)

  datatype Thread = Thread(id: string, title: string, ownerId: string, createdAt: string)

  datatype Message = Message(id: string, threadId: string, role: ChatRole, content: string, createdAt: string)

  datatype AuditLog = AuditLog(id: string, actorId: string, action: string, target: string, createdAt: string,
                               metadata: Option<map<string, Json>>)

  datatype Document = Document(id: string, title: string, slug: string, body: string, embedding: seq<real>,
                               updatedAt: string)

  datatype VoiceSession = VoiceSession(id: string, title: string, transcript: string, durationSeconds: int,
                                       createdAt: string)

  datatype AnalyticsEvent = AnalyticsEvent(id: string, name: string, payload: map<string, Json>,
                                           createdAt: string, userId: Option<string>)

  // ---------------------------------------------------------------------------
  // Drafts: `Omit<T, 'id'> & { id?: string }` and friends. A property the caller
  // leaves out is `None`.

  datatype UserDraft = UserDraft(id: Option<string>, email: string, name: string, avatarUrl: Option<string>,
                                 role: AccountRole, passwordHash: Option<string>)

  datatype ProductDraft = ProductDraft(id: Option<string>, name: string, description: string, priceCents: int,
                                       interval: Interval)

  datatype SubscriptionDraft = SubscriptionDraft(id: Option<string>, userId: string, productId: string,
                                                 status: Status, currentPeriodEnd: string)

  datatype ThreadDraft = ThreadDraft(id: Option<string>, title: string, ownerId: string, createdAt: Option<string>)

  datatype MessageDraft = MessageDraft(id: Option<string>, threadId: string, role: ChatRole, content: string,
                                       createdAt: Option<string>)

  datatype AuditLogDraft = AuditLogDraft(id: Option<string>, actorId: string, action: string, target: string,
                                         createdAt: Option<string>, metadata: Option<map<string, Json>>)

  datatype DocumentDraft = DocumentDraft(id: Option<string>, title: string, slug: string, body: string,
                                         embedding: seq<real>, updatedAt: Option<string>)

  datatype VoiceSessionDraft = VoiceSessionDraft(id: Option<string>, title: string, transcript: string,
                                                 durationSeconds: int, createdAt: Option<string>)

  datatype AnalyticsEventDraft = AnalyticsEventDraft(id: Option<string>, name: string, payload: map<string, Json>,
                                                     createdAt: Option<string>, userId: Option<string>)

  /** `a ?? b` on optional properties in a spread: the later object's property wins
      when it is present. */
  function Overlay<T>(later: Option<T>, earlier: Option<T>): Option<T> {
    if later.Some? then later else earlier
  }

  // ---------------------------------------------------------------------------
  // `{ ...existing, ...draft, id: existing.id }` for each keyed collection (the
  // knowledge base also sets `updatedAt` to now), and `{ id: draft.id ?? createId(p),
  // ...draft }` for a new record.

  function MergeUser(e: User, d: UserDraft): User {
    User(e.id, d.email, d.name, Overlay(d.avatarUrl, e.avatarUrl), d.role, Overlay(d.passwordHash, e.passwordHash))
  }

  function NewUser(d: UserDraft, random: Entropy): User {
    User(d.id.GetOr(CreateId(Usr, random)), d.email, d.name, d.avatarUrl, d.role, d.passwordHash)
  }

  function MergeProduct(e: Product, d: ProductDraft): Product {
    Product(e.id, d.name, d.description, d.priceCents, d.interval)
  }

  function NewProduct(d: ProductDraft, random: Entropy): Product {
    Product(d.id.GetOr(CreateId(Prd, random)), d.name, d.description, d.priceCents, d.interval)
  }

  function MergeSubscription(e: Subscription, d: SubscriptionDraft): Subscription {
    Subscription(e.id, d.userId, d.productId, d.status, d.currentPeriodEnd)
  }

  function NewSubscription(d: SubscriptionDraft, random: Entropy): Subscription {
    Subscription(d.id.GetOr(CreateId(Sub, random)), d.userId, d.productId, d.status, d.currentPeriodEnd)
  }

  function MergeThread(e: Thread, d: ThreadDraft): Thread {
    Thread(e.id, d.title, d.ownerId, d.createdAt.GetOr(e.createdAt))
  }

  function NewThread(d: ThreadDraft, random: Entropy, now: string): Thread {
    Thread(d.id.GetOr(CreateId(Thr, random)), d.title, d.ownerId, d.createdAt.GetOr(now))
  }

  function MergeDocument(e: Document, d: DocumentDraft, now: string): Document {
    Document(e.id, d.title, d.slug, d.body, d.embedding, now)
  }

  function NewDocument(d: DocumentDraft, random: Entropy, now: string): Document {
    Document(d.id.GetOr(CreateId(Doc, random)), d.title, d.slug, d.body, d.embedding, d.updatedAt.GetOr(now))
  }

  function NewMessage(d: MessageDraft, random: Entropy, now: string): Message {
    Message(d.id.GetOr(CreateId(Msg, random)), d.threadId, d.role, d.content, d.createdAt.GetOr(now))
  }

  function NewAuditLog(d: AuditLogDraft, random: Entropy, now: string): AuditLog {
    AuditLog(d.id.GetOr(CreateId(Evt, random)), d.actorId, d.action, d.target, d.createdAt.GetOr(now), d.metadata)
  }

  function NewVoiceSession(d: VoiceSessionDraft, random: Entropy, now: string): VoiceSession {
    VoiceSession(d.id.GetOr(CreateId(Evt, random)), d.title, d.transcript, d.durationSeconds, d.createdAt.GetOr(now))
  }

  function NewAnalyticsEvent(d: AnalyticsEventDraft, random: Entropy, now: string): AnalyticsEvent {
    AnalyticsEvent(d.id.GetOr(CreateId(Evt, random)), d.name, d.payload, d.createdAt.GetOr(now), d.userId)
  }

  // ---------------------------------------------------------------------------
  // Snapshots and the data file.

  /** `DatabaseSchema`, plus the top-level keys of the data file that are not one of
      the nine collections: the spread that reads the file keeps them, and the next
      write puts them back. */
  datatype Schema = Schema(
    users: seq<User>,
    products: seq<Product>,
    subscriptions: seq<Subscription>,
    threads: seq<Thread>,
    messages: seq<Message>,
    auditLogs: seq<AuditLog>,
    knowledgeBase: seq<Document>,
    voiceSessions: seq<VoiceSession>,
    analyticsEvents: seq<AnalyticsEvent>,
    extras: map<string, Json>)

  /** `DEFAULT_SCHEMA`: nine empty collections. */
  function EmptySchema(): Schema {
    Schema([], [], [], [], [], [], [], [], [], map[])
  }

  /** The parsed content of the data file: each collection key may be missing. */
  datatype FileContent = FileContent(
    users: Option<seq<User>>,
    products: Option<seq<Product>>,
    subscriptions: Option<seq<Subscription>>,
    threads: Option<seq<Thread>>,
    messages: Option<seq<Message>>,
    auditLogs: Option<seq<AuditLog>>,
    knowledgeBase: Option<seq<Document>>,
    voiceSessions: Option<seq<VoiceSession>>,
    analyticsEvents: Option<seq<AnalyticsEvent>>,
    extras: map<string, Json>)

  /** `writeSchema`: every collection is written, extras included. */
  function Store(s: Schema): FileContent {
    FileContent(Some(s.users), Some(s.products), Some(s.subscriptions), Some(s.threads), Some(s.messages),
                Some(s.auditLogs), Some(s.knowledgeBase), Some(s.voiceSessions), Some(s.analyticsEvents), s.extras)
  }

  /** `readSchema` with the defaults copied: a missing file is the empty snapshot, a
      key missing from the file is an empty collection. (The source hands out the
      shared default object itself; module DbAliasing models that.) */
  function Load(file: Option<FileContent>): (s: Schema)
    ensures file.None? ==> s == EmptySchema()
    ensures file.Some? ==> s.extras == file.value.extras
  {
    match file
    case None => EmptySchema()
    case Some(c) =>
      Schema(c.users.GetOr([]), c.products.GetOr([]), c.subscriptions.GetOr([]), c.threads.GetOr([]),
             c.messages.GetOr([]), c.auditLogs.GetOr([]), c.knowledgeBase.GetOr([]), c.voiceSessions.GetOr([]),
             c.analyticsEvents.GetOr([]), c.extras)
  }

  /** Reading back what was written gives the same snapshot. */
  lemma LoadStore(s: Schema)
    ensures Load(Some(Store(s))) == s
  {
  }

  /** A file read and written again holds every collection, with the missing ones
      now present and empty, and nothing else changed. */
  lemma StoreLoad(c: FileContent)
    ensures var written := Store(Load(Some(c)));
      && written.users == Some(c.users.GetOr([])) && written.products == Some(c.products.GetOr([]))
      && written.subscriptions == Some(c.subscriptions.GetOr([])) && written.threads == Some(c.threads.GetOr([]))
      && written.messages == Some(c.messages.GetOr([])) && written.auditLogs == Some(c.auditLogs.GetOr([]))
      && written.knowledgeBase == Some(c.knowledgeBase.GetOr([]))
      && written.voiceSessions == Some(c.voiceSessions.GetOr([]))
      && written.analyticsEvents == Some(c.analyticsEvents.GetOr([]))
      && written.extras == c.extras
      && (c.users.Some? && c.products.Some? && c.subscriptions.Some? && c.threads.Some? && c.messages.Some?
          && c.auditLogs.Some? && c.knowledgeBase.Some? && c.voiceSessions.Some? && c.analyticsEvents.Some?
          ==> written == c)
  {
  }
}
