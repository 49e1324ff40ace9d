/** packages/api: the dashboard snapshot that gathers every service, the knowledge
    base listing, and one thread with its recent messages. */
module Api {
  import opened Wrappers
  import opened JsString
  import opened Utils
  import opened DbRecords
  import opened Keyed
  import opened Db
  import opened Config
  import opened Payments
  import opened Llm
  import opened Chat
  import opened Voice
  import opened Email
  import opened Analytics

  const FallbackName: string := "Demo User"
  const FallbackEmail: string := "demo@example.com"
  const FallbackRole: string := "user"

  // ---------------------------------------------------------------------------
  // The parts of `getDashboardSnapshot()`

  /** The user whose email is the configured default, else the first user, else
      none. */
  function DashboardUser(users: seq<User>, defaultEmail: string): (r: Option<User>)
    ensures r.None? <==> users == []
    ensures r.Some? ==> r.value in users
    ensures (exists k :: 0 <= k < |users| && users[k].email == defaultEmail) ==>
      r.Some? && r.value.email == defaultEmail
    ensures (forall k :: 0 <= k < |users| ==> users[k].email != defaultEmail) && users != [] ==>
      r == Some(users[0])
  {
    var i := FirstWith(users, UserEmail, defaultEmail);
    if 0 <= i then Some(users[i])
    else if users != [] then Some(users[0])
    else None
  }

  /** Of several users with the default email, the first one is shown. */
  lemma DashboardUserFirst(users: seq<User>, defaultEmail: string, k: int)
    requires 0 <= k < |users| && users[k].email == defaultEmail
    ensures var r := DashboardUser(users, defaultEmail);
      r.Some? && exists i :: 0 <= i <= k && users[i] == r.value && forall j :: 0 <= j < i ==> users[j].email != defaultEmail
  {
    var i := FirstWith(users, UserEmail, defaultEmail);
    assert 0 <= i <= k;
  }

  datatype Profile = Profile(name: string, email: string, role: string, avatarUrl: Option<string>)

  /** `{ name: user?.name ?? 'Demo User', … }`: the user's own fields, or the demo
      fallbacks when there is no user at all. */
  function ProfileOf(user: Option<User>): (p: Profile)
    ensures user.Some? ==> p.name == user.value.name && p.email == user.value.email
    ensures user.Some? ==> p.role == AccountRoleName(user.value.role) && p.avatarUrl == user.value.avatarUrl
    ensures user.None? ==> p == Profile(FallbackName, FallbackEmail, FallbackRole, None)
  {
    match user
    case Some(u) => Profile(u.name, u.email, AccountRoleName(u.role), u.avatarUrl)
    case None => Profile(FallbackName, FallbackEmail, FallbackRole, None)
  }

  /** The dashboard profile: the demo fallback exactly when there are no users; the
      default account's email whenever such an account exists; the first account's
      name and email otherwise. */
  lemma DashboardProfile(users: seq<User>, defaultEmail: string)
    ensures var p := ProfileOf(DashboardUser(users, defaultEmail));
      && (users == [] ==> p == Profile(FallbackName, FallbackEmail, FallbackRole, None))
      && (users != [] ==> exists u :: u in users && p == Profile(u.name, u.email, AccountRoleName(u.role), u.avatarUrl))
      && ((exists k :: 0 <= k < |users| && users[k].email == defaultEmail) ==> p.email == defaultEmail)
      && ((forall k :: 0 <= k < |users| ==> users[k].email != defaultEmail) && users != [] ==>
            p.name == users[0].name && p.email == users[0].email)
  {
  }

  datatype SubscriptionSummary = SubscriptionSummary(productName: string, status: string, renewalDate: string)

  /** The subscription part; `formatDate` is `new Date(end).toLocaleDateString()`. */
  function SubscriptionSummaryOf(subscriptions: seq<Subscription>, products: seq<Product>, user: Option<User>,
                                 formatDate: string -> string)
    : (r: Option<SubscriptionSummary>)
    ensures r.Some? <==> user.Some? && SubscriptionForUser(subscriptions, products, user.value.id).Some?
    ensures r.Some? ==> var (s, p) := SubscriptionForUser(subscriptions, products, user.value.id).value;
      && s.userId == user.value.id
      && r.value == SubscriptionSummary(p.name, StatusName(s.status), formatDate(s.currentPeriodEnd))
  {
    if user.None? then None
    else
      match SubscriptionForUser(subscriptions, products, user.value.id)
      case None => None
      case Some((s, p)) => Some(SubscriptionSummary(p.name, StatusName(s.status), formatDate(s.currentPeriodEnd)))
  }

  /** The `featureFlags` record: one entry per feature, under its name. */
  function FeatureFlagRecord(config: AppConfig): (r: map<string, bool>)
    ensures forall k :: FeatureName(k) in r && r[FeatureName(k)] == IsFeatureEnabled(config, k)
    ensures r.Keys == {"auth", "payments", "chat", "voice", "analytics", "emails"}
  {
    map[FeatureName(Auth) := IsFeatureEnabled(config, Auth),
        FeatureName(Payments) := IsFeatureEnabled(config, Payments),
        FeatureName(Chat) := IsFeatureEnabled(config, Chat),
        FeatureName(Voice) := IsFeatureEnabled(config, Voice),
        FeatureName(Analytics) := IsFeatureEnabled(config, Analytics),
        FeatureName(Emails) := IsFeatureEnabled(config, Emails)]
  }

  datatype ProductSummary = ProductSummary(id: string, name: string, description: string, price: string,
                                           interval: string)

  /** The `products` part, built from `getPricingTable()` but with the bare price. */
  function ProductSummaries(plans: seq<PricingPlan>, formatCurrency: int -> string): (r: seq<ProductSummary>)
    ensures |r| == |plans|
    ensures forall k :: 0 <= k < |plans| ==> var p := plans[k].product;
      r[k] == ProductSummary(p.id, p.name, p.description, formatCurrency(p.priceCents), IntervalName(p.interval))
  {
    if plans == [] then []
    else
      var p := plans[0].product;
      [ProductSummary(p.id, p.name, p.description, formatCurrency(p.priceCents), IntervalName(p.interval))]
      + ProductSummaries(plans[1..], formatCurrency)
  }

  /** The dashboard lists the products in pricing-table order, and the table's price is
      the dashboard's price followed by `/` and the interval. */
  lemma ProductsMatchPricingTable(products: seq<Product>, formatCurrency: int -> string)
    ensures var plans := PricingTable(products, formatCurrency);
      var r := ProductSummaries(plans, formatCurrency);
      && |r| == |products|
      && forall k :: 0 <= k < |products| ==>
           r[k].id == products[k].id && plans[k].formattedPrice == r[k].price + "/" + r[k].interval
  {
  }

  datatype ThreadSummary = ThreadSummary(id: string, title: string, messageCount: int, lastMessage: Option<string>,
                                         avgMessageLength: int)

  function ContentLengths(messages: seq<Message>): (r: seq<int>)
    ensures |r| == |messages|
    ensures forall k :: 0 <= k < |messages| ==> r[k] == |messages[k].content|
  {
    if messages == [] then [] else [|messages[0].content|] + ContentLengths(messages[1..])
  }

  /** One entry of `chatThreads`, over `db.getMessages(thread.id)`. */
  function ThreadSummaryOf(messages: seq<Message>, t: Thread): (r: ThreadSummary)
    ensures var ms := MessagesFor(messages, Some(t.id));
      && r.id == t.id && r.title == t.title
      && r.messageCount == |ms|
      && (r.lastMessage.None? <==> ms == [])
      && (ms != [] ==> r.lastMessage == Some(ms[|ms| - 1].content))
      && r.avgMessageLength == RoundedAverage(ContentLengths(ms))
  {
    var ms := MessagesFor(messages, Some(t.id));
    ThreadSummary(t.id, t.title, |ms|, if ms == [] then None else Some(ms[|ms| - 1].content),
                  RoundedAverage(ContentLengths(ms)))
  }

  function ThreadSummaries(threads: seq<Thread>, messages: seq<Message>): (r: seq<ThreadSummary>)
    ensures |r| == |threads|
    ensures forall k :: 0 <= k < |threads| ==> r[k] == ThreadSummaryOf(messages, threads[k])
  {
    if threads == [] then [] else [ThreadSummaryOf(messages, threads[0])] + ThreadSummaries(threads[1..], messages)
  }

  /** A message stored in a thread adds one to its count and becomes its last message. */
  lemma ThreadSummaryAfterSend(messages: seq<Message>, t: Thread, m: Message)
    requires t.id != "" && m.threadId == t.id
    ensures var before, after := ThreadSummaryOf(messages, t), ThreadSummaryOf(messages + [m], t);
      after.messageCount == before.messageCount + 1 && after.lastMessage == Some(m.content)
  {
    MessagesForSnoc(messages, m);
  }

  /** The average length shown lies between the shortest and the longest message. */
  lemma AverageLengthBounds(messages: seq<Message>, t: Thread, lo: int, hi: int)
    requires forall k :: 0 <= k < |MessagesFor(messages, Some(t.id))| ==>
      lo <= |MessagesFor(messages, Some(t.id))[k].content| <= hi
    requires MessagesFor(messages, Some(t.id)) != []
    ensures lo <= ThreadSummaryOf(messages, t).avgMessageLength <= hi
  {
    RoundedAverageBounds(ContentLengths(MessagesFor(messages, Some(t.id))), lo, hi);
  }

  datatype DashboardSnapshot = DashboardSnapshot(
    featureFlags: map<string, bool>,
    profile: Profile,
    subscription: Option<SubscriptionSummary>,
    products: seq<ProductSummary>,
    chatThreads: seq<ThreadSummary>,
    usage: UsageStatistics,
    voiceSessions: seq<VoiceSession>,
    analytics: seq<AnalyticsEvent>,
    emailCampaigns: seq<EmailCampaign>)

  /** `getDashboardSnapshot()`. `formatCurrency` and `formatDate` are the locale
      formatting, `campaignFirst` and `campaignSecond` the random bytes of the two
      campaign ids drawn when the email module loaded. Nothing is changed. */
  method GetDashboardSnapshot(db: Database, config: AppConfig, usage: UsageTracker,
                              formatCurrency: int -> string, formatDate: string -> string,
                              campaignFirst: Entropy, campaignSecond: Entropy)
    returns (s: DashboardSnapshot)
    ensures var user := DashboardUser(db.schema.users, config.defaultUserEmail);
      && s.profile == ProfileOf(user)
      && s.subscription == SubscriptionSummaryOf(db.schema.subscriptions, db.schema.products, user, formatDate)
    ensures s.featureFlags == FeatureFlagRecord(config)
    ensures s.products == ProductSummaries(PricingTable(db.schema.products, formatCurrency), formatCurrency)
    ensures s.chatThreads == ThreadSummaries(db.schema.threads, db.schema.messages)
    ensures s.usage == usage.Statistics()
    ensures multiset(s.voiceSessions) == multiset(db.schema.voiceSessions) && NewestFirst(s.voiceSessions)
    ensures s.analytics == ListAnalyticsEvents(db.schema.analyticsEvents)
    ensures s.emailCampaigns == ListEmailCampaigns(campaignFirst, campaignSecond)
  {
    var user := DashboardUser(db.Users(), config.defaultUserEmail);
    var voiceSessions := ListVoiceSessions(db.VoiceSessions());
    s := DashboardSnapshot(
      FeatureFlagRecord(config),
      ProfileOf(user),
      SubscriptionSummaryOf(db.Subscriptions(), db.Products(), user, formatDate),
      ProductSummaries(PricingTable(db.Products(), formatCurrency), formatCurrency),
      ThreadSummaries(db.Threads(), db.schema.messages),
      usage.Statistics(),
      voiceSessions,
      ListAnalyticsEvents(db.AnalyticsEvents()),
      ListEmailCampaigns(campaignFirst, campaignSecond));
  }

  // ---------------------------------------------------------------------------
  // `getKnowledgeBaseDocuments()`

  datatype DocumentSummary = DocumentSummary(id: string, title: string, slug: string, excerpt: string,
                                             updatedAt: string)

  /** `doc.body.slice(0, 180)` */
  function Excerpt(body: string): (r: string)
    ensures |r| <= 180 && StartsWith(body, r)
    ensures |body| <= 180 ==> r == body
    ensures |body| > 180 ==> |r| == 180
  {
    if |body| <= 180 then body else body[..180]
  }

  function KnowledgeBaseDocuments(docs: seq<Document>): (r: seq<DocumentSummary>)
    ensures |r| == |docs|
    ensures forall k :: 0 <= k < |docs| ==> var d := docs[k];
      r[k] == DocumentSummary(d.id, d.title, d.slug, Excerpt(d.body), d.updatedAt)
  {
    if docs == [] then []
    else
      var d := docs[0];
      [DocumentSummary(d.id, d.title, d.slug, Excerpt(d.body), d.updatedAt)] + KnowledgeBaseDocuments(docs[1..])
  }

  // ---------------------------------------------------------------------------
  // `getThread(threadId)`

  datatype ThreadView = ThreadView(thread: Thread, messages: seq<Message>)

  /** `getThread(threadId)`: the first thread with the id and its 50 most recent
      messages, or nothing when no thread has the id. */
  function GetThread(threads: seq<Thread>, messages: seq<Message>, threadId: string): (r: Option<ThreadView>)
    ensures r.None? <==> forall k :: 0 <= k < |threads| ==> threads[k].id != threadId
    ensures r.Some? ==> r.value.thread in threads && r.value.thread.id == threadId
    ensures r.Some? ==> r.value.thread == threads[FirstWith(threads, ThreadId, threadId)]
    ensures r.Some? ==> r.value.messages == RecentMessages(messages, threadId, 50)
  {
    var i := FirstWith(threads, ThreadId, threadId);
    if i < 0 then None else Some(ThreadView(threads[i], RecentMessages(messages, threadId, 50)))
  }

  /** A thread's view holds the last 50 of its messages, in stored order. */
  lemma ThreadViewLatest(threads: seq<Thread>, messages: seq<Message>, threadId: string)
    requires threadId != ""
    requires GetThread(threads, messages, threadId).Some?
    ensures var view := GetThread(threads, messages, threadId).value.messages;
      var all := ThreadMessages(messages, threadId);
      && |view| == (if |all| < 50 then |all| else 50)
      && view == all[|all| - |view|..]
      && forall m :: m in view ==> m.threadId == threadId
  {
    RecentMessagesAreLatest(messages, threadId, 50);
  }
}
