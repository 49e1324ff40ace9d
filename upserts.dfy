/** What each `upsert*` method of packages/db does to its collection: the lookup by
    id or natural key, the update in place of the first match, the append of a new
    record, idempotence, and the duplicates the lookup does not prevent. */
module DbUpserts {
  import opened Wrappers
  import opened Utils
  import opened DbRecords
  import opened Keyed
  import opened Db

  // ---------------------------------------------------------------------------
  // Users: natural key `email`, new ids `usr_...`.

  lemma UpsertUserUpdatesMatch(users: seq<User>, d: UserDraft, random: Entropy, i: int)
    requires 0 <= i < |users| && Matches(users[i], d.id, UserId, UserEmail, d.email)
    requires forall j :: 0 <= j < i ==> !Matches(users[j], d.id, UserId, UserEmail, d.email)
    ensures var (r, u) := UpsertUsers(users, d, random);
      && |r| == |users| && r[i] == u
      && u.id == users[i].id && u.email == d.email && u.name == d.name && u.role == d.role
      && u.avatarUrl == Overlay(d.avatarUrl, users[i].avatarUrl)
      && u.passwordHash == Overlay(d.passwordHash, users[i].passwordHash)
      && forall j :: 0 <= j < |users| && j != i ==> r[j] == users[j]
  {
    UpsertUpdatesFirstMatch(users, d.id, UserId, UserEmail, d.email, e => MergeUser(e, d), NewUser(d, random), i);
  }

  lemma UpsertUserAppendsNew(users: seq<User>, d: UserDraft, random: Entropy)
    requires forall j :: 0 <= j < |users| ==> !Matches(users[j], d.id, UserId, UserEmail, d.email)
    ensures var (r, u) := UpsertUsers(users, d, random);
      && r == users + [u]
      && u.id == d.id.GetOr(CreateId(Usr, random))
      && u.email == d.email && u.name == d.name && u.role == d.role
      && u.avatarUrl == d.avatarUrl && u.passwordHash == d.passwordHash
  {
    UpsertAppendsWithoutMatch(users, d.id, UserId, UserEmail, d.email, e => MergeUser(e, d), NewUser(d, random));
  }

  /** Upserting the same user twice changes nothing the second time. */
  lemma UpsertUserTwice(users: seq<User>, d: UserDraft, random: Entropy)
    ensures var once := UpsertUsers(users, d, random);
      UpsertUsers(once.0, d, random) == once
  {
    UpsertTwice(users, d.id, UserId, UserEmail, d.email, e => MergeUser(e, d), NewUser(d, random));
  }

  /** An id that no user has is inserted under that id, whether or not a user with
      the same email exists already: the email is not kept unique. */
  lemma UpsertUserUnknownIdInserts(users: seq<User>, d: UserDraft, random: Entropy)
    requires Truthy(d.id)
    requires forall j :: 0 <= j < |users| ==> users[j].id != d.id.value
    ensures var (r, u) := UpsertUsers(users, d, random);
      r == users + [u] && u.id == d.id.value && u.email == d.email
  {
    UpsertUserAppendsNew(users, d, random);
  }

  /** An empty id falls back to the email lookup but is stored as it is: two new
      users upserted with the id "" both end up with the id "". */
  lemma UpsertUserEmptyIdsCollide(users: seq<User>, d1: UserDraft, d2: UserDraft, r1: Entropy, r2: Entropy)
    requires d1.id == Some("") && d2.id == Some("") && d1.email != d2.email
    requires forall j :: 0 <= j < |users| ==> users[j].email != d1.email && users[j].email != d2.email
    ensures var once := UpsertUsers(users, d1, r1).0;
      var twice := UpsertUsers(once, d2, r2).0;
      |twice| == |users| + 2 && twice[|users|].id == "" && twice[|users| + 1].id == ""
  {
    UpsertUserAppendsNew(users, d1, r1);
    var once := UpsertUsers(users, d1, r1).0;
    UpsertUserAppendsNew(once, d2, r2);
  }

  // ---------------------------------------------------------------------------
  // Products: natural key `name`, new ids `prd_...`.

  lemma UpsertProductUpdatesMatch(products: seq<Product>, d: ProductDraft, random: Entropy, i: int)
    requires 0 <= i < |products| && Matches(products[i], d.id, ProductId, ProductName, d.name)
    requires forall j :: 0 <= j < i ==> !Matches(products[j], d.id, ProductId, ProductName, d.name)
    ensures var (r, p) := UpsertProducts(products, d, random);
      && |r| == |products| && r[i] == p
      && p == Product(products[i].id, d.name, d.description, d.priceCents, d.interval)
      && forall j :: 0 <= j < |products| && j != i ==> r[j] == products[j]
  {
    UpsertUpdatesFirstMatch(products, d.id, ProductId, ProductName, d.name, e => MergeProduct(e, d),
                            NewProduct(d, random), i);
  }

  lemma UpsertProductAppendsNew(products: seq<Product>, d: ProductDraft, random: Entropy)
    requires forall j :: 0 <= j < |products| ==> !Matches(products[j], d.id, ProductId, ProductName, d.name)
    ensures var (r, p) := UpsertProducts(products, d, random);
      && r == products + [p]
      && p == Product(d.id.GetOr(CreateId(Prd, random)), d.name, d.description, d.priceCents, d.interval)
  {
    UpsertAppendsWithoutMatch(products, d.id, ProductId, ProductName, d.name, e => MergeProduct(e, d),
                              NewProduct(d, random));
  }

  lemma UpsertProductTwice(products: seq<Product>, d: ProductDraft, random: Entropy)
    ensures var once := UpsertProducts(products, d, random);
      UpsertProducts(once.0, d, random) == once
  {
    UpsertTwice(products, d.id, ProductId, ProductName, d.name, e => MergeProduct(e, d), NewProduct(d, random));
  }

  // ---------------------------------------------------------------------------
  // Subscriptions: natural key `userId`, new ids `sub_...`.

  lemma UpsertSubscriptionUpdatesMatch(subs: seq<Subscription>, d: SubscriptionDraft, random: Entropy, i: int)
    requires 0 <= i < |subs| && Matches(subs[i], d.id, SubscriptionId, SubscriptionUser, d.userId)
    requires forall j :: 0 <= j < i ==> !Matches(subs[j], d.id, SubscriptionId, SubscriptionUser, d.userId)
    ensures var (r, s) := UpsertSubscriptions(subs, d, random);
      && |r| == |subs| && r[i] == s
      && s == Subscription(subs[i].id, d.userId, d.productId, d.status, d.currentPeriodEnd)
      && forall j :: 0 <= j < |subs| && j != i ==> r[j] == subs[j]
  {
    UpsertUpdatesFirstMatch(subs, d.id, SubscriptionId, SubscriptionUser, d.userId, e => MergeSubscription(e, d),
                            NewSubscription(d, random), i);
  }

  lemma UpsertSubscriptionAppendsNew(subs: seq<Subscription>, d: SubscriptionDraft, random: Entropy)
    requires forall j :: 0 <= j < |subs| ==> !Matches(subs[j], d.id, SubscriptionId, SubscriptionUser, d.userId)
    ensures var (r, s) := UpsertSubscriptions(subs, d, random);
      && r == subs + [s]
      && s == Subscription(d.id.GetOr(CreateId(Sub, random)), d.userId, d.productId, d.status, d.currentPeriodEnd)
  {
    UpsertAppendsWithoutMatch(subs, d.id, SubscriptionId, SubscriptionUser, d.userId, e => MergeSubscription(e, d),
                              NewSubscription(d, random));
  }

  lemma UpsertSubscriptionTwice(subs: seq<Subscription>, d: SubscriptionDraft, random: Entropy)
    ensures var once := UpsertSubscriptions(subs, d, random);
      UpsertSubscriptions(once.0, d, random) == once
  {
    UpsertTwice(subs, d.id, SubscriptionId, SubscriptionUser, d.userId, e => MergeSubscription(e, d),
                NewSubscription(d, random));
  }

  // ---------------------------------------------------------------------------
  // Threads: natural key `title`, new ids `thr_...`, `createdAt` defaults to now.

  lemma UpsertThreadUpdatesMatch(threads: seq<Thread>, d: ThreadDraft, random: Entropy, now: string, i: int)
    requires 0 <= i < |threads| && Matches(threads[i], d.id, ThreadId, ThreadTitle, d.title)
    requires forall j :: 0 <= j < i ==> !Matches(threads[j], d.id, ThreadId, ThreadTitle, d.title)
    ensures var (r, t) := UpsertThreads(threads, d, random, now);
      && |r| == |threads| && r[i] == t
      && t == Thread(threads[i].id, d.title, d.ownerId, d.createdAt.GetOr(threads[i].createdAt))
      && forall j :: 0 <= j < |threads| && j != i ==> r[j] == threads[j]
  {
    UpsertUpdatesFirstMatch(threads, d.id, ThreadId, ThreadTitle, d.title, e => MergeThread(e, d),
                            NewThread(d, random, now), i);
  }

  lemma UpsertThreadAppendsNew(threads: seq<Thread>, d: ThreadDraft, random: Entropy, now: string)
    requires forall j :: 0 <= j < |threads| ==> !Matches(threads[j], d.id, ThreadId, ThreadTitle, d.title)
    ensures var (r, t) := UpsertThreads(threads, d, random, now);
      && r == threads + [t]
      && t == Thread(d.id.GetOr(CreateId(Thr, random)), d.title, d.ownerId, d.createdAt.GetOr(now))
  {
    UpsertAppendsWithoutMatch(threads, d.id, ThreadId, ThreadTitle, d.title, e => MergeThread(e, d),
                              NewThread(d, random, now));
  }

  lemma UpsertThreadTwice(threads: seq<Thread>, d: ThreadDraft, random: Entropy, now: string)
    ensures var once := UpsertThreads(threads, d, random, now);
      UpsertThreads(once.0, d, random, now) == once
  {
    UpsertTwice(threads, d.id, ThreadId, ThreadTitle, d.title, e => MergeThread(e, d), NewThread(d, random, now));
  }

  // ---------------------------------------------------------------------------
  // Knowledge base: natural key `slug`, new ids `doc_...`; an update always stamps
  // `updatedAt` with now, an insert only when the draft has none.

  lemma UpsertDocumentUpdatesMatch(docs: seq<Document>, d: DocumentDraft, random: Entropy, now: string, i: int)
    requires 0 <= i < |docs| && Matches(docs[i], d.id, DocumentId, DocumentSlug, d.slug)
    requires forall j :: 0 <= j < i ==> !Matches(docs[j], d.id, DocumentId, DocumentSlug, d.slug)
    ensures var (r, doc) := UpsertDocuments(docs, d, random, now);
      && |r| == |docs| && r[i] == doc
      && doc == Document(docs[i].id, d.title, d.slug, d.body, d.embedding, now)
      && forall j :: 0 <= j < |docs| && j != i ==> r[j] == docs[j]
  {
    UpsertUpdatesFirstMatch(docs, d.id, DocumentId, DocumentSlug, d.slug, e => MergeDocument(e, d, now),
                            NewDocument(d, random, now), i);
  }

  lemma UpsertDocumentAppendsNew(docs: seq<Document>, d: DocumentDraft, random: Entropy, now: string)
    requires forall j :: 0 <= j < |docs| ==> !Matches(docs[j], d.id, DocumentId, DocumentSlug, d.slug)
    ensures var (r, doc) := UpsertDocuments(docs, d, random, now);
      && r == docs + [doc]
      && doc == Document(d.id.GetOr(CreateId(Doc, random)), d.title, d.slug, d.body, d.embedding,
                         d.updatedAt.GetOr(now))
  {
    UpsertAppendsWithoutMatch(docs, d.id, DocumentId, DocumentSlug, d.slug, e => MergeDocument(e, d, now),
                              NewDocument(d, random, now));
  }

  /** Upserting the same document twice at the same instant changes nothing the
      second time, provided the draft carries no `updatedAt` other than that instant
      (the update would overwrite it). */
  lemma UpsertDocumentTwice(docs: seq<Document>, d: DocumentDraft, random: Entropy, now: string)
    requires d.updatedAt.None? || d.updatedAt == Some(now)
    ensures var once := UpsertDocuments(docs, d, random, now);
      UpsertDocuments(once.0, d, random, now) == once
  {
    UpsertTwice(docs, d.id, DocumentId, DocumentSlug, d.slug, e => MergeDocument(e, d, now),
                NewDocument(d, random, now));
  }
}
