/** packages/db: the `Database` class over a snapshot of nine collections, the data
    file it reads and rewrites after every change, and the module-level handle. */
module Db {
  import opened Wrappers
  import opened JsString
  import opened Utils
  import opened DbRecords
  import opened Keyed

  /** The file system, as far as the store sees it: the parsed content of each file
      that exists, by path. */
  class Disk {
    var files: map<string, FileContent>

    constructor(files: map<string, FileContent>)
      ensures this.files == files
    {
      this.files := files;
    }
  }

  function FileAt(files: map<string, FileContent>, path: string): Option<FileContent> {
    if path in files then Some(files[path]) else None
  }

  /** `resolveDatabasePath()`: the configured file verbatim when it starts with `/`,
      otherwise the configured file under the repository root. */
  function ResolveDatabasePath(root: string, databaseFile: string): (path: string)
    ensures StartsWith(databaseFile, "/") ==> path == databaseFile
    ensures !StartsWith(databaseFile, "/") ==> path == root + "/" + databaseFile
  {
    if StartsWith(databaseFile, "/") then databaseFile else ResolvePath(root, databaseFile)
  }

  // ---------------------------------------------------------------------------
  // Ids and natural keys of the keyed collections.

  function UserId(u: User): string { u.id }
  function UserEmail(u: User): string { u.email }
  function ProductId(p: Product): string { p.id }
  function ProductName(p: Product): string { p.name }
  function SubscriptionId(s: Subscription): string { s.id }
  function SubscriptionUser(s: Subscription): string { s.userId }
  function ThreadId(t: Thread): string { t.id }
  function ThreadTitle(t: Thread): string { t.title }
  function DocumentId(d: Document): string { d.id }
  function DocumentSlug(d: Document): string { d.slug }

  /** The users after `upsertUser(d)`, and the user it returns. */
  function UpsertUsers(users: seq<User>, d: UserDraft, random: Entropy): (r: (seq<User>, User))
    ensures r.1 in r.0 && (|r.0| == |users| || r.0 == users + [r.1])
  {
    Upsert(users, d.id, UserId, UserEmail, d.email, e => MergeUser(e, d), NewUser(d, random))
  }

  function UpsertProducts(products: seq<Product>, d: ProductDraft, random: Entropy): (r: (seq<Product>, Product))
    ensures r.1 in r.0 && (|r.0| == |products| || r.0 == products + [r.1])
  {
    Upsert(products, d.id, ProductId, ProductName, d.name, e => MergeProduct(e, d), NewProduct(d, random))
  }

  function UpsertSubscriptions(subscriptions: seq<Subscription>, d: SubscriptionDraft, random: Entropy)
    : (r: (seq<Subscription>, Subscription))
    ensures r.1 in r.0 && (|r.0| == |subscriptions| || r.0 == subscriptions + [r.1])
  {
    Upsert(subscriptions, d.id, SubscriptionId, SubscriptionUser, d.userId,
           e => MergeSubscription(e, d), NewSubscription(d, random))
  }

  function UpsertThreads(threads: seq<Thread>, d: ThreadDraft, random: Entropy, now: string): (r: (seq<Thread>, Thread))
    ensures r.1 in r.0 && (|r.0| == |threads| || r.0 == threads + [r.1])
  {
    Upsert(threads, d.id, ThreadId, ThreadTitle, d.title, e => MergeThread(e, d), NewThread(d, random, now))
  }

  function UpsertDocuments(docs: seq<Document>, d: DocumentDraft, random: Entropy, now: string)
    : (r: (seq<Document>, Document))
    ensures r.1 in r.0 && (|r.0| == |docs| || r.0 == docs + [r.1])
  {
    Upsert(docs, d.id, DocumentId, DocumentSlug, d.slug, e => MergeDocument(e, d, now), NewDocument(d, random, now))
  }

  /** `messages.filter(m => m.threadId === threadId)` */
  function ThreadMessages(messages: seq<Message>, threadId: string): (r: seq<Message>)
    ensures |r| <= |messages|
    ensures forall m :: m in r <==> m in messages && m.threadId == threadId
  {
    if messages == [] then []
    else
      var rest := ThreadMessages(messages[..|messages| - 1], threadId);
      var m := messages[|messages| - 1];
      if m.threadId == threadId then rest + [m] else rest
  }

  lemma {:induction false} ThreadMessagesAppend(a: seq<Message>, b: seq<Message>, threadId: string)
    ensures ThreadMessages(a + b, threadId) == ThreadMessages(a, threadId) + ThreadMessages(b, threadId)
  {
    if b != [] {
      var b' := b[..|b| - 1];
      ThreadMessagesAppend(a, b', threadId);
      assert (a + b)[..|a + b| - 1] == a + b';
    } else {
      assert a + b == a;
    }
  }

  /** `getMessages(threadId)`: the thread's messages when the id is truthy, otherwise
      all messages. */
  function MessagesFor(messages: seq<Message>, threadId: Option<string>): (r: seq<Message>)
    ensures forall m :: m in r ==> m in messages
    ensures Truthy(threadId) ==> forall m :: m in r ==> m.threadId == threadId.value
    ensures !Truthy(threadId) ==> r == messages
  {
    if Truthy(threadId) then ThreadMessages(messages, threadId.value) else messages
  }

  /** A stored message is the last of its thread's messages. */
  lemma MessagesForSnoc(messages: seq<Message>, m: Message)
    ensures MessagesFor(messages + [m], Some(m.threadId)) == MessagesFor(messages, Some(m.threadId)) + [m]
  {
    assert (messages + [m])[..|messages|] == messages;
  }

  // ---------------------------------------------------------------------------

  /** `Database`: the snapshot in memory, bound to the data file at `path`. */
  class Database {
    var schema: Schema
    const disk: Disk
    const path: string

    /** The file holds exactly the snapshot. */
    predicate Synced()
      reads this, disk
    {
      path in disk.files && disk.files[path] == Store(schema)
    }

    /** `new Database()`: reads the file. */
    constructor(disk: Disk, path: string)
      ensures this.disk == disk && this.path == path
      ensures schema == Load(FileAt(disk.files, path))
    {
      this.disk := disk;
      this.path := path;
      schema := Load(FileAt(disk.files, path));
    }

    /** `reload()`: reading right after a write gives the same snapshot back. */
    method Reload()
      modifies this
      ensures schema == Load(FileAt(disk.files, path))
      ensures old(Synced()) ==> schema == old(schema)
    {
      schema := Load(FileAt(disk.files, path));
      LoadStore(old(schema));
    }

    /** `flush()`: overwrites the file with the snapshot, and no other file. */
    method Flush()
      modifies disk
      ensures disk.files == old(disk.files)[path := Store(schema)]
      ensures Synced()
    {
      disk.files := disk.files[path := Store(schema)];
    }

    function Users(): seq<User> reads this { schema.users }
    function Products(): seq<Product> reads this { schema.products }
    function Subscriptions(): seq<Subscription> reads this { schema.subscriptions }
    function Threads(): seq<Thread> reads this { schema.threads }
    function AuditLogs(): seq<AuditLog> reads this { schema.auditLogs }
    function KnowledgeBase(): seq<Document> reads this { schema.knowledgeBase }
    function AnalyticsEvents(): seq<AnalyticsEvent> reads this { schema.analyticsEvents }
    function VoiceSessions(): seq<VoiceSession> reads this { schema.voiceSessions }

    function Messages(threadId: Option<string>): seq<Message> reads this {
      MessagesFor(schema.messages, threadId)
    }

    method UpsertUser(d: UserDraft, random: Entropy) returns (u: User)
      modifies this, disk
      ensures (schema.users, u) == UpsertUsers(old(schema.users), d, random)
      ensures schema == old(schema).(users := schema.users)
      ensures disk.files == old(disk.files)[path := Store(schema)]
    {
      var i := LookupIndex(schema.users, d.id, UserId, UserEmail, d.email);
      if i >= 0 {
        u := MergeUser(schema.users[i], d);
        schema := schema.(users := schema.users[i := u]);
      } else {
        u := NewUser(d, random);
        schema := schema.(users := schema.users + [u]);
      }
      Flush();
    }

    method UpsertProduct(d: ProductDraft, random: Entropy) returns (p: Product)
      modifies this, disk
      ensures (schema.products, p) == UpsertProducts(old(schema.products), d, random)
      ensures schema == old(schema).(products := schema.products)
      ensures disk.files == old(disk.files)[path := Store(schema)]
    {
      var i := LookupIndex(schema.products, d.id, ProductId, ProductName, d.name);
      if i >= 0 {
        p := MergeProduct(schema.products[i], d);
        schema := schema.(products := schema.products[i := p]);
      } else {
        p := NewProduct(d, random);
        schema := schema.(products := schema.products + [p]);
      }
      Flush();
    }

    method UpsertSubscription(d: SubscriptionDraft, random: Entropy) returns (s: Subscription)
      modifies this, disk
      ensures (schema.subscriptions, s) == UpsertSubscriptions(old(schema.subscriptions), d, random)
      ensures schema == old(schema).(subscriptions := schema.subscriptions)
      ensures disk.files == old(disk.files)[path := Store(schema)]
    {
      var i := LookupIndex(schema.subscriptions, d.id, SubscriptionId, SubscriptionUser, d.userId);
      if i >= 0 {
        s := MergeSubscription(schema.subscriptions[i], d);
        schema := schema.(subscriptions := schema.subscriptions[i := s]);
      } else {
        s := NewSubscription(d, random);
        schema := schema.(subscriptions := schema.subscriptions + [s]);
      }
      Flush();
    }

    method UpsertThread(d: ThreadDraft, random: Entropy, now: string) returns (t: Thread)
      modifies this, disk
      ensures (schema.threads, t) == UpsertThreads(old(schema.threads), d, random, now)
      ensures schema == old(schema).(threads := schema.threads)
      ensures disk.files == old(disk.files)[path := Store(schema)]
    {
      var i := LookupIndex(schema.threads, d.id, ThreadId, ThreadTitle, d.title);
      if i >= 0 {
        t := MergeThread(schema.threads[i], d);
        schema := schema.(threads := schema.threads[i := t]);
      } else {
        t := NewThread(d, random, now);
        schema := schema.(threads := schema.threads + [t]);
      }
      Flush();
    }

    method UpsertKnowledgeBaseDocument(d: DocumentDraft, random: Entropy, now: string) returns (doc: Document)
      modifies this, disk
      ensures (schema.knowledgeBase, doc) == UpsertDocuments(old(schema.knowledgeBase), d, random, now)
      ensures schema == old(schema).(knowledgeBase := schema.knowledgeBase)
      ensures disk.files == old(disk.files)[path := Store(schema)]
    {
      var i := LookupIndex(schema.knowledgeBase, d.id, DocumentId, DocumentSlug, d.slug);
      if i >= 0 {
        doc := MergeDocument(schema.knowledgeBase[i], d, now);
        schema := schema.(knowledgeBase := schema.knowledgeBase[i := doc]);
      } else {
        doc := NewDocument(d, random, now);
        schema := schema.(knowledgeBase := schema.knowledgeBase + [doc]);
      }
      Flush();
    }

    method AddMessage(d: MessageDraft, random: Entropy, now: string) returns (m: Message)
      modifies this, disk
      ensures m == NewMessage(d, random, now)
      ensures schema == old(schema).(messages := old(schema.messages) + [m])
      ensures disk.files == old(disk.files)[path := Store(schema)]
    {
      m := NewMessage(d, random, now);
      schema := schema.(messages := schema.messages + [m]);
      Flush();
    }

    method AddAuditLog(d: AuditLogDraft, random: Entropy, now: string) returns (entry: AuditLog)
      modifies this, disk
      ensures entry == NewAuditLog(d, random, now)
      ensures schema == old(schema).(auditLogs := old(schema.auditLogs) + [entry])
      ensures disk.files == old(disk.files)[path := Store(schema)]
    {
      entry := NewAuditLog(d, random, now);
      schema := schema.(auditLogs := schema.auditLogs + [entry]);
      Flush();
    }

    method AddAnalyticsEvent(d: AnalyticsEventDraft, random: Entropy, now: string) returns (e: AnalyticsEvent)
      modifies this, disk
      ensures e == NewAnalyticsEvent(d, random, now)
      ensures schema == old(schema).(analyticsEvents := old(schema.analyticsEvents) + [e])
      ensures disk.files == old(disk.files)[path := Store(schema)]
    {
      e := NewAnalyticsEvent(d, random, now);
      schema := schema.(analyticsEvents := schema.analyticsEvents + [e]);
      Flush();
    }

    method AddVoiceSession(d: VoiceSessionDraft, random: Entropy, now: string) returns (v: VoiceSession)
      modifies this, disk
      ensures v == NewVoiceSession(d, random, now)
      ensures schema == old(schema).(voiceSessions := old(schema.voiceSessions) + [v])
      ensures disk.files == old(disk.files)[path := Store(schema)]
    {
      v := NewVoiceSession(d, random, now);
      schema := schema.(voiceSessions := schema.voiceSessions + [v]);
      Flush();
    }
  }

  /** The module-level `singleton` handle and the functions around it, for the data
      file at `path`. */
  class Registry {
    var singleton: Option<Database>
    const disk: Disk
    const path: string

    constructor(disk: Disk, root: string, databaseFile: string)
      ensures singleton.None? && this.disk == disk && path == ResolveDatabasePath(root, databaseFile)
    {
      singleton := None;
      this.disk := disk;
      path := ResolveDatabasePath(root, databaseFile);
    }

    /** `getDatabase()`: the same handle every time until `resetDatabase()`; a fresh
        one, reading the file, after it. */
    method GetDatabase() returns (db: Database)
      modifies this
      ensures old(singleton).Some? ==> db == old(singleton).value && singleton == old(singleton)
      ensures old(singleton).None? ==>
        && fresh(db) && singleton == Some(db) && db.disk == disk && db.path == path
        && db.schema == Load(FileAt(disk.files, path))
    {
      if singleton.None? {
        var d := new Database(disk, path);
        singleton := Some(d);
      }
      db := singleton.value;
    }

    method ResetDatabase()
      modifies this
      ensures singleton.None?
    {
      singleton := None;
    }

    /** `initializeDatabase()`: writes the empty snapshot only when there is no file. */
    method InitializeDatabase()
      modifies disk
      ensures path in old(disk.files) ==> disk.files == old(disk.files)
      ensures path !in old(disk.files) ==> disk.files == old(disk.files)[path := Store(EmptySchema())]
    {
      if path !in disk.files {
        disk.files := disk.files[path := Store(EmptySchema())];
      }
    }
  }
}
