/** packages/db as written reads a missing data file as the module-level
    `DEFAULT_SCHEMA` object itself, and a file without some collection key as a
    spread that keeps `DEFAULT_SCHEMA`'s array for that key. Later `push`es into such
    a collection grow the shared default array, so the "empty" defaults stop being
    empty for the rest of the process. This module models that sharing on values;
    the rest of the model reads files with `DbRecords.Load`, which copies. */
module DbAliasing {
  import opened Wrappers
  import opened DbRecords

  datatype Collection =
    | Users | Products | Subscriptions | Threads | Messages | AuditLogs | KnowledgeBase | VoiceSessions
    | AnalyticsEvents

  function AllCollections(): set<Collection> {
    {Users, Products, Subscriptions, Threads, Messages, AuditLogs, KnowledgeBase, VoiceSessions, AnalyticsEvents}
  }

  /** A process running the store as written: the current contents of the arrays
      `DEFAULT_SCHEMA` holds, the open database's snapshot, the collections whose
      array the two share, and the data file. */
  datatype Process = Process(defaults: Schema, schema: Schema, shared: set<Collection>, file: Option<FileContent>)

  function Missing<T>(c: Collection, field: Option<T>): set<Collection> {
    if field.None? then {c} else {}
  }

  /** `readSchema()` as written: the snapshot, and which of its collections are the
      default arrays themselves. */
  function ReadSchemaAsWritten(defaults: Schema, file: Option<FileContent>): (r: (Schema, set<Collection>))
    ensures file.None? ==> r == (defaults, AllCollections())
  {
    match file
    case None => (defaults, AllCollections())
    case Some(c) =>
      (Schema(c.users.GetOr(defaults.users), c.products.GetOr(defaults.products),
              c.subscriptions.GetOr(defaults.subscriptions), c.threads.GetOr(defaults.threads),
              c.messages.GetOr(defaults.messages), c.auditLogs.GetOr(defaults.auditLogs),
              c.knowledgeBase.GetOr(defaults.knowledgeBase), c.voiceSessions.GetOr(defaults.voiceSessions),
              c.analyticsEvents.GetOr(defaults.analyticsEvents), c.extras),
       Missing(Users, c.users) + Missing(Products, c.products) + Missing(Subscriptions, c.subscriptions)
       + Missing(Threads, c.threads) + Missing(Messages, c.messages) + Missing(AuditLogs, c.auditLogs)
       + Missing(KnowledgeBase, c.knowledgeBase) + Missing(VoiceSessions, c.voiceSessions)
       + Missing(AnalyticsEvents, c.analyticsEvents))
  }

  /** `new Database()` or `reload()` as written. */
  function ReloadAsWritten(p: Process): (r: Process)
    ensures r.defaults == p.defaults && r.file == p.file
    ensures p.file.None? ==> r.schema == p.defaults && r.shared == AllCollections()
    ensures p.file.Some? && p.file.value.messages.None? ==> r.schema.messages == p.defaults.messages && Messages in r.shared
  {
    var (s, shared) := ReadSchemaAsWritten(p.defaults, p.file);
    p.(schema := s, shared := shared)
  }

  /** `addMessage` as written: the push lands in the default array too when the
      messages array is shared, and the snapshot is written to the file. */
  function AddMessageAsWritten(p: Process, m: Message): (r: Process)
    ensures r.schema == p.schema.(messages := p.schema.messages + [m]) && r.shared == p.shared
    ensures Messages in p.shared ==> r.defaults.messages == r.schema.messages
    ensures Messages !in p.shared ==> r.defaults == p.defaults
    ensures r.file == Some(Store(r.schema))
  {
    var s := p.schema.(messages := p.schema.messages + [m]);
    p.(schema := s,
       defaults := if Messages in p.shared then p.defaults.(messages := s.messages) else p.defaults,
       file := Some(Store(s)))
  }

  /** `initializeDatabase()` as written: writes whatever `DEFAULT_SCHEMA` holds now. */
  function InitializeAsWritten(p: Process): (r: Process)
    ensures p.file.Some? ==> r == p
    ensures p.file.None? ==> r == p.(file := Some(Store(p.defaults)))
  {
    if p.file.None? then p.(file := Some(Store(p.defaults))) else p
  }

  /** A message added while no data file existed survives the deletion of the file:
      reloading, or initializing a new file, brings it back instead of starting
      empty as the copying `Load` does. */
  lemma DeletedFileComesBack(m: Message)
    ensures var started := ReloadAsWritten(Process(EmptySchema(), EmptySchema(), {}, None));
      var added := AddMessageAsWritten(started, m);
      var deleted := added.(file := None);
      && ReloadAsWritten(deleted).schema.messages == [m]
      && InitializeAsWritten(deleted).file == Some(Store(EmptySchema().(messages := [m])))
      && Load(deleted.file) == EmptySchema()
  {
  }

  /** The same happens when the file exists but lacks the `messages` key: the
      messages pushed afterwards become the default for the next file that lacks it. */
  lemma MissingKeySharesDefault(c: FileContent, m: Message, other: FileContent)
    requires c.messages.None? && other.messages.None?
    ensures var started := ReloadAsWritten(Process(EmptySchema(), EmptySchema(), {}, Some(c)));
      var added := AddMessageAsWritten(started, m);
      && ReloadAsWritten(added.(file := Some(other))).schema.messages == [m]
      && Load(Some(other)).messages == []
  {
  }
}
