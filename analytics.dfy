/** packages/analytics: recording an event in the store, and the ten newest events. */
module Analytics {
  import opened Wrappers
  import opened JsString
  import opened Json
  import opened Utils
  import opened DbRecords
  import opened Db

  /** `trackEvent({ name, payload, userId })`: `random` are the event id's random
      bytes, `now` the clock. */
  method TrackEvent(db: Database, name: string, payload: map<string, Json>, userId: Option<string>,
                    random: Entropy, now: string)
    returns (e: AnalyticsEvent)
    modifies db, db.disk
    ensures e == AnalyticsEvent(CreateId(Evt, random), name, payload, now, userId)
    ensures db.schema == old(db.schema).(analyticsEvents := old(db.schema.analyticsEvents) + [e])
    ensures db.disk.files == old(db.disk.files)[db.path := Store(db.schema)]
  {
    e := db.AddAnalyticsEvent(AnalyticsEventDraft(Some(CreateId(Evt, random)), name, payload, None, userId), random, now);
  }

  /** `listAnalyticsEvents()`: the last ten events, newest first. */
  function ListAnalyticsEvents(events: seq<AnalyticsEvent>): (r: seq<AnalyticsEvent>)
    ensures |r| == (if |events| < 10 then |events| else 10)
    ensures forall k :: 0 <= k < |r| ==> r[k] == events[|events| - 1 - k]
  {
    Reverse(LastAtMost(events, 10))
  }

  /** The event just tracked heads the list, followed by the nine before it. */
  lemma TrackedEventFirst(events: seq<AnalyticsEvent>, e: AnalyticsEvent)
    ensures var after := ListAnalyticsEvents(events + [e]);
      && after[0] == e
      && after[1..] == ListAnalyticsEvents(events)[..|after| - 1]
  {
    NewestFirstSnoc(events, e, 10);
  }
}
