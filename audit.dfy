/** The in-memory audit log (`AuditService`): newest-first entries for compliance checks
    and publish attempts, queries over them, and the bounded snapshot written to the
    browser's storage after every entry. */
module Audit {
  import opened Js
  import opened Text
  import opened Seqs

  datatype AuditAction = ComplianceCheck | PublishAttempt | PublishSuccess | PublishFailure

  /** One entry. `timestamp` is the clock reading the entry was made at. */
  datatype AuditLogEntry = AuditLogEntry(
    id: string,
    timestamp: int,
    article_id: int,
    feed_id: int,
    action: AuditAction,
    result: JsValue,
    metadata: JsValue)

  /** How many entries the stored snapshot keeps. */
  const SnapshotSize := 1000

  /** How many entries `getAuditLog` returns when no limit is given. */
  const DefaultLimit := 100

  /** An entry id: `audit-`, the clock in milliseconds, `-`, and a random suffix. */
  function AuditEntryId(now: nat, suffix: string): (r: string)
    ensures |r| > 7 && r[..6] == "audit-"
  {
    "audit-" + NatToString(now) + "-" + suffix
  }

  /** Equal ids come from the same clock reading, whatever the random suffixes: entries
      made at different times never share an id. */
  lemma AuditEntryIdClock(now1: nat, s1: string, now2: nat, s2: string)
    requires AuditEntryId(now1, s1) == AuditEntryId(now2, s2)
    ensures now1 == now2
  {
    StampNumberInjective("audit-", now1, s1, now2, s2);
  }

  /** `auditLog.slice(0, 1000)`: the newest entries, at most 1000 of them. */
  function Snapshot(log: seq<AuditLogEntry>): (r: seq<AuditLogEntry>)
    ensures |r| == if |log| < SnapshotSize then |log| else SnapshotSize
    ensures r == log[..|r|]
  {
    log[..SliceEnd(|log|, SnapshotSize)]
  }

  /** A new entry enters the snapshot in front, pushing its oldest entry out once the
      snapshot is full. */
  lemma SnapshotAfterLog(e: AuditLogEntry, log: seq<AuditLogEntry>)
    ensures Snapshot([e] + log) == if |log| < SnapshotSize then [e] + Snapshot(log) else [e] + log[..SnapshotSize - 1]
  {
    var l := [e] + log;
    if |log| < SnapshotSize {
      assert l[..|l|] == l;
    } else {
      assert l[..SnapshotSize] == [e] + log[..SnapshotSize - 1];
    }
  }

  /** The entries about an article, in log order. */
  function ForArticle(log: seq<AuditLogEntry>, articleId: int): (r: seq<AuditLogEntry>)
    ensures forall e :: e in r <==> e in log && e.article_id == articleId
  {
    FilterMembers(log, (e: AuditLogEntry) => e.article_id == articleId);
    Filter(log, (e: AuditLogEntry) => e.article_id == articleId)
  }

  /** The entries about a feed, in log order. */
  function ForFeed(log: seq<AuditLogEntry>, feedId: int): (r: seq<AuditLogEntry>)
    ensures forall e :: e in r <==> e in log && e.feed_id == feedId
  {
    FilterMembers(log, (e: AuditLogEntry) => e.feed_id == feedId);
    Filter(log, (e: AuditLogEntry) => e.feed_id == feedId)
  }

  /** A new entry heads the article and feed queries it matches, and leaves the others
      as they were. */
  lemma QueriesAfterLog(e: AuditLogEntry, log: seq<AuditLogEntry>, articleId: int, feedId: int)
    ensures ForArticle([e] + log, articleId) == (if e.article_id == articleId then [e] else []) + ForArticle(log, articleId)
    ensures ForFeed([e] + log, feedId) == (if e.feed_id == feedId then [e] else []) + ForFeed(log, feedId)
  {
    FilterPrepend(e, log, (x: AuditLogEntry) => x.article_id == articleId);
    FilterPrepend(e, log, (x: AuditLogEntry) => x.feed_id == feedId);
  }

  /** The action a publish attempt records. */
  function PublishAction(success: bool): (a: AuditAction)
    ensures a == PublishSuccess <==> success
    ensures a == PublishFailure <==> !success
  {
    if success then PublishSuccess else PublishFailure
  }

  class AuditService {
    /** The log, newest entry first. */
    var auditLog: seq<AuditLogEntry>
    /** The snapshot last written to storage; `None` when storage holds none. */
    var persisted: Option<seq<AuditLogEntry>>

    /** Starts from the log found in storage (`None` when there is none or it does not
        parse) and leaves storage as it is. */
    constructor (loaded: Option<seq<AuditLogEntry>>)
      ensures auditLog == if loaded.Some? then loaded.value else []
      ensures persisted == loaded
    {
      auditLog := if loaded.Some? then loaded.value else [];
      persisted := loaded;
    }

    /** `persistAuditLog`. */
    method Persist()
      modifies this
      ensures persisted == Some(Snapshot(auditLog)) && auditLog == old(auditLog)
    {
      persisted := Some(Snapshot(auditLog));
    }

    /** Puts an entry in front, persists, and answers the entry's id. */
    method Record(entry: AuditLogEntry) returns (entryId: string)
      modifies this
      ensures auditLog == [entry] + old(auditLog)
      ensures persisted == Some(Snapshot(auditLog))
      ensures entryId == entry.id
    {
      auditLog := [entry] + auditLog;
      Persist();
      entryId := entry.id;
    }

    /** `logComplianceCheck`: the clock reading and the random suffix are parameters. */
    method LogComplianceCheck(articleId: int, feedId: int, result: JsValue, metadata: JsValue, now: nat, suffix: string)
      returns (entryId: string)
      modifies this
      ensures entryId == AuditEntryId(now, suffix)
      ensures auditLog == [AuditLogEntry(entryId, now, articleId, feedId, ComplianceCheck, result, metadata)] + old(auditLog)
      ensures persisted == Some(Snapshot(auditLog))
    {
      var entry := AuditLogEntry(AuditEntryId(now, suffix), now, articleId, feedId, ComplianceCheck, result, metadata);
      entryId := Record(entry);
    }

    /** `logPublishAttempt`: records `publish_success` or `publish_failure`. */
    method LogPublishAttempt(articleId: int, feedId: int, success: bool, result: JsValue, metadata: JsValue, now: nat, suffix: string)
      returns (entryId: string)
      modifies this
      ensures entryId == AuditEntryId(now, suffix)
      ensures auditLog == [AuditLogEntry(entryId, now, articleId, feedId, PublishAction(success), result, metadata)] + old(auditLog)
      ensures persisted == Some(Snapshot(auditLog))
    {
      var entry := AuditLogEntry(AuditEntryId(now, suffix), now, articleId, feedId, PublishAction(success), result, metadata);
      entryId := Record(entry);
    }

    /** `getAuditLog(limit)`: the newest `limit` entries (100 when no limit is given),
        with `slice`'s reading of a negative limit as counting from the back. */
    function GetAuditLog(limit: Option<int>): (r: seq<AuditLogEntry>)
      reads this
      ensures |r| <= |auditLog| && r == auditLog[..|r|]
      ensures limit.None? ==> |r| == if |auditLog| < DefaultLimit then |auditLog| else DefaultLimit
      ensures limit.Some? && limit.value >= 0 ==> |r| == if |auditLog| < limit.value then |auditLog| else limit.value
      ensures limit.Some? && limit.value < 0 ==> |r| == if |auditLog| + limit.value < 0 then 0 else |auditLog| + limit.value
    {
      auditLog[..SliceEnd(|auditLog|, if limit.Some? then limit.value else DefaultLimit)]
    }

    /** `getAuditLogForArticle`. */
    function GetAuditLogForArticle(articleId: int): seq<AuditLogEntry>
      reads this
    {
      ForArticle(auditLog, articleId)
    }

    /** `getAuditLogForFeed`. */
    function GetAuditLogForFeed(feedId: int): seq<AuditLogEntry>
      reads this
    {
      ForFeed(auditLog, feedId)
    }

    /** `clearAuditLog`: an empty log and no stored snapshot. */
    method ClearAuditLog()
      modifies this
      ensures auditLog == [] && persisted.None?
    {
      auditLog := [];
      persisted := None;
    }
  }

  /** Two log calls in a row: the later one is first, the earlier second, and the older
      entries follow unchanged. */
  method LogTwice(service: AuditService, articleId: int, feedId: int, result: JsValue, now: nat)
    modifies service
    ensures |service.auditLog| == |old(service.auditLog)| + 2
    ensures service.auditLog[0].action == PublishSuccess && service.auditLog[1].action == ComplianceCheck
    ensures service.auditLog[2..] == old(service.auditLog)
  {
    var first := service.LogComplianceCheck(articleId, feedId, result, Undefined, now, "a");
    var second := service.LogPublishAttempt(articleId, feedId, true, result, Undefined, now + 1, "b");
  }
}
