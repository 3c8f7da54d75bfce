/** The versions a TLSA RRset goes through, and what resolvers may still serve of them. */
module History {
  import opened Expiry
  import opened Tlsa

  /** The RRset at one name from `since` on, until the next version. */
  datatype Version = Version(since: Instant, rrset: set<Record>)

  /** All versions of one RRset, oldest first. Before the first there is no RRset. */
  type Log = seq<Version>

  function Current(log: Log): set<Record> {
    if log == [] then {} else log[|log| - 1].rrset
  }

  predicate Ordered(log: Log, now: Instant) {
    && (forall i, j :: 0 <= i <= j < |log| ==> log[i].since <= log[j].since)
    && (forall i :: 0 <= i < |log| ==> log[i].since <= now)
  }

  /** Version `i` may have been the answer to a query at instant `at`. An update and a query
      at one instant may be served in either order. */
  predicate ServedAt(log: Log, i: int, at: Instant)
    requires -1 <= i < |log| - 1
  {
    (i >= 0 ==> log[i].since <= at) && at <= log[i + 1].since
  }

  /** An answer some client may act on now: a fresh one, or one that a resolver fetched less
      than `ttl` nanoseconds ago and still caches. Index -1 stands for the empty RRset that
      precedes the first version. */
  ghost predicate Usable(log: Log, now: Instant, ttl: nat, answer: set<Record>) {
    || answer == Current(log)
    || exists i, at ::
         && -1 <= i < |log| - 1 && ServedAt(log, i, at) && at <= now < at + ttl
         && answer == if i < 0 then {} else log[i].rrset
  }

  predicate HeldFrom(log: Log, k: nat, r: Record) {
    forall i :: k <= i < |log| ==> r in log[i].rrset
  }

  /** The record has been in the RRset without interruption since an instant not after `since`. */
  predicate PresentSince(log: Log, r: Record, since: Instant) {
    exists k :: 0 <= k < |log| && log[k].since <= since && HeldFrom(log, k, r)
  }

  lemma PresentIsCurrent(log: Log, r: Record, since: Instant)
    requires PresentSince(log, r, since)
    ensures r in Current(log)
  {
  }

  lemma PresentAppend(log: Log, r: Record, since: Instant, v: Version)
    requires PresentSince(log, r, since) && r in v.rrset
    ensures PresentSince(log + [v], r, since)
  {
    var k :| 0 <= k < |log| && log[k].since <= since && HeldFrom(log, k, r);
    assert HeldFrom(log + [v], k, r);
  }

  lemma PresentFromNow(log: Log, r: Record, v: Version)
    requires r in v.rrset
    ensures PresentSince(log + [v], r, v.since)
  {
    assert HeldFrom(log + [v], |log|, r);
  }

  /** The last version that began no later than `since`. */
  lemma LastBefore(log: Log, since: Instant) returns (k: nat)
    requires log != [] && log[0].since <= since
    ensures k < |log| && log[k].since <= since
    ensures k + 1 < |log| ==> log[k + 1].since > since
  {
    k := 0;
    while k + 1 < |log| && log[k + 1].since <= since
      invariant k < |log| && log[k].since <= since
    {
      k := k + 1;
    }
  }

  lemma PresentCoversUsable(log: Log, r: Record, now: Instant, ttl: nat)
    requires Ordered(log, now) && PresentSince(log, r, now - ttl)
    ensures forall answer :: Usable(log, now, ttl, answer) ==> r in answer
  {
  }

  /** An RRset younger than the TTL may still be missing for some client. */
  lemma AbsenceUsable(log: Log, now: Instant, ttl: nat)
    requires Ordered(log, now) && log != [] && log[0].since > now - ttl
    ensures Usable(log, now, ttl, {})
  {
    assert ServedAt(log, -1, log[0].since);
  }

  lemma UsableNeedsPresent(log: Log, r: Record, now: Instant, ttl: nat)
    requires Ordered(log, now)
    requires forall answer :: Usable(log, now, ttl, answer) ==> r in answer
    ensures PresentSince(log, r, now - ttl)
  {
    assert Usable(log, now, ttl, Current(log));
    assert log != [];
    if log[0].since > now - ttl {
      AbsenceUsable(log, now, ttl);
      assert false;
    }
    var k := LastBefore(log, now - ttl);
    forall i | k <= i < |log| ensures r in log[i].rrset {
      if i + 1 < |log| {
        assert log[i + 1].since >= log[k + 1].since > now - ttl;
        assert ServedAt(log, i, log[i + 1].since);
        assert Usable(log, now, ttl, log[i].rrset);
      }
    }
    assert HeldFrom(log, k, r);
  }

  /** What the invariant says of a log is what matters to clients: every usable answer holds
      the record exactly when it has been present for a whole TTL. */
  lemma PresentMeansUsable(log: Log, r: Record, now: Instant, ttl: nat)
    requires Ordered(log, now)
    ensures PresentSince(log, r, now - ttl) <==> forall answer :: Usable(log, now, ttl, answer) ==> r in answer
  {
    if PresentSince(log, r, now - ttl) {
      PresentCoversUsable(log, r, now, ttl);
    }
    if forall answer :: Usable(log, now, ttl, answer) ==> r in answer {
      UsableNeedsPresent(log, r, now, ttl);
    }
  }
}
