/** How long a rotation takes when every call succeeds and adds are not refused. */
module Liveness {
  import opened Prelude
  import opened Config
  import opened Expiry
  import opened Tlsa
  import opened Protocol

  /** What one certificate's next run depends on. */
  datatype View = View(leaf: Option<Leaf>, entry: Option<PendingRotation>, keyFile: Option<Key>)

  function ViewOf(d: Durable, pending: PendingMap, cert: Certificate): View {
    var path := PendingPath(cert.name);
    View(if cert.certPath in d.certs then Some(d.certs[cert.certPath]) else None,
         if cert.name in pending then Some(pending[cert.name]) else None,
         if path in d.pendingKeys then Some(d.pendingKeys[path]) else None)
  }

  /** One unforced, undisturbed run of a certificate that rotates with pre-publication, whose
      two clock readings are `ttlAt` and `dueAt`. */
  predicate RunStep(cert: Certificate, v: View, ttlAt: Instant, dueAt: Instant, u: View) {
    if v.entry.Some? && !TtlExpired(v.entry.value.publishedAt, v.entry.value.oldTtl, ttlAt) then u == v
    else if v.leaf.Some? && !ExpiresWithinDays(v.leaf.value.notAfter, dueAt, cert.renewBeforeDays) then u == v
    else if v.entry.Some? then
      v.keyFile.Some? ==> u.entry.None? && u.leaf.Some? && u.leaf.value.spki == v.keyFile.value.spki
    else
      && u.leaf == v.leaf && u.keyFile.Some? && u.entry.Some?
      && u.entry.value.keyPath == PendingPath(cert.name)
      && u.entry.value.oldTtl == MaxTtl(cert.dane) && dueAt <= u.entry.value.publishedAt
  }

  /** A series of runs: the n-th takes `views[n]` to `views[n + 1]`. */
  datatype Schedule = Schedule(views: seq<View>, ttlAt: seq<Instant>, dueAt: seq<Instant>)
  {
    predicate Shaped() {
      |views| == |ttlAt| + 1 && |dueAt| == |ttlAt|
    }
  }

  /** Run `n` is undisturbed, and a pre-publishing run stamps its entry at most `e` after it found
      the certificate due. */
  predicate Undisturbed(cert: Certificate, s: Schedule, e: nat, n: nat)
    requires s.Shaped() && n < |s.ttlAt|
  {
    && s.ttlAt[n] <= s.dueAt[n]
    && RunStep(cert, s.views[n], s.ttlAt[n], s.dueAt[n], s.views[n + 1])
    && (s.views[n].entry.None? && s.views[n + 1].entry.Some? ==>
          s.views[n + 1].entry.value.publishedAt <= s.dueAt[n] + e)
  }

  /** Run `n` reads the clock after the run before it, and at most `gap` after. */
  predicate Spaced(s: Schedule, gap: nat, n: nat)
    requires s.Shaped() && 0 < n < |s.ttlAt|
  {
    s.dueAt[n - 1] <= s.ttlAt[n] && s.dueAt[n] - s.ttlAt[n - 1] <= gap
  }

  predicate Timely(cert: Certificate, s: Schedule, gap: nat, e: nat) {
    && s.Shaped()
    && (forall n :: 0 <= n < |s.ttlAt| ==> Undisturbed(cert, s, e, n))
    && (forall n :: 0 < n < |s.ttlAt| ==> Spaced(s, gap, n))
  }

  /** The time left when a certificate becomes due. */
  function DueMargin(cert: Certificate): int {
    (cert.renewBeforeDays * DAY + HALF_DAY) * NANOS
  }

  /** A certificate is due exactly while less than that is left. */
  lemma MarginExactly(cert: Certificate, notAfter: Instant, at: Instant)
    ensures ExpiresWithinDays(notAfter, at, cert.renewBeforeDays) <==> notAfter - at < DueMargin(cert)
  {
    DueExactly(notAfter, at, cert.renewBeforeDays);
  }

  /** The certificate is due at run `n`, or there is none. */
  predicate DueAtRun(cert: Certificate, s: Schedule, leaf: Option<Leaf>, n: nat)
    requires n < |s.dueAt|
  {
    leaf.Some? ==> ExpiresWithinDays(leaf.value.notAfter, s.dueAt[n], cert.renewBeforeDays)
  }

  /** An instant by which a run has found the certificate due: the first run if that does, else one
      gap after it becomes due. */
  function DueBy(cert: Certificate, s: Schedule, leaf: Option<Leaf>, gap: nat): Instant
    requires |s.dueAt| > 0
  {
    if DueAtRun(cert, s, leaf, 0) then s.dueAt[0] else leaf.value.notAfter - DueMargin(cert) + gap
  }

  lemma {:induction false} TimesGrow(cert: Certificate, s: Schedule, gap: nat, e: nat, m: nat, n: nat)
    requires Timely(cert, s, gap, e) && m <= n < |s.ttlAt|
    ensures s.ttlAt[m] <= s.ttlAt[n] && s.dueAt[m] <= s.dueAt[n]
    decreases n - m
  {
    if m < n {
      TimesGrow(cert, s, gap, e, m, n - 1);
      assert Spaced(s, gap, n) && Undisturbed(cert, s, e, n) && Undisturbed(cert, s, e, n - 1);
    }
  }

  lemma DueAfter(cert: Certificate, s: Schedule, gap: nat, e: nat, leaf: Option<Leaf>, m: nat, n: nat)
    requires Timely(cert, s, gap, e) && m <= n < |s.ttlAt| && DueAtRun(cert, s, leaf, m)
    ensures DueAtRun(cert, s, leaf, n)
  {
    if leaf.Some? {
      TimesGrow(cert, s, gap, e, m, n);
      DueStays(leaf.value.notAfter, s.dueAt[m], s.dueAt[n], cert.renewBeforeDays);
    }
  }

  /** If the certificate was not due at the run before, run `n` is in time. */
  lemma DueOneGapLater(cert: Certificate, s: Schedule, gap: nat, e: nat, leaf: Option<Leaf>, n: nat)
    requires Timely(cert, s, gap, e) && 0 < n < |s.ttlAt| && !DueAtRun(cert, s, leaf, n - 1)
    ensures s.dueAt[n] <= DueBy(cert, s, leaf, gap)
  {
    if DueAtRun(cert, s, leaf, 0) {
      DueAfter(cert, s, gap, e, leaf, 0, n - 1);
    }
    assert Undisturbed(cert, s, e, n - 1) && Spaced(s, gap, n);
    MarginExactly(cert, leaf.value.notAfter, s.dueAt[n - 1]);
  }

  /** A run after that time finds it due. */
  lemma DueInTheEnd(cert: Certificate, s: Schedule, gap: nat, e: nat, leaf: Option<Leaf>, n: nat)
    requires Timely(cert, s, gap, e) && n < |s.ttlAt| && s.ttlAt[n] > DueBy(cert, s, leaf, gap)
    ensures DueAtRun(cert, s, leaf, n)
  {
    assert Undisturbed(cert, s, e, n);
    if DueAtRun(cert, s, leaf, 0) {
      DueAfter(cert, s, gap, e, leaf, 0, n);
    } else {
      MarginExactly(cert, leaf.value.notAfter, s.dueAt[n]);
    }
  }

  /** An entry whose TTL has passed at run `n`. */
  predicate ExpiredAtRun(s: Schedule, p: PendingRotation, n: nat)
    requires n < |s.ttlAt|
  {
    TtlExpired(p.publishedAt, p.oldTtl, s.ttlAt[n])
  }

  /** Run `n` acts on the certificate. */
  predicate ActsAtRun(cert: Certificate, s: Schedule, leaf: Option<Leaf>, entry: Option<PendingRotation>, n: nat)
    requires s.Shaped() && n < |s.ttlAt|
  {
    (entry.Some? ==> ExpiredAtRun(s, entry.value, n)) && DueAtRun(cert, s, leaf, n)
  }

  /** The first run from `from` on that acts. */
  lemma FirstActing(cert: Certificate, s: Schedule, leaf: Option<Leaf>, entry: Option<PendingRotation>, from: nat,
                    bound: nat) returns (n: nat)
    requires s.Shaped() && from <= bound < |s.ttlAt| && ActsAtRun(cert, s, leaf, entry, bound)
    ensures from <= n <= bound && ActsAtRun(cert, s, leaf, entry, n)
    ensures forall k: nat :: from <= k < n ==> !ActsAtRun(cert, s, leaf, entry, k)
  {
    n := from;
    while !ActsAtRun(cert, s, leaf, entry, n)
      invariant from <= n <= bound
      invariant forall k: nat :: from <= k < n ==> !ActsAtRun(cert, s, leaf, entry, k)
      decreases bound - n
    {
      n := n + 1;
    }
  }

  /** Nothing happens to a certificate before the first run that acts on it. */
  lemma {:induction false} QuietUntilActing(cert: Certificate, s: Schedule, gap: nat, e: nat, from: nat, n: nat)
    requires Timely(cert, s, gap, e) && from <= n <= |s.ttlAt|
    requires forall k: nat :: from <= k < n ==> !ActsAtRun(cert, s, s.views[from].leaf, s.views[from].entry, k)
    ensures s.views[n] == s.views[from]
    decreases n - from
  {
    if from < n {
      QuietUntilActing(cert, s, gap, e, from, n - 1);
      assert !ActsAtRun(cert, s, s.views[from].leaf, s.views[from].entry, n - 1) && Undisturbed(cert, s, e, n - 1);
    }
  }

  /** The first due run pre-publishes: at once for a certificate that is due already, or issued for
      the first time, else no more than one gap into the renewal margin. */
  lemma PrePublishedInTime(cert: Certificate, s: Schedule, gap: nat, e: nat) returns (m: nat)
    requires Timely(cert, s, gap, e) && |s.ttlAt| > 0 && s.views[0].entry.None?
    requires s.ttlAt[|s.ttlAt| - 1] > DueBy(cert, s, s.views[0].leaf, gap)
    ensures m < |s.ttlAt| - 1 && forall k: nat :: k <= m ==> s.views[k] == s.views[0]
    ensures DueAtRun(cert, s, s.views[0].leaf, m) && s.dueAt[m] <= DueBy(cert, s, s.views[0].leaf, gap)
    ensures s.views[m + 1].leaf == s.views[0].leaf && s.views[m + 1].keyFile.Some? && s.views[m + 1].entry.Some?
    ensures var p := s.views[m + 1].entry.value;
            p.oldTtl == MaxTtl(cert.dane) && s.dueAt[m] <= p.publishedAt <= s.dueAt[m] + e
  {
    var leaf, last := s.views[0].leaf, |s.ttlAt| - 1;
    DueInTheEnd(cert, s, gap, e, leaf, last);
    m := FirstActing(cert, s, leaf, None, 0, last);
    forall k: nat | k <= m ensures s.views[k] == s.views[0] {
      QuietUntilActing(cert, s, gap, e, 0, k);
    }
    if m > 0 {
      assert !ActsAtRun(cert, s, leaf, None, m - 1);
      DueOneGapLater(cert, s, gap, e, leaf, m);
    }
    assert Undisturbed(cert, s, e, m) && Undisturbed(cert, s, e, last);
  }

  /** A saved entry is finished by the first run that finds its TTL passed and the certificate due,
      and no later than one gap after both became so: then the certificate is for the key in the
      entry's file, and the entry is gone. */
  lemma EntryFinishedInTime(cert: Certificate, s: Schedule, gap: nat, e: nat, from: nat, p: PendingRotation, key: Key)
    returns (n: nat)
    requires Timely(cert, s, gap, e) && from < |s.ttlAt|
    requires s.views[from].entry == Some(p) && s.views[from].keyFile == Some(key)
    requires s.ttlAt[|s.ttlAt| - 1] >= p.publishedAt + p.oldTtl * NANOS
    requires s.ttlAt[|s.ttlAt| - 1] > DueBy(cert, s, s.views[from].leaf, gap)
    ensures from <= n < |s.ttlAt| && forall k: nat :: from <= k <= n ==> s.views[k] == s.views[from]
    ensures ActsAtRun(cert, s, s.views[from].leaf, Some(p), n)
    ensures forall k: nat :: from <= k < n ==> !ActsAtRun(cert, s, s.views[from].leaf, Some(p), k)
    ensures s.views[n + 1].entry.None? && s.views[n + 1].leaf.Some? && s.views[n + 1].leaf.value.spki == key.spki
    ensures || n == from || s.dueAt[n] <= p.publishedAt + p.oldTtl * NANOS + gap
            || s.dueAt[n] <= DueBy(cert, s, s.views[from].leaf, gap)
  {
    var leaf, last := s.views[from].leaf, |s.ttlAt| - 1;
    TtlExpiredExactly(p.publishedAt, p.oldTtl, s.ttlAt[last]);
    DueInTheEnd(cert, s, gap, e, leaf, last);
    n := FirstActing(cert, s, leaf, Some(p), from, last);
    forall k: nat | from <= k <= n ensures s.views[k] == s.views[from] {
      QuietUntilActing(cert, s, gap, e, from, k);
    }
    assert Undisturbed(cert, s, e, n);
    if n > from {
      assert !ActsAtRun(cert, s, leaf, Some(p), n - 1) && Undisturbed(cert, s, e, n - 1) && Spaced(s, gap, n);
      if DueAtRun(cert, s, leaf, n - 1) {
        TtlExpiredExactly(p.publishedAt, p.oldTtl, s.ttlAt[n - 1]);
      } else {
        DueOneGapLater(cert, s, gap, e, leaf, n);
      }
    }
  }

  /** Bounded-time rotation, whatever it begins with: a certificate that is not due yet, one that is
      due already, or none at all. With no rotation under way it is pre-published by some run m and
      (re)issued by a later run n with exactly the pre-published key, no later than the publication
      time, the waiting time and a gap after it was found due. Of a certificate first seen not due,
      at least the renewal margin minus two gaps, the waiting time and the publication time is then
      left. */
  lemma RotationCompletesInTime(cert: Certificate, s: Schedule, gap: nat, e: nat) returns (m: nat, n: nat)
    requires Timely(cert, s, gap, e) && |s.ttlAt| > 0 && s.views[0].entry.None?
    requires s.ttlAt[|s.ttlAt| - 1] > DueBy(cert, s, s.views[0].leaf, gap) + e + MaxTtl(cert.dane) * NANOS
    ensures m < n < |s.ttlAt| && s.views[m].entry.None? && s.views[m + 1].entry.Some? && s.views[m + 1].keyFile.Some?
    ensures forall k: nat :: k <= n ==> s.views[k].leaf == s.views[0].leaf
    ensures s.views[n + 1].entry.None? && s.views[n + 1].leaf.Some?
    ensures s.views[n + 1].leaf.value.spki == s.views[m + 1].keyFile.value.spki
    ensures s.dueAt[n] <= DueBy(cert, s, s.views[0].leaf, gap) + e + MaxTtl(cert.dane) * NANOS + gap
    ensures !DueAtRun(cert, s, s.views[0].leaf, 0) ==>
              s.views[0].leaf.value.notAfter - s.dueAt[n]
              >= DueMargin(cert) - 2 * gap - MaxTtl(cert.dane) * NANOS - e
  {
    m := PrePublishedInTime(cert, s, gap, e);
    var v := s.views[m + 1];
    n := EntryFinishedInTime(cert, s, gap, e, m + 1, v.entry.value, v.keyFile.value);
    assert Spaced(s, gap, m + 1) && Undisturbed(cert, s, e, m);
  }
}
