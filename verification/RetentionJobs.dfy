/**
 What one retention sweep does to each job, from what the kernel says about its worker and from
 its own record (apps/server/src/autodispatch_materializer.ts:410-558), and what a sweep that
 throws has done by then.
 */
module RetentionJobs {
  import opened Options
  import opened Sequences
  import opened Retention

  /** The worker is gone for good: it consumed its grant, succeeded and was authorized, or was
      interrupted and is quiescent or had succeeded; and this is on record. */
  predicate WorkerGone(o: Outcome) {
    && o.recorded
    && ((o.consumed && o.succeeded && o.authorized) || (o.interrupted && (o.quiescent || o.succeeded)))
  }

  /** The sweep can read the job's record, and its stored materialization still matches. */
  predicate Bound(k: Evidence, name: Name) {
    name !in k.unread && name in k.ledger
  }

  predicate NeverLaunched(k: Evidence, name: Name) {
    Bound(k, name) && name in k.revokedNeverLaunched
  }

  predicate Over(k: Evidence, name: Name) {
    && Bound(k, name) && name !in k.revokedNeverLaunched
    && name in k.outcomes && WorkerGone(k.outcomes[name])
  }

  /** The record of a job whose small artifacts expire now. */
  function Tombstone(before: Record, now: int): Record {
    Record(ArtifactExpired, before.createdAt, before.cleanedAt, Some(now))
  }

  /** A prepared job whose grant was revoked before launch expires at once, copies and artifacts
      gone; one whose worker is gone loses its copies and is cleaned, or expires in the same
      sweep; any other is left as it is. */
  lemma SweepPrepared(k: Evidence, now: int, jobs: Jobs, entries: seq<Name>, name: Name)
    requires Lists(entries, jobs) && name in jobs && jobs[name].Job? && jobs[name].record.status == Prepared
    ensures name in Sweep(k, now, jobs, entries).jobs
    ensures var before, after := jobs[name], Sweep(k, now, jobs, entries).jobs[name];
            var r := before.record;
            if NeverLaunched(k, name) then after == Job(Tombstone(r, now), false, false)
            else if Over(k, name) then
              || after == Job(Record(Cleaned, r.createdAt, Some(now), r.expiredAt), false, before.runArtifacts)
              || after == Job(Tombstone(r, now), false, false)
            else after == before
  {
    SweepJob(k, now, jobs, entries, name);
    if Over(k, name) {
      SweepReleased(k, now, jobs, entries, name);
    }
  }

  /** A cleaned job that can be read keeps its record or expires, and does expire when it is older
      than the window; whatever else there is stays as it is. */
  lemma SweepCleaned(k: Evidence, now: int, jobs: Jobs, entries: seq<Name>, name: Name)
    requires Lists(entries, jobs) && name in jobs && (jobs[name].Job? ==> jobs[name].record.status != Prepared)
    ensures name in Sweep(k, now, jobs, entries).jobs
    ensures var before, after := jobs[name], Sweep(k, now, jobs, entries).jobs[name];
            if before.NoRecord? || before.record.status == ArtifactExpired || name in k.unread then after == before
            else
              || (after == before && now - before.record.createdAt <= RETENTION_MS)
              || after == Job(Tombstone(before.record, now), before.heavyCopies, false)
  {
    SweepJob(k, now, jobs, entries, name);
    if jobs[name].Job? && jobs[name].record.status == Cleaned && name !in k.unread {
      SweepReleased(k, now, jobs, entries, name);
    }
  }

  /** A job that is cleaned after the first loop is left by the second, or expires with the record
      the first loop read. */
  lemma SweepReleased(k: Evidence, now: int, jobs: Jobs, entries: seq<Name>, name: Name)
    requires Lists(entries, jobs) && name in jobs && name !in k.unread
    requires var v := Visited(k, now, name, jobs[name]); v.Job? && v.record.status == Cleaned
    ensures var v, after := Visited(k, now, name, jobs[name]), Sweep(k, now, jobs, entries).jobs;
            && name in after
            && ((after[name] == v && now - jobs[name].record.createdAt <= RETENTION_MS)
                || after[name] == Job(Tombstone(jobs[name].record, now), v.heavyCopies, false))
  {
    var first, sorted, i := ItemOf(k, now, jobs, entries, name);
    FirstPassRecords(k, now, jobs, entries);
    assert sorted[i] in sorted;
    SortByAgeSorts(first.items);
  }

  /** What the first loop collects is the record it read, as cleaned. */
  lemma {:induction false} FirstPassRecords(k: Evidence, now: int, jobs: Jobs, entries: seq<Name>)
    requires NoDuplicates(entries) && forall name :: name in entries ==> name in jobs
    ensures forall x :: x in FirstPass(k, now, jobs, entries).items ==>
              && x.name in jobs && jobs[x.name].Job? && x.name in entries
              && x.record == jobs[x.name].record.(status := Cleaned)
  {
    if entries != [] {
      var n := |entries| - 1;
      FirstPassRecords(k, now, jobs, entries[..n]);
      FirstPassJobs(k, now, jobs, entries[..n]);
      assert entries[n] !in entries[..n];
    }
  }

  // ----- the count -----

  /** The job is cleaned by the sweep or was before, and its record can be read. */
  predicate Countable(k: Evidence, jobs: Jobs, name: Name) {
    && name in jobs && jobs[name].Job? && name !in k.unread
    && (jobs[name].record.status == Cleaned || (jobs[name].record.status == Prepared && Over(k, name)))
  }

  lemma CountableIsCleaned(k: Evidence, now: int, jobs: Jobs, name: Name)
    requires name in jobs
    ensures Countable(k, jobs, name) <==>
            name !in k.unread && HasStatus(map[name := Visited(k, now, name, jobs[name])], name, Cleaned)
  {
  }

  lemma {:induction false} SecondPassRetains(now: int, p: Pass, sorted: seq<Item>, cap: nat)
    requires forall i :: cap <= i < |sorted| ==> now - sorted[i].record.createdAt <= RETENTION_MS
    ensures SecondPass(now, p, sorted, cap).summary.retained
            == p.summary.retained + if cap <= |sorted| then |sorted| - cap else 0
  {
    if sorted != [] {
      SecondPassRetains(now, p, sorted[..|sorted| - 1], cap);
    }
  }

  lemma FullCapRetained(k: Evidence, now: int, jobs: Jobs, entries: seq<Name>)
    requires Lists(entries, jobs)
    requires var first := FirstPass(k, now, jobs, entries);
             |first.items| > MAX_RETAINED &&
             forall j :: CapIndex(first.items) <= j < |SortByAge(first.items)| ==>
               now - SortByAge(first.items)[j].record.createdAt <= RETENTION_MS
    ensures Tally(Seen(k, Sweep(k, now, jobs, entries).jobs), entries, Cleaned) == MAX_RETAINED
  {
    var first, sorted := SecondPassDoes(k, now, jobs, entries);
    SecondPassRetains(now, first, sorted, CapIndex(first.items));
    FirstPassDoes(k, now, jobs, entries);
    SweepAccounts(k, now, jobs, entries);
    LiveIsTally(Seen(k, Sweep(k, now, jobs, entries).jobs), entries);
    SecondPassCounts(k, now, first, sorted, CapIndex(first.items), entries);
  }

  /** A job that is recent enough is expired only to make room: then the sweep leaves exactly the
      fixed count of cleaned jobs it could read. */
  lemma SweepExpiresOnlyOverflow(k: Evidence, now: int, jobs: Jobs, entries: seq<Name>, gone: Name)
    requires Lists(entries, jobs) && Countable(k, jobs, gone)
    requires now - jobs[gone].record.createdAt <= RETENTION_MS
    requires HasStatus(Sweep(k, now, jobs, entries).jobs, gone, ArtifactExpired)
    ensures |NamesWith(Seen(k, Sweep(k, now, jobs, entries).jobs), entries, Cleaned)| == MAX_RETAINED
  {
    CountableIsCleaned(k, now, jobs, gone);
    var first, sorted, i := ItemOf(k, now, jobs, entries, gone);
    assert i < CapIndex(first.items);
    forall j | CapIndex(first.items) <= j < |sorted| ensures now - sorted[j].record.createdAt <= RETENTION_MS {
      assert sorted[i].record.createdAt <= sorted[j].record.createdAt;
    }
    FullCapRetained(k, now, jobs, entries);
    TallyIsSize(Seen(k, Sweep(k, now, jobs, entries).jobs), entries, Cleaned);
  }

  /** The listed jobs that are prepared and whose worker is gone. */
  ghost function Released(k: Evidence, jobs: Jobs, entries: seq<Name>): set<Name> {
    set name | name in entries && HasStatus(jobs, name, Prepared) && Over(k, name)
  }

  lemma ReleasedNext(k: Evidence, jobs: Jobs, entries: seq<Name>)
    requires NoDuplicates(entries) && entries != []
    ensures var n := |entries| - 1;
            |Released(k, jobs, entries)|
            == |Released(k, jobs, entries[..n])| + One(HasStatus(jobs, entries[n], Prepared) && Over(k, entries[n]))
  {
    var n := |entries| - 1;
    var name, was := entries[n], Released(k, jobs, entries[..n]);
    assert name !in was;
    assert Released(k, jobs, entries) == was + if HasStatus(jobs, name, Prepared) && Over(k, name) then {name} else {};
  }

  lemma VisitReleases(k: Evidence, now: int, q: Pass, name: Name)
    requires name in q.jobs
    ensures Visit(k, now, q, name).summary.cleaned
            == q.summary.cleaned + One(HasStatus(q.jobs, name, Prepared) && Over(k, name))
  {
  }

  lemma {:induction false} FirstPassReleases(k: Evidence, now: int, jobs: Jobs, entries: seq<Name>)
    requires NoDuplicates(entries) && forall name :: name in entries ==> name in jobs
    ensures FirstPass(k, now, jobs, entries).summary.cleaned == |Released(k, jobs, entries)|
  {
    if entries != [] {
      var n := |entries| - 1;
      FirstPassReleases(k, now, jobs, entries[..n]);
      FirstPassJobs(k, now, jobs, entries[..n]);
      assert entries[n] in entries && entries[n] !in entries[..n];
      VisitReleases(k, now, FirstPass(k, now, jobs, entries[..n]), entries[n]);
      ReleasedNext(k, jobs, entries);
    }
  }

  /** The sweep reports as cleaned the jobs it found prepared with their worker gone. */
  lemma SweepCountsReleases(k: Evidence, now: int, jobs: Jobs, entries: seq<Name>)
    requires Lists(entries, jobs)
    ensures Sweep(k, now, jobs, entries).summary.cleaned
            == |set name | name in jobs && HasStatus(jobs, name, Prepared) && Over(k, name)|
  {
    FirstPassReleases(k, now, jobs, entries);
    FirstPassDoes(k, now, jobs, entries);
    var first, sorted := SecondPassDoes(k, now, jobs, entries);
    SecondPassCounts(k, now, first, sorted, CapIndex(first.items), entries);
    assert Released(k, jobs, entries) == set name | name in jobs && HasStatus(jobs, name, Prepared) && Over(k, name);
  }

  // ----- among jobs of one age -----

  /** Of two items as old as each other the sort keeps the order. */
  ghost predicate KeepsTies(items: seq<Item>, sorted: seq<Item>) {
    forall i, j :: 0 <= i < j < |sorted| && sorted[i].record.createdAt == sorted[j].record.createdAt ==>
      Precedes(items, sorted[i], sorted[j])
  }

  ghost predicate Precedes(items: seq<Item>, x: Item, y: Item) {
    exists a, b :: 0 <= a < b < |items| && items[a] == x && items[b] == y
  }

  /** Where insertion puts an item: behind everything that is not younger. */
  lemma {:induction false} InsertByAgeAt(item: Item, sorted: seq<Item>) returns (at: nat)
    requires ByAge(sorted)
    ensures at <= |sorted| && InsertByAge(item, sorted) == sorted[..at] + [item] + sorted[at..]
    ensures forall i :: 0 <= i < at ==> sorted[i].record.createdAt <= item.record.createdAt
    ensures forall i :: at <= i < |sorted| ==> item.record.createdAt < sorted[i].record.createdAt
  {
    if sorted == [] || item.record.createdAt < sorted[0].record.createdAt {
      at := 0;
    } else {
      var m := InsertByAgeAt(item, sorted[1..]);
      at := m + 1;
      assert sorted == [sorted[0]] + sorted[1..];
      assert sorted[..at] == [sorted[0]] + sorted[1..][..m] && sorted[at..] == sorted[1..][m..];
    }
  }

  lemma {:induction false} SortIsStable(items: seq<Item>)
    ensures KeepsTies(items, SortByAge(items))
  {
    if items != [] {
      var n := |items| - 1;
      var before, item := SortByAge(items[..n]), items[n];
      SortIsStable(items[..n]);
      SortByAgeSorts(items[..n]);
      var at := InsertByAgeAt(item, before);
      InsertKeepsTies(items, before, item, at);
    }
  }

  lemma InsertKeepsTies(items: seq<Item>, before: seq<Item>, item: Item, at: nat)
    requires items != [] && item == items[|items| - 1] && at <= |before|
    requires KeepsTies(items[..|items| - 1], before)
    requires forall x :: x in before ==> x in items[..|items| - 1]
    requires forall i :: at <= i < |before| ==> item.record.createdAt < before[i].record.createdAt
    ensures KeepsTies(items, before[..at] + [item] + before[at..])
  {
    var n, sorted := |items| - 1, before[..at] + [item] + before[at..];
    forall i, j | 0 <= i < j < |sorted| && sorted[i].record.createdAt == sorted[j].record.createdAt
      ensures Precedes(items, sorted[i], sorted[j])
    {
      var x, y := sorted[i], sorted[j];
      assert i != at;
      if j == at {
        assert x == before[i] && x in before;
        var a :| 0 <= a < n && items[..n][a] == x;
        assert items[a] == x && items[n] == y;
      } else {
        assert x == before[if i < at then i else i - 1] && y == before[if j < at then j else j - 1];
        assert Precedes(items[..n], x, y);
        var a, b :| 0 <= a < b < n && items[..n][a] == x && items[..n][b] == y;
        assert items[a] == x && items[b] == y;
      }
    }
  }

  /** The directory was read in this order. */
  ghost predicate ListedBefore(entries: seq<Name>, x: Name, y: Name) {
    exists a, b :: 0 <= a < b < |entries| && entries[a] == x && entries[b] == y
  }

  ghost predicate InListing(entries: seq<Name>, items: seq<Item>) {
    forall i, j :: 0 <= i < j < |items| ==> ListedBefore(entries, items[i].name, items[j].name)
  }

  lemma {:induction false} FirstPassOrder(k: Evidence, now: int, jobs: Jobs, entries: seq<Name>)
    requires NoDuplicates(entries) && forall name :: name in entries ==> name in jobs
    ensures InListing(entries, FirstPass(k, now, jobs, entries).items)
  {
    if entries != [] {
      var n := |entries| - 1;
      var q, p := FirstPass(k, now, jobs, entries[..n]), FirstPass(k, now, jobs, entries);
      FirstPassOrder(k, now, jobs, entries[..n]);
      FirstPassRecords(k, now, jobs, entries[..n]);
      assert q.items <= p.items && |p.items| <= |q.items| + 1;
      forall i, j | 0 <= i < j < |p.items| ensures ListedBefore(entries, p.items[i].name, p.items[j].name) {
        assert p.items[i] == q.items[i];
        if j < |q.items| {
          assert p.items[j] == q.items[j];
          ListedLonger(entries, q.items[i].name, q.items[j].name);
        } else {
          assert q.items[i] in q.items;
          var a :| 0 <= a < n && entries[..n][a] == q.items[i].name;
          assert entries[a] == p.items[i].name && entries[n] == p.items[j].name;
        }
      }
    }
  }

  lemma ListedLonger(entries: seq<Name>, x: Name, y: Name)
    requires entries != [] && ListedBefore(entries[..|entries| - 1], x, y)
    ensures ListedBefore(entries, x, y)
  {
    var n := |entries| - 1;
    var a, b :| 0 <= a < b < n && entries[..n][a] == x && entries[..n][b] == y;
    assert entries[a] == x && entries[b] == y;
  }

  /** Of two recent cleaned jobs of one age, only one of which is kept, the directory listed the
      one that goes first. */
  lemma SweepBreaksTiesByListing(k: Evidence, now: int, jobs: Jobs, entries: seq<Name>, gone: Name, kept: Name)
    requires Lists(entries, jobs) && Countable(k, jobs, gone) && Countable(k, jobs, kept)
    requires jobs[gone].record.createdAt == jobs[kept].record.createdAt >= now - RETENTION_MS
    requires HasStatus(Sweep(k, now, jobs, entries).jobs, gone, ArtifactExpired)
    requires HasStatus(Sweep(k, now, jobs, entries).jobs, kept, Cleaned)
    ensures ListedBefore(entries, gone, kept)
  {
    CountableIsCleaned(k, now, jobs, gone);
    CountableIsCleaned(k, now, jobs, kept);
    var first, sorted, i := ItemOf(k, now, jobs, entries, gone);
    var _, _, j := ItemOf(k, now, jobs, entries, kept);
    assert i < CapIndex(first.items) <= j;
    SortIsStable(first.items);
    assert Precedes(first.items, sorted[i], sorted[j]);
    FirstPassOrder(k, now, jobs, entries);
  }

  // ----- sweeps that throw -----

  /** The first loop writes, and so can throw, at exactly the prepared jobs that are proved
      over or never launched. */
  lemma ThrowsInFirst(k: Evidence, now: int, jobs: Jobs, entries: seq<Name>, at: nat, fault: Fault)
    requires Lists(entries, jobs)
    ensures Reaches(k, now, jobs, entries, InFirst(at, fault)) <==>
            && at < |entries|
            && jobs[entries[at]].Job? && jobs[entries[at]].record.status == Prepared
            && (NeverLaunched(k, entries[at]) || Over(k, entries[at]))
  {
    if at < |entries| {
      assert entries[at] in entries;
      FirstPassJobs(k, now, jobs, entries[..at]);
    }
  }

  /** Then the copies are gone, the record is the old one, unreadable, or the new one, the jobs
      listed later are untouched, and the caller counts nothing as retained. */
  lemma ThrownInFirst(k: Evidence, now: int, jobs: Jobs, entries: seq<Name>, at: nat, fault: Fault)
    requires Lists(entries, jobs) && Reaches(k, now, jobs, entries, InFirst(at, fault))
    ensures at < |entries| && entries[at] in jobs && jobs[entries[at]].Job?
    ensures var swept, name := SweepTo(k, now, jobs, entries, InFirst(at, fault)), entries[at];
            var before, revoked := jobs[name], NeverLaunched(k, name);
            && swept.retained == 0 && swept.jobs.Keys == jobs.Keys
            && (forall i :: at < i < |entries| ==> swept.jobs[entries[i]] == jobs[entries[i]])
            && swept.jobs[name] ==
               match fault
               case NotWritten => Job(before.record, false, !revoked && before.runArtifacts)
               case Torn => NoRecord
               case Written =>
                 if revoked then Job(Tombstone(before.record, now), false, false)
                 else Job(before.record.(status := Cleaned, cleanedAt := Some(now)), false, before.runArtifacts)
  {
    ThrowsInFirst(k, now, jobs, entries, at, fault);
    assert entries[at] in entries;
    FirstPassJobs(k, now, jobs, entries[..at]);
    forall i | at < i < |entries|
      ensures entries[i] in jobs && entries[i] !in entries[..at] && entries[i] != entries[at]
    {
      assert entries[i] in entries;
    }
  }

  /** What the second loop has done to the other jobs when it comes to an item. */
  lemma SecondPassUpTo(now: int, p: Pass, sorted: seq<Item>, cap: nat, at: nat)
    requires at < |sorted| && DistinctNames(sorted) && forall x :: x in sorted ==> HasStatus(p.jobs, x.name, Cleaned)
    ensures var q, r := SecondPass(now, p, sorted[..at], cap).jobs, SecondPass(now, p, sorted, cap).jobs;
            && q.Keys == p.jobs.Keys == r.Keys
            && sorted[at].name in q && q[sorted[at].name] == p.jobs[sorted[at].name]
            && forall other :: other in p.jobs ==> q[other] == p.jobs[other] || q[other] == r[other]
  {
    SecondPassJobs(now, p, sorted[..at], cap);
    SecondPassJobs(now, p, sorted, cap);
    assert sorted[at] in sorted;
    assert sorted[at].name !in Names(sorted[..at]);
    var q := SecondPass(now, p, sorted[..at], cap).jobs;
    forall other | other in p.jobs && other in Names(sorted[..at])
      ensures q[other] == p.jobs[other] || q[other] == SecondPass(now, p, sorted, cap).jobs[other]
    {
      var x :| x in sorted[..at] && x.name == other;
      var i :| 0 <= i < at && sorted[i] == x;
      JudgedForGood(now, p, sorted, cap, at, i);
    }
  }

  /** What the second loop has judged stays so. */
  lemma JudgedForGood(now: int, p: Pass, sorted: seq<Item>, cap: nat, at: nat, i: nat)
    requires i < at < |sorted| && DistinctNames(sorted)
    requires forall x :: x in sorted ==> HasStatus(p.jobs, x.name, Cleaned)
    ensures var q, r := SecondPass(now, p, sorted[..at], cap).jobs, SecondPass(now, p, sorted, cap).jobs;
            sorted[i].name in q && sorted[i].name in r && q[sorted[i].name] == r[sorted[i].name]
  {
    SecondPassJobs(now, p, sorted[..at], cap);
    SecondPassJobs(now, p, sorted, cap);
    var q, r := SecondPass(now, p, sorted[..at], cap).jobs, SecondPass(now, p, sorted, cap).jobs;
    assert Settled(p.jobs, q, sorted[..at][i], Survives(sorted[i], i, cap, now), now);
    assert Settled(p.jobs, r, sorted[i], Survives(sorted[i], i, cap, now), now);
  }

  /** The items of the second loop are the countable jobs. */
  lemma CollectedItem(k: Evidence, now: int, jobs: Jobs, entries: seq<Name>, item: Item)
    requires Lists(entries, jobs) && item in FirstPass(k, now, jobs, entries).items
    ensures Countable(k, jobs, item.name) && item == Item(item.name, jobs[item.name].record.(status := Cleaned))
    ensures item.name in FirstPass(k, now, jobs, entries).jobs
    ensures FirstPass(k, now, jobs, entries).jobs[item.name] == Visited(k, now, item.name, jobs[item.name])
  {
    FirstPassDoes(k, now, jobs, entries);
    FirstPassRecords(k, now, jobs, entries);
    assert item in SeenPass(k, FirstPass(k, now, jobs, entries)).items;
    CountableIsCleaned(k, now, jobs, item.name);
  }

  /** The second loop throws at a job the whole sweep would expire. */
  lemma ThrowsInSecond(k: Evidence, now: int, jobs: Jobs, entries: seq<Name>, at: nat, fault: Fault)
    returns (name: Name)
    requires Lists(entries, jobs) && Reaches(k, now, jobs, entries, InSecond(at, fault))
    ensures Countable(k, jobs, name) && HasStatus(Sweep(k, now, jobs, entries).jobs, name, ArtifactExpired)
    ensures var sorted := SortByAge(FirstPass(k, now, jobs, entries).items);
            at < |sorted| && sorted[at] == Item(name, jobs[name].record.(status := Cleaned))
    ensures name in FirstPass(k, now, jobs, entries).jobs
    ensures FirstPass(k, now, jobs, entries).jobs[name] == Visited(k, now, name, jobs[name])
  {
    var first, sorted := SecondPassDoes(k, now, jobs, entries);
    name := sorted[at].name;
    CollectedItem(k, now, jobs, entries, sorted[at]);
    SecondPassJobs(now, first, sorted, CapIndex(first.items));
    assert Settled(first.jobs, SecondPass(now, first, sorted, CapIndex(first.items)).jobs, sorted[at], false, now);
  }

  /** Then its artifacts are gone, its record is the old one, unreadable, or the new one, and the
      caller counts nothing as retained. */
  lemma ThrownInSecond(k: Evidence, now: int, jobs: Jobs, entries: seq<Name>, at: nat, fault: Fault)
    returns (name: Name)
    requires Lists(entries, jobs) && Reaches(k, now, jobs, entries, InSecond(at, fault))
    ensures Countable(k, jobs, name) && HasStatus(Sweep(k, now, jobs, entries).jobs, name, ArtifactExpired)
    ensures var swept, v := SweepTo(k, now, jobs, entries, InSecond(at, fault)), Visited(k, now, name, jobs[name]);
            && v.Job? && swept.retained == 0 && name in swept.jobs
            && swept.jobs[name] ==
               match fault
               case NotWritten => Job(v.record, v.heavyCopies, false)
               case Torn => NoRecord
               case Written => Job(Tombstone(jobs[name].record, now), v.heavyCopies, false)
  {
    name := ThrowsInSecond(k, now, jobs, entries, at, fault);
    var first, sorted := SecondPassDoes(k, now, jobs, entries);
    FirstPassDoes(k, now, jobs, entries);
    SecondPassUpTo(now, first, sorted, CapIndex(first.items), at);
  }

  lemma StoppedSpares(now: int, p: Pass, sorted: seq<Item>, cap: nat, at: nat, fault: Fault)
    requires ReachesAt(now, p, sorted, cap, at)
    ensures var q, r := SecondPass(now, p, sorted[..at], cap).jobs, StoppedAt(now, p, sorted, cap, at, fault);
            r.Keys == q.Keys && forall other :: other in q && other != sorted[at].name ==> r[other] == q[other]
  {
  }

  /** Every other job is as the first loop left it or as the whole sweep leaves it. */
  lemma ThrownSparesOthers(k: Evidence, now: int, jobs: Jobs, entries: seq<Name>, at: nat, fault: Fault, other: Name)
    requires Lists(entries, jobs) && Reaches(k, now, jobs, entries, InSecond(at, fault))
    requires other in jobs && other != SortByAge(FirstPass(k, now, jobs, entries).items)[at].name
    ensures var swept, whole := SweepTo(k, now, jobs, entries, InSecond(at, fault)), Sweep(k, now, jobs, entries);
            && swept.jobs.Keys == jobs.Keys == whole.jobs.Keys
            && (swept.jobs[other] == Visited(k, now, other, jobs[other]) || swept.jobs[other] == whole.jobs[other])
  {
    var first, sorted := SecondPassDoes(k, now, jobs, entries);
    FirstPassDoes(k, now, jobs, entries);
    StoppedSpares(now, first, sorted, CapIndex(first.items), at, fault);
    SecondPassUpTo(now, first, sorted, CapIndex(first.items), at);
  }

  // ----- the other events -----

  /** A sweep leaves what it has done when it ends; an admission takes a new name in after it exactly
      if nothing is in preparation and the sweep counts fewer than the budget. */
  lemma SweepsAndAdmissions(s: Store, k: Evidence, now: int, entries: seq<Name>, ending: Ending, name: Name)
    requires Runs(s, k, now, entries, ending)
    ensures var swept := SweepTo(k, now, s.jobs, entries, ending);
            && Next(s, Prune(k, now, entries, ending)) == Store(swept.jobs, s.inFlight)
            && Next(s, Admit(k, now, entries, ending, name)) ==
               if s.inFlight.Some? then s
               else if swept.retained < 20 && name !in s.jobs then Store(swept.jobs[name := NoRecord], Some(name))
               else Store(swept.jobs, None)
  {
  }

  /** A preparation that ends well leaves one prepared job with its copies, one that fails leaves
      none; cleaning up after a worker removes a prepared job's copies before its record is
      written; a discard removes the job. */
  lemma EventsExact(s: Store, name: Name, now: int, fault: Fault, ok: bool)
    ensures var settled := Next(s, Settle(ok, now));
            && settled.inFlight.None?
            && (s.inFlight.None? ==> settled == s)
            && (s.inFlight.Some? ==>
                  settled.jobs ==
                  if ok then s.jobs[s.inFlight.value := Job(Record(Prepared, now, None, None), true, true)]
                  else map x | x in s.jobs && x != s.inFlight.value :: s.jobs[x])
    ensures var finished := Next(s, Finish(name, now, fault));
            && finished.inFlight == s.inFlight
            && (!HasStatus(s.jobs, name, Prepared) ==> finished == s)
            && (HasStatus(s.jobs, name, Prepared) ==>
                  var r := s.jobs[name].record;
                  finished.jobs == s.jobs[name :=
                    match fault
                    case NotWritten => Job(r, false, s.jobs[name].runArtifacts)
                    case Torn => NoRecord
                    case Written =>
                      Job(Record(Cleaned, r.createdAt, Some(now), r.expiredAt), false, s.jobs[name].runArtifacts)])
    ensures s.inFlight != Some(name) ==>
              Next(s, Discard(name)) == s.(jobs := map x | x in s.jobs && x != name :: s.jobs[x])
  {
  }
}
