/**
 Retention of materialized jobs
 (apps/server/src/autodispatch_materializer.ts): the startup / pre-prepare sweep,
 terminal cleanup, and the storage bound the admission check keeps.

 A job directory is its retention record plus whether its copies are still there;
 a directory without a readable record of its own has `NoRecord`.
 */
module Retention {
  import opened Options
  import opened Sequences

  type Name = string

  const RETENTION_MS: int := 7 * 24 * 60 * 60 * 1000
  const MAX_RETAINED: nat := 20

  datatype Status = Prepared | Cleaned | ArtifactExpired

  datatype Record = Record(status: Status, createdAt: int, cleanedAt: Option<int>, expiredAt: Option<int>)

  datatype Job =
    | NoRecord
    | Job(record: Record, heavyCopies: bool, runArtifacts: bool)

  type Jobs = map<Name, Job>

  /** What the kernel says about the worker of a job. */
  datatype Outcome = Outcome(recorded: bool, consumed: bool, interrupted: bool,
                             succeeded: bool, authorized: bool, quiescent: bool)

  /** What a sweep finds out about the jobs.  A kernel query that fails is an absent answer.
      `ledger` holds the jobs whose stored materialization still matches, digest included;
      `unread` the ones whose record cannot be read this time and which the sweep skips. */
  datatype Evidence = Evidence(revokedNeverLaunched: set<Name>, outcomes: map<Name, Outcome>, ledger: set<Name>,
                               unread: set<Name>)

  /** The jobs whose record can be read this time. */
  function Seen(k: Evidence, jobs: Jobs): Jobs {
    jobs - k.unread
  }

  predicate Quiescent(k: Evidence, name: Name) {
    && name in k.outcomes
    && var o := k.outcomes[name];
       && o.recorded
       && ((o.consumed && o.succeeded && o.authorized) ||
           (o.interrupted && (o.quiescent || o.succeeded)))
  }

  predicate HasStatus(jobs: Jobs, name: Name, status: Status) {
    name in jobs && jobs[name].Job? && jobs[name].record.status == status
  }

  /** A job that still counts against the storage budget. */
  predicate Live(jobs: Jobs, name: Name) {
    HasStatus(jobs, name, Prepared) || HasStatus(jobs, name, Cleaned)
  }

  ghost function LiveNames(jobs: Jobs): set<Name> {
    set name | name in jobs && Live(jobs, name)
  }

  // ----- first pass: one directory entry -----

  datatype Summary = Summary(cleaned: nat, expired: nat, retained: nat, prepared: nat)

  datatype Item = Item(name: Name, record: Record)

  datatype Pass = Pass(jobs: Jobs, summary: Summary, items: seq<Item>)

  function Expire(jobs: Jobs, name: Name, record: Record, heavyCopies: bool, now: int): Jobs {
    jobs[name := Job(record.(status := ArtifactExpired, expiredAt := Some(now)), heavyCopies, false)]
  }

  function Visit(k: Evidence, now: int, p: Pass, name: Name): Pass {
    if name !in p.jobs || p.jobs[name].NoRecord? || name in k.unread then p
    else
      var job := p.jobs[name];
      match job.record.status
      case Cleaned => p.(items := p.items + [Item(name, job.record)])
      case ArtifactExpired => p
      case Prepared =>
        if name in k.revokedNeverLaunched then
          if name !in k.ledger then Hold(p)
          else p.(jobs := Expire(p.jobs, name, job.record, false, now),
                  summary := p.summary.(expired := p.summary.expired + 1))
        else if !Quiescent(k, name) || name !in k.ledger then Hold(p)
        else
          var record := job.record.(status := Cleaned);
          Pass(p.jobs[name := job.(heavyCopies := false, record := record.(cleanedAt := Some(now)))],
               p.summary.(cleaned := p.summary.cleaned + 1),
               p.items + [Item(name, record)])
  }

  function Hold(p: Pass): Pass {
    p.(summary := p.summary.(prepared := p.summary.prepared + 1, retained := p.summary.retained + 1))
  }

  function FirstPass(k: Evidence, now: int, jobs: Jobs, entries: seq<Name>): Pass {
    if entries == [] then Pass(jobs, Summary(0, 0, 0, 0), [])
    else
      var n := |entries| - 1;
      Visit(k, now, FirstPass(k, now, jobs, entries[..n]), entries[n])
  }

  // ----- the sort and the second pass -----

  function InsertByAge(item: Item, sorted: seq<Item>): seq<Item> {
    if sorted == [] || item.record.createdAt < sorted[0].record.createdAt then [item] + sorted
    else [sorted[0]] + InsertByAge(item, sorted[1..])
  }

  /** Stable sort by creation time, oldest first. */
  function SortByAge(items: seq<Item>): seq<Item> {
    if items == [] then []
    else InsertByAge(items[|items| - 1], SortByAge(items[..|items| - 1]))
  }

  /** Index of the first item the count cap would keep. */
  function CapIndex(items: seq<Item>): nat {
    if |items| <= MAX_RETAINED then 0 else |items| - MAX_RETAINED
  }

  predicate TooOld(record: Record, now: int) {
    now - record.createdAt > RETENTION_MS
  }

  /** The second loop over the sorted items; items from `cap` on are survivors. */
  function SecondPass(now: int, p: Pass, sorted: seq<Item>, cap: nat): Pass {
    if sorted == [] then p
    else
      var n := |sorted| - 1;
      Judge(now, SecondPass(now, p, sorted[..n], cap), sorted[n], cap <= n)
  }

  function Judge(now: int, q: Pass, item: Item, inCap: bool): Pass {
    if !TooOld(item.record, now) && inCap then
      q.(summary := q.summary.(retained := q.summary.retained + 1))
    else
      q.(jobs := ExpireArtifacts(q.jobs, item, now),
         summary := q.summary.(expired := q.summary.expired + 1))
  }

  function ExpireArtifacts(jobs: Jobs, item: Item, now: int): Jobs {
    Expire(jobs, item.name, item.record,
           item.name in jobs && jobs[item.name].Job? && jobs[item.name].heavyCopies, now)
  }

  function Sweep(k: Evidence, now: int, jobs: Jobs, entries: seq<Name>): Pass {
    var first := FirstPass(k, now, jobs, entries);
    SecondPass(now, first, SortByAge(first.items), CapIndex(first.items))
  }

  /** `entries` lists each job directory once. */
  ghost predicate Lists(entries: seq<Name>, jobs: Jobs) {
    && NoDuplicates(entries)
    && (forall name :: name in entries <==> name in jobs)
  }

  // ----- a sweep that throws -----

  /** What a throwing record write leaves: the old record, one that cannot be read, or the
      new one. */
  datatype Fault = NotWritten | Torn | Written

  /** How a sweep ends.  `Unlisted`: the directory cannot be listed.  `InFirst`, `InSecond`:
      the record write of that item of that loop throws. */
  datatype Ending = Whole | Unlisted | InFirst(at: nat, fault: Fault) | InSecond(at: nat, fault: Fault)

  /** The first loop writes this job's record. */
  predicate Rewrites(k: Evidence, jobs: Jobs, name: Name) {
    HasStatus(jobs, name, Prepared) && !MustHold(k, name)
  }

  /** The copies are gone before the record is written. */
  function Faulted(before: Jobs, after: Jobs, name: Name, fault: Fault): Jobs
    requires name in before && before[name].Job? && name in after && after[name].Job?
  {
    match fault
    case NotWritten => after[name := after[name].(record := before[name].record)]
    case Torn => after[name := NoRecord]
    case Written => after
  }

  /** The sweep comes to the write it is said to throw at. */
  predicate Reaches(k: Evidence, now: int, jobs: Jobs, entries: seq<Name>, ending: Ending) {
    match ending
    case Whole => true
    case Unlisted => true
    case InFirst(i, _) => i < |entries| && Rewrites(k, FirstPass(k, now, jobs, entries[..i]).jobs, entries[i])
    case InSecond(j, _) => ReachesSecond(now, FirstPass(k, now, jobs, entries), j)
  }

  predicate ReachesSecond(now: int, first: Pass, j: nat) {
    ReachesAt(now, first, SortByAge(first.items), CapIndex(first.items), j)
  }

  /** The second loop over `sorted` comes to the record write of item `j`. */
  predicate ReachesAt(now: int, p: Pass, sorted: seq<Item>, cap: nat, j: nat) {
    && j < |sorted| && !Survives(sorted[j], j, cap, now)
    && HasStatus(SecondPass(now, p, sorted[..j], cap).jobs, sorted[j].name, Cleaned)
  }

  function StoppedSecond(now: int, first: Pass, j: nat, fault: Fault): Jobs
    requires ReachesSecond(now, first, j)
  {
    StoppedAt(now, first, SortByAge(first.items), CapIndex(first.items), j, fault)
  }

  function StoppedAt(now: int, p: Pass, sorted: seq<Item>, cap: nat, j: nat, fault: Fault): Jobs
    requires ReachesAt(now, p, sorted, cap, j)
  {
    var q := SecondPass(now, p, sorted[..j], cap);
    Faulted(q.jobs, ExpireArtifacts(q.jobs, sorted[j], now), sorted[j].name, fault)
  }

  /** What a sweep leaves, and the retained count its caller takes from it: a sweep that
      throws or cannot list counts as nothing retained. */
  datatype Swept = Swept(jobs: Jobs, retained: nat)

  function SweepTo(k: Evidence, now: int, jobs: Jobs, entries: seq<Name>, ending: Ending): Swept
    requires Reaches(k, now, jobs, entries, ending)
  {
    match ending
    case Whole => Swept(Sweep(k, now, jobs, entries).jobs, Sweep(k, now, jobs, entries).summary.retained)
    case Unlisted => Swept(jobs, 0)
    case InFirst(i, fault) =>
      var p := FirstPass(k, now, jobs, entries[..i]);
      Swept(Faulted(p.jobs, Visit(k, now, p, entries[i]).jobs, entries[i], fault), 0)
    case InSecond(j, fault) => Swept(StoppedSecond(now, FirstPass(k, now, jobs, entries), j, fault), 0)
  }

  predicate Throws(ending: Ending) {
    ending.InFirst? || ending.InSecond?
  }

  /** A write that is never come to does not throw. */
  function Came(k: Evidence, now: int, jobs: Jobs, entries: seq<Name>, ending: Ending): (came: Ending)
    ensures Reaches(k, now, jobs, entries, came)
  {
    if Throws(ending) && Reaches(k, now, jobs, entries, ending) then ending else Whole
  }

  // ----- what the sort does -----

  ghost predicate ByAge(items: seq<Item>) {
    forall i, j :: 0 <= i < j < |items| ==> items[i].record.createdAt <= items[j].record.createdAt
  }

  ghost predicate DistinctNames(items: seq<Item>) {
    forall i, j :: 0 <= i < j < |items| ==> items[i].name != items[j].name
  }

  lemma {:induction false} InsertByAgeContent(item: Item, sorted: seq<Item>)
    ensures |InsertByAge(item, sorted)| == |sorted| + 1
    ensures forall x :: x in InsertByAge(item, sorted) <==> x == item || x in sorted
  {
    if sorted != [] && item.record.createdAt >= sorted[0].record.createdAt {
      InsertByAgeContent(item, sorted[1..]);
      assert sorted == [sorted[0]] + sorted[1..];
    }
  }

  lemma {:induction false} InsertByAgeSorts(item: Item, sorted: seq<Item>)
    requires ByAge(sorted)
    ensures ByAge(InsertByAge(item, sorted))
  {
    if sorted != [] && item.record.createdAt >= sorted[0].record.createdAt {
      InsertByAgeSorts(item, sorted[1..]);
      InsertByAgeContent(item, sorted[1..]);
      var rest := InsertByAge(item, sorted[1..]);
      forall j | 0 <= j < |rest| ensures sorted[0].record.createdAt <= rest[j].record.createdAt {
        assert rest[j] in rest;
      }
    }
  }

  lemma {:induction false} InsertByAgeDistinct(item: Item, sorted: seq<Item>)
    requires DistinctNames(sorted) && forall x :: x in sorted ==> x.name != item.name
    ensures DistinctNames(InsertByAge(item, sorted))
  {
    if sorted != [] && item.record.createdAt >= sorted[0].record.createdAt {
      InsertByAgeDistinct(item, sorted[1..]);
      InsertByAgeContent(item, sorted[1..]);
      var rest := InsertByAge(item, sorted[1..]);
      forall j | 0 <= j < |rest| ensures sorted[0].name != rest[j].name {
        assert rest[j] in rest;
      }
    }
  }

  lemma {:induction false} SortByAgeSorts(items: seq<Item>)
    ensures ByAge(SortByAge(items))
    ensures |SortByAge(items)| == |items|
    ensures forall x :: x in SortByAge(items) <==> x in items
  {
    if items != [] {
      var n := |items| - 1;
      SortByAgeSorts(items[..n]);
      InsertByAgeContent(items[n], SortByAge(items[..n]));
      InsertByAgeSorts(items[n], SortByAge(items[..n]));
      assert items == items[..n] + [items[n]];
    }
  }

  lemma {:induction false} SortByAgeDistinct(items: seq<Item>)
    requires DistinctNames(items)
    ensures DistinctNames(SortByAge(items))
  {
    if items != [] {
      var n := |items| - 1;
      var before := items[..n];
      SortByAgeDistinct(before);
      SortByAgeSorts(before);
      assert items == before + [items[n]];
      NewName(before, items[n]);
      InsertByAgeDistinct(items[n], SortByAge(before));
    }
  }

  lemma NewName(before: seq<Item>, item: Item)
    requires DistinctNames(before + [item])
    ensures forall x :: x in before ==> x.name != item.name
  {
    forall x | x in before ensures x.name != item.name {
      var i :| 0 <= i < |before| && before[i] == x;
      assert (before + [item])[i] == x && (before + [item])[|before|] == item;
    }
  }

  // ----- counting -----

  /** How many of the listed jobs have a status. */
  function Tally(jobs: Jobs, entries: seq<Name>, status: Status): nat {
    if entries == [] then 0
    else
      var n := |entries| - 1;
      Tally(jobs, entries[..n], status) + if HasStatus(jobs, entries[n], status) then 1 else 0
  }

  lemma {:induction false} TallyFrame(a: Jobs, b: Jobs, entries: seq<Name>, status: Status)
    requires forall name :: name in entries ==> (HasStatus(a, name, status) <==> HasStatus(b, name, status))
    ensures Tally(a, entries, status) == Tally(b, entries, status)
  {
    if entries != [] {
      var n := |entries| - 1;
      assert entries[n] in entries;
      TallyFrame(a, b, entries[..n], status);
    }
  }

  lemma {:induction false} TallyMinusOne(a: Jobs, b: Jobs, entries: seq<Name>, status: Status, name: Name)
    requires NoDuplicates(entries)
    requires name in entries && HasStatus(a, name, status) && !HasStatus(b, name, status)
    requires forall other :: other != name ==> (HasStatus(a, other, status) <==> HasStatus(b, other, status))
    ensures Tally(a, entries, status) == Tally(b, entries, status) + 1
  {
    var n := |entries| - 1;
    if entries[n] == name {
      TallyFrame(a, b, entries[..n], status);
    } else {
      TallyMinusOne(a, b, entries[..n], status, name);
    }
  }

  ghost function NamesWith(jobs: Jobs, entries: seq<Name>, status: Status): set<Name> {
    set name | name in entries && HasStatus(jobs, name, status)
  }

  lemma {:induction false} TallyIsSize(jobs: Jobs, entries: seq<Name>, status: Status)
    requires NoDuplicates(entries)
    ensures Tally(jobs, entries, status) == |NamesWith(jobs, entries, status)|
  {
    if entries != [] {
      var n := |entries| - 1;
      TallyIsSize(jobs, entries[..n], status);
      assert entries == entries[..n] + [entries[n]];
      assert NamesWith(jobs, entries, status) == NamesWith(jobs, entries[..n], status) +
             if HasStatus(jobs, entries[n], status) then {entries[n]} else {};
    } else {
      assert NamesWith(jobs, entries, status) == {};
    }
  }

  lemma LiveIsTally(jobs: Jobs, entries: seq<Name>)
    requires NoDuplicates(entries) && forall name :: name in jobs ==> name in entries
    ensures |LiveNames(jobs)| == Tally(jobs, entries, Prepared) + Tally(jobs, entries, Cleaned)
  {
    TallyIsSize(jobs, entries, Prepared);
    TallyIsSize(jobs, entries, Cleaned);
    assert LiveNames(jobs) == NamesWith(jobs, entries, Prepared) + NamesWith(jobs, entries, Cleaned);
  }

  // ----- the first pass -----

  /** A prepared job whose record cannot be read, or which the kernel gives no proof about yet. */
  predicate MustHold(k: Evidence, name: Name) {
    name in k.unread || name !in k.ledger || (name !in k.revokedNeverLaunched && !Quiescent(k, name))
  }

  /** What the first pass leaves of a job. */
  function Visited(k: Evidence, now: int, name: Name, job: Job): Job {
    if job.NoRecord? || job.record.status != Prepared || MustHold(k, name) then job
    else if name in k.revokedNeverLaunched then
      Job(job.record.(status := ArtifactExpired, expiredAt := Some(now)), false, false)
    else Job(job.record.(status := Cleaned, cleanedAt := Some(now)), false, job.runArtifacts)
  }

  /** What a pass comes to, the unread jobs aside. */
  function SeenPass(k: Evidence, p: Pass): Pass {
    p.(jobs := Seen(k, p.jobs))
  }

  ghost predicate ItemsMatch(p: Pass, entries: seq<Name>) {
    && DistinctNames(p.items)
    && (forall x :: x in p.items ==> x.name in entries && HasStatus(p.jobs, x.name, Cleaned)
                                     && x.record.createdAt == p.jobs[x.name].record.createdAt)
    && (forall name :: name in entries && HasStatus(p.jobs, name, Cleaned) ==>
          exists x :: x in p.items && x.name == name)
  }

  lemma {:induction false} FirstPassJobs(k: Evidence, now: int, jobs: Jobs, entries: seq<Name>)
    requires NoDuplicates(entries)
    requires forall name :: name in entries ==> name in jobs
    ensures var p := FirstPass(k, now, jobs, entries);
            && p.jobs.Keys == jobs.Keys
            && (forall name :: name in jobs ==>
                  p.jobs[name] == if name in entries then Visited(k, now, name, jobs[name]) else jobs[name])
  {
    if entries != [] {
      var n := |entries| - 1;
      FirstPassJobs(k, now, jobs, entries[..n]);
      assert entries == entries[..n] + [entries[n]];
      assert entries[n] in entries && entries[n] !in entries[..n];
      VisitJobs(k, now, FirstPass(k, now, jobs, entries[..n]), entries[n]);
    }
  }

  lemma VisitJobs(k: Evidence, now: int, q: Pass, name: Name)
    requires name in q.jobs
    ensures Visit(k, now, q, name).jobs == q.jobs[name := Visited(k, now, name, q.jobs[name])]
  {
    assert q.jobs == q.jobs[name := q.jobs[name]];
  }

  lemma {:induction false} FirstPassItems(k: Evidence, now: int, jobs: Jobs, entries: seq<Name>)
    requires NoDuplicates(entries)
    requires forall name :: name in entries ==> name in jobs
    ensures ItemsMatch(SeenPass(k, FirstPass(k, now, jobs, entries)), entries)
  {
    if entries != [] {
      var n := |entries| - 1;
      FirstPassItems(k, now, jobs, entries[..n]);
      FirstPassJobs(k, now, jobs, entries[..n]);
      assert entries == entries[..n] + [entries[n]];
      assert entries[n] in entries && entries[n] !in entries[..n];
      VisitItems(k, now, FirstPass(k, now, jobs, entries[..n]), entries[n], entries[..n]);
    }
  }

  lemma {:induction false} FirstPassCounts(k: Evidence, now: int, jobs: Jobs, entries: seq<Name>)
    requires NoDuplicates(entries)
    requires forall name :: name in entries ==> name in jobs
    ensures var p := FirstPass(k, now, jobs, entries);
            && p.summary.retained == p.summary.prepared == Tally(Seen(k, p.jobs), entries, Prepared)
            && |p.items| == Tally(Seen(k, p.jobs), entries, Cleaned)
            && Tally(Seen(k, jobs), entries, Prepared) + Tally(Seen(k, jobs), entries, Cleaned)
               == p.summary.retained + p.summary.expired + |p.items|
  {
    if entries != [] {
      var n := |entries| - 1;
      var name := entries[n];
      FirstPassCounts(k, now, jobs, entries[..n]);
      FirstPassJobs(k, now, jobs, entries[..n]);
      var q := FirstPass(k, now, jobs, entries[..n]);
      var p := FirstPass(k, now, jobs, entries);
      assert name in entries && name !in entries[..n] && q.jobs[name] == jobs[name];
      VisitStep(k, now, q, p, name);
      TallyFrame(Seen(k, q.jobs), Seen(k, p.jobs), entries[..n], Prepared);
      TallyFrame(Seen(k, q.jobs), Seen(k, p.jobs), entries[..n], Cleaned);
    }
  }

  lemma VisitStep(k: Evidence, now: int, q: Pass, p: Pass, name: Name)
    requires name in q.jobs && p == Visit(k, now, q, name)
    ensures forall other, status :: other != name ==>
              (HasStatus(Seen(k, p.jobs), other, status) <==> HasStatus(Seen(k, q.jobs), other, status))
    ensures p.summary.retained == q.summary.retained + One(HasStatus(Seen(k, p.jobs), name, Prepared))
    ensures p.summary.prepared == q.summary.prepared + One(HasStatus(Seen(k, p.jobs), name, Prepared))
    ensures |p.items| == |q.items| + One(HasStatus(Seen(k, p.jobs), name, Cleaned))
    ensures p.summary.retained + p.summary.expired + |p.items|
         == q.summary.retained + q.summary.expired + |q.items| + One(Live(Seen(k, q.jobs), name))
  {
  }

  lemma FirstPassDoes(k: Evidence, now: int, jobs: Jobs, entries: seq<Name>)
    requires Lists(entries, jobs)
    ensures var p := FirstPass(k, now, jobs, entries);
            && p.jobs.Keys == jobs.Keys
            && (forall name :: name in jobs ==> p.jobs[name] == Visited(k, now, name, jobs[name]))
            && ItemsMatch(SeenPass(k, p), entries)
            && p.summary.retained == p.summary.prepared == Tally(Seen(k, p.jobs), entries, Prepared)
            && |p.items| == Tally(Seen(k, p.jobs), entries, Cleaned)
            && Tally(Seen(k, jobs), entries, Prepared) + Tally(Seen(k, jobs), entries, Cleaned)
               == p.summary.retained + p.summary.expired + |p.items|
  {
    FirstPassJobs(k, now, jobs, entries);
    FirstPassItems(k, now, jobs, entries);
    FirstPassCounts(k, now, jobs, entries);
  }

  lemma VisitItems(k: Evidence, now: int, q: Pass, name: Name, seen: seq<Name>)
    requires name in q.jobs && name !in seen && ItemsMatch(SeenPass(k, q), seen)
    ensures ItemsMatch(SeenPass(k, Visit(k, now, q, name)), seen + [name])
  {
    VisitAppends(k, now, q, name);
    ItemsExtend(SeenPass(k, q), SeenPass(k, Visit(k, now, q, name)), name, seen);
  }

  /** A job that is cleaned after its visit is the new last item, any other adds none. */
  ghost predicate Appends(q: Pass, p: Pass, name: Name) {
    && p.jobs.Keys == q.jobs.Keys
    && (forall other :: other in q.jobs && other != name ==> p.jobs[other] == q.jobs[other])
    && if HasStatus(p.jobs, name, Cleaned) then
         |p.items| == |q.items| + 1 && p.items[..|q.items|] == q.items
         && p.items[|q.items|].name == name
         && p.items[|q.items|].record.createdAt == p.jobs[name].record.createdAt
       else p.items == q.items
  }

  lemma VisitAppends(k: Evidence, now: int, q: Pass, name: Name)
    requires name in q.jobs
    ensures Appends(SeenPass(k, q), SeenPass(k, Visit(k, now, q, name)), name)
  {
  }

  lemma ItemsExtend(q: Pass, p: Pass, name: Name, seen: seq<Name>)
    requires name !in seen && ItemsMatch(q, seen) && Appends(q, p, name)
    ensures ItemsMatch(p, seen + [name])
  {
    forall i | 0 <= i < |q.items| ensures q.items[i].name in seen {
      assert q.items[i] in q.items;
    }
    if HasStatus(p.jobs, name, Cleaned) {
      var last := p.items[|q.items|];
      assert p.items == q.items + [last] && last in p.items;
    }
  }

  // ----- the second pass -----

  predicate Survives(item: Item, index: int, cap: nat, now: int) {
    !TooOld(item.record, now) && cap <= index
  }

  function Names(items: seq<Item>): set<Name> {
    set x | x in items :: x.name
  }

  lemma {:induction false} SecondPassJobs(now: int, p: Pass, sorted: seq<Item>, cap: nat)
    requires DistinctNames(sorted)
    requires forall x :: x in sorted ==> HasStatus(p.jobs, x.name, Cleaned)
    ensures var after := SecondPass(now, p, sorted, cap).jobs;
            && after.Keys == p.jobs.Keys
            && (forall name :: name in p.jobs && name !in Names(sorted) ==> after[name] == p.jobs[name])
            && (forall i :: 0 <= i < |sorted| ==>
                  Settled(p.jobs, after, sorted[i], Survives(sorted[i], i, cap, now), now))
  {
    if sorted != [] {
      var n := |sorted| - 1;
      var item := sorted[n];
      assert item in sorted;
      SecondPassJobs(now, p, sorted[..n], cap);
      assert sorted == sorted[..n] + [item];
      var q := SecondPass(now, p, sorted[..n], cap);
      assert item.name !in Names(sorted[..n]);
      assert Names(sorted) == Names(sorted[..n]) + {item.name};
      JudgeJobs(now, q, item, cap <= n);
      forall i | 0 <= i < n
        ensures Settled(p.jobs, Judge(now, q, item, cap <= n).jobs, sorted[i], Survives(sorted[i], i, cap, now), now)
      {
        assert sorted[i] == sorted[..n][i] && sorted[i].name != item.name;
        assert Settled(p.jobs, q.jobs, sorted[i], Survives(sorted[i], i, cap, now), now);
      }
    }
  }

  lemma JudgeJobs(now: int, q: Pass, item: Item, inCap: bool)
    requires item.name in q.jobs
    ensures var after := Judge(now, q, item, inCap).jobs;
            && after.Keys == q.jobs.Keys
            && (forall name :: name in q.jobs && name != item.name ==> after[name] == q.jobs[name])
            && Settled(q.jobs, after, item, !TooOld(item.record, now) && inCap, now)
  {
  }

  /** A surviving item's job is untouched, any other is expired. */
  ghost predicate Settled(before: Jobs, after: Jobs, item: Item, survives: bool, now: int) {
    && item.name in before && item.name in after
    && if survives then after[item.name] == before[item.name]
       else after[item.name] == Job(item.record.(status := ArtifactExpired, expiredAt := Some(now)),
                                    before[item.name].Job? && before[item.name].heavyCopies, false)
  }

  lemma {:induction false} SecondPassCounts(k: Evidence, now: int, p: Pass, sorted: seq<Item>, cap: nat,
                                            entries: seq<Name>)
    requires Lists(entries, p.jobs) && DistinctNames(sorted)
    requires forall x :: x in sorted ==> HasStatus(Seen(k, p.jobs), x.name, Cleaned)
    ensures var r := SecondPass(now, p, sorted, cap);
            && r.summary.cleaned == p.summary.cleaned && r.summary.prepared == p.summary.prepared
            && r.summary.retained + r.summary.expired == p.summary.retained + p.summary.expired + |sorted|
            && r.summary.retained <= p.summary.retained + (if cap <= |sorted| then |sorted| - cap else 0)
            && Tally(Seen(k, r.jobs), entries, Prepared) == Tally(Seen(k, p.jobs), entries, Prepared)
            && Tally(Seen(k, r.jobs), entries, Cleaned) + r.summary.expired
               == Tally(Seen(k, p.jobs), entries, Cleaned) + p.summary.expired
  {
    if sorted != [] {
      var n := |sorted| - 1;
      var item := sorted[n];
      assert item in sorted;
      SecondPassCounts(k, now, p, sorted[..n], cap, entries);
      SecondPassJobs(now, p, sorted[..n], cap);
      var q := SecondPass(now, p, sorted[..n], cap);
      assert item.name !in Names(sorted[..n]);
      assert q.jobs[item.name] == p.jobs[item.name] && HasStatus(Seen(k, q.jobs), item.name, Cleaned);
      JudgeTally(k, now, q, item, cap <= n, entries);
    }
  }

  lemma JudgeTally(k: Evidence, now: int, q: Pass, item: Item, inCap: bool, entries: seq<Name>)
    requires Lists(entries, q.jobs) && HasStatus(Seen(k, q.jobs), item.name, Cleaned)
    ensures var r := Judge(now, q, item, inCap);
            && r.summary.cleaned == q.summary.cleaned && r.summary.prepared == q.summary.prepared
            && r.summary.retained + r.summary.expired == q.summary.retained + q.summary.expired + 1
            && q.summary.retained <= r.summary.retained <= q.summary.retained + One(inCap)
            && Tally(Seen(k, r.jobs), entries, Prepared) == Tally(Seen(k, q.jobs), entries, Prepared)
            && Tally(Seen(k, r.jobs), entries, Cleaned) + r.summary.expired
               == Tally(Seen(k, q.jobs), entries, Cleaned) + q.summary.expired
  {
    ExpireTally(k, q.jobs, item, now, entries);
  }

  lemma ExpireTally(k: Evidence, jobs: Jobs, item: Item, now: int, entries: seq<Name>)
    requires Lists(entries, jobs) && HasStatus(Seen(k, jobs), item.name, Cleaned)
    ensures var r := Seen(k, ExpireArtifacts(jobs, item, now));
            && Tally(r, entries, Prepared) == Tally(Seen(k, jobs), entries, Prepared)
            && Tally(r, entries, Cleaned) + 1 == Tally(Seen(k, jobs), entries, Cleaned)
  {
    var r := ExpireArtifacts(jobs, item, now);
    TallyFrame(Seen(k, jobs), Seen(k, r), entries, Prepared);
    TallyMinusOne(Seen(k, jobs), Seen(k, r), entries, Cleaned, item.name);
  }

  /** Both loops of one sweep, with the facts about its sorted items. */
  lemma SecondPassDoes(k: Evidence, now: int, jobs: Jobs, entries: seq<Name>) returns (first: Pass, sorted: seq<Item>)
    requires Lists(entries, jobs)
    ensures first == FirstPass(k, now, jobs, entries) && sorted == SortByAge(first.items)
    ensures |sorted| == |first.items| && DistinctNames(sorted) && ByAge(sorted)
    ensures forall x :: x in sorted <==> x in first.items
    ensures forall x :: x in sorted ==> HasStatus(Seen(k, first.jobs), x.name, Cleaned)
  {
    first := FirstPass(k, now, jobs, entries);
    sorted := SortByAge(first.items);
    FirstPassItems(k, now, jobs, entries);
    SortByAgeSorts(first.items);
    SortByAgeDistinct(first.items);
  }

  // ----- the sweep -----

  /** The sweep loses no job it can read: the live ones before it are the ones it retains and
      the ones it expires, the ones it retains are exactly the live ones after, and the jobs it
      cannot read stay as they are. */
  lemma SweepAccounts(k: Evidence, now: int, jobs: Jobs, entries: seq<Name>)
    requires Lists(entries, jobs)
    ensures var r := Sweep(k, now, jobs, entries);
            && r.jobs.Keys == jobs.Keys
            && |LiveNames(Seen(k, jobs))| == r.summary.retained + r.summary.expired
            && |LiveNames(Seen(k, r.jobs))| == r.summary.retained
            && r.summary.prepared == Tally(Seen(k, r.jobs), entries, Prepared)
            && Tally(Seen(k, r.jobs), entries, Cleaned) <= MAX_RETAINED
  {
    FirstPassDoes(k, now, jobs, entries);
    var first, sorted := SecondPassDoes(k, now, jobs, entries);
    SecondPassJobs(now, first, sorted, CapIndex(first.items));
    SecondPassCounts(k, now, first, sorted, CapIndex(first.items), entries);
    LiveIsTally(Seen(k, jobs), entries);
    LiveIsTally(Seen(k, Sweep(k, now, jobs, entries).jobs), entries);
  }

  /** What the sweep leaves of one job. */
  lemma SweepJob(k: Evidence, now: int, jobs: Jobs, entries: seq<Name>, name: Name)
    requires Lists(entries, jobs) && name in jobs
    ensures var v, after := Visited(k, now, name, jobs[name]), Sweep(k, now, jobs, entries).jobs;
            && name in after
            && (v.NoRecord? || v.record.status != Cleaned || name in k.unread ==> after[name] == v)
            && (v.Job? && v.record.status == Cleaned && name !in k.unread ==>
                  && after[name].Job? && after[name].record.createdAt == v.record.createdAt
                  && after[name].heavyCopies == v.heavyCopies
                  && (HasStatus(after, name, ArtifactExpired) ||
                      (after[name] == v && !TooOld(v.record, now))))
  {
    var v := Visited(k, now, name, jobs[name]);
    if v.Job? && v.record.status == Cleaned && name !in k.unread {
      var first, sorted, i := ItemOf(k, now, jobs, entries, name);
    } else {
      FirstPassDoes(k, now, jobs, entries);
      var first, sorted := SecondPassDoes(k, now, jobs, entries);
      SecondPassJobs(now, first, sorted, CapIndex(first.items));
    }
  }

  /** A prepared job is left alone unless its record can be read, its stored materialization
      still matches and the kernel proves it revoked before launch or finished and quiescent;
      then, and only then, its heavy copies go. */
  lemma PreparedNeedsProof(k: Evidence, now: int, jobs: Jobs, entries: seq<Name>, name: Name)
    requires Lists(entries, jobs) && HasStatus(jobs, name, Prepared)
    ensures var after := Sweep(k, now, jobs, entries).jobs;
            && name in after && after[name].Job?
            && (after[name] == jobs[name] <==> MustHold(k, name))
            && (!MustHold(k, name) ==> !after[name].heavyCopies && after[name].record.status != Prepared)
  {
    SweepJob(k, now, jobs, entries, name);
  }

  /** After a sweep at most the fixed count of cleaned jobs it could read is left, none of
      them older than the retention window. */
  lemma SweepKeepsFewAndRecent(k: Evidence, now: int, jobs: Jobs, entries: seq<Name>)
    requires Lists(entries, jobs)
    ensures var after := Seen(k, Sweep(k, now, jobs, entries).jobs);
            && |NamesWith(after, entries, Cleaned)| <= MAX_RETAINED
            && (forall name :: HasStatus(after, name, Cleaned) ==>
                  now - after[name].record.createdAt <= RETENTION_MS)
  {
    var after := Seen(k, Sweep(k, now, jobs, entries).jobs);
    SweepAccounts(k, now, jobs, entries);
    TallyIsSize(after, entries, Cleaned);
    forall name | HasStatus(after, name, Cleaned) ensures !TooOld(after[name].record, now) {
      SweepJob(k, now, jobs, entries, name);
    }
  }

  /** A cleaned job the sweep expires although it is recent enough is never newer
      than one it could read and keeps. */
  lemma SweepExpiresOldestFirst(k: Evidence, now: int, jobs: Jobs, entries: seq<Name>, gone: Name, kept: Name)
    requires Lists(entries, jobs) && gone in jobs
    requires var v := Visited(k, now, gone, jobs[gone]);
             v.Job? && v.record.status == Cleaned && !TooOld(v.record, now)
    requires HasStatus(Sweep(k, now, jobs, entries).jobs, gone, ArtifactExpired)
    requires HasStatus(Seen(k, Sweep(k, now, jobs, entries).jobs), kept, Cleaned)
    ensures jobs[gone].record.createdAt <= Sweep(k, now, jobs, entries).jobs[kept].record.createdAt
  {
    SweepAccounts(k, now, jobs, entries);
    SweepJob(k, now, jobs, entries, gone);
    var first, sorted, i := ItemOf(k, now, jobs, entries, gone);
    SweepJob(k, now, jobs, entries, kept);
    var _, _, j := ItemOf(k, now, jobs, entries, kept);
    assert i < CapIndex(first.items) <= j;
  }

  /** Where the sort puts a job that is read and cleaned after the first pass. */
  lemma ItemOf(k: Evidence, now: int, jobs: Jobs, entries: seq<Name>, name: Name)
    returns (first: Pass, sorted: seq<Item>, i: nat)
    requires Lists(entries, jobs) && name in jobs && name !in k.unread
    requires var v := Visited(k, now, name, jobs[name]); v.Job? && v.record.status == Cleaned
    ensures first == FirstPass(k, now, jobs, entries) && sorted == SortByAge(first.items) && ByAge(sorted)
    ensures i < |sorted| && sorted[i].name == name && sorted[i].record.createdAt == jobs[name].record.createdAt
    ensures Settled(first.jobs, Sweep(k, now, jobs, entries).jobs, sorted[i],
                    Survives(sorted[i], i, CapIndex(first.items), now), now)
    ensures name in first.jobs && first.jobs[name] == Visited(k, now, name, jobs[name])
  {
    FirstPassJobs(k, now, jobs, entries);
    FirstPassItems(k, now, jobs, entries);
    first, sorted := SecondPassDoes(k, now, jobs, entries);
    SecondPassJobs(now, first, sorted, CapIndex(first.items));
    i := FindItem(SeenPass(k, first), sorted, entries, name);
  }

  lemma FindItem(first: Pass, sorted: seq<Item>, entries: seq<Name>, name: Name) returns (i: nat)
    requires ItemsMatch(first, entries) && name in entries && HasStatus(first.jobs, name, Cleaned)
    requires forall x :: x in sorted <==> x in first.items
    ensures i < |sorted| && sorted[i].name == name
    ensures sorted[i].record.createdAt == first.jobs[name].record.createdAt
  {
    var x :| x in first.items && x.name == name;
    assert x in sorted;
    i :| 0 <= i < |sorted| && sorted[i] == x;
  }

  /** A second sweep at the same time that can read the same records, whatever order the
      directory is read in, changes nothing and reports the same retained and prepared counts. */
  lemma SweepIdempotent(k: Evidence, now: int, jobs: Jobs, entries: seq<Name>, again: seq<Name>)
    requires Lists(entries, jobs) && Lists(again, jobs)
    ensures var r := Sweep(k, now, jobs, entries);
            var r2 := Sweep(k, now, r.jobs, again);
            && r2.jobs == r.jobs
            && r2.summary == Summary(0, 0, r.summary.retained, r.summary.prepared)
  {
    var r := Sweep(k, now, jobs, entries);
    var seen := Seen(k, r.jobs);
    SweepAccounts(k, now, jobs, entries);
    SweepKeepsFewAndRecent(k, now, jobs, entries);
    forall name | name in r.jobs ensures Visited(k, now, name, r.jobs[name]) == r.jobs[name] {
      SweepJob(k, now, jobs, entries, name);
    }
    SettledFirstPass(k, now, r.jobs, again);
    FirstPassDoes(k, now, r.jobs, again);
    var first := FirstPass(k, now, r.jobs, again);
    SortByAgeSorts(first.items);
    SameTally(seen, again, entries, Cleaned);
    SameTally(seen, again, entries, Prepared);
    TallyIsSize(seen, entries, Cleaned);
    forall x | x in first.items ensures !TooOld(x.record, now) {
      assert HasStatus(seen, x.name, Cleaned);
    }
    SettledSecondPass(now, first, SortByAge(first.items));
    SweepAccounts(k, now, r.jobs, again);
  }

  lemma SameTally(jobs: Jobs, a: seq<Name>, b: seq<Name>, status: Status)
    requires NoDuplicates(a) && NoDuplicates(b) && forall name :: name in a <==> name in b
    ensures Tally(jobs, a, status) == Tally(jobs, b, status)
  {
    TallyIsSize(jobs, a, status);
    TallyIsSize(jobs, b, status);
    assert NamesWith(jobs, a, status) == NamesWith(jobs, b, status);
  }

  /** A sweep that can read every record accounts for every live job. */
  lemma SweepThatReadsAll(k: Evidence, now: int, jobs: Jobs, entries: seq<Name>)
    requires Lists(entries, jobs) && k.unread == {}
    ensures var r := Sweep(k, now, jobs, entries);
            && |LiveNames(jobs)| == r.summary.retained + r.summary.expired
            && |LiveNames(r.jobs)| == r.summary.retained
  {
    SweepAccounts(k, now, jobs, entries);
    assert Seen(k, jobs) == jobs && Seen(k, Sweep(k, now, jobs, entries).jobs) == Sweep(k, now, jobs, entries).jobs;
  }

  lemma {:induction false} SettledFirstPass(k: Evidence, now: int, jobs: Jobs, entries: seq<Name>)
    requires forall name :: name in jobs ==> Visited(k, now, name, jobs[name]) == jobs[name]
    ensures var p := FirstPass(k, now, jobs, entries);
            && p.jobs == jobs && p.summary.cleaned == 0 && p.summary.expired == 0
            && (forall x :: x in p.items ==> x.name in jobs && x.name !in k.unread && jobs[x.name].Job?
                                             && x.record == jobs[x.name].record && x.record.status == Cleaned)
  {
    if entries != [] {
      SettledFirstPass(k, now, jobs, entries[..|entries| - 1]);
    }
  }

  lemma {:induction false} SettledSecondPass(now: int, p: Pass, sorted: seq<Item>)
    requires forall x :: x in sorted ==> !TooOld(x.record, now)
    ensures SecondPass(now, p, sorted, 0) ==
            p.(summary := p.summary.(retained := p.summary.retained + |sorted|))
  {
    if sorted != [] {
      var n := |sorted| - 1;
      SettledSecondPass(now, p, sorted[..n]);
      assert sorted[n] in sorted;
    }
  }

  // ----- what a sweep that throws keeps -----

  /** No job became live. */
  ghost predicate Revives(before: Jobs, after: Jobs) {
    after.Keys != before.Keys || exists name :: Live(after, name) && !Live(before, name)
  }

  /** A job that is live after a sweep was live before, whatever the sweep came to. */
  lemma SweepRevivesNothing(k: Evidence, now: int, jobs: Jobs, entries: seq<Name>, ending: Ending)
    requires Lists(entries, jobs) && Reaches(k, now, jobs, entries, ending)
    ensures !Revives(jobs, SweepTo(k, now, jobs, entries, ending).jobs)
  {
    match ending
    case Whole =>
      SweepAccounts(k, now, jobs, entries);
      forall name | name in jobs ensures Live(Sweep(k, now, jobs, entries).jobs, name) ==> Live(jobs, name) {
        SweepJob(k, now, jobs, entries, name);
      }
    case Unlisted =>
    case InFirst(i, fault) => FirstPassRevivesNothing(k, now, jobs, entries, i, fault);
    case InSecond(j, fault) => StoppedRevivesNothing(k, now, jobs, entries, j, fault);
  }

  lemma FirstPassRevivesNothing(k: Evidence, now: int, jobs: Jobs, entries: seq<Name>, i: nat, fault: Fault)
    requires Lists(entries, jobs) && Reaches(k, now, jobs, entries, InFirst(i, fault))
    ensures !Revives(jobs, SweepTo(k, now, jobs, entries, InFirst(i, fault)).jobs)
  {
    var p := FirstPass(k, now, jobs, entries[..i]);
    FirstPassJobs(k, now, jobs, entries[..i]);
    assert !Revives(jobs, p.jobs);
    VisitJobs(k, now, p, entries[i]);
    FaultRevivesNothing(p.jobs, Visit(k, now, p, entries[i]).jobs, entries[i], fault);
  }

  lemma StoppedRevivesNothing(k: Evidence, now: int, jobs: Jobs, entries: seq<Name>, j: nat, fault: Fault)
    requires Lists(entries, jobs) && Reaches(k, now, jobs, entries, InSecond(j, fault))
    ensures !Revives(jobs, SweepTo(k, now, jobs, entries, InSecond(j, fault)).jobs)
  {
    FirstPassDoes(k, now, jobs, entries);
    var first, sorted := SecondPassDoes(k, now, jobs, entries);
    assert !Revives(jobs, first.jobs);
    SecondPassRevivesNothing(now, first, sorted[..j], CapIndex(first.items));
    var p := SecondPass(now, first, sorted[..j], CapIndex(first.items));
    assert !Revives(jobs, p.jobs);
    FaultRevivesNothing(p.jobs, ExpireArtifacts(p.jobs, sorted[j], now), sorted[j].name, fault);
  }

  lemma FaultRevivesNothing(before: Jobs, after: Jobs, name: Name, fault: Fault)
    requires name in before && Live(before, name) && name in after && after[name].Job?
    requires after == before[name := after[name]]
    ensures !Revives(before, Faulted(before, after, name, fault))
  {
  }

  lemma {:induction false} SecondPassRevivesNothing(now: int, p: Pass, sorted: seq<Item>, cap: nat)
    requires forall x :: x in sorted ==> x.name in p.jobs
    ensures var after := SecondPass(now, p, sorted, cap).jobs;
            !Revives(p.jobs, after)
  {
    if sorted != [] {
      var n := |sorted| - 1;
      assert sorted[n] in sorted;
      SecondPassRevivesNothing(now, p, sorted[..n], cap);
    }
  }

  /** The second loop judges each item while its job is still as the first loop left it. */
  lemma StillCleaned(now: int, p: Pass, sorted: seq<Item>, i: nat, cap: nat)
    requires DistinctNames(sorted) && i < |sorted| && forall x :: x in sorted ==> HasStatus(p.jobs, x.name, Cleaned)
    ensures HasStatus(SecondPass(now, p, sorted[..i], cap).jobs, sorted[i].name, Cleaned)
  {
    assert sorted[i] in sorted;
    SecondPassJobs(now, p, sorted[..i], cap);
  }

  lemma SecondPassNext(now: int, p: Pass, sorted: seq<Item>, i: nat, cap: nat)
    requires i < |sorted|
    ensures SecondPass(now, p, sorted[..i + 1], cap) ==
            Judge(now, SecondPass(now, p, sorted[..i], cap), sorted[i], cap <= i)
  {
    assert sorted[..i + 1][..i] == sorted[..i];
  }

  lemma ReachesIfExpired(now: int, p: Pass, sorted: seq<Item>, cap: nat, i: nat)
    requires DistinctNames(sorted) && i < |sorted| && forall x :: x in sorted ==> HasStatus(p.jobs, x.name, Cleaned)
    ensures HasStatus(SecondPass(now, p, sorted[..i], cap).jobs, sorted[i].name, Cleaned)
    ensures ReachesAt(now, p, sorted, cap, i) <==> !Survives(sorted[i], i, cap, now)
  {
    StillCleaned(now, p, sorted, i, cap);
  }

  lemma SweepNeverAdds(k: Evidence, now: int, jobs: Jobs, entries: seq<Name>, ending: Ending)
    requires Lists(entries, jobs) && Reaches(k, now, jobs, entries, ending)
    ensures |LiveNames(SweepTo(k, now, jobs, entries, ending).jobs)| <= |LiveNames(jobs)|
    ensures ending.Whole? ==> |LiveNames(Seen(k, SweepTo(k, now, jobs, entries, ending).jobs))|
                              == SweepTo(k, now, jobs, entries, ending).retained
  {
    SweepAccounts(k, now, jobs, entries);
    SweepRevivesNothing(k, now, jobs, entries, ending);
    Fewer(LiveNames(SweepTo(k, now, jobs, entries, ending).jobs), LiveNames(jobs));
  }

  lemma Fewer(a: set<Name>, b: set<Name>)
    requires a <= b
    ensures |a| <= |b|
  {
    assert b == a + (b - a);
  }

  // ----- the sweep as the source runs it -----

  class RetentionStore {
    var jobs: Jobs

    constructor (jobs: Jobs)
      ensures this.jobs == jobs
    {
      this.jobs := jobs;
    }

    /** `pruneAutodispatchMaterializations`.  With no materialization configured, or
        a jobs directory that cannot be listed, it reports zeros and does nothing.
        `ending` says which record write, if any, is going to throw. */
    method Prune(configured: bool, listing: Option<seq<Name>>, k: Evidence, now: int, ending: Ending)
      returns (threw: bool, summary: Summary)
      requires listing.Some? ==> Lists(listing.value, jobs)
      modifies this
      ensures !configured || listing.None? ==> !threw && jobs == old(jobs) && summary == Summary(0, 0, 0, 0)
      ensures configured && listing.Some? ==>
                var came := Came(k, now, old(jobs), listing.value, ending);
                && jobs == SweepTo(k, now, old(jobs), listing.value, came).jobs
                && threw == Throws(came)
                && (threw <==> Throws(ending) && Reaches(k, now, old(jobs), listing.value, ending))
                && (!threw ==>
                      && summary == Sweep(k, now, old(jobs), listing.value).summary
                      && |LiveNames(Seen(k, old(jobs)))| == summary.retained + summary.expired
                      && |LiveNames(Seen(k, jobs))| == summary.retained)
    {
      if !configured || listing.None? {
        return false, Summary(0, 0, 0, 0);
      }
      SweepAccounts(k, now, jobs, listing.value);
      var cleanedRecords: seq<Item>;
      threw, summary, cleanedRecords := ReleaseQuiescent(k, now, listing.value, ending);
      if threw {
        return true, summary;
      }
      FirstPassItems(k, now, old(jobs), listing.value);
      threw, summary := ExpireOld(now, summary, cleanedRecords, ending);
    }

    /** `prune` of the service: what it takes for the retained count. */
    method Retained(configured: bool, listing: Option<seq<Name>>, k: Evidence, now: int, ending: Ending)
      returns (retained: nat)
      requires listing.Some? ==> Lists(listing.value, jobs)
      modifies this
      ensures configured && listing.Some? ==>
                Swept(jobs, retained) ==
                SweepTo(k, now, old(jobs), listing.value, Came(k, now, old(jobs), listing.value, ending))
      ensures !configured || listing.None? ==> jobs == old(jobs) && retained == 0
    {
      var threw, summary := Prune(configured, listing, k, now, ending);
      retained := if threw then 0 else summary.retained;
    }

    /** `writeRetention`, after the copies `job` no longer has were removed. */
    method WriteRetention(name: Name, job: Job, fault: Option<Fault>)
      requires name in jobs && jobs[name].Job? && job.Job?
      modifies this
      ensures jobs == if fault.None? then old(jobs)[name := job]
                      else Faulted(old(jobs), old(jobs)[name := job], name, fault.value)
    {
      if fault == Some(NotWritten) {
        jobs := jobs[name := job.(record := jobs[name].record)];
      } else if fault == Some(Torn) {
        jobs := jobs[name := NoRecord];
      } else {
        jobs := jobs[name := job];
      }
    }

    /** The loop over the directory entries. */
    method ReleaseQuiescent(k: Evidence, now: int, entries: seq<Name>, ending: Ending)
      returns (threw: bool, summary: Summary, items: seq<Item>)
      modifies this
      ensures threw <==> ending.InFirst? && Reaches(k, now, old(jobs), entries, ending)
      ensures threw ==> jobs == SweepTo(k, now, old(jobs), entries, ending).jobs
      ensures !threw ==> Pass(jobs, summary, items) == FirstPass(k, now, old(jobs), entries)
    {
      var cleaned, expired, retained, prepared := 0, 0, 0, 0;
      items := [];
      for i := 0 to |entries|
        invariant Pass(jobs, Summary(cleaned, expired, retained, prepared), items)
               == FirstPass(k, now, old(jobs), entries[..i])
        invariant ending.InFirst? && ending.at < i ==> !Reaches(k, now, old(jobs), entries, ending)
      {
        assert entries[..i + 1][..i] == entries[..i];
        var name := entries[i];
        if name !in jobs || jobs[name].NoRecord? || name in k.unread {
          continue;
        }
        var job := jobs[name];
        if job.record.status == Cleaned {
          items := items + [Item(name, job.record)];
          continue;
        }
        if job.record.status == ArtifactExpired {
          continue;
        }
        var fault := if ending.InFirst? && ending.at == i then Some(ending.fault) else None;
        if name in k.revokedNeverLaunched {
          if name !in k.ledger {
            prepared := prepared + 1;
            retained := retained + 1;
            continue;
          }
          var record := job.record.(status := ArtifactExpired, expiredAt := Some(now));
          WriteRetention(name, Job(record, false, false), fault);
          if fault.Some? {
            return true, Summary(0, 0, 0, 0), items;
          }
          expired := expired + 1;
          continue;
        }
        if !Quiescent(k, name) || name !in k.ledger {
          prepared := prepared + 1;
          retained := retained + 1;
          continue;
        }
        WriteRetention(name, job.(heavyCopies := false,
                                  record := job.record.(status := Cleaned, cleanedAt := Some(now))), fault);
        if fault.Some? {
          return true, Summary(0, 0, 0, 0), items;
        }
        cleaned := cleaned + 1;
        items := items + [Item(name, job.record.(status := Cleaned))];
      }
      assert entries[..|entries|] == entries;
      return false, Summary(cleaned, expired, retained, prepared), items;
    }

    /** One turn of the second loop: removing the artifacts and writing the new record of an item
        that is too old or over the count. */
    method JudgeItem(item: Item, kept: bool, now: int, fault: Option<Fault>) returns (expires: bool, threw: bool)
      requires HasStatus(jobs, item.name, Cleaned)
      modifies this
      ensures expires == (TooOld(item.record, now) || !kept) && threw == (expires && fault.Some?)
      ensures var expired := ExpireArtifacts(old(jobs), item, now);
              jobs == if !expires then old(jobs)
                      else if fault.None? then expired
                      else Faulted(old(jobs), expired, item.name, fault.value)
    {
      if !TooOld(item.record, now) && kept {
        return false, false;
      }
      var record := item.record.(status := ArtifactExpired, expiredAt := Some(now));
      WriteRetention(item.name, Job(record, jobs[item.name].heavyCopies, false), fault);
      return true, fault.Some?;
    }

    /** The names from `cap` on. */
    static method Survivors(sorted: seq<Item>, cap: nat) returns (keep: set<Name>)
      requires DistinctNames(sorted)
      ensures forall i :: 0 <= i < |sorted| ==> (sorted[i].name in keep <==> cap <= i)
    {
      keep := set i | cap <= i < |sorted| :: sorted[i].name;
    }

    /** The sort, the slice of survivors, and the loop that expires the rest. */
    method ExpireOld(now: int, counts: Summary, items: seq<Item>, ending: Ending)
      returns (threw: bool, summary: Summary)
      requires DistinctNames(items) && forall x :: x in items ==> HasStatus(jobs, x.name, Cleaned)
      modifies this
      ensures threw <==> ending.InSecond? && ReachesSecond(now, Pass(old(jobs), counts, items), ending.at)
      ensures threw ==> jobs == StoppedSecond(now, Pass(old(jobs), counts, items), ending.at, ending.fault)
      ensures !threw ==>
                Pass(jobs, summary, items) ==
                SecondPass(now, Pass(old(jobs), counts, items), SortByAge(items), CapIndex(items))
    {
      SortByAgeSorts(items);
      SortByAgeDistinct(items);
      var sorted := SortByAge(items);
      var keep := Survivors(sorted, CapIndex(sorted));
      threw, summary := ExpireSorted(now, counts, items, sorted, CapIndex(sorted), keep, ending);
    }

    /** The loop over the sorted records. */
    method ExpireSorted(now: int, counts: Summary, ghost items: seq<Item>, sorted: seq<Item>, ghost cap: nat,
                        keep: set<Name>, ending: Ending)
      returns (threw: bool, summary: Summary)
      requires DistinctNames(sorted) && forall x :: x in sorted ==> HasStatus(jobs, x.name, Cleaned)
      requires forall i :: 0 <= i < |sorted| ==> (sorted[i].name in keep <==> cap <= i)
      modifies this
      ensures threw <==> ending.InSecond? && ReachesAt(now, Pass(old(jobs), counts, items), sorted, cap, ending.at)
      ensures threw ==> jobs == StoppedAt(now, Pass(old(jobs), counts, items), sorted, cap, ending.at, ending.fault)
      ensures !threw ==> Pass(jobs, summary, items) == SecondPass(now, Pass(old(jobs), counts, items), sorted, cap)
    {
      ghost var p := Pass(jobs, counts, items);
      var expired, retained := counts.expired, counts.retained;
      for i := 0 to |sorted|
        invariant Pass(jobs, counts.(expired := expired, retained := retained), items)
               == SecondPass(now, p, sorted[..i], cap)
        invariant ending.InSecond? && ending.at < i ==> !ReachesAt(now, p, sorted, cap, ending.at)
      {
        ReachesIfExpired(now, p, sorted, cap, i);
        SecondPassNext(now, p, sorted, i, cap);
        var fault := if ending.InSecond? && ending.at == i then Some(ending.fault) else None;
        var expires, throws := JudgeItem(sorted[i], sorted[i].name in keep, now, fault);
        if throws {
          return true, counts;
        }
        if expires {
          expired := expired + 1;
        } else {
          retained := retained + 1;
        }
      }
      assert sorted[..|sorted|] == sorted;
      return false, counts.(expired := expired, retained := retained);
    }
  }

  // ----- the storage bound over whole runs -----

  /** The job directories, and the one job whose preparation is under way.  The
      shared gate admits one intake at a time, so there is never a second. */
  datatype Store = Store(jobs: Jobs, inFlight: Option<Name>)

  /** `Admit` is the check before a preparation: a sweep, then a new directory if the sweep
      counts fewer retained jobs than the budget.  `Settle` ends the preparation, `Finish` is
      the cleanup after a job's worker is gone, `Discard` drops a prepared job that got no
      grant. */
  datatype Event =
    | Prune(k: Evidence, now: int, entries: seq<Name>, ending: Ending)
    | Admit(k: Evidence, now: int, entries: seq<Name>, ending: Ending, name: Name)
    | Settle(ok: bool, createdAt: int)
    | Finish(name: Name, now: int, fault: Fault)
    | Discard(name: Name)

  ghost predicate Runs(s: Store, k: Evidence, now: int, entries: seq<Name>, ending: Ending) {
    Lists(entries, s.jobs) && Reaches(k, now, s.jobs, entries, ending)
  }

  ghost function Next(s: Store, e: Event): Store {
    match e
    case Prune(k, now, entries, ending) =>
      if Runs(s, k, now, entries, ending) then s.(jobs := SweepTo(k, now, s.jobs, entries, ending).jobs) else s
    case Admit(k, now, entries, ending, name) =>
      if s.inFlight.Some? || !Runs(s, k, now, entries, ending) then s
      else
        var swept := SweepTo(k, now, s.jobs, entries, ending);
        if swept.retained >= MAX_RETAINED || name in s.jobs then s.(jobs := swept.jobs)
        else Store(swept.jobs[name := NoRecord], Some(name))
    case Settle(ok, createdAt) =>
      if s.inFlight.None? then s
      else if ok then
        Store(s.jobs[s.inFlight.value := Job(Record(Prepared, createdAt, None, None), true, true)], None)
      else Store(s.jobs - {s.inFlight.value}, None)
    case Finish(name, now, fault) =>
      if HasStatus(s.jobs, name, Prepared) then
        var record := s.jobs[name].record.(status := Cleaned, cleanedAt := Some(now));
        s.(jobs := Faulted(s.jobs, s.jobs[name := s.jobs[name].(heavyCopies := false, record := record)], name, fault))
      else s
    case Discard(name) =>
      if s.inFlight == Some(name) then s else s.(jobs := s.jobs - {name})
  }

  ghost function Run(s: Store, events: seq<Event>): Store {
    if events == [] then s
    else Next(Run(s, events[..|events| - 1]), events[|events| - 1])
  }

  ghost predicate Bounded(s: Store) {
    && |LiveNames(s.jobs)| + (if s.inFlight.Some? then 1 else 0) <= MAX_RETAINED
    && (s.inFlight.Some? ==> !Live(s.jobs, s.inFlight.value))
  }

  /** An admission whose sweep counts fewer jobs than the budget while it leaves the store full. */
  ghost predicate Overfills(s: Store, e: Event) {
    && e.Admit? && s.inFlight.None? && Runs(s, e.k, e.now, e.entries, e.ending) && e.name !in s.jobs
    && var swept := SweepTo(e.k, e.now, s.jobs, e.entries, e.ending);
       swept.retained < MAX_RETAINED == |LiveNames(swept.jobs)|
  }

  /** The one way out of the bound: every other event keeps it. */
  lemma NextBounded(s: Store, e: Event)
    requires Bounded(s)
    ensures Bounded(Next(s, e)) <==> !Overfills(s, e)
  {
    match e
    case Prune(k, now, entries, ending) =>
      if Runs(s, k, now, entries, ending) {
        SweptBounded(s, k, now, entries, ending);
      }
    case Admit(k, now, entries, ending, name) =>
      if s.inFlight.None? && Runs(s, k, now, entries, ending) {
        SweptBounded(s, k, now, entries, ending);
        var swept := SweepTo(k, now, s.jobs, entries, ending).jobs;
        if name !in swept {
          AdmitBounded(s, swept, name);
        }
      }
    case Settle(ok, createdAt) => SettleBounded(s, ok, createdAt);
    case Finish(_, _, _) =>
      Fewer(LiveNames(Next(s, e).jobs), LiveNames(s.jobs));
    case Discard(name) =>
      Fewer(LiveNames(Next(s, e).jobs), LiveNames(s.jobs));
  }

  lemma SweptBounded(s: Store, k: Evidence, now: int, entries: seq<Name>, ending: Ending)
    requires Bounded(s) && Runs(s, k, now, entries, ending)
    ensures var swept := SweepTo(k, now, s.jobs, entries, ending);
            Bounded(s.(jobs := swept.jobs)) && swept.jobs.Keys == s.jobs.Keys
  {
    SweepNeverAdds(k, now, s.jobs, entries, ending);
    SweepRevivesNothing(k, now, s.jobs, entries, ending);
  }

  lemma AdmitBounded(s: Store, swept: Jobs, name: Name)
    requires s.inFlight.None? && Bounded(s.(jobs := swept)) && name !in swept
    ensures Bounded(Store(swept[name := NoRecord], Some(name))) <==> |LiveNames(swept)| < MAX_RETAINED
  {
    assert LiveNames(swept[name := NoRecord]) == LiveNames(swept);
  }

  /** What makes a sweep count fewer jobs than it leaves live: it throws, it cannot list, or it
      cannot read the record of a live job.  An admission after it goes over the bound exactly
      if that leaves the store full and the count below the budget. */
  lemma UndercountHasCause(s: Store, k: Evidence, now: int, entries: seq<Name>, ending: Ending)
    requires Runs(s, k, now, entries, ending)
    ensures var swept := SweepTo(k, now, s.jobs, entries, ending);
            ending.Whole? ==>
              (swept.retained < |LiveNames(swept.jobs)| <==> exists name :: name in k.unread && Live(swept.jobs, name))
  {
    SweepNeverAdds(k, now, s.jobs, entries, ending);
    HiddenLive(k, SweepTo(k, now, s.jobs, entries, ending).jobs);
  }

  lemma HiddenLive(k: Evidence, jobs: Jobs)
    ensures |LiveNames(Seen(k, jobs))| < |LiveNames(jobs)| <==> exists name :: name in k.unread && Live(jobs, name)
  {
    var hidden := LiveNames(jobs) * k.unread;
    assert LiveNames(jobs) == LiveNames(Seen(k, jobs)) + hidden;
    assert LiveNames(Seen(k, jobs)) * hidden == {};
    if name :| name in k.unread && Live(jobs, name) {
      assert name in hidden;
    }
  }

  lemma SettleBounded(s: Store, ok: bool, createdAt: int)
    requires Bounded(s)
    ensures Bounded(Next(s, Settle(ok, createdAt)))
  {
    var t := Next(s, Settle(ok, createdAt));
    if s.inFlight.Some? {
      var name := s.inFlight.value;
      if ok {
        LiveAdds(s.jobs, name, t.jobs[name]);
      } else {
        assert LiveNames(t.jobs) == LiveNames(s.jobs);
      }
    }
  }

  /** However sweeps, preparations, cleanups and discards interleave, wherever sweeps throw and
      whatever they cannot read, at most the fixed number of jobs is ever live, unless a store
      left full by a sweep that undercounts admits one more. */
  lemma {:induction false} StorageBounded(s: Store, events: seq<Event>)
    requires Bounded(s)
    requires forall i :: 0 <= i < |events| ==> !Overfills(Run(s, events[..i]), events[i])
    ensures Bounded(Run(s, events))
  {
    if events != [] {
      var n := |events| - 1;
      forall i | 0 <= i < n ensures !Overfills(Run(s, events[..n][..i]), events[..n][i]) {
        assert events[..n][..i] == events[..i];
      }
      StorageBounded(s, events[..n]);
      NextBounded(Run(s, events[..n]), events[n]);
    }
  }

  /** The exception is real: any admission of that kind, once its job is prepared, leaves one
      live job too many. */
  lemma FailedSweepOverfills(s: Store, e: Event, createdAt: int)
    requires Overfills(s, e)
    ensures |LiveNames(Run(s, [e] + [Settle(true, createdAt)]).jobs)| == MAX_RETAINED + 1
  {
    var last := Settle(true, createdAt);
    SweepRevivesNothing(e.k, e.now, s.jobs, e.entries, e.ending);
    var swept := SweepTo(e.k, e.now, s.jobs, e.entries, e.ending).jobs;
    var mid := Next(s, e);
    assert ([e] + [last])[..1] == [e] && [e][..0] == [];
    assert Run(s, [e]) == mid;
    OneMore(swept, e.name, createdAt);
  }

  /** A full store whose directory cannot be listed is such a case. */
  lemma UnlistedOverfills(s: Store, k: Evidence, now: int, entries: seq<Name>, name: Name)
    requires Lists(entries, s.jobs) && s.inFlight.None? && name !in s.jobs && |LiveNames(s.jobs)| == MAX_RETAINED
    ensures Overfills(s, Admit(k, now, entries, Unlisted, name))
  {
  }

  // ----- a full store -----

  function JobName(i: nat): Name {
    seq(i, _ => 'j')
  }

  function JobNames(n: nat): seq<Name> {
    seq(n, i requires 0 <= i < n => JobName(i))
  }

  /** No job has any proof yet, and every record can be read. */
  const NO_PROOF := Evidence({}, map[], {}, {})

  function Filled(n: nat): Jobs {
    if n == 0 then map[]
    else Filled(n - 1)[JobName(n - 1) := Job(Record(Prepared, 0, None, None), true, true)]
  }

  function AdmitNext(n: nat): Event {
    Admit(NO_PROOF, 0, JobNames(n), Whole, JobName(n))
  }

  /** Preparing one job after the other. */
  function Fill(n: nat): seq<Event> {
    if n == 0 then []
    else Fill(n - 1) + [AdmitNext(n - 1)] + [Settle(true, 0)]
  }

  lemma {:induction false} FilledHolds(n: nat)
    ensures forall name :: name in Filled(n) <==> |name| < n && name == JobName(|name|)
    ensures forall name :: name in Filled(n) ==> HasStatus(Filled(n), name, Prepared)
  {
    if n > 0 {
      FilledHolds(n - 1);
    }
  }

  lemma {:induction false} FilledLive(n: nat)
    ensures |LiveNames(Filled(n))| == n
  {
    if n == 0 {
      assert LiveNames(Filled(0)) == {};
    } else {
      assert JobName(n - 1) !in Filled(n - 1) by {
        FilledHolds(n - 1);
        assert |JobName(n - 1)| == n - 1;
      }
      FilledLive(n - 1);
      LiveAdds(Filled(n - 1), JobName(n - 1), Job(Record(Prepared, 0, None, None), true, true));
    }
  }

  lemma FilledLists(n: nat)
    ensures Lists(JobNames(n), Filled(n))
  {
    FilledHolds(n);
    forall i, j | 0 <= i < j < n ensures JobNames(n)[i] != JobNames(n)[j] {
      assert |JobNames(n)[i]| == i && |JobNames(n)[j]| == j;
    }
    forall name | name in Filled(n) ensures name in JobNames(n) {
      assert JobNames(n)[|name|] == name;
    }
  }

  /** A sweep without proof for any prepared job leaves all of them and counts those it reads. */
  lemma FilledSweep(n: nat, k: Evidence)
    requires k.ledger == {}
    ensures Lists(JobNames(n), Filled(n))
    ensures var r := Sweep(k, 0, Filled(n), JobNames(n));
            r.jobs == Filled(n) && r.summary.retained == |LiveNames(Seen(k, Filled(n)))|
  {
    FilledHolds(n);
    FilledLists(n);
    UnprovedSweep(k, Filled(n), JobNames(n));
  }

  lemma UnprovedSweep(k: Evidence, jobs: Jobs, entries: seq<Name>)
    requires k.ledger == {} && Lists(entries, jobs)
    requires forall name :: name in jobs ==> HasStatus(jobs, name, Prepared)
    ensures var r := Sweep(k, 0, jobs, entries);
            r.jobs == jobs && r.summary.retained == |LiveNames(Seen(k, jobs))|
  {
    SweepAccounts(k, 0, jobs, entries);
    forall name | name in jobs ensures Sweep(k, 0, jobs, entries).jobs[name] == jobs[name] {
      SweepJob(k, 0, jobs, entries, name);
    }
  }

  lemma {:induction false} FillReaches(n: nat)
    requires n <= MAX_RETAINED
    ensures Run(Store(map[], None), Fill(n)) == Store(Filled(n), None)
  {
    if n > 0 {
      FillReaches(n - 1);
      RunSnoc(Store(map[], None), Fill(n - 1), AdmitNext(n - 1));
      RunSnoc(Store(map[], None), Fill(n - 1) + [AdmitNext(n - 1)], Settle(true, 0));
      FillStep(n - 1);
    }
  }

  lemma FillStep(n: nat)
    requires n < MAX_RETAINED
    ensures Next(Next(Store(Filled(n), None), AdmitNext(n)), Settle(true, 0)) == Store(Filled(n + 1), None)
  {
    FilledHolds(n);
    FilledLive(n);
    FilledSweep(n, NO_PROOF);
    assert Seen(NO_PROOF, Filled(n)) == Filled(n);
    assert JobName(n) !in Filled(n) by { assert |JobName(n)| == n; }
    AdmitAndSettle(Filled(n), AdmitNext(n));
  }

  lemma AdmitAndSettle(jobs: Jobs, e: Event)
    requires e.Admit? && Runs(Store(jobs, None), e.k, e.now, e.entries, e.ending) && e.name !in jobs
    requires SweepTo(e.k, e.now, jobs, e.entries, e.ending).jobs == jobs
    requires SweepTo(e.k, e.now, jobs, e.entries, e.ending).retained < MAX_RETAINED
    ensures Next(Next(Store(jobs, None), e), Settle(true, 0)) ==
            Store(jobs[e.name := Job(Record(Prepared, 0, None, None), true, true)], None)
  {
    var job := Job(Record(Prepared, 0, None, None), true, true);
    assert Next(Store(jobs, None), e) == Store(jobs[e.name := NoRecord], Some(e.name));
    assert jobs[e.name := NoRecord][e.name := job] == jobs[e.name := job];
  }

  lemma RunSnoc(s: Store, events: seq<Event>, e: Event)
    ensures Run(s, events + [e]) == Next(Run(s, events), e)
  {
    assert (events + [e])[..|events|] == events;
  }

  /** A run from an empty store comes to as many live jobs as are allowed; there an admission
      goes over the bound if the directory cannot be listed, and if one record cannot be read. */
  lemma FullStoreOverfills(n: nat)
    requires n == MAX_RETAINED
    ensures var s := Run(Store(map[], None), Fill(n));
            && Bounded(s)
            && Overfills(s, Admit(NO_PROOF, 0, JobNames(n), Unlisted, JobName(n)))
            && Overfills(s, Admit(NO_PROOF.(unread := {JobName(0)}), 0, JobNames(n), Whole, JobName(n)))
  {
    var k := NO_PROOF.(unread := {JobName(0)});
    FillReaches(n);
    FilledHolds(n);
    FilledLive(n);
    FilledSweep(n, k);
    assert |JobName(0)| == 0 && |JobName(n)| == n;
    OneUnread(Filled(n), JobName(0));
  }

  lemma OneUnread(jobs: Jobs, name: Name)
    requires Live(jobs, name)
    ensures |LiveNames(jobs - {name})| == |LiveNames(jobs)| - 1
  {
    assert LiveNames(jobs) == LiveNames(jobs - {name}) + {name};
  }

  lemma OneMore(jobs: Jobs, name: Name, createdAt: int)
    requires name !in jobs
    ensures |LiveNames(Next(Store(jobs[name := NoRecord], Some(name)), Settle(true, createdAt)).jobs)|
         == |LiveNames(jobs)| + 1
  {
    var job := Job(Record(Prepared, createdAt, None, None), true, true);
    assert jobs[name := NoRecord][name := job] == jobs[name := job];
    LiveAdds(jobs, name, job);
  }

  lemma LiveAdds(jobs: Jobs, name: Name, job: Job)
    requires !Live(jobs, name) && job.Job? && job.record.status == Prepared
    ensures LiveNames(jobs[name := job]) == LiveNames(jobs) + {name}
    ensures |LiveNames(jobs[name := job])| == |LiveNames(jobs)| + 1
  {
    assert LiveNames(jobs[name := job]) == LiveNames(jobs) + {name};
  }

  /** The only moves a record's status makes. */
  predicate Advances(before: Status, after: Status) {
    before == after || before == Prepared || after == ArtifactExpired
  }

  /** This event may leave a record of its job that cannot be read. */
  predicate Tears(e: Event) {
    match e
    case Prune(_, _, _, ending) => EndsTorn(ending)
    case Admit(_, _, _, ending, _) => EndsTorn(ending)
    case Finish(_, _, fault) => fault.Torn?
    case _ => false
  }

  predicate EndsTorn(ending: Ending) {
    (ending.InFirst? || ending.InSecond?) && ending.fault.Torn?
  }

  /** The record of a job stays where it was or moves on; only a torn write loses it. */
  ghost predicate Kept(before: Job, after: Job, torn: bool) {
    && (!torn && before.Job? ==> after.Job?)
    && (after.Job? ==>
          && before.Job?
          && Advances(before.record.status, after.record.status)
          && after.record.createdAt == before.record.createdAt)
  }

  lemma NextAdvances(s: Store, e: Event, name: Name)
    requires name in s.jobs && s.inFlight != Some(name) && e != Discard(name)
    ensures var t := Next(s, e);
            name in t.jobs && t.inFlight != Some(name) && Kept(s.jobs[name], t.jobs[name], Tears(e))
  {
    match e
    case Prune(k, now, entries, ending) =>
      if Runs(s, k, now, entries, ending) { SweepAdvances(k, now, s.jobs, entries, ending, name); }
    case Admit(k, now, entries, ending, _) =>
      if s.inFlight.None? && Runs(s, k, now, entries, ending) {
        SweepAdvances(k, now, s.jobs, entries, ending, name);
      }
    case _ =>
  }

  lemma SweepAdvances(k: Evidence, now: int, jobs: Jobs, entries: seq<Name>, ending: Ending, name: Name)
    requires Lists(entries, jobs) && Reaches(k, now, jobs, entries, ending) && name in jobs
    ensures var after := SweepTo(k, now, jobs, entries, ending).jobs;
            name in after && Kept(jobs[name], after[name], EndsTorn(ending))
  {
    match ending
    case Whole => SweepJob(k, now, jobs, entries, name);
    case Unlisted =>
    case InFirst(i, fault) => FirstPassAdvances(k, now, jobs, entries, i, fault, name);
    case InSecond(j, fault) => StoppedAdvances(k, now, jobs, entries, j, fault, name);
  }

  lemma FirstPassAdvances(k: Evidence, now: int, jobs: Jobs, entries: seq<Name>, i: nat, fault: Fault, name: Name)
    requires Lists(entries, jobs) && Reaches(k, now, jobs, entries, InFirst(i, fault)) && name in jobs
    ensures var after := SweepTo(k, now, jobs, entries, InFirst(i, fault)).jobs;
            name in after && Kept(jobs[name], after[name], fault.Torn?)
  {
    var p := FirstPass(k, now, jobs, entries[..i]);
    FirstPassJobs(k, now, jobs, entries[..i]);
    VisitJobs(k, now, p, entries[i]);
    assert Kept(jobs[name], p.jobs[name], false);
    FaultKeeps(p.jobs, Visit(k, now, p, entries[i]).jobs, entries[i], fault, name);
  }

  lemma StoppedAdvances(k: Evidence, now: int, jobs: Jobs, entries: seq<Name>, j: nat, fault: Fault, name: Name)
    requires Lists(entries, jobs) && Reaches(k, now, jobs, entries, InSecond(j, fault)) && name in jobs
    ensures var after := SweepTo(k, now, jobs, entries, InSecond(j, fault)).jobs;
            name in after && Kept(jobs[name], after[name], fault.Torn?)
  {
    FirstPassDoes(k, now, jobs, entries);
    var first, sorted := SecondPassDoes(k, now, jobs, entries);
    assert sorted[j] in sorted;
    SecondPassKeeps(now, first, sorted[..j], CapIndex(first.items), name);
    SecondPassKeeps(now, first, sorted[..j], CapIndex(first.items), sorted[j].name);
    var p := SecondPass(now, first, sorted[..j], CapIndex(first.items));
    assert Kept(jobs[name], first.jobs[name], false);
    FaultKeeps(p.jobs, ExpireArtifacts(p.jobs, sorted[j], now), sorted[j].name, fault, name);
  }

  lemma FaultKeeps(before: Jobs, after: Jobs, written: Name, fault: Fault, name: Name)
    requires written in before && written in after && name in before && before[written].Job? && after[written].Job?
    requires after == before[written := after[written]] && Kept(before[written], after[written], false)
    ensures name in Faulted(before, after, written, fault)
    ensures Kept(before[name], Faulted(before, after, written, fault)[name], fault.Torn?)
  {
  }

  lemma {:induction false} SecondPassKeeps(now: int, p: Pass, sorted: seq<Item>, cap: nat, name: Name)
    requires name in p.jobs
    requires forall x :: x in sorted ==> HasStatus(p.jobs, x.name, Cleaned)
                                         && x.record.createdAt == p.jobs[x.name].record.createdAt
    ensures var after := SecondPass(now, p, sorted, cap).jobs;
            name in after && Kept(p.jobs[name], after[name], false)
  {
    if sorted != [] {
      var n := |sorted| - 1;
      assert sorted[n] in sorted;
      SecondPassKeeps(now, p, sorted[..n], cap, name);
    }
  }

  /** Over any run in which it is not discarded a job keeps its record, unless a write tears
      one, and the status only moves prepared -> cleaned -> artifact-expired, possibly skipping. */
  lemma {:induction false} StatusOnlyAdvances(s: Store, events: seq<Event>, name: Name)
    requires name in s.jobs && s.inFlight != Some(name)
    requires Discard(name) !in events
    ensures var t := Run(s, events);
            && name in t.jobs && t.inFlight != Some(name)
            && Kept(s.jobs[name], t.jobs[name], exists e :: e in events && Tears(e))
  {
    if events != [] {
      var n := |events| - 1;
      StatusOnlyAdvances(s, events[..n], name);
      NextAdvances(Run(s, events[..n]), events[n], name);
      if Tears(events[n]) {
        assert events[n] in events;
      }
      if e :| e in events[..n] && Tears(e) {
        assert e in events;
      }
    }
  }
}
