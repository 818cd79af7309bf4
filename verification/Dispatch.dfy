/** Advisory allocation of haul trucks to dispatch jobs.

    Over any sequence of the operations no truck is in two live assignments, and no job has more
    live assignments than the trucks it asks for; and recommendations go to the best-ranked jobs
    first, leaving no truck idle while one of them has room. */
module Dispatch {
  import opened Wrappers

  datatype JobStatus = Open | Paused | Complete | Cancelled

  datatype Job = Job(id: nat, priority: int, created: int, target: Option<nat>, status: JobStatus)

  datatype AssignmentState = Recommended | Approved | Active | Rejected | Released

  datatype Assignment = Assignment(id: nat, job: nat, truck: nat, state: AssignmentState)

  predicate Committed(a: Assignment) {
    a.state == Approved || a.state == Active
  }

  predicate Live(a: Assignment) {
    a.state == Recommended || Committed(a)
  }

  /** How many live assignments a job has. */
  function LiveOf(rows: seq<Assignment>, job: nat): nat {
    if |rows| == 0 then 0
    else LiveOf(rows[..|rows|-1], job) + (if Live(rows[|rows|-1]) && rows[|rows|-1].job == job then 1 else 0)
  }

  function CommittedOf(rows: seq<Assignment>, job: nat): nat {
    if |rows| == 0 then 0
    else CommittedOf(rows[..|rows|-1], job) + (if Committed(rows[|rows|-1]) && rows[|rows|-1].job == job then 1 else 0)
  }

  predicate Full(j: Job, count: nat) {
    j.target.Some? && count >= j.target.value
  }

  /** A truck is in at most one live assignment. */
  ghost predicate OneEach(rows: seq<Assignment>) {
    forall i, k :: 0 <= i < k < |rows| && Live(rows[i]) && Live(rows[k]) ==> rows[i].truck != rows[k].truck
  }

  /** A job that asks for so many trucks has no more. */
  ghost predicate WithinTarget(jobs: seq<Job>, rows: seq<Assignment>) {
    forall i :: 0 <= i < |jobs| && jobs[i].target.Some? ==> LiveOf(rows, jobs[i].id) <= jobs[i].target.value
  }

  ghost predicate DistinctJobs(jobs: seq<Job>) {
    forall i, k :: 0 <= i < k < |jobs| ==> jobs[i].id != jobs[k].id
  }

  ghost predicate DistinctRows(rows: seq<Assignment>, next: nat) {
    && (forall i, k :: 0 <= i < k < |rows| ==> rows[i].id != rows[k].id)
    && forall i :: 0 <= i < |rows| ==> rows[i].id < next
  }

  // ---- ranking --------------------------------------------------------------------------------

  /** Higher priority first, then the older job. */
  predicate RanksBefore(a: Job, b: Job) {
    a.priority > b.priority || (a.priority == b.priority && a.created <= b.created)
  }

  ghost predicate Ranked(jobs: seq<Job>) {
    forall i, k :: 0 <= i < k < |jobs| ==> RanksBefore(jobs[i], jobs[k])
  }

  function Place(jobs: seq<Job>, j: Job): seq<Job> {
    if |jobs| == 0 || RanksBefore(jobs[|jobs|-1], j) then jobs + [j]
    else Place(jobs[..|jobs|-1], j) + [jobs[|jobs|-1]]
  }

  /** The open jobs, best first. */
  function OpenJobs(jobs: seq<Job>): seq<Job> {
    if |jobs| == 0 then []
    else
      var rest := OpenJobs(jobs[..|jobs|-1]);
      if jobs[|jobs|-1].status == Open then Place(rest, jobs[|jobs|-1]) else rest
  }

  lemma {:induction false} PlaceRanks(jobs: seq<Job>, j: Job)
    requires Ranked(jobs)
    ensures Ranked(Place(jobs, j)) && forall x :: x in Place(jobs, j) <==> x in jobs || x == j
  {
    if |jobs| > 0 && !RanksBefore(jobs[|jobs|-1], j) {
      var init, last := jobs[..|jobs|-1], jobs[|jobs|-1];
      assert jobs == init + [last];
      PlaceRanks(init, j);
      assert forall x :: x in Place(init, j) ==> RanksBefore(x, last);
    } else if |jobs| > 0 {
      assert forall i :: 0 <= i < |jobs| ==> RanksBefore(jobs[i], j);
    }
  }

  lemma {:induction false} OpenJobsRank(jobs: seq<Job>)
    ensures Ranked(OpenJobs(jobs)) && forall x :: x in OpenJobs(jobs) <==> x in jobs && x.status == Open
  {
    if |jobs| > 0 {
      assert jobs == jobs[..|jobs|-1] + [jobs[|jobs|-1]];
      OpenJobsRank(jobs[..|jobs|-1]);
      PlaceRanks(OpenJobs(jobs[..|jobs|-1]), jobs[|jobs|-1]);
    }
  }

  // ---- one recommendation ---------------------------------------------------------------------

  function Pending(pending: map<nat, nat>, job: nat): nat {
    if job in pending then pending[job] else 0
  }

  /** The first job still under its target. */
  method NextJob(jobs: seq<Job>, committed: map<nat, nat>, pending: map<nat, nat>) returns (n: nat)
    ensures n <= |jobs|
    ensures n < |jobs| ==> !Full(jobs[n], Pending(committed, jobs[n].id) + Pending(pending, jobs[n].id))
    ensures forall i :: 0 <= i < n ==> Full(jobs[i], Pending(committed, jobs[i].id) + Pending(pending, jobs[i].id))
  {
    for i := 0 to |jobs|
      invariant forall k :: 0 <= k < i ==> Full(jobs[k], Pending(committed, jobs[k].id) + Pending(pending, jobs[k].id))
    {
      if jobs[i].target.None? {
        return i;
      }
      if Pending(committed, jobs[i].id) + Pending(pending, jobs[i].id) < jobs[i].target.value {
        return i;
      }
    }
    return |jobs|;
  }

  /** The rows that are not recommendations. */
  function Kept(rows: seq<Assignment>): seq<Assignment> {
    if |rows| == 0 then []
    else Kept(rows[..|rows|-1]) + (if rows[|rows|-1].state == Recommended then [] else [rows[|rows|-1]])
  }

  lemma {:induction false} KeptIn(rows: seq<Assignment>)
    ensures forall a :: a in Kept(rows) <==> a in rows && a.state != Recommended
  {
    if |rows| > 0 {
      assert rows == rows[..|rows|-1] + [rows[|rows|-1]];
      KeptIn(rows[..|rows|-1]);
    }
  }

  lemma LiveOfMore(rows: seq<Assignment>, a: Assignment, job: nat)
    ensures LiveOf(rows + [a], job) == LiveOf(rows, job) + (if Live(a) && a.job == job then 1 else 0)
    ensures CommittedOf(rows + [a], job) == CommittedOf(rows, job) + (if Committed(a) && a.job == job then 1 else 0)
  {
    assert (rows + [a])[..|rows|] == rows;
  }

  lemma {:induction false} KeptCounts(rows: seq<Assignment>, j: nat)
    ensures LiveOf(Kept(rows), j) == CommittedOf(Kept(rows), j) == CommittedOf(rows, j) <= LiveOf(rows, j)
  {
    if |rows| > 0 {
      var init, last := rows[..|rows|-1], rows[|rows|-1];
      KeptCounts(init, j);
      assert rows == init + [last];
      if last.state == Recommended {
        assert Kept(rows) == Kept(init);
      } else {
        assert Kept(rows) == Kept(init) + [last];
      }
      hide LiveOf, CommittedOf;
      LiveOfMore(init, last, j);
      LiveOfMore(Kept(init), last, j);
    }
  }

  lemma {:induction false} KeptRows(rows: seq<Assignment>, next: nat)
    requires OneEach(rows) && DistinctRows(rows, next)
    ensures OneEach(Kept(rows)) && DistinctRows(Kept(rows), next)
  {
    if |rows| > 0 {
      var init, last := rows[..|rows|-1], rows[|rows|-1];
      KeptRows(init, next);
      KeptIn(init);
      var kept := Kept(init);
      forall i | 0 <= i < |kept|
        ensures kept[i].id != last.id && (Live(kept[i]) && Live(last) ==> kept[i].truck != last.truck)
      {
        assert kept[i] in init;
      }
    }
  }

  function CommittedTrucks(rows: seq<Assignment>): (s: set<nat>)
    ensures forall t :: t in s <==> exists a :: a in rows && Committed(a) && a.truck == t
  {
    set a | a in rows && Committed(a) :: a.truck
  }

  /** How many committed rows each job has. */
  method CountCommitted(rows: seq<Assignment>) returns (counts: map<nat, nat>)
    ensures forall j :: Pending(counts, j) == CommittedOf(rows, j)
  {
    counts := map[];
    for i := 0 to |rows|
      invariant forall j :: Pending(counts, j) == CommittedOf(rows[..i], j)
    {
      assert rows[..i+1][..i] == rows[..i];
      if Committed(rows[i]) {
        counts := counts[rows[i].job := Pending(counts, rows[i].job) + 1];
      }
    }
    assert rows[..|rows|] == rows;
  }

  /** The trucks that are not committed, in order. */
  function Available(trucks: seq<nat>, committed: set<nat>): (r: seq<nat>)
    ensures forall t :: t in r <==> t in trucks && t !in committed
  {
    if |trucks| == 0 then []
    else
      var last := trucks[|trucks|-1];
      assert trucks == trucks[..|trucks|-1] + [last];
      Available(trucks[..|trucks|-1], committed) + (if last in committed then [] else [last])
  }

  ghost predicate Differ(s: seq<nat>) {
    forall i, k :: 0 <= i < k < |s| ==> s[i] != s[k]
  }

  lemma {:induction false} AvailableDiffer(trucks: seq<nat>, committed: set<nat>)
    requires Differ(trucks)
    ensures Differ(Available(trucks, committed))
  {
    if |trucks| > 0 {
      AvailableDiffer(trucks[..|trucks|-1], committed);
      var init, last := Available(trucks[..|trucks|-1], committed), trucks[|trucks|-1];
      if last in committed {
        assert Available(trucks, committed) == init;
      } else {
        assert Available(trucks, committed) == init + [last];
      }
      var t := trucks[..|trucks|-1];
      assert forall i :: 0 <= i < |t| ==> t[i] == trucks[i] != last;
      assert last !in t;
      var r := Available(trucks, committed);
      forall i, k | 0 <= i < k < |r| ensures r[i] != r[k] {
        assert r[i] == init[i];
        if k == |init| {
          assert r[k] == last && init[i] in init && init[i] in t;
        } else {
          assert r[k] == init[k] && init[i] != init[k];
        }
      }
    }
  }

  // ---- a run of recommendations ---------------------------------------------------------------

  /** The recommendations in `recs`, after the rows in `base`: one a truck, in order, each to a job
      all better-ranked ones left no room for. */
  ghost predicate Fair(base: seq<Assignment>, recs: seq<Assignment>, jobs: seq<Job>, trucks: seq<nat>) {
    && |recs| <= |trucks|
    && (forall i :: 0 <= i < |recs| ==> recs[i].state == Recommended && recs[i].truck == trucks[i])
    && (forall i :: 0 <= i < |recs| ==> FairFor(base + recs, jobs, recs[i]))
  }

  ghost predicate FairFor(rows: seq<Assignment>, jobs: seq<Job>, r: Assignment) {
    exists n :: 0 <= n < |jobs| && FairAt(rows, jobs, n, r)
  }

  ghost predicate FairAt(rows: seq<Assignment>, jobs: seq<Job>, n: nat, r: Assignment)
    requires n < |jobs|
  {
    r.job == jobs[n].id && forall i :: 0 <= i < n ==> Full(jobs[i], LiveOf(rows, jobs[i].id))
  }

  lemma FairStays(rows: seq<Assignment>, jobs: seq<Job>, n: nat, r: Assignment, a: Assignment)
    requires n < |jobs| && FairAt(rows, jobs, n, r)
    ensures FairAt(rows + [a], jobs, n, r)
  {
    forall k | 0 <= k < n ensures Full(jobs[k], LiveOf(rows + [a], jobs[k].id)) {
      LiveOfMore(rows, a, jobs[k].id);
    }
  }

  lemma {:induction false} FairStep(base: seq<Assignment>, recs: seq<Assignment>, jobs: seq<Job>, trucks: seq<nat>,
                                    n: nat, r: Assignment)
    requires Fair(base, recs, jobs, trucks) && |recs| < |trucks| && n < |jobs|
    requires r.state == Recommended && r.truck == trucks[|recs|] && FairAt(base + recs, jobs, n, r)
    ensures Fair(base, recs + [r], jobs, trucks)
  {
    hide FairAt, LiveOf;
    var rows, more := base + recs, recs + [r];
    assert base + more == rows + [r];
    forall i | 0 <= i < |more|
      ensures more[i].state == Recommended && more[i].truck == trucks[i]
      ensures FairFor(base + more, jobs, more[i])
    {
      if i < |recs| {
        assert FairFor(rows, jobs, recs[i]);
        var m :| 0 <= m < |jobs| && FairAt(rows, jobs, m, recs[i]);
        FairStays(rows, jobs, m, recs[i], r);
        assert FairAt(base + more, jobs, m, more[i]);
      } else {
        FairStays(rows, jobs, n, r, r);
        assert FairAt(base + more, jobs, n, more[i]);
      }
    }
  }

  lemma {:induction false} RowsStep(jobs: seq<Job>, open: seq<Job>, rows: seq<Assignment>, next: nat, n: nat,
                                    r: Assignment)
    requires OneEach(rows) && DistinctRows(rows, next) && WithinTarget(jobs, rows) && DistinctJobs(jobs)
    requires n < |open| && open[n] in jobs && !Full(open[n], LiveOf(rows, open[n].id))
    requires r == Assignment(next, open[n].id, r.truck, Recommended)
    requires forall a :: a in rows && Live(a) ==> a.truck != r.truck
    ensures OneEach(rows + [r]) && DistinctRows(rows + [r], next + 1) && WithinTarget(jobs, rows + [r])
  {
    forall i | 0 <= i < |jobs| && jobs[i].target.Some? ensures LiveOf(rows + [r], jobs[i].id) <= jobs[i].target.value {
      LiveOfMore(rows, r, jobs[i].id);
      if jobs[i].id == open[n].id {
        var k :| 0 <= k < |jobs| && jobs[k] == open[n];
        assert i == k;
      }
    }
    assert forall i :: 0 <= i < |rows| ==> rows[i] in rows;
  }

  /** What a supervisor may rely on after recommending: if an open job still has room, every truck
      is committed or recommended, and none was recommended to a job it outranks. */
  ghost predicate BestFirst(base: seq<Assignment>, recs: seq<Assignment>, open: seq<Job>, trucks: seq<nat>) {
    forall n :: 0 <= n < |open| && !Full(open[n], LiveOf(base + recs, open[n].id)) ==>
      Served(base, recs, open, trucks, n)
  }

  ghost predicate Served(base: seq<Assignment>, recs: seq<Assignment>, open: seq<Job>, trucks: seq<nat>, n: nat)
    requires n < |open|
  {
    && (forall t :: t in trucks ==> exists a :: a in base + recs && Live(a) && a.truck == t)
    && (forall r :: r in recs ==> exists m :: 0 <= m <= n && r.job == open[m].id)
  }

  lemma {:induction false} FairIsBest(base: seq<Assignment>, recs: seq<Assignment>, open: seq<Job>, trucks: seq<nat>,
                                      available: seq<nat>)
    requires available == Available(trucks, CommittedTrucks(base)) && Fair(base, recs, open, available)
    requires |recs| == |available| || forall n :: 0 <= n < |open| ==> Full(open[n], LiveOf(base + recs, open[n].id))
    ensures BestFirst(base, recs, open, trucks)
  {
    hide Full, LiveOf;
    forall n | 0 <= n < |open| && !Full(open[n], LiveOf(base + recs, open[n].id))
      ensures Served(base, recs, open, trucks, n)
    {
      forall t | t in trucks ensures exists a :: a in base + recs && Live(a) && a.truck == t {
        if t in available {
          var i :| 0 <= i < |available| && available[i] == t;
          assert recs[i] in base + recs && Live(recs[i]);
        } else {
          var a :| a in base && Committed(a) && a.truck == t;
          assert a in base + recs;
        }
      }
      forall r | r in recs ensures exists m :: 0 <= m <= n && r.job == open[m].id {
        var i :| 0 <= i < |recs| && recs[i] == r;
        assert FairFor(base + recs, open, recs[i]);
        var m :| 0 <= m < |open| && FairAt(base + recs, open, m, recs[i]);
        assert m <= n;
      }
    }
  }

  // ---- the tables -----------------------------------------------------------------------------

  ghost predicate Inv(jobs: seq<Job>, rows: seq<Assignment>, next: nat) {
    OneEach(rows) && WithinTarget(jobs, rows) && DistinctJobs(jobs) && DistinctRows(rows, next)
  }

  /** A row with the given id, if there is one. */
  method Find(rows: seq<Assignment>, id: nat) returns (n: nat)
    ensures n <= |rows| && (n < |rows| ==> rows[n].id == id)
    ensures n == |rows| ==> forall i :: 0 <= i < |rows| ==> rows[i].id != id
  {
    n := 0;
    while n < |rows| && rows[n].id != id
      invariant n <= |rows| && forall i :: 0 <= i < n ==> rows[i].id != id
    {
      n := n + 1;
    }
  }

  /** Rows that are no more live than before, and of the same trucks and jobs. */
  ghost predicate NoMoreLive(rows: seq<Assignment>, after: seq<Assignment>) {
    |after| == |rows| && forall i :: 0 <= i < |rows| ==>
      after[i].id == rows[i].id && after[i].job == rows[i].job && after[i].truck == rows[i].truck &&
        (Live(after[i]) ==> Live(rows[i]))
  }

  lemma {:induction false} FewerLive(rows: seq<Assignment>, after: seq<Assignment>, job: nat)
    requires NoMoreLive(rows, after)
    ensures LiveOf(after, job) <= LiveOf(rows, job)
  {
    if |rows| > 0 {
      FewerLive(rows[..|rows|-1], after[..|rows|-1], job);
    }
  }

  lemma {:induction false} NoMoreKeeps(jobs: seq<Job>, rows: seq<Assignment>, after: seq<Assignment>, next: nat)
    requires Inv(jobs, rows, next) && NoMoreLive(rows, after)
    ensures Inv(jobs, after, next)
  {
    forall i | 0 <= i < |jobs| && jobs[i].target.Some? ensures LiveOf(after, jobs[i].id) <= jobs[i].target.value {
      FewerLive(rows, after, jobs[i].id);
    }
  }

  lemma {:induction false} NoneOfJob(rows: seq<Assignment>, job: nat)
    requires forall i :: 0 <= i < |rows| ==> rows[i].job != job
    ensures LiveOf(rows, job) == 0
  {
    if |rows| > 0 {
      NoneOfJob(rows[..|rows|-1], job);
    }
  }

  /** Every assignment is of a job there is. */
  ghost predicate Referring(jobs: seq<Job>, rows: seq<Assignment>) {
    forall i :: 0 <= i < |rows| ==> HasJob(jobs, rows[i].job)
  }

  ghost predicate HasJob(jobs: seq<Job>, id: nat) {
    exists k :: 0 <= k < |jobs| && jobs[k].id == id
  }

  /** Only a job's id and target matter to the invariant. */
  lemma SameTargets(jobs: seq<Job>, after: seq<Job>, rows: seq<Assignment>, next: nat)
    requires Inv(jobs, rows, next) && |after| == |jobs|
    requires forall k :: 0 <= k < |jobs| ==> after[k].id == jobs[k].id && after[k].target == jobs[k].target
    ensures Inv(after, rows, next)
    ensures Referring(jobs, rows) ==> Referring(after, rows)
  {
    hide LiveOf;
    forall i | 0 <= i < |after| && after[i].target.Some? ensures LiveOf(rows, after[i].id) <= after[i].target.value {
      assert jobs[i].target.Some?;
    }
    if Referring(jobs, rows) {
      forall i | 0 <= i < |rows| ensures HasJob(after, rows[i].job) {
        assert HasJob(jobs, rows[i].job);
        var k :| 0 <= k < |jobs| && jobs[k].id == rows[i].job;
        assert after[k].id == rows[i].job;
      }
    }
  }

  datatype Outcome = Done | NotFound | Refused

  class Board {
    var jobs: seq<Job>
    var rows: seq<Assignment>
    var next: nat

    ghost predicate Valid()
      reads this
    {
      Inv(jobs, rows, next) && Referring(jobs, rows)
    }

    constructor ()
      ensures Valid() && jobs == [] && rows == []
    {
      jobs, rows, next := [], [], 0;
    }

    /** Adds a job; a target must be positive. */
    method CreateJob(id: nat, priority: int, created: int, target: Option<int>) returns (o: Outcome)
      requires Valid() && forall i :: 0 <= i < |jobs| ==> jobs[i].id != id
      modifies `jobs
      ensures Valid() && (o == Refused <==> target.Some? && target.value <= 0)
      ensures o == Refused ==> jobs == old(jobs)
      ensures o != Refused ==>
        |jobs| == |old(jobs)| + 1 && old(jobs) <= jobs && jobs[|jobs|-1].id == id && jobs[|jobs|-1].status == Open
    {
      if target.Some? && target.value <= 0 {
        return Refused;
      }
      NoneOfJob(rows, id);
      var t: Option<nat> := if target.Some? then Some(target.value) else None;
      jobs := jobs + [Job(id, priority, created, t, Open)];
      assert forall k :: 0 <= k < |old(jobs)| ==> jobs[k] == old(jobs)[k];
      return Done;
    }

    /** Ending a job frees the trucks committed to it. */
    method SetJobStatus(job: nat, status: JobStatus) returns (o: Outcome)
      requires Valid()
      modifies `jobs, `rows
      ensures Valid() && (o == NotFound <==> forall i :: 0 <= i < |old(jobs)| ==> old(jobs)[i].id != job)
      ensures NoMoreLive(old(rows), rows) && |jobs| == |old(jobs)|
      ensures o == NotFound ==> jobs == old(jobs) && rows == old(rows)
      ensures forall i :: 0 <= i < |jobs| ==>
        jobs[i] == if jobs[i].id == job then old(jobs)[i].(status := status) else old(jobs)[i]
      ensures forall i :: 0 <= i < |rows| ==>
        rows[i] == if o == Done && (status == Complete || status == Cancelled) && Committed(old(rows)[i]) &&
          old(rows)[i].job == job
                   then old(rows)[i].(state := Released) else old(rows)[i]
    {
      var n := 0;
      while n < |jobs| && jobs[n].id != job
        invariant n <= |jobs| && forall i :: 0 <= i < n ==> jobs[i].id != job
      {
        n := n + 1;
      }
      if n == |jobs| {
        return NotFound;
      }
      ghost var before := rows;
      jobs := jobs[n := jobs[n].(status := status)];
      ghost var changed := jobs;
      if status == Complete || status == Cancelled {
        for i := 0 to |rows|
          invariant jobs == changed && |rows| == |before| && forall k :: 0 <= k < |rows| ==>
            rows[k] == if k < i && Committed(before[k]) && before[k].job == job then before[k].(state := Released)
              else before[k]
        {
          if Committed(rows[i]) && rows[i].job == job {
            rows := rows[i := rows[i].(state := Released)];
          }
        }
      }
      NoMoreKeeps(old(jobs), before, rows, next);
      SameTargets(old(jobs), jobs, rows, next);
      return Done;
    }

    /** Only a recommendation can be approved or rejected. */
    method Decide(id: nat, approve: bool) returns (o: Outcome)
      requires Valid()
      modifies `rows
      ensures Valid() && NoMoreLive(old(rows), rows)
      ensures o == NotFound <==> forall i :: 0 <= i < |old(rows)| ==> old(rows)[i].id != id
      ensures o == Done <==>
        exists i :: 0 <= i < |old(rows)| && old(rows)[i].id == id && old(rows)[i].state == Recommended
      ensures forall i :: 0 <= i < |rows| ==>
        rows[i] == if o == Done && old(rows)[i].id == id
          then old(rows)[i].(state := if approve then Approved else Rejected) else old(rows)[i]
    {
      var n := Find(rows, id);
      if n == |rows| {
        return NotFound;
      }
      if rows[n].state != Recommended {
        return Refused;
      }
      ghost var before := rows;
      rows := rows[n := rows[n].(state := if approve then Approved else Rejected)];
      NoMoreKeeps(jobs, before, rows, next);
      return Done;
    }

    /** Replaces the recommendations not acted on: each truck that is free gets the best-ranked open
        job still short of its target. */
    method Recommend(trucks: seq<nat>) returns (recs: seq<Assignment>)
      requires Inv(jobs, rows, next) && Referring(jobs, rows)
      requires Differ(trucks)
      modifies `rows, `next
      ensures Inv(jobs, rows, next) && Referring(jobs, rows) && rows == Kept(old(rows)) + recs
      ensures Fair(Kept(old(rows)), recs, OpenJobs(jobs), Available(trucks, CommittedTrucks(Kept(old(rows)))))
      ensures BestFirst(Kept(old(rows)), recs, OpenJobs(jobs), trucks) && Ranked(OpenJobs(jobs))
      ensures Advises(jobs, rows, recs) && NoneIdle(jobs, rows, trucks)
    {
      StartFair(jobs, rows, next, trucks);
      hide *;
      var base := Kept(rows);
      var available := Available(trucks, CommittedTrucks(base));
      var following;
      recs, following := Pair(jobs, OpenJobs(jobs), trucks, available, base, next);
      InvOneEach(jobs, base + recs, following);
      Advice(jobs, base, recs, available);
      NoTruckIdle(jobs, base, recs, trucks);
      rows := base + recs;
      next := following;
    }
  }

  /** Each available truck in turn gets the first job with room, while there is one. */
  method Pair(ghost jobs: seq<Job>, open: seq<Job>, ghost trucks: seq<nat>, available: seq<nat>,
              base: seq<Assignment>, next: nat)
    returns (recs: seq<Assignment>, following: nat)
    requires Going(jobs, open, available, base, [], next) && available == Available(trucks, CommittedTrucks(base))
    requires forall j :: LiveOf(base, j) == CommittedOf(base, j)
    ensures BestFirst(base, recs, open, trucks) && Fair(base, recs, open, available)
    ensures Inv(jobs, base + recs, following)
    ensures Referring(jobs, base + recs)
  {
    hide *;
    var counts := CountCommitted(base);
    recs, following := [], next;
    assert base + recs == base;
    var pending: map<nat, nat> := map[];
    CountsStart(base, counts, pending);
    for i := 0 to |available|
      invariant |recs| == i && Going(jobs, open, available, base, recs, following)
      invariant Tallied(base + recs, counts, pending)
    {
      var n := NextJob(open, counts, pending);
      if n == |open| {
        AllFull(open, base + recs, counts, pending);
        break;
      }
      var rec := Assignment(following, open[n].id, available[i], Recommended);
      RoomAt(open, base + recs, counts, pending, n);
      GoingOn(jobs, open, trucks, available, base, recs, following, n, rec);
      TalliedOn(base + recs, counts, pending, rec);
      assert base + (recs + [rec]) == (base + recs) + [rec];
      recs, following := recs + [rec], following + 1;
      pending := pending[open[n].id := Pending(pending, open[n].id) + 1];
    }
    GoingDone(jobs, open, trucks, available, base, recs, following);
  }

  // ---- said of rows and jobs ------------------------------------------------------------------

  /** The rows that hold a truck for the job: recommended, approved or active. */
  function Holding(rows: seq<Assignment>, job: nat): set<int> {
    set i | 0 <= i < |rows| && rows[i].job == job &&
      (rows[i].state == Recommended || rows[i].state == Approved || rows[i].state == Active)
  }

  lemma {:induction false} LiveAreHolding(rows: seq<Assignment>, job: nat)
    ensures LiveOf(rows, job) == |Holding(rows, job)|
  {
    if |rows| > 0 {
      var n := |rows| - 1;
      LiveAreHolding(rows[..n], job);
      var H := Holding(rows[..n], job);
      assert Holding(rows, job) == if Live(rows[n]) && rows[n].job == job then H + {n} else H;
    }
  }

  /** Job `a` is of higher priority than `b`, or of the same and older. */
  predicate Outranks(a: Job, b: Job) {
    a.priority > b.priority || (a.priority == b.priority && a.created < b.created)
  }

  predicate Taken(rows: seq<Assignment>, truck: nat) {
    exists i :: 0 <= i < |rows| && rows[i].truck == truck && (rows[i].state == Approved || rows[i].state == Active)
  }

  predicate HasRoom(j: Job, rows: seq<Assignment>) {
    j.status == Open && (j.target.Some? ==> |Holding(rows, j.id)| < j.target.value)
  }

  /** No truck of an approved or active row is recommended, and none to a job that is not open or that another
      open job with room outranks. */
  ghost predicate Advises(jobs: seq<Job>, rows: seq<Assignment>, recs: seq<Assignment>) {
    forall r :: r in recs ==> !Taken(rows, r.truck) && AdvisedBest(jobs, rows, r)
  }

  ghost predicate AdvisedBest(jobs: seq<Job>, rows: seq<Assignment>, r: Assignment) {
    exists b :: b in jobs && b.id == r.job && b.status == Open &&
      forall a :: a in jobs && Outranks(a, b) ==> !HasRoom(a, rows)
  }

  lemma NotTaken(base: seq<Assignment>, recs: seq<Assignment>, r: Assignment)
    requires OneEach(base + recs) && r in recs && r.state == Recommended
    ensures !Taken(base + recs, r.truck)
  {
    var rows := base + recs;
    var k :| 0 <= k < |recs| && recs[k] == r;
    assert rows[|base| + k] == r;
    forall i | 0 <= i < |rows| && rows[i].truck == r.truck
      ensures rows[i].state != Approved && rows[i].state != Active
    {
      if Live(rows[i]) {
        SameRow(rows, i, |base| + k);
      }
    }
  }

  lemma SameRow(rows: seq<Assignment>, i: nat, k: nat)
    requires OneEach(rows) && i < |rows| && k < |rows| && Live(rows[i]) && Live(rows[k])
    requires rows[i].truck == rows[k].truck
    ensures i == k
  {
  }

  /** While an open job has room, no truck is left idle. */
  ghost predicate NoneIdle(jobs: seq<Job>, rows: seq<Assignment>, trucks: seq<nat>) {
    (exists a :: a in jobs && HasRoom(a, rows)) ==> forall t :: t in trucks ==> InUse(rows, t)
  }

  ghost predicate InUse(rows: seq<Assignment>, t: nat) {
    exists i :: 0 <= i < |rows| && rows[i].truck == t &&
      (rows[i].state == Recommended || rows[i].state == Approved || rows[i].state == Active)
  }

  lemma NoTruckIdle(jobs: seq<Job>, base: seq<Assignment>, recs: seq<Assignment>, trucks: seq<nat>)
    requires BestFirst(base, recs, OpenJobs(jobs), trucks)
    ensures NoneIdle(jobs, base + recs, trucks)
  {
    var open, rows := OpenJobs(jobs), base + recs;
    OpenJobsRank(jobs);
    hide OpenJobs, LiveOf, Holding;
    if a :| a in jobs && HasRoom(a, rows) {
      var m :| 0 <= m < |open| && open[m] == a;
      LiveAreHolding(rows, a.id);
      assert Served(base, recs, open, trucks, m);
      forall t | t in trucks ensures InUse(rows, t) {
        var x :| x in rows && Live(x) && x.truck == t;
        var i :| 0 <= i < |rows| && rows[i] == x;
      }
    }
  }

  lemma IsBest(jobs: seq<Job>, open: seq<Job>, rows: seq<Assignment>, r: Assignment)
    requires open == OpenJobs(jobs) && FairFor(rows, open, r)
    ensures AdvisedBest(jobs, rows, r)
  {
    OpenJobsRank(jobs);
    hide OpenJobs, LiveOf, Holding;
    var n :| 0 <= n < |open| && FairAt(rows, open, n, r);
    var b := open[n];
    assert b in open;
    forall a | a in jobs && Outranks(a, b) ensures !HasRoom(a, rows) {
      if a.status == Open {
        var m :| 0 <= m < |open| && open[m] == a;
        assert m > n ==> RanksBefore(b, a);
        assert Full(open[m], LiveOf(rows, open[m].id));
        LiveAreHolding(rows, a.id);
      }
    }
  }

  lemma InvOneEach(jobs: seq<Job>, rows: seq<Assignment>, next: nat)
    requires Inv(jobs, rows, next)
    ensures OneEach(rows)
  {
  }

  lemma {:induction false} Advice(jobs: seq<Job>, base: seq<Assignment>, recs: seq<Assignment>, available: seq<nat>)
    requires OneEach(base + recs) && Fair(base, recs, OpenJobs(jobs), available)
    ensures Advises(jobs, base + recs, recs)
  {
    hide OneEach, OpenJobs, FairFor, AdvisedBest, Taken;
    forall r | r in recs ensures !Taken(base + recs, r.truck) && AdvisedBest(jobs, base + recs, r) {
      var i :| 0 <= i < |recs| && recs[i] == r;
      NotTaken(base, recs, r);
      IsBest(jobs, OpenJobs(jobs), base + recs, r);
    }
  }

  // ---- the recommendation loop ----------------------------------------------------------------

  /** Recommendations so far: the tables are right, and each was fair. */
  ghost predicate Going(jobs: seq<Job>, open: seq<Job>, available: seq<nat>, base: seq<Assignment>,
                        recs: seq<Assignment>, next: nat) {
    && Inv(jobs, base + recs, next) && Fair(base, recs, open, available)
    && Referring(jobs, base + recs)
    && (forall j :: j in open ==> j in jobs) && (forall a :: a in base ==> a.state != Recommended)
    && Differ(available)
  }

  ghost predicate Tallied(rows: seq<Assignment>, counts: map<nat, nat>, pending: map<nat, nat>) {
    forall j :: LiveOf(rows, j) == Pending(counts, j) + Pending(pending, j)
  }

  lemma {:induction false} StartFair(jobs: seq<Job>, rows: seq<Assignment>, next: nat, trucks: seq<nat>)
    requires Inv(jobs, rows, next) && Differ(trucks)
    requires Referring(jobs, rows)
    ensures var base := Kept(rows); var open := OpenJobs(jobs);
            && Going(jobs, open, Available(trucks, CommittedTrucks(base)), base, [], next) && Ranked(open)
            && (forall j :: LiveOf(base, j) == CommittedOf(base, j))
            && Fair(base, [], open, Available(trucks, CommittedTrucks(base)))
  {
    var base := Kept(rows);
    KeptIn(rows);
    KeptRows(rows, next);
    KeptWithin(jobs, rows);
    AvailableDiffer(trucks, CommittedTrucks(base));
    OpenJobsRank(jobs);
    assert base + [] == base;
    hide Kept, LiveOf, CommittedOf, OpenJobs, Available, OneEach, WithinTarget, DistinctRows, Ranked;
    forall k | 0 <= k < |base| ensures HasJob(jobs, base[k].job) {
      assert base[k] in rows;
      var i :| 0 <= i < |rows| && rows[i] == base[k];
      assert HasJob(jobs, rows[i].job);
    }
  }

  lemma CountsStart(base: seq<Assignment>, counts: map<nat, nat>, pending: map<nat, nat>)
    requires (forall j :: Pending(counts, j) == CommittedOf(base, j)) && pending == map[]
    requires forall j :: LiveOf(base, j) == CommittedOf(base, j)
    ensures Tallied(base, counts, pending)
  {
    hide LiveOf, CommittedOf;
  }

  lemma AllFull(open: seq<Job>, rows: seq<Assignment>, counts: map<nat, nat>, pending: map<nat, nat>)
    requires Tallied(rows, counts, pending)
    requires forall i :: 0 <= i < |open| ==> Full(open[i], Pending(counts, open[i].id) + Pending(pending, open[i].id))
    ensures forall i :: 0 <= i < |open| ==> Full(open[i], LiveOf(rows, open[i].id))
  {
    hide LiveOf, Full, Pending;
  }

  lemma RoomAt(open: seq<Job>, rows: seq<Assignment>, counts: map<nat, nat>, pending: map<nat, nat>, n: nat)
    requires Tallied(rows, counts, pending) && n < |open|
    requires !Full(open[n], Pending(counts, open[n].id) + Pending(pending, open[n].id))
    requires forall i :: 0 <= i < n ==> Full(open[i], Pending(counts, open[i].id) + Pending(pending, open[i].id))
    ensures !Full(open[n], LiveOf(rows, open[n].id))
    ensures forall i :: 0 <= i < n ==> Full(open[i], LiveOf(rows, open[i].id))
  {
    hide LiveOf, Full, Pending;
  }

  lemma TalliedOn(rows: seq<Assignment>, counts: map<nat, nat>, pending: map<nat, nat>, rec: Assignment)
    requires Tallied(rows, counts, pending) && rec.state == Recommended
    ensures Tallied(rows + [rec], counts, pending[rec.job := Pending(pending, rec.job) + 1])
  {
    hide LiveOf;
    forall j
      ensures LiveOf(rows + [rec], j) ==
              Pending(counts, j) + Pending(pending[rec.job := Pending(pending, rec.job) + 1], j)
    {
      LiveOfMore(rows, rec, j);
    }
  }

  lemma {:induction false} GoingOn(jobs: seq<Job>, open: seq<Job>, trucks: seq<nat>, available: seq<nat>,
                                   base: seq<Assignment>, recs: seq<Assignment>, next: nat, n: nat, rec: Assignment)
    requires Going(jobs, open, available, base, recs, next) && |recs| < |available| && n < |open|
    requires available == Available(trucks, CommittedTrucks(base))
    requires rec == Assignment(next, open[n].id, available[|recs|], Recommended)
    requires !Full(open[n], LiveOf(base + recs, open[n].id))
    requires forall i :: 0 <= i < n ==> Full(open[i], LiveOf(base + recs, open[i].id))
    ensures Going(jobs, open, available, base, recs + [rec], next + 1)
  {
    var rows := base + recs;
    FreshTruck(base, recs, open, trucks, available, |recs|);
    assert FairAt(rows, open, n, rec);
    FairStep(base, recs, open, available, n, rec);
    assert open[n] in jobs;
    RowsStep(jobs, open, rows, next, n, rec);
    assert base + (recs + [rec]) == rows + [rec];
    hide Fair, OneEach, WithinTarget, DistinctRows, LiveOf, Full, CommittedTrucks, Available;
    forall k | 0 <= k < |rows + [rec]| ensures HasJob(jobs, (rows + [rec])[k].job) {
      if k == |rows| {
        var m :| 0 <= m < |jobs| && jobs[m] == open[n];
        assert jobs[m].id == rec.job;
      } else {
        assert HasJob(jobs, rows[k].job);
      }
    }
  }

  lemma {:induction false} GoingDone(jobs: seq<Job>, open: seq<Job>, trucks: seq<nat>, available: seq<nat>,
                                     base: seq<Assignment>, recs: seq<Assignment>, next: nat)
    requires Going(jobs, open, available, base, recs, next) && available == Available(trucks, CommittedTrucks(base))
    requires |recs| == |available| || forall n :: 0 <= n < |open| ==> Full(open[n], LiveOf(base + recs, open[n].id))
    ensures BestFirst(base, recs, open, trucks) && Fair(base, recs, open, available) && Inv(jobs, base + recs, next)
    ensures Referring(jobs, base + recs)
  {
    FairIsBest(base, recs, open, trucks, available);
  }

  lemma {:induction false} KeptWithin(jobs: seq<Job>, rows: seq<Assignment>)
    requires WithinTarget(jobs, rows)
    ensures WithinTarget(jobs, Kept(rows)) && forall j :: LiveOf(Kept(rows), j) == CommittedOf(Kept(rows), j)
  {
    forall j ensures LiveOf(Kept(rows), j) == CommittedOf(Kept(rows), j) <= LiveOf(rows, j) {
      KeptCounts(rows, j);
    }
  }

  /** The next free truck is in no live row yet. */
  lemma {:induction false} FreshTruck(base: seq<Assignment>, recs: seq<Assignment>, open: seq<Job>, trucks: seq<nat>,
                                      available: seq<nat>, i: nat)
    requires Fair(base, recs, open, available) && |recs| == i < |available|
    requires available == Available(trucks, CommittedTrucks(base))
    requires Differ(available)
    requires forall a :: a in base ==> a.state != Recommended
    ensures forall a :: a in base + recs && Live(a) ==> a.truck != available[i]
  {
    hide LiveOf, Full, FairAt;
    assert available[i] in available;
    forall a | a in base + recs && Live(a) ensures a.truck != available[i] {
      if a in base {
        assert Committed(a);
      } else {
        var k :| 0 <= k < |recs| && recs[k] == a;
      }
    }
  }
}
