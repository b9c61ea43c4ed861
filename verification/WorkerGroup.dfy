/** Round-robin dispatch over unbuffered channels. */
module WorkerGroup {
  import opened GoInt
  import opened Tasks

  type Job = nat

  /** The jobs whose number, counted from 1, leaves the remainder `worker`. */
  ghost function Share(jobs: seq<Job>, workers: nat, worker: nat): seq<Job>
    requires workers > 0
  {
    if jobs == [] then [] else
    var before := Share(jobs[..|jobs| - 1], workers, worker);
    if |jobs| % workers == worker then before + [jobs[|jobs| - 1]] else before
  }

  /** A dispatcher holds the lock from choosing the next worker until that worker takes the job, so a
      job may be in its hand while the worker it is meant for is still busy. */
  class Dispatcher {
    const concurrency: nat
    var lastAssignedWorkerIndex: nat
    var offered: Option<Job>
    var busy: seq<bool>

    ghost var jobs: seq<Job>
    ghost var received: seq<seq<Job>>
    ghost var finished: seq<nat>

    /** The jobs that have reached a worker: all but the one in the dispatcher's hand. */
    ghost function Delivered(): seq<Job>
      requires offered.Some? ==> jobs != []
      reads this
    {
      if offered.Some? then jobs[..|jobs| - 1] else jobs
    }

    ghost predicate Valid()
      reads this
    {
      && concurrency > 0 && |busy| == concurrency && |received| == |finished| == concurrency
      && lastAssignedWorkerIndex == |jobs| % concurrency
      && (offered.Some? ==> jobs != [] && offered.value == jobs[|jobs| - 1])
      && (forall i :: 0 <= i < concurrency ==> received[i] == Share(Delivered(), concurrency, i))
      && (forall i :: 0 <= i < concurrency ==> |received[i]| == finished[i] + if busy[i] then 1 else 0)
    }

    constructor (concurrency: nat)
      requires concurrency > 0
      ensures Valid() && this.concurrency == concurrency
      ensures offered.None? && jobs == [] && forall i :: 0 <= i < concurrency ==> !busy[i] && finished[i] == 0
    {
      this.concurrency := concurrency;
      lastAssignedWorkerIndex := 0;
      offered := None;
      busy := [];
      jobs, received, finished := [], [], [];
      new;
      for i := 0 to concurrency
        invariant |busy| == |received| == |finished| == i && jobs == [] && offered.None? && lastAssignedWorkerIndex == 0
        invariant forall j :: 0 <= j < i ==> !busy[j] && received[j] == [] && finished[j] == 0
      {
        busy := busy + [false];
        received := received + [[]];
        finished := finished + [0];
      }
    }

    /** The next worker in turn is chosen whether or not it is free. */
    method Offer(job: Job)
      requires Valid() && offered.None?
      modifies this`lastAssignedWorkerIndex, this`offered, this`jobs
      ensures Valid()
      ensures jobs == old(jobs) + [job] && offered == Some(job)
      ensures lastAssignedWorkerIndex == (old(lastAssignedWorkerIndex) + 1) % concurrency
    {
      NextRemainder(|jobs|, concurrency);
      lastAssignedWorkerIndex := (lastAssignedWorkerIndex + 1) % concurrency;
      offered := Some(job);
      jobs := jobs + [job];
      assert jobs[..|jobs| - 1] == old(jobs);
    }

    /** The chosen worker takes the job as soon as it is free; until then nobody gets one. */
    method Take()
      requires Valid() && offered.Some? && !busy[lastAssignedWorkerIndex]
      modifies this`offered, this`busy, this`received
      ensures Valid()
      ensures offered.None?
      ensures busy == old(busy)[lastAssignedWorkerIndex := true]
      ensures var worker := lastAssignedWorkerIndex;
        received == old(received)[worker := old(received)[worker] + [old(offered).value]]
    {
      var worker := lastAssignedWorkerIndex;
      received := received[worker := received[worker] + [offered.value]];
      busy := busy[worker := true];
      offered := None;
    }

    /** Assigning a job lasts until its worker has it. Meanwhile any of the busy workers may finish, and
        the chosen one has to if it is busy; nobody else gets a job. */
    method AssignJob(job: Job, finishing: set<nat>)
      requires Valid() && offered.None?
      requires forall i :: i in finishing ==> i < concurrency && busy[i]
      requires busy[(lastAssignedWorkerIndex + 1) % concurrency] ==>
        (lastAssignedWorkerIndex + 1) % concurrency in finishing
      modifies this
      ensures Valid() && offered.None?
      ensures jobs == old(jobs) + [job]
      ensures lastAssignedWorkerIndex == (old(lastAssignedWorkerIndex) + 1) % concurrency
      ensures received == old(received)[lastAssignedWorkerIndex := old(received)[lastAssignedWorkerIndex] + [job]]
      ensures forall i :: 0 <= i < concurrency ==>
        busy[i] == (i == lastAssignedWorkerIndex || (old(busy)[i] && i !in finishing))
    {
      Offer(job);
      var rest := finishing;
      while rest != {}
        invariant rest <= finishing && Valid() && offered == Some(job)
        invariant jobs == old(jobs) + [job] && received == old(received)
        invariant lastAssignedWorkerIndex == (old(lastAssignedWorkerIndex) + 1) % concurrency
        invariant forall i :: 0 <= i < concurrency ==> busy[i] == (old(busy)[i] && i !in finishing - rest)
      {
        var worker :| worker in rest;
        Finish(worker);
        rest := rest - {worker};
      }
      Take();
    }

    /** A worker is done with its job and waits for the next. */
    method Finish(worker: nat)
      requires Valid() && worker < concurrency && busy[worker]
      modifies this`busy, this`finished
      ensures Valid()
      ensures busy == old(busy)[worker := false]
      ensures finished == old(finished)[worker := old(finished)[worker] + 1]
    {
      busy := busy[worker := false];
      finished := finished[worker := finished[worker] + 1];
    }

    /** Of all jobs dispatched so far, those not finished are one for each busy worker and the one in the
        dispatcher's hand: never more than the workers there are, and that one. */
    lemma UnfinishedJobs()
      requires Valid()
      ensures |jobs| - Sum(finished) == BusyCount(busy) + if offered.Some? then 1 else 0
      ensures BusyCount(busy) <= concurrency
      ensures forall i :: 0 <= i < concurrency ==> |Share(Delivered(), concurrency, i)| - finished[i] <= 1
    {
      var q, r := Turns(|Delivered()|, concurrency);
      SharesAddUp(Delivered(), received, q, r);
      FinishedAndBusy(received, finished, busy);
    }
  }

  // ---- Jobs that are not finished

  ghost function Sum(counts: seq<nat>): nat {
    if counts == [] then 0 else Sum(counts[..|counts| - 1]) + counts[|counts| - 1]
  }

  ghost function BusyCount(busy: seq<bool>): (count: nat)
    ensures count <= |busy|
  {
    if busy == [] then 0 else BusyCount(busy[..|busy| - 1]) + if busy[|busy| - 1] then 1 else 0
  }

  ghost function Sizes(received: seq<seq<Job>>): (sizes: seq<nat>)
    ensures |sizes| == |received| && forall i :: 0 <= i < |received| ==> sizes[i] == |received[i]|
  {
    seq(|received|, i requires 0 <= i < |received| => |received[i]|)
  }

  lemma {:induction false} FinishedAndBusy(received: seq<seq<Job>>, finished: seq<nat>, busy: seq<bool>)
    requires |received| == |finished| == |busy|
    requires forall i :: 0 <= i < |busy| ==> |received[i]| == finished[i] + if busy[i] then 1 else 0
    ensures Sum(Sizes(received)) == Sum(finished) + BusyCount(busy)
    decreases |busy|
  {
    if busy != [] {
      var n := |busy| - 1;
      assert Sizes(received)[..n] == Sizes(received[..n]);
      FinishedAndBusy(received[..n], finished[..n], busy[..n]);
    }
  }

  /** Full turns, and what is left of the last one. */
  lemma Turns(n: nat, workers: nat) returns (q: nat, r: nat)
    requires workers > 0
    ensures r < workers && n == q * workers + r
  {
    q, r := n / workers, n % workers;
  }

  /** The first workers share out the jobs in full turns and what is left of the last one. */
  lemma {:induction false} FirstShares(jobs: seq<Job>, workers: nat, sizes: seq<nat>, q: nat, r: nat)
    requires |sizes| <= workers && r < workers && |jobs| == q * workers + r
    requires forall i :: 0 <= i < |sizes| ==> sizes[i] == |Share(jobs, workers, i)|
    ensures Sum(sizes) == q * |sizes| + if sizes == [] then 0 else Min(r, |sizes| - 1)
    decreases |sizes|
  {
    if sizes != [] {
      var n := |sizes| - 1;
      FirstShares(jobs, workers, sizes[..n], q, r);
      SharesAreEven(jobs, workers, n, q, r);
      assert q * (n + 1) == q * n + q;
    }
  }

  lemma SharesAddUp(jobs: seq<Job>, received: seq<seq<Job>>, q: nat, r: nat)
    requires r < |received| && |jobs| == q * |received| + r
    requires forall i :: 0 <= i < |received| ==> received[i] == Share(jobs, |received|, i)
    ensures Sum(Sizes(received)) == |jobs|
  {
    FirstShares(jobs, |received|, Sizes(received), q, r);
  }

  lemma LargerQuotient(n: nat, q: int, q': int)
    requires q < q'
    ensures q * n + n <= q' * n
  {
    var d := q' - q - 1;
    assert q' * n == (q + 1 + d) * n == q * n + n + d * n;
    assert d * n >= 0;
  }

  lemma DivisionIsUnique(n: nat, q: int, r: int, q': int, r': int)
    requires 0 <= r < n && 0 <= r' < n && q * n + r == q' * n + r'
    ensures q == q' && r == r'
  {
    if q < q' {
      LargerQuotient(n, q, q');
    } else if q' < q {
      LargerQuotient(n, q', q);
    }
  }

  lemma RemainderOf(q: nat, n: nat, r: nat)
    requires r < n
    ensures (q * n + r) % n == r
  {
    var k := q * n + r;
    DivisionIsUnique(n, q, r, k / n, k % n);
  }

  lemma NextRemainder(k: nat, n: nat)
    requires n > 0
    ensures (k + 1) % n == (k % n + 1) % n
  {
    var q, r := k / n, k % n;
    assert k == q * n + r;
    if r + 1 < n {
      RemainderOf(q, n, r + 1);
    } else {
      assert k + 1 == (q + 1) * n + 0;
      RemainderOf(q + 1, n, 0);
    }
  }

  /** After q full turns and r more jobs each worker has had q jobs, and workers 1 to r one more: the
      numbers of jobs differ by at most one. */
  lemma {:induction false} SharesAreEven(jobs: seq<Job>, workers: nat, worker: nat, q: nat, r: nat)
    requires worker < workers && r < workers && |jobs| == q * workers + r
    ensures |Share(jobs, workers, worker)| == q + if 1 <= worker <= r then 1 else 0
    decreases |jobs|
  {
    RemainderOf(q, workers, r);
    if r > 0 {
      SharesAreEven(jobs[..|jobs| - 1], workers, worker, q, r - 1);
    } else if q > 0 {
      assert |jobs| - 1 == (q - 1) * workers + (workers - 1);
      SharesAreEven(jobs[..|jobs| - 1], workers, worker, q - 1, workers - 1);
    }
  }

  /** The j-th job of a worker is the j-th one in line whose number has the worker's remainder. */
  lemma {:induction false} ShareAt(jobs: seq<Job>, workers: nat, worker: nat, number: nat, q: nat)
    requires worker < workers && number == q * workers + worker && 1 <= number <= |jobs|
    ensures var j := if worker == 0 then q - 1 else q;
      0 <= j < |Share(jobs, workers, worker)| && Share(jobs, workers, worker)[j] == jobs[number - 1]
    decreases |jobs|
  {
    RemainderOf(q, workers, worker);
    if number < |jobs| {
      ShareAt(jobs[..|jobs| - 1], workers, worker, number, q);
    } else if worker > 0 {
      SharesAreEven(jobs[..|jobs| - 1], workers, worker, q, worker - 1);
    } else {
      assert |jobs| - 1 == (q - 1) * workers + (workers - 1);
      SharesAreEven(jobs[..|jobs| - 1], workers, worker, q - 1, workers - 1);
    }
  }
}
