// Progress of the queue: it drains, a claim serves somebody whenever it can, and
// nobody waits for more than the jobs ahead.
module QueueProgress {
  import opened Basics
  import opened Sums
  import opened QueueModel
  import opened QueueInvariant
  import opened QueueSafety
  import opened QueueRuns

  // ------------------------------------------------------------------------
  // Draining

  // Claims, recoveries and finishes a job can still see.
  function Potential(j: Job): int {
    if !Active(j) then 0
    else 2 * (j.maxAttempts - j.attempts) + (if j.status == Running then 1 else 0)
  }

  lemma PotentialBounds(j: Job)
    requires RowOk(j)
    ensures 0 <= Potential(j) <= 2 * j.maxAttempts
    ensures Active(j) ==> Potential(j) >= 1
  {
  }

  // Every claim, recovery and finish of a job takes from its potential; nothing adds to it.
  lemma MoveDrains(q: Queue, now: Time, j: Job, k: Job)
    requires RowOk(j) && Moved(q, now, j, k)
    ensures Potential(k) <= Potential(j)
    ensures k.status != j.status <==> Potential(k) < Potential(j)
  {
  }

  // How often the status of a job changes in a run.
  ghost function Changes(c: Core, steps: seq<Timed>, id: Id): nat
    decreases |steps|
  {
    if steps == [] then 0
    else
      var after := Step(c, steps[0].now, steps[0].op);
      (if id in c.queue.jobs && id in after.queue.jobs && after.queue.jobs[id].status != c.queue.jobs[id].status then 1 else 0)
        + Changes(after, steps[1..], id)
  }

  // A job sees at most 2 * maxAttempts claims, recoveries and finishes, whatever
  // else happens in the run.
  lemma {:induction false} JobDrains(c: Core, steps: seq<Timed>, id: Id)
    requires Inv(c) && id in c.queue.jobs
    ensures id in Execute(c, steps).queue.jobs
    ensures Changes(c, steps, id) + Potential(Execute(c, steps).queue.jobs[id]) <= Potential(c.queue.jobs[id])
    ensures Changes(c, steps, id) <= 2 * c.queue.jobs[id].maxAttempts
    decreases |steps|
  {
    assert RowOk(c.queue.jobs[id]);
    PotentialBounds(c.queue.jobs[id]);
    RunInv(c, steps);
    if steps != [] {
      var after := Step(c, steps[0].now, steps[0].op);
      StepMoves(c, steps[0].now, steps[0].op, id);
      MoveDrains(c.queue, steps[0].now, c.queue.jobs[id], after.queue.jobs[id]);
      StepInv(c, steps[0].now, steps[0].op);
      JobDrains(after, steps[1..], id);
    }
    LastPotential(Execute(c, steps), id);
  }

  lemma LastPotential(c: Core, id: Id)
    requires Inv(c) && id in c.queue.jobs
    ensures Potential(c.queue.jobs[id]) >= 0
  {
    assert RowOk(c.queue.jobs[id]);
  }

  function PotentialIn(jobs: map<Id, Job>): Id -> int {
    id => if id in jobs then Potential(jobs[id]) else 0
  }

  ghost function TotalPotential(q: Queue): int {
    Sum(q.jobs.Keys, PotentialIn(q.jobs))
  }

  ghost predicate Progressed(before: Queue, after: Queue) {
    exists id :: id in before.jobs && id in after.jobs && after.jobs[id].status != before.jobs[id].status
  }

  lemma {:induction false} SumMonotone<K>(keys: set<K>, left: K -> int, right: K -> int)
    requires forall k :: k in keys ==> right(k) <= left(k)
    ensures Sum(keys, right) <= Sum(keys, left)
    decreases keys
  {
    if keys != {} {
      var k :| k in keys;
      SumRemove(keys, left, k);
      SumRemove(keys, right, k);
      SumMonotone(keys - {k}, left, right);
    }
  }

  lemma StepDrains(c: Core, now: Time, op: Op)
    requires Inv(c) && Step(c, now, op).queue.jobs.Keys == c.queue.jobs.Keys
    ensures var after := Step(c, now, op);
            && TotalPotential(after.queue) <= TotalPotential(c.queue)
            && (Progressed(c.queue, after.queue) ==> TotalPotential(after.queue) < TotalPotential(c.queue))
  {
    var before, after := c.queue.jobs, Step(c, now, op).queue.jobs;
    forall id | id in before
      ensures PotentialIn(after)(id) <= PotentialIn(before)(id)
      ensures after[id].status != before[id].status ==> PotentialIn(after)(id) < PotentialIn(before)(id) {
      assert RowOk(before[id]);
      StepMoves(c, now, op, id);
      MoveDrains(c.queue, now, before[id], after[id]);
    }
    SumMonotone(before.Keys, PotentialIn(before), PotentialIn(after));
    if Progressed(c.queue, Step(c, now, op).queue) {
      var id :| id in before && id in after && after[id].status != before[id].status;
      SumRemove(before.Keys, PotentialIn(before), id);
      SumRemove(before.Keys, PotentialIn(after), id);
      SumMonotone(before.Keys - {id}, PotentialIn(before), PotentialIn(after));
    }
  }

  ghost predicate NoNewJobs(c: Core, steps: seq<Timed>)
    decreases |steps|
  {
    steps != [] ==>
      var after := Step(c, steps[0].now, steps[0].op);
      after.queue.jobs.Keys == c.queue.jobs.Keys && NoNewJobs(after, steps[1..])
  }

  // How many steps of a run move some job on.
  ghost function Progress(c: Core, steps: seq<Timed>): nat
    decreases |steps|
  {
    if steps == [] then 0
    else
      var after := Step(c, steps[0].now, steps[0].op);
      (if Progressed(c.queue, after.queue) then 1 else 0) + Progress(after, steps[1..])
  }

  // Without new jobs the queue drains: only so many claims, recoveries and
  // finishes are left, and none once the potential is used up.
  lemma {:induction false} QueueDrains(c: Core, steps: seq<Timed>)
    requires Inv(c) && NoNewJobs(c, steps)
    ensures Progress(c, steps) + TotalPotential(Execute(c, steps).queue) <= TotalPotential(c.queue)
    ensures TotalPotential(Execute(c, steps).queue) >= 0
    decreases |steps|
  {
    if steps == [] {
      PotentialNonNegative(c);
    } else {
      StepDrains(c, steps[0].now, steps[0].op);
      StepInv(c, steps[0].now, steps[0].op);
      QueueDrains(Step(c, steps[0].now, steps[0].op), steps[1..]);
    }
  }

  lemma PotentialNonNegative(c: Core)
    requires Inv(c)
    ensures TotalPotential(c.queue) >= 0
    ensures TotalPotential(c.queue) == 0 ==> forall id :: id in c.queue.jobs ==> !Active(c.queue.jobs[id])
  {
    forall id | id in c.queue.jobs
      ensures PotentialIn(c.queue.jobs)(id) >= 0
      ensures Active(c.queue.jobs[id]) ==> PotentialIn(c.queue.jobs)(id) >= 1 {
      assert RowOk(c.queue.jobs[id]);
      PotentialBounds(c.queue.jobs[id]);
    }
    SumNonNegative(c.queue.jobs.Keys, PotentialIn(c.queue.jobs));
    forall id | id in c.queue.jobs && Active(c.queue.jobs[id]) ensures TotalPotential(c.queue) > 0 {
      SumRemove(c.queue.jobs.Keys, PotentialIn(c.queue.jobs), id);
      SumNonNegative(c.queue.jobs.Keys - {id}, PotentialIn(c.queue.jobs));
    }
  }

  // ------------------------------------------------------------------------
  // A claim serves the head of the queue, and there is one whenever somebody waits

  lemma BeforeIsTransitive(a: Job, i: Id, b: Job, j: Id, c: Job, k: Id)
    requires Before(a, i, b, j) && Before(b, j, c, k)
    ensures Before(a, i, c, k) && !Before(c, k, a, i)
  {
  }

  ghost predicate IsFirst(jobs: map<Id, Job>, ids: set<Id>, head: Id)
    requires ids <= jobs.Keys
  {
    head in ids && forall other :: other in ids && other != head ==> Before(jobs[head], head, jobs[other], other)
  }

  lemma FirstOfMore(jobs: map<Id, Job>, ids: set<Id>, next: Id, head: Id)
    requires ids <= jobs.Keys && head in jobs && head !in ids && IsFirst(jobs, ids, next)
    ensures IsFirst(jobs, ids + {head}, if Before(jobs[head], head, jobs[next], next) then head else next)
  {
    if Before(jobs[head], head, jobs[next], next) {
      forall other | other in ids && other != next ensures Before(jobs[head], head, jobs[other], other) {
        BeforeIsTransitive(jobs[head], head, jobs[next], next, jobs[other], other);
      }
    }
  }

  lemma {:induction false} HeadOf(jobs: map<Id, Job>, ids: set<Id>) returns (head: Id)
    requires ids != {} && ids <= jobs.Keys
    ensures IsFirst(jobs, ids, head)
    decreases ids
  {
    head :| head in ids;
    var rest := ids - {head};
    assert ids == rest + {head};
    if rest != {} {
      var next := HeadOf(jobs, rest);
      FirstOfMore(jobs, rest, next, head);
      if !Before(jobs[head], head, jobs[next], next) {
        head := next;
      }
    }
  }

  lemma ClaimServesSomebody(q: Queue, now: Time, locked: set<Id>, capacityFree: bool)
    ensures ClaimedJob(q, now, locked, capacityFree).Some? <==>
              capacityFree && !AnyRunning(q) && exists id :: Candidate(q, now, locked, id)
  {
    if exists id :: Candidate(q, now, locked, id) {
      var ids := set id | id in q.jobs && Candidate(q, now, locked, id);
      var id :| Candidate(q, now, locked, id);
      assert id in ids;
      var head := HeadOf(q.jobs, ids);
      assert IsHead(q, now, locked, head);
    }
  }

  // ------------------------------------------------------------------------
  // Bounded bypass

  predicate WaitsAhead(q: Queue, other: Id, id: Id)
    requires id in q.jobs
  {
    other in q.jobs && Waiting(q.jobs[other]) && Before(q.jobs[other], other, q.jobs[id], id)
  }

  // The waiting jobs that are claimed before the given one.
  ghost function Ahead(q: Queue, id: Id): set<Id>
    requires id in q.jobs
  {
    set other | other in q.jobs && WaitsAhead(q, other, id)
  }

  // A claim that got through while the job's own video was not locked.
  ghost predicate Serves(c: Core, step: Timed, id: Id)
    requires id in c.queue.jobs
  {
    && step.op.OpClaim? && WellFormed(c, step.op)
    && c.queue.jobs[id].videoId !in step.op.locked
    && ClaimedJob(c.queue, step.now, step.op.locked, step.op.capacityFree).Some?
  }

  // New, requeued and backed-off jobs queue up behind a job whose time has come.
  lemma NobodyOvertakes(c: Core, now: Time, op: Op, id: Id)
    requires id in c.queue.jobs && c.queue.jobs[id].availableAt < now
    requires id in Step(c, now, op).queue.jobs && Step(c, now, op).queue.jobs[id] == c.queue.jobs[id]
    ensures Ahead(Step(c, now, op).queue, id) <= Ahead(c.queue, id)
  {
    var after := Step(c, now, op);
    forall other | other in Ahead(after.queue, id) ensures other in Ahead(c.queue, id) {
      if other in c.queue.jobs {
        StepMoves(c, now, op, other);
      } else {
        NewJobIsLast(c, now, op, other);
      }
    }
  }

  lemma NewJobIsLast(c: Core, now: Time, op: Op, id: Id)
    requires id !in c.queue.jobs && id in Step(c, now, op).queue.jobs
    ensures Step(c, now, op).queue.jobs[id].availableAt == now
  {
  }

  // The claim takes the waiting job itself or one that was ahead of it.
  lemma ClaimShortensTheLine(c: Core, step: Timed, id: Id)
    requires id in c.queue.jobs && Waiting(c.queue.jobs[id]) && c.queue.jobs[id].availableAt < step.now
    requires Serves(c, step, id)
    ensures var after := Step(c, step.now, step.op).queue;
            var head := ClaimedJob(c.queue, step.now, step.op.locked, step.op.capacityFree).value;
            && id in after.jobs
            && (head == id ==> after.jobs[id].attempts == c.queue.jobs[id].attempts + 1)
            && (head != id ==> head in Ahead(c.queue, id) && after.jobs[id] == c.queue.jobs[id] && head !in Ahead(after, id))
  {
    var head := ClaimedJob(c.queue, step.now, step.op.locked, step.op.capacityFree).value;
    assert IsHead(c.queue, step.now, step.op.locked, head);
    assert Candidate(c.queue, step.now, step.op.locked, id);
  }

  // How many claims served somebody in a run while the job could have been served.
  ghost function Served(c: Core, steps: seq<Timed>, id: Id): nat
    decreases |steps|
  {
    if steps == [] || id !in c.queue.jobs then 0
    else (if Serves(c, steps[0], id) then 1 else 0) + Served(Step(c, steps[0].now, steps[0].op), steps[1..], id)
  }

  ghost predicate AllAfter(steps: seq<Timed>, time: Time) {
    forall i :: 0 <= i < |steps| ==> time < steps[i].now
  }

  lemma {:induction false} AttemptsGrow(c: Core, steps: seq<Timed>, id: Id)
    requires id in c.queue.jobs
    ensures id in Execute(c, steps).queue.jobs
    ensures c.queue.jobs[id].attempts <= Execute(c, steps).queue.jobs[id].attempts
    decreases |steps|
  {
    if steps != [] {
      StepMoves(c, steps[0].now, steps[0].op, id);
      AttemptsGrow(Step(c, steps[0].now, steps[0].op), steps[1..], id);
    }
  }

  // As long as a job whose time has come is not claimed, every claim takes one of
  // the jobs that were ahead of it at the start.
  lemma {:induction false} BoundedBypass(c: Core, steps: seq<Timed>, id: Id)
    requires id in c.queue.jobs && Waiting(c.queue.jobs[id]) && AllAfter(steps, c.queue.jobs[id].availableAt)
    ensures id in Execute(c, steps).queue.jobs
    ensures Execute(c, steps).queue.jobs[id].attempts == c.queue.jobs[id].attempts ==>
              Served(c, steps, id) + |Ahead(Execute(c, steps).queue, id)| <= |Ahead(c.queue, id)|
    decreases |steps|
  {
    AttemptsGrow(c, steps, id);
    if steps != [] && Execute(c, steps).queue.jobs[id].attempts == c.queue.jobs[id].attempts {
      var after := Step(c, steps[0].now, steps[0].op);
      assert Execute(c, steps) == Execute(after, steps[1..]);
      StepMoves(c, steps[0].now, steps[0].op, id);
      AttemptsGrow(after, steps[1..], id);
      assert after.queue.jobs[id] == c.queue.jobs[id];
      NobodyOvertakes(c, steps[0].now, steps[0].op, id);
      if Serves(c, steps[0], id) { ClaimShortensTheLine(c, steps[0], id); }
      Shrinks(Ahead(after.queue, id), Ahead(c.queue, id));
      BoundedBypass(after, steps[1..], id);
    }
  }

  lemma Shrinks(small: set<Id>, large: set<Id>)
    requires small <= large
    ensures |small| <= |large| && (small != large ==> |small| < |large|)
  {
    assert large == small + (large - small);
  }

  // So the job is claimed within one claim more than there were jobs ahead of it.
  lemma ClaimedInTurn(c: Core, steps: seq<Timed>, id: Id)
    requires id in c.queue.jobs && Waiting(c.queue.jobs[id]) && AllAfter(steps, c.queue.jobs[id].availableAt)
    requires Served(c, steps, id) > |Ahead(c.queue, id)|
    ensures id in Execute(c, steps).queue.jobs && Execute(c, steps).queue.jobs[id].attempts > c.queue.jobs[id].attempts
  {
    BoundedBypass(c, steps, id);
    AttemptsGrow(c, steps, id);
  }
}
