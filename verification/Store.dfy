// The database as an object: one field per table. A transaction that fails
// restores the state it started from.
module Store {
  import opened Basics
  import opened QuotaModel
  import opened QueueModel
  import opened WorkflowModel
  import opened WorkflowInvariant

  class Database {
    var users: map<Id, User>
    var policies: map<(Id, Kind), Policy>
    var ledger: map<LedgerKey, Entry>
    var adjustments: map<(Id, string), Adjustment>
    var jobs: map<Id, Job>
    var attempts: map<Id, Attempt>
    var usage: map<Id, Usage>
    var videos: map<Id, Video>
    var revisions: map<Id, Revision>
    var groups: map<Id, Group>
    var runs: map<RunKey, RunState>
    var decisions: map<Id, Decision>
    var holds: map<Id, WorkflowHold>
    var appeals: map<Id, Appeal>
    var gates: map<Id, Gate>

    function QuotaState(): Quota
      reads this
    {
      Quota(users, policies, ledger, adjustments)
    }

    function CoreState(): Core
      reads this
    {
      Core(QuotaState(), Queue(jobs, attempts, usage))
    }

    function FlowState(): Flow
      reads this
    {
      Flow(videos, revisions, groups, runs, decisions, holds, appeals, gates)
    }

    function State(): Db
      reads this
    {
      Db(CoreState(), FlowState())
    }

    ghost predicate Valid()
      reads this
    {
      DbInv(State())
    }

    static lemma EmptyIsValid(users: map<Id, User>, videos: map<Id, Video>)
      ensures DbInv(Db(Core(Quota(users, map[], map[], map[]), Queue(map[], map[], map[])),
                       Flow(videos, map[], map[], map[], map[], map[], map[], map[])))
    {
    }

    constructor (users: map<Id, User>, videos: map<Id, Video>)
      ensures Valid()
      ensures State() == Db(Core(Quota(users, map[], map[], map[]), Queue(map[], map[], map[])),
                            Flow(videos, map[], map[], map[], map[], map[], map[], map[]))
    {
      this.users, policies, ledger, adjustments := users, map[], map[], map[];
      jobs, attempts, usage := map[], map[], map[];
      this.videos, revisions, groups, runs := videos, map[], map[], map[];
      decisions, holds, appeals, gates := map[], map[], map[], map[];
      EmptyIsValid(users, videos);
    }

    method RestoreCore(saved: Core)
      modifies `users, `policies, `ledger, `adjustments, `jobs, `attempts, `usage
      ensures CoreState() == saved
    {
      users, policies, ledger, adjustments := saved.quota.users, saved.quota.policies, saved.quota.ledger, saved.quota.adjustments;
      jobs, attempts, usage := saved.queue.jobs, saved.queue.attempts, saved.queue.usage;
    }

    method RestoreFlow(saved: Flow)
      modifies `videos, `revisions, `groups, `runs, `decisions, `holds, `appeals, `gates
      ensures FlowState() == saved
    {
      videos, revisions, groups, runs := saved.videos, saved.revisions, saved.groups, saved.runs;
      decisions, holds, appeals, gates := saved.decisions, saved.holds, saved.appeals, saved.gates;
    }

    // ROLLBACK
    method Restore(saved: Db)
      modifies this
      ensures State() == saved
    {
      RestoreCore(saved.core);
      RestoreFlow(saved.flow);
    }
  }
}
