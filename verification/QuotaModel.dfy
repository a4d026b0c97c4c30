// The quota ledger: reservations against a limit, each settled once.
module QuotaModel {
  import opened Basics
  import opened QuotaWindows
  import opened Sums

  datatype Kind = UploadCount | StorageBytes | ContentEvaluations

  datatype Role = Admin | Staff | Visitor

  datatype User = User(role: Role, active: bool, expiresAt: Option<Time>)

  // "content:<job id>" is the key of a content evaluation; every other caller
  // passes a text of its own.
  datatype BusinessKey = ContentKey(jobId: Id) | TextKey(text: string)

  datatype EntryState = Reserved | Committed | Released

  datatype Entry = Entry(amount: int, window: Window, state: EntryState)

  datatype LedgerKey = LedgerKey(userId: Id, kind: Kind, key: BusinessKey)

  datatype Policy = Policy(period: Period, limit: Option<int>)

  datatype Adjustment = Adjustment(kind: Kind, period: Period, limit: Option<int>, reason: string)

  // quota_policies, quota_ledger and quota_adjustments, with the accounts they belong to.
  datatype Quota = Quota(
    users: map<Id, User>,
    policies: map<(Id, Kind), Policy>,
    ledger: map<LedgerKey, Entry>,
    adjustments: map<(Id, string), Adjustment>)

  datatype QuotaError = BadRequest | NotFound | Forbidden | Conflict

  const MAX_SAFE_INTEGER: int := 9007199254740991

  predicate ValidAmount(amount: int, allowZero: bool) {
    (if allowZero then 0 else 1) <= amount <= MAX_SAFE_INTEGER
  }

  predicate ValidKey(key: BusinessKey) {
    key.TextKey? ==> 0 < |key.text| <= 200
  }

  predicate IdentityActive(user: User, now: Time) {
    user.active && (user.expiresAt.Some? ==> user.expiresAt.value > now)
  }

  // What an entry takes from the given window.
  function Holding(ledger: map<LedgerKey, Entry>, userId: Id, kind: Kind, start: int): LedgerKey -> int {
    k =>
      if k in ledger && k.userId == userId && k.kind == kind && ledger[k].window.start == start && ledger[k].state != Released
      then ledger[k].amount else 0
  }

  // reserved + committed in one window
  ghost function Used(ledger: map<LedgerKey, Entry>, userId: Id, kind: Kind, start: int): int {
    Sum(ledger.Keys, Holding(ledger, userId, kind, start))
  }

  function WindowOf(q: Quota, userId: Id, kind: Kind, now: Time): Window {
    QuotaWindow(if (userId, kind) in q.policies then q.policies[(userId, kind)].period else Lifetime, now)
  }

  function LimitOf(q: Quota, userId: Id, kind: Kind): Option<int> {
    if (userId, kind) in q.policies then q.policies[(userId, kind)].limit else None
  }

  ghost function Reserve(q: Quota, now: Time, userId: Id, kind: Kind, amount: int, key: BusinessKey): Result<Quota, QuotaError> {
    var k := LedgerKey(userId, kind, key);
    if !ValidAmount(amount, false) || !ValidKey(key) then Failure(BadRequest)
    else if userId !in q.users then Failure(NotFound)
    else if !IdentityActive(q.users[userId], now) then Failure(Forbidden)
    else if k in q.ledger then
      if q.ledger[k].amount != amount || q.ledger[k].state == Released then Failure(Conflict) else Success(q)
    else if q.users[userId].role == Visitor && (userId, kind) !in q.policies then Failure(Forbidden)
    else
      var window := WindowOf(q, userId, kind, now);
      var limit := LimitOf(q, userId, kind);
      if limit.Some? && Used(q.ledger, userId, kind, window.start) + amount > limit.value then Failure(Forbidden)
      else Success(q.(ledger := q.ledger[k := Entry(amount, window, Reserved)]))
  }

  function Settle(q: Quota, userId: Id, kind: Kind, key: BusinessKey, state: EntryState): Result<Quota, QuotaError> {
    var k := LedgerKey(userId, kind, key);
    if userId !in q.users then Failure(NotFound)
    else if k !in q.ledger then Success(q)
    else if q.ledger[k].state == state then Success(q)
    else if q.ledger[k].state != Reserved then Failure(Conflict)
    else Success(q.(ledger := q.ledger[k := q.ledger[k].(state := state)]))
  }

  // The reason has been trimmed.
  function Adjust(q: Quota, userId: Id, input: Adjustment, key: string): Result<Quota, QuotaError> {
    if !ValidAmount(if input.limit.Some? then input.limit.value else 0, true) || !ValidKey(TextKey(key)) then Failure(BadRequest)
    else if input.reason == "" then Failure(BadRequest)
    else if input.kind == StorageBytes && input.period != Lifetime then Failure(BadRequest)
    else if userId !in q.users then Failure(NotFound)
    else if (userId, key) in q.adjustments then
      if q.adjustments[(userId, key)] == input then Success(q) else Failure(Conflict)
    else if (userId, input.kind) in q.policies && q.policies[(userId, input.kind)].period != input.period
            && (exists k :: k in q.ledger && k.userId == userId && k.kind == input.kind) then Failure(Conflict)
    else Success(q.(policies := q.policies[(userId, input.kind) := Policy(input.period, input.limit)],
                    adjustments := q.adjustments[(userId, key) := input]))
  }

  // ------------------------------------------------------------------------
  // Reserving and settling

  // Entries are never removed, keep their amount and window, and only move
  // from reserved to committed or to released.
  ghost predicate OnlySettles(before: map<LedgerKey, Entry>, after: map<LedgerKey, Entry>) {
    forall k :: k in before ==>
      && k in after
      && after[k].amount == before[k].amount && after[k].window == before[k].window
      && (before[k].state != Reserved ==> after[k].state == before[k].state)
  }

  lemma UsedAfterReserve(q: Quota, k: LedgerKey, entry: Entry, userId: Id, kind: Kind, start: int)
    requires k !in q.ledger && entry.state == Reserved
    ensures var hit := k.userId == userId && k.kind == kind && entry.window.start == start;
            Used(q.ledger[k := entry], userId, kind, start) == Used(q.ledger, userId, kind, start) + if hit then entry.amount else 0
  {
    var after := q.ledger[k := entry];
    SumInsert(q.ledger.Keys, Holding(q.ledger, userId, kind, start), Holding(after, userId, kind, start), k);
    assert after.Keys == q.ledger.Keys + {k};
  }

  lemma UsedAfterSettle(q: Quota, k: LedgerKey, state: EntryState, userId: Id, kind: Kind, start: int)
    requires k in q.ledger && q.ledger[k].state == Reserved && state != Reserved
    ensures var hit := k.userId == userId && k.kind == kind && q.ledger[k].window.start == start;
            var given := if hit && state == Released then q.ledger[k].amount else 0;
            Used(q.ledger[k := q.ledger[k].(state := state)], userId, kind, start) == Used(q.ledger, userId, kind, start) - given
  {
    var after := q.ledger[k := q.ledger[k].(state := state)];
    SumUpdate(q.ledger.Keys, Holding(q.ledger, userId, kind, start), Holding(after, userId, kind, start), k);
    assert after.Keys == q.ledger.Keys;
  }

  // A reservation that goes through keeps its window within the limit in force;
  // a replayed business key adds nothing.
  lemma ReserveStaysWithinLimit(q: Quota, now: Time, userId: Id, kind: Kind, amount: int, key: BusinessKey)
    requires Reserve(q, now, userId, kind, amount, key).Success?
    ensures var after := Reserve(q, now, userId, kind, amount, key).value;
            var start := WindowOf(q, userId, kind, now).start;
            var limit := LimitOf(q, userId, kind);
            && OnlySettles(q.ledger, after.ledger)
            && after == q.(ledger := after.ledger)
            && LedgerKey(userId, kind, key) in after.ledger
            && after.ledger[LedgerKey(userId, kind, key)].amount == amount
            && (if LedgerKey(userId, kind, key) in q.ledger then after == q
                else
                  && after.ledger[LedgerKey(userId, kind, key)].state == Reserved
                  && Used(after.ledger, userId, kind, start) == Used(q.ledger, userId, kind, start) + amount
                  && (limit.Some? ==> Used(after.ledger, userId, kind, start) <= limit.value))
    ensures forall u: Id, j: Kind, w: int :: u != userId || j != kind || w != WindowOf(q, userId, kind, now).start ==>
              Used(Reserve(q, now, userId, kind, amount, key).value.ledger, u, j, w) == Used(q.ledger, u, j, w)
  {
    var k := LedgerKey(userId, kind, key);
    if k !in q.ledger {
      var entry := Entry(amount, WindowOf(q, userId, kind, now), Reserved);
      UsedAfterReserve(q, k, entry, userId, kind, entry.window.start);
      forall u: Id, j: Kind, w: int | u != userId || j != kind || w != entry.window.start
        ensures Used(q.ledger[k := entry], u, j, w) == Used(q.ledger, u, j, w) {
        UsedAfterReserve(q, k, entry, u, j, w);
      }
    }
  }

  ghost predicate NonNegative(ledger: map<LedgerKey, Entry>) {
    forall k :: k in ledger ==> ledger[k].amount > 0
  }

  // Committing changes no sum; releasing gives back exactly the reserved amount.
  lemma SettleNeverRaises(q: Quota, userId: Id, kind: Kind, key: BusinessKey, state: EntryState)
    requires state != Reserved && NonNegative(q.ledger)
    requires Settle(q, userId, kind, key, state).Success?
    ensures var after := Settle(q, userId, kind, key, state).value;
            && OnlySettles(q.ledger, after.ledger) && NonNegative(after.ledger)
            && after == q.(ledger := after.ledger)
            && after.ledger.Keys == q.ledger.Keys
            && (LedgerKey(userId, kind, key) in q.ledger ==> after.ledger[LedgerKey(userId, kind, key)].state == state)
            && forall u, j, w ::
                 && Used(after.ledger, u, j, w) <= Used(q.ledger, u, j, w)
                 && (state == Committed ==> Used(after.ledger, u, j, w) == Used(q.ledger, u, j, w))
  {
    var k := LedgerKey(userId, kind, key);
    if k in q.ledger && q.ledger[k].state == Reserved {
      forall u, j, w
        ensures Used(q.ledger[k := q.ledger[k].(state := state)], u, j, w) <= Used(q.ledger, u, j, w)
        ensures state == Committed ==>
                  Used(q.ledger[k := q.ledger[k].(state := state)], u, j, w) == Used(q.ledger, u, j, w) {
        UsedAfterSettle(q, k, state, u, j, w);
      }
    }
  }

  // ------------------------------------------------------------------------
  // Any sequence of reservations and settlements

  datatype QuotaOp =
    | DoReserve(now: Time, userId: Id, kind: Kind, amount: int, key: BusinessKey)
    | DoSettle(userId: Id, kind: Kind, key: BusinessKey, commit: bool)
    | DoAdjust(userId: Id, input: Adjustment, adjustmentKey: string)

  ghost function Attempt(q: Quota, op: QuotaOp): Result<Quota, QuotaError> {
    match op
    case DoReserve(now, userId, kind, amount, key) => Reserve(q, now, userId, kind, amount, key)
    case DoSettle(userId, kind, key, commit) => Settle(q, userId, kind, key, if commit then Committed else Released)
    case DoAdjust(userId, input, key) => Adjust(q, userId, input, key)
  }

  // A refused operation changes nothing.
  ghost function QuotaStep(q: Quota, op: QuotaOp): Quota {
    match Attempt(q, op) case Success(after) => after case Failure(_) => q
  }

  ghost function QuotaRun(q: Quota, ops: seq<QuotaOp>): Quota {
    if ops == [] then q else QuotaStep(QuotaRun(q, ops[..|ops| - 1]), ops[|ops| - 1])
  }

  ghost predicate Within(q: Quota, userId: Id, kind: Kind, start: int) {
    var limit := LimitOf(q, userId, kind);
    limit.Some? ==> Used(q.ledger, userId, kind, start) <= limit.value
  }

  lemma StepStaysWithin(q: Quota, op: QuotaOp, userId: Id, kind: Kind, start: int)
    requires NonNegative(q.ledger) && !op.DoAdjust?
    ensures var after := QuotaStep(q, op);
            && NonNegative(after.ledger) && OnlySettles(q.ledger, after.ledger)
            && after == q.(ledger := after.ledger)
            && (Within(q, userId, kind, start) ==> Within(after, userId, kind, start))
  {
    match op
    case DoReserve(now, u, k, amount, key) =>
      if Reserve(q, now, u, k, amount, key).Success? {
        ReserveStaysWithinLimit(q, now, u, k, amount, key);
      }
    case DoSettle(u, k, key, commit) =>
      if Attempt(q, op).Success? {
        SettleNeverRaises(q, u, k, key, if commit then Committed else Released);
      }
    case DoAdjust(_, _, _) =>
  }

  // Between two adjustments every window that was within its limit stays within it.
  lemma {:induction false} RunStaysWithin(q: Quota, ops: seq<QuotaOp>, userId: Id, kind: Kind, start: int)
    requires NonNegative(q.ledger)
    requires forall i :: 0 <= i < |ops| ==> !ops[i].DoAdjust?
    ensures var after := QuotaRun(q, ops);
            && NonNegative(after.ledger) && OnlySettles(q.ledger, after.ledger)
            && after == q.(ledger := after.ledger)
            && (Within(q, userId, kind, start) ==> Within(after, userId, kind, start))
  {
    if ops != [] {
      RunStaysWithin(q, ops[..|ops| - 1], userId, kind, start);
      StepStaysWithin(QuotaRun(q, ops[..|ops| - 1]), ops[|ops| - 1], userId, kind, start);
    }
  }

  // Replaying a request that went through changes nothing, until it is settled by a release.
  lemma ReplayIsIdempotent(q: Quota, now: Time, later: Time, userId: Id, kind: Kind, amount: int, key: BusinessKey)
    requires Reserve(q, now, userId, kind, amount, key).Success?
    requires IdentityActive(q.users[userId], later)
    ensures var after := Reserve(q, now, userId, kind, amount, key).value;
            Reserve(after, later, userId, kind, amount, key) == Success(after)
  {
  }

  lemma AdjustIsIdempotent(q: Quota, userId: Id, input: Adjustment, key: string)
    requires Adjust(q, userId, input, key).Success?
    ensures var after := Adjust(q, userId, input, key).value;
            Adjust(after, userId, input, key) == Success(after) && after.ledger == q.ledger
  {
  }

  // A period is never changed under existing usage, so old entries stay in the
  // windows the policy counts.
  lemma AdjustKeepsPeriodInUse(q: Quota, userId: Id, input: Adjustment, key: string, u: Id, kind: Kind)
    requires Adjust(q, userId, input, key).Success?
    requires (u, kind) in q.policies && exists k :: k in q.ledger && k.userId == u && k.kind == kind
    ensures var after := Adjust(q, userId, input, key).value;
            (u, kind) in after.policies && after.policies[(u, kind)].period == q.policies[(u, kind)].period
  {
  }
}
