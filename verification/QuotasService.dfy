// quotas.service.ts: reservations, settlements, adjustments and the summary.
module QuotasService {
  import opened Basics
  import opened Sums
  import opened QuotaWindows
  import opened QuotaModel
  import opened Store

  datatype QuotaLine = QuotaLine(kind: Kind, period: Period, limit: Option<int>, used: int, reserved: int,
                                 remaining: Option<int>, window: Window)

  const KINDS: seq<Kind> := [UploadCount, StorageBytes, ContentEvaluations]

  // What entries in one state take from a window.
  function HoldingIn(ledger: map<LedgerKey, Entry>, userId: Id, kind: Kind, start: int, state: EntryState): LedgerKey -> int {
    k =>
      if k in ledger && k.userId == userId && k.kind == kind && ledger[k].window.start == start && ledger[k].state == state
      then ledger[k].amount else 0
  }

  lemma {:induction false} SumSplits<K>(keys: set<K>, whole: K -> int, left: K -> int, right: K -> int)
    requires forall k :: k in keys ==> whole(k) == left(k) + right(k)
    ensures Sum(keys, whole) == Sum(keys, left) + Sum(keys, right)
    decreases keys
  {
    if keys != {} {
      var k :| k in keys;
      SumRemove(keys, whole, k);
      SumRemove(keys, left, k);
      SumRemove(keys, right, k);
      SumSplits(keys - {k}, whole, left, right);
    }
  }

  // used + reserved is what counts against the limit.
  lemma UsedSplits(ledger: map<LedgerKey, Entry>, userId: Id, kind: Kind, start: int)
    ensures Used(ledger, userId, kind, start)
         == Sum(ledger.Keys, HoldingIn(ledger, userId, kind, start, Committed))
          + Sum(ledger.Keys, HoldingIn(ledger, userId, kind, start, Reserved))
  {
    SumSplits(ledger.Keys, Holding(ledger, userId, kind, start),
              HoldingIn(ledger, userId, kind, start, Committed), HoldingIn(ledger, userId, kind, start, Reserved));
  }

  // SUM(weight) over the ledger, row by row.
  method Aggregate(ledger: map<LedgerKey, Entry>, weight: LedgerKey -> int) returns (total: int)
    ensures total == Sum(ledger.Keys, weight)
  {
    total := 0;
    var rest := ledger.Keys;
    while rest != {}
      invariant rest <= ledger.Keys
      invariant total + Sum(rest, weight) == Sum(ledger.Keys, weight)
      decreases rest
    {
      var k :| k in rest;
      SumRemove(rest, weight, k);
      total := total + weight(k);
      rest := rest - {k};
    }
  }

  class Quotas {
    const db: Database

    constructor (db: Database)
      ensures this.db == db
    {
      this.db := db;
    }

    method Reserve(now: Time, userId: Id, kind: Kind, amount: int, key: BusinessKey) returns (r: Result<(), QuotaError>)
      modifies db`ledger
      ensures db.CoreState().queue == old(db.CoreState().queue) && db.FlowState() == old(db.FlowState())
      ensures r.Success? ==> QuotaModel.Reserve(old(db.QuotaState()), now, userId, kind, amount, key) == Success(db.QuotaState())
      ensures r.Failure? ==> QuotaModel.Reserve(old(db.QuotaState()), now, userId, kind, amount, key) == Failure(r.error)
                             && db.ledger == old(db.ledger)
    {
      if !ValidAmount(amount, false) || !ValidKey(key) { return Failure(BadRequest); }
      if userId !in db.users { return Failure(NotFound); }
      var user := db.users[userId];
      if !IdentityActive(user, now) { return Failure(Forbidden); }
      var k := LedgerKey(userId, kind, key);
      if k in db.ledger {
        if db.ledger[k].amount != amount { return Failure(Conflict); }
        if db.ledger[k].state == Released { return Failure(Conflict); }
        return Success(());
      }
      if user.role == Visitor && (userId, kind) !in db.policies { return Failure(Forbidden); }
      var window := WindowOf(db.QuotaState(), userId, kind, now);
      var total := Aggregate(db.ledger, Holding(db.ledger, userId, kind, window.start));
      var limit := LimitOf(db.QuotaState(), userId, kind);
      if limit.Some? && total + amount > limit.value { return Failure(Forbidden); }
      db.ledger := db.ledger[k := Entry(amount, window, Reserved)];
      return Success(());
    }

    method Settle(userId: Id, kind: Kind, key: BusinessKey, state: EntryState) returns (r: Result<(), QuotaError>)
      modifies db`ledger
      ensures db.CoreState().queue == old(db.CoreState().queue) && db.FlowState() == old(db.FlowState())
      ensures r.Success? ==> QuotaModel.Settle(old(db.QuotaState()), userId, kind, key, state) == Success(db.QuotaState())
      ensures r.Failure? ==> QuotaModel.Settle(old(db.QuotaState()), userId, kind, key, state) == Failure(r.error)
                             && db.ledger == old(db.ledger)
    {
      if userId !in db.users { return Failure(NotFound); }
      var k := LedgerKey(userId, kind, key);
      if k !in db.ledger { return Success(()); }
      var entry := db.ledger[k];
      if entry.state == state { return Success(()); }
      if entry.state != Reserved { return Failure(Conflict); }
      db.ledger := db.ledger[k := entry.(state := state)];
      return Success(());
    }

    method Adjust(userId: Id, input: Adjustment, key: string) returns (r: Result<(), QuotaError>)
      modifies db`policies, db`adjustments
      ensures r.Success? ==> QuotaModel.Adjust(old(db.QuotaState()), userId, input, key) == Success(db.QuotaState())
      ensures r.Failure? ==> QuotaModel.Adjust(old(db.QuotaState()), userId, input, key) == Failure(r.error)
                             && db.QuotaState() == old(db.QuotaState())
    {
      if !ValidAmount(if input.limit.Some? then input.limit.value else 0, true) || !ValidKey(TextKey(key)) { return Failure(BadRequest); }
      if input.reason == "" { return Failure(BadRequest); }
      if input.kind == StorageBytes && input.period != Lifetime { return Failure(BadRequest); }
      if userId !in db.users { return Failure(NotFound); }
      if (userId, key) in db.adjustments {
        if db.adjustments[(userId, key)] != input { return Failure(Conflict); }
        return Success(());
      }
      var p := (userId, input.kind);
      if p in db.policies && db.policies[p].period != input.period {
        if exists k :: k in db.ledger && k.userId == userId && k.kind == input.kind { return Failure(Conflict); }
      }
      db.policies := db.policies[p := Policy(input.period, input.limit)];
      db.adjustments := db.adjustments[(userId, key) := input];
      return Success(());
    }

    // One line per kind: what is used and reserved in the current window, and
    // what a reservation may still take.
    method Summary(now: Time, userId: Id) returns (r: Result<seq<QuotaLine>, QuotaError>)
      ensures r.Failure? <==> userId !in db.users
      ensures r.Success? ==> |r.value| == |KINDS|
      ensures r.Success? ==> forall i :: 0 <= i < |KINDS| ==>
                var line := r.value[i];
                && line.kind == KINDS[i]
                && line.window == WindowOf(db.QuotaState(), userId, KINDS[i], now)
                && line.limit == LimitOf(db.QuotaState(), userId, KINDS[i])
                && line.used + line.reserved == Used(db.ledger, userId, KINDS[i], line.window.start)
                && line.used == Sum(db.ledger.Keys, HoldingIn(db.ledger, userId, KINDS[i], line.window.start, Committed))
                && (line.remaining.Some? <==> line.limit.Some?)
                && (line.remaining.Some? ==>
                      line.remaining.value == if line.limit.value < line.used + line.reserved then 0
                                              else line.limit.value - line.used - line.reserved)
    {
      if userId !in db.users { return Failure(NotFound); }
      var quotas: seq<QuotaLine> := [];
      while |quotas| < |KINDS|
        invariant |quotas| <= |KINDS|
        invariant forall i :: 0 <= i < |quotas| ==>
          var line := quotas[i];
          && line.kind == KINDS[i]
          && line.window == WindowOf(db.QuotaState(), userId, KINDS[i], now)
          && line.limit == LimitOf(db.QuotaState(), userId, KINDS[i])
          && line.used + line.reserved == Used(db.ledger, userId, KINDS[i], line.window.start)
          && line.used == Sum(db.ledger.Keys, HoldingIn(db.ledger, userId, KINDS[i], line.window.start, Committed))
          && (line.remaining.Some? <==> line.limit.Some?)
          && (line.remaining.Some? ==>
                line.remaining.value == if line.limit.value < line.used + line.reserved then 0
                                        else line.limit.value - line.used - line.reserved)
      {
        var kind := KINDS[|quotas|];
        var period := if (userId, kind) in db.policies then db.policies[(userId, kind)].period else Lifetime;
        var window := QuotaWindow(period, now);
        var used := Aggregate(db.ledger, HoldingIn(db.ledger, userId, kind, window.start, Committed));
        var reserved := Aggregate(db.ledger, HoldingIn(db.ledger, userId, kind, window.start, Reserved));
        UsedSplits(db.ledger, userId, kind, window.start);
        var limit := if (userId, kind) in db.policies then db.policies[(userId, kind)].limit else None;
        var remaining :=
          if limit.None? then None else Some(if limit.value - used - reserved > 0 then limit.value - used - reserved else 0);
        quotas := quotas + [QuotaLine(kind, period, limit, used, reserved, remaining, window)];
      }
      return Success(quotas);
    }
  }

  // The remaining figure is exact: while the account and its policy allow it at
  // all, a fresh reservation goes through exactly when it asks for no more than
  // what remains.
  lemma RemainingIsExact(q: Quota, now: Time, userId: Id, kind: Kind, amount: int, key: BusinessKey)
    requires userId in q.users && IdentityActive(q.users[userId], now)
    requires (userId, kind) in q.policies && q.policies[(userId, kind)].limit.Some?
    requires ValidAmount(amount, false) && ValidKey(key) && LedgerKey(userId, kind, key) !in q.ledger
    ensures var window := WindowOf(q, userId, kind, now);
            var free := q.policies[(userId, kind)].limit.value
                      - Sum(q.ledger.Keys, HoldingIn(q.ledger, userId, kind, window.start, Committed))
                      - Sum(q.ledger.Keys, HoldingIn(q.ledger, userId, kind, window.start, Reserved));
            QuotaModel.Reserve(q, now, userId, kind, amount, key).Success? <==> amount <= if free > 0 then free else 0
  {
    UsedSplits(q.ledger, userId, kind, WindowOf(q, userId, kind, now).start);
  }
}
