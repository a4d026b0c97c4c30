// What a reservation, a settlement and an adjustment answer.
module QuotaOutcomes {
  import opened Basics
  import opened QuotaWindows
  import opened QuotaModel

  predicate Account(q: Quota, userId: Id, now: Time) {
    && userId in q.users && q.users[userId].active
    && (q.users[userId].expiresAt.Some? ==> now < q.users[userId].expiresAt.value)
  }

  predicate WellFormedKey(key: BusinessKey) {
    key.ContentKey? || 1 <= |key.text| <= 200
  }

  // The window that an account's use of a kind counts in.
  function CurrentWindow(q: Quota, userId: Id, kind: Kind, now: Time): Window {
    if (userId, kind) !in q.policies then Window(0, None) else QuotaWindow(q.policies[(userId, kind)].period, now)
  }

  // Room for the amount: no limit in force, or the window's use stays within it. A
  // visitor without a policy has none.
  ghost predicate HasRoom(q: Quota, userId: Id, kind: Kind, amount: int, now: Time)
    requires userId in q.users
  {
    if (userId, kind) !in q.policies then q.users[userId].role != Visitor
    else
      var limit := q.policies[(userId, kind)].limit;
      limit.None? || Used(q.ledger, userId, kind, CurrentWindow(q, userId, kind, now).start) + amount <= limit.value
  }

  // A first request is granted exactly when its amount is positive, its key well-formed,
  // the account may act and there is room; it then reserves the amount in the window.
  lemma FirstRequest(q: Quota, now: Time, userId: Id, kind: Kind, amount: int, key: BusinessKey)
    requires LedgerKey(userId, kind, key) !in q.ledger
    ensures Reserve(q, now, userId, kind, amount, key).Success? <==>
              && 1 <= amount <= 9007199254740991 && WellFormedKey(key) && Account(q, userId, now) && HasRoom(q, userId, kind, amount, now)
    ensures Reserve(q, now, userId, kind, amount, key).Success? ==>
              Reserve(q, now, userId, kind, amount, key).value
              == q.(ledger := q.ledger[LedgerKey(userId, kind, key) := Entry(amount, CurrentWindow(q, userId, kind, now), Reserved)])
  {
  }

  // A repeated one changes nothing; with another amount, or after a release, it is a conflict.
  lemma RepeatedRequest(q: Quota, now: Time, userId: Id, kind: Kind, amount: int, key: BusinessKey)
    requires LedgerKey(userId, kind, key) in q.ledger
    requires 1 <= amount <= 9007199254740991 && WellFormedKey(key) && Account(q, userId, now)
    ensures Reserve(q, now, userId, kind, amount, key)
         == if q.ledger[LedgerKey(userId, kind, key)].amount == amount && q.ledger[LedgerKey(userId, kind, key)].state != Released
            then Success(q) else Failure(Conflict)
  {
  }

  // The refusals, in their order.
  lemma ReserveRefusals(q: Quota, now: Time, userId: Id, kind: Kind, amount: int, key: BusinessKey)
    ensures !(1 <= amount <= 9007199254740991) || !WellFormedKey(key) ==> Reserve(q, now, userId, kind, amount, key) == Failure(BadRequest)
    ensures 1 <= amount <= 9007199254740991 && WellFormedKey(key) && userId !in q.users ==>
              Reserve(q, now, userId, kind, amount, key) == Failure(NotFound)
    ensures 1 <= amount <= 9007199254740991 && WellFormedKey(key) && userId in q.users && !Account(q, userId, now) ==>
              Reserve(q, now, userId, kind, amount, key) == Failure(Forbidden)
    ensures 1 <= amount <= 9007199254740991 && WellFormedKey(key) && Account(q, userId, now)
            && LedgerKey(userId, kind, key) !in q.ledger && !HasRoom(q, userId, kind, amount, now) ==>
              Reserve(q, now, userId, kind, amount, key) == Failure(Forbidden)
  {
  }

  // An entry is settled once; settling what does not exist, or the same way again, does
  // nothing, and the other way is a conflict.
  lemma SettleOutcome(q: Quota, userId: Id, kind: Kind, key: BusinessKey, state: EntryState)
    requires state != Reserved
    ensures var k := LedgerKey(userId, kind, key);
            && (userId !in q.users ==> Settle(q, userId, kind, key, state) == Failure(NotFound))
            && (userId in q.users && k !in q.ledger ==> Settle(q, userId, kind, key, state) == Success(q))
            && (userId in q.users && k in q.ledger && q.ledger[k].state == Reserved ==>
                  Settle(q, userId, kind, key, state) == Success(q.(ledger := q.ledger[k := q.ledger[k].(state := state)])))
            && (userId in q.users && k in q.ledger && q.ledger[k].state != Reserved ==>
                  Settle(q, userId, kind, key, state) == if q.ledger[k].state == state then Success(q) else Failure(Conflict))
  {
  }

  // ------------------------------------------------------------------------
  // adjust

  ghost predicate HasUsage(q: Quota, userId: Id, kind: Kind) {
    exists k :: k in q.ledger && k.userId == userId && k.kind == kind
  }

  // A well-formed request: a limit that is not negative, a reason, and a lifetime
  // period for storage.
  predicate WellFormedAdjustment(input: Adjustment, key: string) {
    && (input.limit.Some? ==> 0 <= input.limit.value <= 9007199254740991) && 1 <= |key| <= 200
    && |input.reason| > 0 && (input.kind == StorageBytes ==> input.period == Lifetime)
  }

  lemma AdjustRefusals(q: Quota, userId: Id, input: Adjustment, key: string)
    ensures !WellFormedAdjustment(input, key) ==> Adjust(q, userId, input, key) == Failure(BadRequest)
    ensures WellFormedAdjustment(input, key) && userId !in q.users ==> Adjust(q, userId, input, key) == Failure(NotFound)
    ensures WellFormedAdjustment(input, key) && userId in q.users && (userId, key) in q.adjustments && q.adjustments[(userId, key)] != input ==>
              Adjust(q, userId, input, key) == Failure(Conflict)
    ensures WellFormedAdjustment(input, key) && userId in q.users && (userId, key) !in q.adjustments
            && (userId, input.kind) in q.policies && q.policies[(userId, input.kind)].period != input.period && HasUsage(q, userId, input.kind) ==>
              Adjust(q, userId, input, key) == Failure(Conflict)
  {
  }

  // A new adjustment that goes through puts its limit and period in force for this
  // account and kind, is remembered, and changes no other policy, no entry and no account.
  lemma AdjustmentIsInForce(q: Quota, userId: Id, input: Adjustment, key: string)
    requires (userId, key) !in q.adjustments && WellFormedAdjustment(input, key) && userId in q.users
    requires (userId, input.kind) in q.policies && q.policies[(userId, input.kind)].period != input.period ==> !HasUsage(q, userId, input.kind)
    ensures Adjust(q, userId, input, key).Success?
    ensures var after := Adjust(q, userId, input, key).value;
            && after == q.(policies := after.policies, adjustments := q.adjustments[(userId, key) := input])
            && (userId, input.kind) in after.policies
            && after.policies[(userId, input.kind)].limit == input.limit && after.policies[(userId, input.kind)].period == input.period
            && (forall p :: p in q.policies && p != (userId, input.kind) ==> p in after.policies && after.policies[p] == q.policies[p])
            && after.policies.Keys == q.policies.Keys + {(userId, input.kind)}
  {
  }

  // From then on exactly what fits the new limit in the new window is granted.
  lemma AdjustedLimitIsKept(q: Quota, now: Time, userId: Id, input: Adjustment, adjustmentKey: string, amount: int, key: BusinessKey)
    requires (userId, adjustmentKey) !in q.adjustments && Adjust(q, userId, input, adjustmentKey).Success?
    requires input.limit.Some? && Account(q, userId, now)
    requires 1 <= amount <= 9007199254740991 && WellFormedKey(key) && LedgerKey(userId, input.kind, key) !in q.ledger
    ensures var after := Adjust(q, userId, input, adjustmentKey).value;
            Reserve(after, now, userId, input.kind, amount, key).Success? <==>
              Used(q.ledger, userId, input.kind, QuotaWindow(input.period, now).start) + amount <= input.limit.value
  {
    var after := Adjust(q, userId, input, adjustmentKey).value;
    FirstRequest(after, now, userId, input.kind, amount, key);
    assert after.ledger == q.ledger;
  }
}
