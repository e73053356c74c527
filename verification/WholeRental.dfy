/**
 One rental from its submission to its completion, in a store with whatever else in it: the bound of
 eight sales steps is reached, and the runs the other results speak of exist.
 */
module WholeRental {
  import opened Util
  import opened Reservations
  import opened ReservationSteps
  import opened ReservationStore

  /** Who rents what, when, and what the branch writes down. */
  datatype Plan = Plan(id: ReservationId, draft: DraftRequest, staff: Staff, receipt: string,
                       out: Reading, back: Reading, now: int)

  /** A store with the car of the plan ready to go, and a plan that the checks allow. */
  predicate Possible(db: Db, p: Plan) {
    && p.id !in db.rows && !ReceiptTaken(db, p.id, p.receipt)
    && p.draft.ready && p.draft.vehicle in db.vehicles
    && Free(db, p.draft.vehicle, p.draft.pickupDay * DAY, p.draft.returnDay * DAY)
    && db.vehicles[p.draft.vehicle].active && db.vehicles[p.draft.vehicle].status == Available
    && db.vehicles[p.draft.vehicle].deposit.Some?
    && p.now < p.draft.pickupDay * DAY && p.out.odometerKm <= p.back.odometerKm
  }

  function Amount(db: Db, p: Plan): int
    requires Possible(db, p)
  {
    db.vehicles[p.draft.vehicle].deposit.value
  }

  function RequestAt(db: Db, p: Plan, k: nat): Request
    requires Possible(db, p)
  {
    if k == 0 then Submit(p.draft)
    else if k == 1 then Claim(p.staff)
    else if k == 2 then Decide(p.staff, PreApprove)
    else if k == 3 then Sign(p.staff)
    else if k == 4 then RecordBranch(p.staff, Amount(db, p), p.receipt)
    else if k == 5 then ConfirmRequest(p.staff)
    else if k == 6 then RunOperation(p.staff, Deliver, Some(p.out))
    else if k == 7 then RunOperation(p.staff, Return, Some(p.back))
    else RunOperation(p.staff, Complete, None)
  }

  /** The first n of the nine calls. */
  function Calls(db: Db, p: Plan, n: nat): (calls: seq<Call>)
    requires Possible(db, p)
    ensures |calls| == n && forall k :: 0 <= k < n ==> calls[k] == Call(p.id, p.now, RequestAt(db, p, k))
  {
    seq(n, k requires 0 <= k < n => Call(p.id, p.now, RequestAt(db, p, k)))
  }

  /** The row of the request after k calls. */
  function RowAt(db: Db, p: Plan, k: nat): Row
    requires Possible(db, p) && 1 <= k <= 9
  {
    if k == 1 then Move(DraftRow(p.draft), PendingReview, Submitted)
    else
      var row := RowAt(db, p, k - 1);
      if k == 2 then ClaimRow(row, p.staff)
      else if k == 3 then DecideRow(row, PreApprove, p.now)
      else if k == 4 then SignRow(row, p.now)
      else if k == 5 then CheckRow(row, Deposit(Amount(db, p), p.receipt, p.now), p.now)
      else if k == 6 then ConfirmRow(row, PriceOf(row), p.now)
      else
        var action := if k == 7 then Deliver else if k == 8 then Return else Complete;
        var reading := if k == 7 then Some(p.out) else if k == 8 then Some(p.back) else None;
        if row.booking.Some? then OperateRow(row, action, reading, p.now) else row
  }

  /** The store after k calls: one more row, and the car out with the customer between delivery and completion. */
  function StoreAt(db: Db, p: Plan, k: nat): Db
    requires Possible(db, p) && 1 <= k <= 9
  {
    var v := db.vehicles[p.draft.vehicle];
    db.(rows := db.rows[p.id := RowAt(db, p, k)], order := db.order + [p.id],
        vehicles := db.vehicles[p.draft.vehicle := v.(status := if k == 7 || k == 8 then Rented else Available)])
  }

  /** What the row looks like on the way. */
  predicate OnTheWay(db: Db, p: Plan, row: Row, k: nat)
    requires Possible(db, p)
  {
    && row.vehicle == p.draft.vehicle && row.customer == p.draft.customer
    && row.branch == p.draft.branch && row.driverRequested == p.draft.driverRequested
    && row.pickupAt == p.draft.pickupDay * DAY && row.returnAt == p.draft.returnDay * DAY
    && row.assignee == (if k >= 2 then Some(p.staff.id) else None)
    && row.status == (if k <= 1 then PendingReview else if k == 2 then UnderReview else if k <= 5 then PreApproved
                      else if k == 6 then Confirmed else if k <= 8 then Active else Completed)
    && row.preApprovalExpiresAt == (if 3 <= k <= 5 then Some(p.now + REVIEW_WINDOW) else None)
    && row.contractSignedAt == (if k >= 4 then Some(p.now) else None)
    && row.deposit == (if k >= 5 then Some(Deposit(Amount(db, p), p.receipt, p.now)) else None)
    && row.attendedAt == (if k >= 5 then Some(p.now) else None)
    && (row.booking.Some? <==> k >= 6)
    && (k >= 6 ==> row.booking.value.status == row.status
                   && row.booking.value.operations ==
                        (if k == 6 then [] else if k == 7 then [Operation(DeliveryReading, p.out, p.now)]
                         else [Operation(DeliveryReading, p.out, p.now), Operation(ReturnReading, p.back, p.now)]))
    && row.returnedAt == (if k >= 8 then Some(p.now) else None)
  }

  lemma {:induction false} RowOnTheWay(db: Db, p: Plan, k: nat)
    requires Possible(db, p) && 1 <= k <= 9
    ensures OnTheWay(db, p, RowAt(db, p, k), k)
  {
    if k > 1 {
      RowOnTheWay(db, p, k - 1);
    }
  }

  predicate Reaches(db: Db, p: Plan, k: nat)
    requires Possible(db, p) && 1 <= k <= 8
  {
    Execute(StoreAt(db, p, k), p.id, p.now, RequestAt(db, p, k)) == Reply(StoreAt(db, p, k + 1), Done)
  }

  lemma ReviewCalls(db: Db, p: Plan, k: nat)
    requires Possible(db, p) && 1 <= k <= 3
    ensures Reaches(db, p, k)
  {
    RowOnTheWay(db, p, k);
    assert StoreAt(db, p, k).rows[p.id := RowAt(db, p, k + 1)] == StoreAt(db, p, k + 1).rows;
  }

  lemma BranchCalls(db: Db, p: Plan, k: nat)
    requires Possible(db, p) && 4 <= k <= 5
    ensures Reaches(db, p, k)
  {
    RowOnTheWay(db, p, k);
    assert StoreAt(db, p, k).rows[p.id := RowAt(db, p, k + 1)] == StoreAt(db, p, k + 1).rows;
    if k == 4 {
      assert !ReceiptTaken(StoreAt(db, p, k), p.id, p.receipt);
    } else {
      var row := RowAt(db, p, k);
      assert Free(StoreAt(db, p, k), row.vehicle, row.pickupAt, row.returnAt);
    }
  }

  lemma DeliveryCall(db: Db, p: Plan, k: nat)
    requires Possible(db, p) && k == 6
    ensures Reaches(db, p, k)
  {
    RowOnTheWay(db, p, k);
    var s, s' := StoreAt(db, p, k), StoreAt(db, p, k + 1);
    assert OperationCheck(RowAt(db, p, k), Deliver, Some(p.out), p.now) == Done;
    assert s.rows[p.id := RowAt(db, p, k + 1)] == s'.rows;
    assert s.vehicles[p.draft.vehicle := db.vehicles[p.draft.vehicle].(status := Rented)] == s'.vehicles;
  }

  /** What a return does once its checks have passed. */
  lemma Returning(db: Db, id: ReservationId, staff: Staff, reading: Reading, now: int)
    requires id in db.rows && db.rows[id].status == Active && db.rows[id].booking.Some? && MayAct(db.rows[id], staff)
    requires OperationCheck(db.rows[id], Return, Some(reading), now) == Done
    ensures Execute(db, id, now, RunOperation(staff, Return, Some(reading))) ==
      Reply(db.(rows := db.rows[id := OperateRow(db.rows[id], Return, Some(reading), now)]), Done)
  {
  }

  lemma ReturnAllowed(db: Db, p: Plan, k: nat)
    requires Possible(db, p) && k == 7
    ensures var row := RowAt(db, p, k);
      && row.status == Active && row.booking.Some? && MayAct(row, p.staff)
      && OperationCheck(row, Return, Some(p.back), p.now) == Done
  {
    RowOnTheWay(db, p, k);
    ReadingsFound(RowAt(db, p, k).booking.value.operations);
  }

  lemma ReturnCall(db: Db, p: Plan, k: nat)
    requires Possible(db, p) && k == 7
    ensures Reaches(db, p, k)
  {
    var s := StoreAt(db, p, k);
    ReturnAllowed(db, p, k);
    assert RequestAt(db, p, k) == RunOperation(p.staff, Return, Some(p.back));
    Returning(s, p.id, p.staff, p.back, p.now);
    assert s.rows[p.id := RowAt(db, p, k + 1)] == StoreAt(db, p, k + 1).rows;
  }

  /** What a completion does once its checks have passed. */
  lemma Completing(db: Db, id: ReservationId, staff: Staff, now: int)
    requires id in db.rows && db.rows[id].status == Active && db.rows[id].booking.Some? && MayAct(db.rows[id], staff)
    requires OperationCheck(db.rows[id], Complete, None, now) == Done
    requires db.rows[id].vehicle in db.vehicles && db.vehicles[db.rows[id].vehicle].status == Rented
    ensures var row, v := db.rows[id], db.rows[id].vehicle;
      Execute(db, id, now, RunOperation(staff, Complete, None)) ==
        Reply(db.(vehicles := db.vehicles[v := db.vehicles[v].(status := Available)],
                  rows := db.rows[id := OperateRow(row, Complete, None, now)]), Done)
  {
  }

  lemma CompletionAllowed(db: Db, p: Plan, k: nat)
    requires Possible(db, p) && k == 8
    ensures var row := RowAt(db, p, k);
      && row.status == Active && row.booking.Some? && MayAct(row, p.staff) && row.vehicle == p.draft.vehicle
      && OperationCheck(row, Complete, None, p.now) == Done
  {
    RowOnTheWay(db, p, k);
    ReadingsFound(RowAt(db, p, k).booking.value.operations);
  }

  lemma CompletedStore(db: Db, p: Plan, k: nat)
    requires Possible(db, p) && k == 8 && RowAt(db, p, k).booking.Some?
    ensures var s, v := StoreAt(db, p, k), p.draft.vehicle;
      StoreAt(db, p, k + 1) ==
        s.(vehicles := s.vehicles[v := s.vehicles[v].(status := Available)],
           rows := s.rows[p.id := OperateRow(RowAt(db, p, k), Complete, None, p.now)])
  {
    var s, s' := StoreAt(db, p, k), StoreAt(db, p, k + 1);
    assert s.rows[p.id := RowAt(db, p, k + 1)] == s'.rows;
    assert s.vehicles[p.draft.vehicle := db.vehicles[p.draft.vehicle].(status := Available)] == s'.vehicles;
  }

  lemma CompletionCall(db: Db, p: Plan, k: nat)
    requires Possible(db, p) && k == 8
    ensures Reaches(db, p, k)
  {
    CompletionAllowed(db, p, k);
    CompletedStore(db, p, k);
    assert RequestAt(db, p, k) == RunOperation(p.staff, Complete, None);
    Completing(StoreAt(db, p, k), p.id, p.staff, p.now);
  }

  lemma ReadingsFound(ops: seq<Operation>)
    requires 1 <= |ops| <= 2 && ops[0].kind == DeliveryReading && (|ops| == 2 ==> ops[1].kind == ReturnReading)
    ensures OperationOf(ops, DeliveryReading) == Some(ops[0])
    ensures OperationOf(ops, ReturnReading) == if |ops| == 2 then Some(ops[1]) else None
  {
    assert |ops| == 2 ==> ops[1..][0] == ops[1];
  }

  lemma EachCall(db: Db, p: Plan, k: nat)
    requires Possible(db, p) && 1 <= k <= 8
    ensures Reaches(db, p, k)
  {
    if k <= 3 {
      ReviewCalls(db, p, k);
    } else if k <= 5 {
      BranchCalls(db, p, k);
    } else if k == 6 {
      DeliveryCall(db, p, k);
    } else if k == 7 {
      ReturnCall(db, p, k);
    } else {
      CompletionCall(db, p, k);
    }
  }

  lemma FirstCall(db: Db, p: Plan)
    requires Possible(db, p)
    ensures Execute(db, p.id, p.now, RequestAt(db, p, 0)) == Reply(StoreAt(db, p, 1), Done)
  {
    assert db.vehicles == StoreAt(db, p, 1).vehicles;
  }

  predicate FromSales(q: Request) {
    q.Claim? || q.Decide? || q.Sign? || q.RecordBranch? || q.ConfirmRequest? || q.RunOperation?
  }

  /** A request of sales that changes a row is a sales step on it. */
  lemma ChangeIsStep(db: Db, id: ReservationId, now: int, q: Request)
    requires id in db.rows && FromSales(q) && Execute(db, id, now, q).db.rows != db.rows
    ensures SalesStep(db.rows[id], StepOf(db, id, now, q)) && !BackToReview(StepOf(db, id, now, q))
  {
  }

  lemma RowMoves(db: Db, p: Plan, k: nat)
    requires Possible(db, p) && 1 <= k <= 8
    ensures RowAt(db, p, k + 1) != RowAt(db, p, k)
  {
    RowOnTheWay(db, p, k);
    assert RowAt(db, p, k + 1).timeline != RowAt(db, p, k).timeline;
  }

  lemma RowsMove(db: Db, p: Plan, k: nat)
    requires Possible(db, p) && 1 <= k <= 8
    ensures StoreAt(db, p, k + 1).rows != StoreAt(db, p, k).rows
  {
    RowMoves(db, p, k);
    assert StoreAt(db, p, k + 1).rows[p.id] != StoreAt(db, p, k).rows[p.id];
  }

  lemma CountsAsStep(db: Db, p: Plan, k: nat)
    requires Possible(db, p) && 1 <= k <= 8
    ensures var s := StoreAt(db, p, k);
      SalesStep(s.rows[p.id], StepOf(s, p.id, p.now, RequestAt(db, p, k)))
      && !BackToReview(StepOf(s, p.id, p.now, RequestAt(db, p, k)))
  {
    EachCall(db, p, k);
    RowsMove(db, p, k);
    ChangeIsStep(StoreAt(db, p, k), p.id, p.now, RequestAt(db, p, k));
  }

  /** The call takes the first store to the second, by a sales step on request i. */
  ghost predicate Advances(db: Db, c: Call, db': Db, i: ReservationId) {
    && Execute(db, c.id, c.now, c.request).db == db' && c.id == i && i in db.rows
    && SalesStep(db.rows[i], StepOf(db, i, c.now, c.request)) && !BackToReview(StepOf(db, i, c.now, c.request))
  }

  lemma {:induction false} RunAlong(stores: seq<Db>, calls: seq<Call>, i: ReservationId)
    requires |stores| == |calls| + 1
    requires forall k :: 0 <= k < |calls| ==> Advances(stores[k], calls[k], stores[k + 1], i)
    ensures Run(stores[0], calls) == stores[|calls|]
    ensures SalesSteps(stores[0], calls, i) == |calls| && Returns(stores[0], calls, i) == 0
    decreases |calls|
  {
    if calls != [] {
      assert Advances(stores[0], calls[0], stores[1], i);
      forall k | 0 <= k < |calls| - 1 ensures Advances(stores[1..][k], calls[1..][k], stores[1..][k + 1], i) {
        assert Advances(stores[k + 1], calls[k + 1], stores[k + 2], i);
      }
      RunAlong(stores[1..], calls[1..], i);
    }
  }

  lemma CallAdvances(db: Db, p: Plan, k: nat)
    requires Possible(db, p) && 1 <= k <= 8
    ensures Advances(StoreAt(db, p, k), Call(p.id, p.now, RequestAt(db, p, k)), StoreAt(db, p, k + 1), p.id)
  {
    EachCall(db, p, k);
    CountsAsStep(db, p, k);
  }

  ghost function Stores(db: Db, p: Plan, n: nat): (stores: seq<Db>)
    requires Possible(db, p) && 1 <= n <= 9
    ensures |stores| == n && forall k :: 0 <= k < n ==> stores[k] == StoreAt(db, p, k + 1)
  {
    seq(n, k requires 0 <= k < n => StoreAt(db, p, k + 1))
  }

  lemma ChainLink(db: Db, p: Plan, n: nat, k: nat)
    requires Possible(db, p) && 1 <= n <= 9 && k < n - 1
    ensures Advances(Stores(db, p, n)[k], Calls(db, p, n)[1..][k], Stores(db, p, n)[k + 1], p.id)
  {
    CallAdvances(db, p, k + 1);
    assert Calls(db, p, n)[1..][k] == Calls(db, p, n)[k + 1];
  }

  /** The calls after the submission, up to the n-th. */
  lemma RestOfTheRental(db: Db, p: Plan, n: nat)
    requires Possible(db, p) && 1 <= n <= 9
    ensures var s, calls := StoreAt(db, p, 1), Calls(db, p, n)[1..];
      Run(s, calls) == StoreAt(db, p, n) && SalesSteps(s, calls, p.id) == n - 1 && Returns(s, calls, p.id) == 0
  {
    var stores, calls := Stores(db, p, n), Calls(db, p, n)[1..];
    forall k: nat | k < n - 1 ensures Advances(stores[k], calls[k], stores[k + 1], p.id) {
      ChainLink(db, p, n, k);
    }
    RunAlong(stores, calls, p.id);
  }

  lemma AfterSubmission(db: Db, p: Plan, n: nat)
    requires Possible(db, p) && 1 <= n <= 9
    ensures var calls, rest := Calls(db, p, n), Calls(db, p, n)[1..];
      && Run(db, calls) == Run(StoreAt(db, p, 1), rest)
      && SalesSteps(db, calls, p.id) == SalesSteps(StoreAt(db, p, 1), rest, p.id)
      && Returns(db, calls, p.id) == Returns(StoreAt(db, p, 1), rest, p.id)
  {
    FirstCall(db, p);
    assert Calls(db, p, n)[0] == Call(p.id, p.now, RequestAt(db, p, 0));
  }

  /** The first n calls lead to the n-th store. */
  lemma RunTo(db: Db, p: Plan, n: nat)
    requires Possible(db, p) && 1 <= n <= 9
    ensures Run(db, Calls(db, p, n)) == StoreAt(db, p, n)
  {
    AfterSubmission(db, p, n);
    RestOfTheRental(db, p, n);
  }

  /**
   With a car ready and the papers in order, nine calls take a request from its submission to its
   completion, eight of them sales steps and none back to review: the bound of eight is reached.
   */
  lemma EightStepsAreReached(db: Db, p: Plan)
    requires Possible(db, p)
    ensures var calls := Calls(db, p, 9);
      && p.id in Run(db, calls).rows && Run(db, calls).rows[p.id].status == Completed
      && SalesSteps(db, calls, p.id) == 8 && Returns(db, calls, p.id) == 0
  {
    AfterSubmission(db, p, 9);
    RestOfTheRental(db, p, 9);
    RowOnTheWay(db, p, 9);
  }
}
