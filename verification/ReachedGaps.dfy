/**
 Runs that reach what the exact conditions leave open: a gap in the timeline, a fleet block over a
 booking in either way, a vehicle out with two customers, and a sales queue that a reload would
 change. They start in any store in which the plan of a rental is possible.
 */
module ReachedGaps {
  import opened Util
  import opened Reservations
  import opened ReservationSteps
  import opened ReservationStore
  import opened FleetBlocks
  import opened Handovers
  import opened SalesWorkspace
  import opened SalesRuns
  import opened WholeRental

  // ------------------------------------------------------- an offer answered too late

  /** The car of the plan can also be offered for the days of the plan. */
  predicate Offerable(db: Db, p: Plan) {
    && Possible(db, p)
    && db.vehicles[p.draft.vehicle].branch == p.draft.branch
    && p.draft.pickupDay < p.draft.returnDay
    && db.vehicles[p.draft.vehicle].minimumDays <= p.draft.returnDay - p.draft.pickupDay
    && !(p.draft.driverRequested && db.vehicles[p.draft.vehicle].driverUnavailable)
  }

  function OfferCall(p: Plan): Call {
    Call(p.id, p.now, Propose(p.staff, p.draft.vehicle, p.draft.pickupDay, p.draft.returnDay))
  }

  function AnswerCall(p: Plan, accept: bool, later: int): Call {
    Call(p.id, later, Request.Answer(p.draft.customer, accept))
  }

  lemma OfferSentRow(db: Db, p: Plan, k: nat) returns (offer: Offer)
    requires Offerable(db, p) && k == 2
    ensures offer.status == OfferPending && offer.expiresAt == p.now + REVIEW_WINDOW
    ensures Execute(StoreAt(db, p, k), p.id, p.now, OfferCall(p).request) ==
      Save(StoreAt(db, p, k), p.id, OfferRow(RowAt(db, p, k), offer))
  {
    RowOnTheWay(db, p, k);
    WholeDays(p.draft.pickupDay, p.draft.returnDay);
    var s := StoreAt(db, p, k);
    assert Free(s, p.draft.vehicle, p.draft.pickupDay * DAY, p.draft.returnDay * DAY);
    var row' := Execute(s, p.id, p.now, OfferCall(p).request).db.rows[p.id];
    offer := row'.offers[|row'.offers| - 1];
  }

  lemma LateAnswerRow(row: Row, offer: Offer)
    requires offer.status == OfferPending
    ensures var offered := OfferRow(row, offer);
      && PendingOffer(offered.offers) == Some(|offered.offers| - 1)
      && !Gapless(LateRow(offered, |offered.offers| - 1))
  {
  }

  lemma {:induction false} LateConcat(db: Db, first: seq<Call>, rest: seq<Call>, i: ReservationId)
    ensures LateAnswers(db, first + rest, i) == LateAnswers(db, first, i) + LateAnswers(Run(db, first), rest, i)
    decreases |first|
  {
    if first == [] {
      assert first + rest == rest;
    } else {
      assert (first + rest)[1..] == first[1..] + rest;
      LateConcat(Execute(db, first[0].id, first[0].now, first[0].request).db, first[1..], rest, i);
    }
  }

  lemma RunOfTwo(db: Db, a: Call, b: Call)
    ensures Run(db, [a, b]) ==
      Execute(Execute(db, a.id, a.now, a.request).db, b.id, b.now, b.request).db
  {
    assert [a, b][1..] == [b] && [b][1..] == [];
    assert Run(Execute(db, a.id, a.now, a.request).db, [b]) ==
           Execute(Execute(db, a.id, a.now, a.request).db, b.id, b.now, b.request).db;
  }

  function LateCalls(db: Db, p: Plan, accept: bool, later: int): seq<Call>
    requires Offerable(db, p)
  {
    Calls(db, p, 2) + [OfferCall(p), AnswerCall(p, accept, later)]
  }

  lemma AnswerTooLate(s: Db, p: Plan, accept: bool, later: int)
    requires p.id in s.rows && s.rows[p.id].customer == p.draft.customer && s.rows[p.id].status == AlternativeOffered
    requires PendingOffer(s.rows[p.id].offers).Some?
    requires s.rows[p.id].offers[PendingOffer(s.rows[p.id].offers).value].expiresAt <= later
    ensures Execute(s, p.id, later, AnswerCall(p, accept, later).request).db ==
      s.(rows := s.rows[p.id := LateRow(s.rows[p.id], PendingOffer(s.rows[p.id].offers).value)])
  {
  }

  /** Only an answer can be late. */
  lemma {:induction false} NoAnswers(db: Db, calls: seq<Call>, i: ReservationId)
    requires forall c :: c in calls ==> !c.request.Answer?
    ensures LateAnswers(db, calls, i) == 0
    decreases |calls|
  {
    if calls != [] {
      NotLate(db, calls[0], i);
      NoAnswers(Execute(db, calls[0].id, calls[0].now, calls[0].request).db, calls[1..], i);
    }
  }

  lemma NotLate(db: Db, c: Call, i: ReservationId)
    requires !c.request.Answer?
    ensures !(c.id == i && i in db.rows && StepOf(db, i, c.now, c.request).AnsweringLate?)
  {
  }

  lemma LateAtMostOnce(db: Db, p: Plan, accept: bool, later: int)
    requires Offerable(db, p)
    ensures LateAnswers(db, LateCalls(db, p, accept, later), p.id) <= 1
  {
    var first, last := Calls(db, p, 2) + [OfferCall(p)], AnswerCall(p, accept, later);
    assert LateCalls(db, p, accept, later) == first + [last];
    LateConcat(db, first, [last], p.id);
    NoAnswers(db, first, p.id);
    assert [last][1..] == [];
  }

  /**
   Submission, claim, offer, and the customer's answer after the offer has lapsed: the request is
   back under review, and its timeline ends at the offer.
   */
  lemma LateAnswerLeavesAGap(db: Db, p: Plan, accept: bool, later: int)
    requires Inv(db) && Offerable(db, p) && p.now + REVIEW_WINDOW <= later
    ensures var calls := LateCalls(db, p, accept, later);
      var end := Run(db, calls);
      && p.id in end.rows && end.rows[p.id].status == UnderReview
      && !Gapless(end.rows[p.id]) && LateAnswers(db, calls, p.id) == 1
  {
    var k: nat := 2;
    var s := StoreAt(db, p, k);
    RunTo(db, p, k);
    RowOnTheWay(db, p, k);
    var offer := OfferSentRow(db, p, k);
    LateAnswerRow(RowAt(db, p, k), offer);
    AnswerTooLate(Save(s, p.id, OfferRow(RowAt(db, p, k), offer)).db, p, accept, later);
    RunConcat(db, Calls(db, p, k), [OfferCall(p), AnswerCall(p, accept, later)]);
    RunOfTwo(s, OfferCall(p), AnswerCall(p, accept, later));
    TimelineGapless(db, LateCalls(db, p, accept, later), p.id);
    LateAtMostOnce(db, p, accept, later);
  }

  lemma OpeningSound(db: Db)
    requires Opening(db)
    ensures Inv(db)
  {
  }

  // --------------------------------------------- a block checked before a confirmation

  function RaceCalls(db: Db, p: Plan, block: BlockId): seq<Call>
    requires Possible(db, p)
  {
    Calls(db, p, 5)
    + [Call(p.id, p.now, CheckPeriod(block, p.draft.vehicle, p.draft.pickupDay * DAY, p.draft.returnDay * DAY)),
       Call(p.id, p.now, ConfirmRequest(p.staff)),
       Call(p.id, p.now, AddBlock(block))]
  }

  lemma RunThrough(db: Db, a: Call, b: Call, c: Call, db1: Db, db2: Db, db3: Db)
    requires Execute(db, a.id, a.now, a.request).db == db1 && Execute(db1, b.id, b.now, b.request).db == db2
    requires Execute(db2, c.id, c.now, c.request).db == db3
    ensures Run(db, [a, b, c]) == db3
  {
    assert [a, b, c][1..] == [b, c];
    RunOfTwo(db1, b, c);
  }

  lemma CheckedStore(db: Db, p: Plan, block: BlockId, k: nat)
    requires Possible(db, p) && k == 5 && p.draft.pickupDay < p.draft.returnDay
    requires block !in db.blocks && block !in db.checked
    ensures var s, from, to := StoreAt(db, p, k), p.draft.pickupDay * DAY, p.draft.returnDay * DAY;
      CheckBlock(s, block, p.draft.vehicle, from, to) ==
        Reply(s.(checked := s.checked[block := Block(p.draft.vehicle, from, to)]), Done)
  {
    RowOnTheWay(db, p, k);
    assert Free(StoreAt(db, p, k), p.draft.vehicle, p.draft.pickupDay * DAY, p.draft.returnDay * DAY);
  }

  /** Confirming does not look at blocks that are only checked. */
  lemma ConfirmIgnoresChecked(s: Db, checked: map<BlockId, Block>, id: ReservationId, staff: Staff, now: int)
    ensures ConfirmBooking(s.(checked := checked), id, staff, now) ==
      var r := ConfirmBooking(s, id, staff, now); Reply(r.db.(checked := checked), r.outcome)
  {
    var s' := s.(checked := checked);
    if id in s.rows {
      var row := s.rows[id];
      assert Unblocked(s', row.vehicle, row.pickupAt, row.returnAt)
        == Unblocked(s, row.vehicle, row.pickupAt, row.returnAt);
      assert Unbooked(s', row.vehicle, row.pickupAt, row.returnAt)
        == Unbooked(s, row.vehicle, row.pickupAt, row.returnAt);
    }
  }

  /** The confirmation of the plan, with the block on its way. */
  lemma ConfirmedMeanwhile(db: Db, p: Plan, checked: map<BlockId, Block>, k: nat)
    requires Possible(db, p) && k == 5
    ensures Execute(StoreAt(db, p, k).(checked := checked), p.id, p.now, ConfirmRequest(p.staff)).db ==
      StoreAt(db, p, k + 1).(checked := checked)
  {
    EachCall(db, p, k);
    ConfirmIgnoresChecked(StoreAt(db, p, k), checked, p.id, p.staff, p.now);
  }

  lemma RaceFromChecklist(db: Db, p: Plan, block: BlockId, k: nat)
    requires Possible(db, p) && k == 5 && p.draft.pickupDay < p.draft.returnDay
    requires block !in db.blocks && block !in db.checked
    ensures var from, to := p.draft.pickupDay * DAY, p.draft.returnDay * DAY;
      Run(StoreAt(db, p, k),
          [Call(p.id, p.now, CheckPeriod(block, p.draft.vehicle, from, to)),
           Call(p.id, p.now, ConfirmRequest(p.staff)), Call(p.id, p.now, AddBlock(block))]) ==
        InsertBlock(StoreAt(db, p, k + 1).(checked := db.checked[block := Block(p.draft.vehicle, from, to)]), block).db
  {
    var from, to := p.draft.pickupDay * DAY, p.draft.returnDay * DAY;
    var checked := db.checked[block := Block(p.draft.vehicle, from, to)];
    var s, s6 := StoreAt(db, p, k), StoreAt(db, p, k + 1).(checked := checked);
    CheckedStore(db, p, block, k);
    ConfirmedMeanwhile(db, p, checked, k);
    RunThrough(s, Call(p.id, p.now, CheckPeriod(block, p.draft.vehicle, from, to)),
               Call(p.id, p.now, ConfirmRequest(p.staff)), Call(p.id, p.now, AddBlock(block)),
               s.(checked := checked), s6, InsertBlock(s6, block).db);
  }

  lemma RaceRun(db: Db, p: Plan, block: BlockId, k: nat)
    requires Possible(db, p) && k == 5 && p.draft.pickupDay < p.draft.returnDay
    requires block !in db.blocks && block !in db.checked
    ensures var checked :=
        db.checked[block := Block(p.draft.vehicle, p.draft.pickupDay * DAY, p.draft.returnDay * DAY)];
      Run(db, RaceCalls(db, p, block)) == InsertBlock(StoreAt(db, p, k + 1).(checked := checked), block).db
  {
    var from, to := p.draft.pickupDay * DAY, p.draft.returnDay * DAY;
    RunTo(db, p, k);
    RunConcat(db, Calls(db, p, k),
              [Call(p.id, p.now, CheckPeriod(block, p.draft.vehicle, from, to)),
               Call(p.id, p.now, ConfirmRequest(p.staff)), Call(p.id, p.now, AddBlock(block))]);
    RaceFromChecklist(db, p, block, k);
  }

  /**
   A block is checked over a period that is still free, the request over that very period is
   confirmed, and the block is inserted: it lies over the confirmed booking.
   */
  lemma BlockOverBooking(db: Db, p: Plan, block: BlockId)
    requires Possible(db, p) && p.draft.pickupDay < p.draft.returnDay
    requires block !in db.blocks && block !in db.checked
    ensures var end := Run(db, RaceCalls(db, p, block));
      block in end.blocks && p.id in end.rows && Over(end.blocks[block], end.rows[p.id]) && !BlocksClear(end)
  {
    var k: nat := 5;
    RaceRun(db, p, block, k);
    ConfirmedTerms(db, p, k + 1);
    RowOnTheWay(db, p, k + 1);
  }

  lemma ConfirmedTerms(db: Db, p: Plan, k: nat)
    requires Possible(db, p) && k == 6
    ensures var row := RowAt(db, p, k);
      row.booking.Some? && row.booking.value.vehicle == p.draft.vehicle
      && row.booking.value.pickupAt == p.draft.pickupDay * DAY && row.booking.value.returnAt == p.draft.returnDay * DAY
  {
    RowOnTheWay(db, p, k - 1);
    RowOnTheWay(db, p, k);
  }

  // ------------------------------------- a booking written after its reads have aged

  /** From the checklist on: the confirmation reads, the block is checked and inserted, the confirmation writes. */
  function LateWrite(p: Plan, t: TransactionId, block: BlockId): seq<Call> {
    [Call(p.id, p.now, ReadConfirmation(t, p.staff)),
     Call(p.id, p.now, CheckPeriod(block, p.draft.vehicle, p.draft.pickupDay * DAY, p.draft.returnDay * DAY)),
     Call(p.id, p.now, AddBlock(block)),
     Call(p.id, p.now, WriteConfirmation(t))]
  }

  lemma ReadGoesAhead(db: Db, p: Plan, k: nat)
    requires Possible(db, p) && k == 5
    ensures var s := StoreAt(db, p, k);
      ConfirmationRead(s, p.id, p.staff, p.now).None? && BookingTaken(s, p.id)
  {
    RowOnTheWay(db, p, k);
    EachCall(db, p, k);
    RowsMove(db, p, k);
    assert ConfirmBooking(StoreAt(db, p, k), p.id, p.staff, p.now).db == StoreAt(db, p, k + 1);
  }

  lemma PeriodFree(db: Db, p: Plan, k: nat)
    requires Possible(db, p) && k == 5
    ensures var row := RowAt(db, p, k);
      && row.vehicle == p.draft.vehicle && row.pickupAt == p.draft.pickupDay * DAY
      && row.returnAt == p.draft.returnDay * DAY
      && Free(StoreAt(db, p, k), row.vehicle, row.pickupAt, row.returnAt)
  {
    RowOnTheWay(db, p, k);
  }

  lemma RunThroughFour(db: Db, a: Call, b: Call, c: Call, d: Call, db1: Db, db2: Db, db3: Db)
    requires Execute(db, a.id, a.now, a.request).db == db1 && Execute(db1, b.id, b.now, b.request).db == db2
    requires Execute(db2, c.id, c.now, c.request).db == db3
    ensures Run(db, [a, b, c, d]) == Execute(db3, d.id, d.now, d.request).db
  {
    assert [a, b, c, d] == [a, b, c] + [d] && [d][1..] == [];
    RunThrough(db, a, b, c, db1, db2, db3);
    RunConcat(db, [a, b, c], [d]);
  }

  /** The store with the confirmation's reads made, and then with the block on file too. */
  function ReadMade(s: Db, p: Plan, t: TransactionId): Db { s.(confirming := s.confirming[t := p.id]) }

  function CheckMade(s: Db, p: Plan, t: TransactionId, block: BlockId): Db {
    var k := Block(p.draft.vehicle, p.draft.pickupDay * DAY, p.draft.returnDay * DAY);
    ReadMade(s, p, t).(checked := s.checked[block := k])
  }

  lemma ReadAndCheck(s: Db, p: Plan, t: TransactionId, block: BlockId)
    requires ConfirmationRead(s, p.id, p.staff, p.now).None? && p.draft.pickupDay < p.draft.returnDay
    requires t !in s.confirming && block !in s.blocks && block !in s.checked && p.draft.vehicle in s.vehicles
    requires Free(s, p.draft.vehicle, p.draft.pickupDay * DAY, p.draft.returnDay * DAY)
    ensures Execute(s, p.id, p.now, LateWrite(p, t, block)[0].request).db == ReadMade(s, p, t)
    ensures Execute(ReadMade(s, p, t), p.id, p.now, LateWrite(p, t, block)[1].request).db == CheckMade(s, p, t, block)
  {
    var from, to := p.draft.pickupDay * DAY, p.draft.returnDay * DAY;
    assert Unblocked(ReadMade(s, p, t), p.draft.vehicle, from, to);
    assert Unbooked(ReadMade(s, p, t), p.draft.vehicle, from, to);
  }

  lemma WritesUnder(s: Db, p: Plan, t: TransactionId, block: BlockId)
    requires p.id in s.rows && s.rows[p.id].vehicle == p.draft.vehicle && BookingTaken(s, p.id)
    requires s.rows[p.id].pickupAt == p.draft.pickupDay * DAY && s.rows[p.id].returnAt == p.draft.returnDay * DAY
    requires p.draft.pickupDay < p.draft.returnDay
    ensures BooksUnder(InsertBlock(CheckMade(s, p, t, block), block).db, LateWrite(p, t, block)[3])
  {
    var s3 := InsertBlock(CheckMade(s, p, t, block), block).db;
    var row := s.rows[p.id];
    assert block in s3.blocks && Covers(s3.blocks[block], row.vehicle, row.pickupAt, row.returnAt);
    assert Unbooked(s3, row.vehicle, row.pickupAt, row.returnAt);
  }

  /** The four calls in a store in which the request can be confirmed. */
  lemma FourCalls(s: Db, p: Plan, t: TransactionId, block: BlockId)
    requires ConfirmationRead(s, p.id, p.staff, p.now).None? && p.draft.pickupDay < p.draft.returnDay
    requires t !in s.confirming && block !in s.blocks && block !in s.checked && p.draft.vehicle in s.vehicles
    requires Free(s, p.draft.vehicle, p.draft.pickupDay * DAY, p.draft.returnDay * DAY)
    requires p.id in s.rows && s.rows[p.id].vehicle == p.draft.vehicle && BookingTaken(s, p.id)
    requires s.rows[p.id].pickupAt == p.draft.pickupDay * DAY && s.rows[p.id].returnAt == p.draft.returnDay * DAY
    ensures !BlocksClear(Run(s, LateWrite(p, t, block)))
  {
    var c := LateWrite(p, t, block);
    var s3 := InsertBlock(CheckMade(s, p, t, block), block).db;
    ReadAndCheck(s, p, t, block);
    WritesUnder(s, p, t, block);
    RunThroughFour(s, c[0], c[1], c[2], c[3], ReadMade(s, p, t), CheckMade(s, p, t, block), s3);
    BookedUnder(s3, c[3]);
  }

  /**
   A confirmation reads that the period is free, a block is checked and inserted over it, and the
   confirmation writes its booking: it lies under the block.
   */
  lemma BookingUnderBlock(db: Db, p: Plan, t: TransactionId, block: BlockId)
    requires Possible(db, p) && p.draft.pickupDay < p.draft.returnDay
    requires t !in db.confirming && block !in db.blocks && block !in db.checked
    ensures !BlocksClear(Run(db, Calls(db, p, 5) + LateWrite(p, t, block)))
  {
    var k: nat := 5;
    RunTo(db, p, k);
    RunConcat(db, Calls(db, p, k), LateWrite(p, t, block));
    ReadGoesAhead(db, p, k);
    PeriodFree(db, p, k);
    FourCalls(StoreAt(db, p, k), p, t, block);
  }

  // ------------------------------------------------ one car out with two customers

  /** The plans are for the same car, on days that do not meet. */
  predicate Alternate(db: Db, p: Plan, q: Plan) {
    && Possible(db, p) && Possible(db, q) && q.id != p.id && q.receipt != p.receipt
    && q.draft.vehicle == p.draft.vehicle
    && !Overlaps(p.draft.pickupDay * DAY, p.draft.returnDay * DAY, q.draft.pickupDay * DAY, q.draft.returnDay * DAY)
  }

  /** The edit that saves the car as it was before its delivery. */
  function StaleEdit(db: Db, p: Plan): Call
    requires Possible(db, p)
  {
    Call(p.id, p.now, EditFleet(p.draft.vehicle, db.vehicles[p.draft.vehicle], Available, Available))
  }

  lemma MarkLost(db: Db, p: Plan, k: nat)
    requires Possible(db, p) && k == 7
    ensures var c, s := StaleEdit(db, p), StoreAt(db, p, k);
      Forgets(s, c) && Execute(s, c.id, c.now, c.request).db == s.(vehicles := db.vehicles)
  {
    RowOnTheWay(db, p, k);
    var s := StoreAt(db, p, k);
    assert Holds(s, p.id, p.draft.vehicle);
    assert s.vehicles[p.draft.vehicle := db.vehicles[p.draft.vehicle]] == db.vehicles;
  }

  /** With the mark lost, the other plan is possible although the car is out. */
  lemma SecondPossible(db: Db, p: Plan, q: Plan, k: nat)
    requires Alternate(db, p, q) && k == 7
    ensures Possible(StoreAt(db, p, k).(vehicles := db.vehicles), q)
  {
    RowOnTheWay(db, p, k);
    BookedTerms(db, p, k);
    var s := StoreAt(db, p, k).(vehicles := db.vehicles);
    var from, to := q.draft.pickupDay * DAY, q.draft.returnDay * DAY;
    assert Unblocked(s, q.draft.vehicle, from, to);
    assert Unbooked(s, q.draft.vehicle, from, to);
    assert !ReceiptTaken(s, q.id, q.receipt);
  }

  lemma BookedTerms(db: Db, p: Plan, k: nat)
    requires Possible(db, p) && k == 7
    ensures var row := RowAt(db, p, k);
      row.booking.Some? && row.booking.value.vehicle == p.draft.vehicle
      && row.booking.value.pickupAt == p.draft.pickupDay * DAY && row.booking.value.returnAt == p.draft.returnDay * DAY
  {
    ConfirmedTerms(db, p, k - 1);
  }

  /**
   A car is delivered, an edit that read it before writes it back as available, and it is delivered
   to a second customer while the first one has it.
   */
  lemma OutWithTwoCustomers(db: Db, p: Plan, q: Plan)
    requires Alternate(db, p, q)
    ensures var s := StoreAt(db, p, 7).(vehicles := db.vehicles);
      && Possible(s, q)
      && var end := Run(db, Calls(db, p, 7) + [StaleEdit(db, p)] + Calls(s, q, 7));
         Holds(end, p.id, p.draft.vehicle) && Holds(end, q.id, p.draft.vehicle) && !OneHolder(end)
  {
    var k: nat := 7;
    var s, c := StoreAt(db, p, k).(vehicles := db.vehicles), StaleEdit(db, p);
    RunTo(db, p, k);
    MarkLost(db, p, k);
    SecondPossible(db, p, q, k);
    RunConcat(db, Calls(db, p, k), [c]);
    assert [c][1..] == [];
    RunConcat(db, Calls(db, p, k) + [c], Calls(s, q, k));
    RunTo(s, q, k);
    RowOnTheWay(db, p, k);
    RowOnTheWay(s, q, k);
    BothOut(StoreAt(s, q, k), p.id, q.id, p.draft.vehicle);
  }

  lemma BothOut(db: Db, i: ReservationId, j: ReservationId, v: VehicleId)
    requires Holds(db, i, v) && Holds(db, j, v) && i != j
    ensures !OneHolder(db)
  {
  }

  // -------------------------------------------------------- more requests than one page

  function CrowdRows(d: DraftRequest, n: nat): (rows: map<ReservationId, Row>)
    ensures forall i: ReservationId :: i in rows <==> i < n
    ensures forall i :: i in rows ==> rows[i] == SubmittedRow(d)
  {
    if n == 0 then map[] else CrowdRows(d, n - 1)[n - 1 := SubmittedRow(d)]
  }

  /** The store after n submissions of the same draft for a car that is not taken. */
  function Crowd(db: Db, d: DraftRequest, n: nat): Db {
    db.(rows := CrowdRows(d, n), order := seq(n, (i: nat) => i))
  }

  predicate Wanted(db: Db, d: DraftRequest, now: int) {
    && Opening(db) && d.ready && d.vehicle in db.vehicles && db.vehicles[d.vehicle].active
    && db.vehicles[d.vehicle].status == Available && now < d.pickupDay * DAY
    && Free(db, d.vehicle, d.pickupDay * DAY, d.returnDay * DAY)
  }

  function Submissions(d: DraftRequest, now: int, n: nat): (calls: seq<Call>)
    ensures |calls| == n && forall k :: 0 <= k < n ==> calls[k] == Call(k, now, Submit(d))
  {
    seq(n, (k: nat) => Call(k, now, Submit(d)))
  }

  lemma OneMore(db: Db, d: DraftRequest, now: int, n: nat)
    requires Wanted(db, d, now)
    ensures Execute(Crowd(db, d, n), n, now, Submit(d)).db == Crowd(db, d, n + 1)
  {
    var s, s' := Crowd(db, d, n), Crowd(db, d, n + 1);
    assert Free(s, d.vehicle, d.pickupDay * DAY, d.returnDay * DAY);
    assert s.rows[n := SubmittedRow(d)] == s'.rows;
    assert s.order + [n] == s'.order;
  }

  lemma {:induction false} CrowdGathers(db: Db, d: DraftRequest, now: int, n: nat)
    requires Wanted(db, d, now)
    ensures Run(db, Submissions(d, now, n)) == Crowd(db, d, n)
  {
    if n == 0 {
      assert Crowd(db, d, 0).rows == map[];
    } else {
      CrowdGathers(db, d, now, n - 1);
      OneMore(db, d, now, n - 1);
      var last := Call(n - 1, now, Submit(d));
      assert Submissions(d, now, n) == Submissions(d, now, n - 1) + [last];
      RunConcat(db, Submissions(d, now, n - 1), [last]);
      assert [last][1..] == [];
    }
  }

  /** A desk that has just loaded its queue over the crowd. */
  function LoadedDesk(db: Db, d: DraftRequest, n: nat, me: Staff): World {
    World(Crowd(db, d, n), Desk(QueueView(Crowd(db, d, n), me), None, None))
  }

  /** The oldest request is opened and claimed. */
  function ClaimedFirst(db: Db, d: DraftRequest, n: nat, me: Staff, now: int): World {
    DeskStep(DeskStep(LoadedDesk(db, d, n, me), me, Open(0, false)), me, Push(ClaimButton, now))
  }

  lemma ClaimPressed(db: Db, d: DraftRequest, n: nat, me: Staff, now: int)
    requires n > 0
    ensures var w1, w2 := DeskStep(LoadedDesk(db, d, n, me), me, Open(0, false)), ClaimedFirst(db, d, n, me, now);
      && ButtonEnabled(w1.desk, ClaimButton) && ReviewFresh(w1, me) && QueueFresh(w1, me)
      && w1.desk.review.value.card.id == 0
      && w2 == Press(w1, ClaimButton, me, now)
      && w2.db == Crowd(db, d, n).(rows := Crowd(db, d, n).rows[0 := ClaimRow(SubmittedRow(d), me)])
      && w2.desk.review.Some? && w2.desk.review.value.card.id == 0
      && ButtonEnabled(w2.desk, DecisionButton(Reject))
  {
  }

  lemma StillAllListed(db: Db, d: DraftRequest, n: nat, me: Staff, now: int)
    requires n > 0
    ensures ListedIds(ClaimedFirst(db, d, n, me, now).db, me) == Crowd(db, d, n).order
  {
    ClaimPressed(db, d, n, me, now);
    var w2 := ClaimedFirst(db, d, n, me, now);
    FilterAll((id: ReservationId) => Listed(w2.db.rows, me, id), w2.db.order);
  }

  lemma CrowdSound(db: Db, d: DraftRequest, n: nat, now: int)
    requires Wanted(db, d, now)
    ensures Inv(Crowd(db, d, n))
  {
    OpeningSound(db);
    CrowdGathers(db, d, now, n);
    RunKeeps(db, Submissions(d, now, n));
  }

  lemma ClaimStaysFresh(db: Db, d: DraftRequest, n: nat, me: Staff, now: int)
    requires Wanted(db, d, now) && n > 0
    ensures var w2 := ClaimedFirst(db, d, n, me, now); Inv(w2.db) && ReviewFresh(w2, me) && QueueFresh(w2, me)
  {
    var w1 := DeskStep(LoadedDesk(db, d, n, me), me, Open(0, false));
    CrowdSound(db, d, n, now);
    ClaimPressed(db, d, n, me, now);
    PressInv(w1, ClaimButton, me, now);
    PressReviewFresh(w1, ClaimButton, me, now);
    ClaimedListed(db, d, n, me, now);
    QueueRefines(w1, ClaimButton, me, now);
  }

  lemma ClaimedListed(db: Db, d: DraftRequest, n: nat, me: Staff, now: int)
    requires n > 0
    ensures Listed(ClaimedFirst(db, d, n, me, now).db.rows, me, 0)
  {
    ClaimPressed(db, d, n, me, now);
  }

  /**
   More than a hundred requests are submitted, a sales employee loads the queue, opens and claims
   the oldest request and rejects it: the patched queue is no longer the one a reload would give.
   */
  lemma QueueFallsBehind(db: Db, d: DraftRequest, n: nat, me: Staff, now: int)
    requires Wanted(db, d, now) && n > PAGE
    ensures Run(db, Submissions(d, now, n)) == LoadedDesk(db, d, n, me).db
    ensures var events := [Open(0, false), Push(ClaimButton, now), Push(DecisionButton(Reject), now)];
      var end := DeskRun(LoadedDesk(db, d, n, me), me, events);
      QueueFresh(LoadedDesk(db, d, n, me), me) && end.desk.queue != QueueView(end.db, me)
  {
    var w2 := ClaimedFirst(db, d, n, me, now);
    CrowdGathers(db, d, now, n);
    ClaimPressed(db, d, n, me, now);
    ClaimStaysFresh(db, d, n, me, now);
    StillAllListed(db, d, n, me, now);
    QueueRefines(w2, DecisionButton(Reject), me, now);
    assert FirstPage(ListedIds(w2.db, me))[0] == 0;
    ThreeEvents(LoadedDesk(db, d, n, me), me, Open(0, false), Push(ClaimButton, now), Push(DecisionButton(Reject), now));
  }

  lemma ThreeEvents(w: World, me: Staff, a: DeskEvent, b: DeskEvent, c: DeskEvent)
    ensures DeskRun(w, me, [a, b, c]) == DeskStep(DeskStep(DeskStep(w, me, a), me, b), me, c)
  {
    assert [a, b, c][1..] == [b, c] && [b, c][1..] == [c] && [c][1..] == [];
    var w1 := DeskStep(w, me, a);
    assert DeskRun(w1, me, [b, c]) == DeskRun(DeskStep(w1, me, b), me, [c]);
  }
}
