/**
 Fleet blocks and bookings. The fleet service reads the conflict and inserts the block in separate
 calls; a confirmation reads the blocks and writes the booking in separate statements; and no
 constraint of the database relates blocks to bookings. Either can land between the other's read
 and write. This says exactly when a block and a booking come to lie over each other.
 */
module FleetBlocks {
  import opened Util
  import opened Reservations
  import opened ReservationSteps
  import opened ReservationStore

  // ------------------------------------------------------------ one call at a time

  /** Request i lies over the block. */
  predicate Lies(db: Db, i: ReservationId, k: Block) { i in db.rows && Over(k, db.rows[i]) }

  predicate StillLive(db: Db, i: ReservationId) { i in db.rows && Live(db.rows[i]) }

  /** The writes of a confirmation, over whose period a block has been inserted by then. */
  predicate BooksUnder(db: Db, c: Call) {
    && c.request.WriteConfirmation? && c.request.transaction in db.confirming
    && db.confirming[c.request.transaction] == c.id && BookingTaken(db, c.id)
    && !Unblocked(db, db.rows[c.id].vehicle, db.rows[c.id].pickupAt, db.rows[c.id].returnAt)
  }

  predicate Collides(db: Db, c: Call) { Overlays(db, c) || BooksUnder(db, c) }

  /** The insertion of a block over a confirmed or active booking. */
  predicate Overlays(db: Db, c: Call) {
    && c.request.AddBlock? && c.request.block in db.checked
    && exists i :: i in db.rows && Over(db.checked[c.request.block], db.rows[i])
  }

  /** The same booking or none, but for its status, which is not made live. */
  predicate SameBooking(row: Row, row': Row) {
    && (row'.booking.Some? <==> row.booking.Some?)
    && (Live(row') ==> Live(row))
    && (row.booking.Some? ==>
          && row'.booking.value.vehicle == row.booking.value.vehicle
          && row'.booking.value.pickupAt == row.booking.value.pickupAt
          && row'.booking.value.returnAt == row.booking.value.returnAt)
  }

  lemma OperatedStays(row: Row, action: Action, reading: Option<Reading>, now: int)
    requires Enabled(row, Operating(action, reading, now))
    ensures SameBooking(row, OperateRow(row, action, reading, now))
  {
  }

  lemma BookingStays(row: Row, s: Step)
    requires Enabled(row, s) && !s.Confirming?
    ensures SameBooking(row, Apply(row, s))
  {
    if s.Operating? {
      OperatedStays(row, s.action, s.reading, s.now);
    } else {
      UnbookedStays(row, s);
    }
  }

  lemma UnbookedStays(row: Row, s: Step)
    requires Enabled(row, s) && !s.Confirming? && !s.Operating?
    ensures Apply(row, s).booking == row.booking
  {
  }

  lemma BlocksOfRequest(db: Db, id: ReservationId, now: int, q: Request)
    requires !OnBlocks(q)
    ensures Execute(db, id, now, q).db.blocks == db.blocks && Execute(db, id, now, q).db.checked == db.checked
  {
    if OneRowOnly(q) {
      OneRowFrame(db, id, now, q);
    } else if q.RunOperation? {
      OperationLeavesBlocks(db, id, now, q);
    }
  }

  lemma OperationLeavesBlocks(db: Db, id: ReservationId, now: int, q: Request)
    requires q.RunOperation?
    ensures Execute(db, id, now, q).db.blocks == db.blocks && Execute(db, id, now, q).db.checked == db.checked
  {
  }

  lemma StepOver(row: Row, s: Step, k: Block)
    requires ColumnsAgree(row) && Enabled(row, s)
    ensures Over(k, Apply(row, s)) <==>
      if s.Confirming? then Covers(k, row.vehicle, row.pickupAt, row.returnAt)
      else Over(k, row) && Live(Apply(row, s))
  {
    if !s.Confirming? {
      BookingStays(row, s);
    }
  }

  lemma StepClear(db: Db, i: ReservationId, s: Step, k: BlockId)
    requires i in db.rows && ColumnsAgree(db.rows[i]) && Enabled(db.rows[i], s) && k in db.blocks
    requires s.Confirming? ==> Unblocked(db, db.rows[i].vehicle, db.rows[i].pickupAt, db.rows[i].returnAt)
    requires !Over(db.blocks[k], db.rows[i])
    ensures !Over(db.blocks[k], Apply(db.rows[i], s))
  {
    StepOver(db.rows[i], s, db.blocks[k]);
  }

  lemma FirstSeenOff(db: Db, c: Call, i: ReservationId, k: Block)
    requires Inv(db) && i !in db.rows && i in Execute(db, c.id, c.now, c.request).db.rows
    ensures !Lies(Execute(db, c.id, c.now, c.request).db, i, k)
    ensures !StillLive(Execute(db, c.id, c.now, c.request).db, i)
  {
    FirstSeen(db, c, i);
  }

  /** A confirmation goes through only where no inserted block lies, unless one was inserted after its reads. */
  lemma ConfirmsClear(db: Db, c: Call, i: ReservationId)
    requires i in db.rows && c.id == i && StepOf(db, i, c.now, c.request).Confirming? && !BooksUnder(db, c)
    ensures Unblocked(db, db.rows[i].vehicle, db.rows[i].pickupAt, db.rows[i].returnAt)
  {
    ConfirmsUnbooked(db, i, c.now, c.request);
    if c.request.WriteConfirmation? {
      assert EndConfirmation(db, i, c.request.transaction, c.now).db.rows != db.rows;
    }
  }

  /** No other call leaves a booking over a block that was inserted before, unless it lay there already. */
  lemma RowOver(db: Db, c: Call, i: ReservationId, k: BlockId)
    requires Inv(db) && k in db.blocks && i in Execute(db, c.id, c.now, c.request).db.rows && !BooksUnder(db, c)
    requires i in db.rows ==> !Over(db.blocks[k], db.rows[i])
    ensures !Lies(Execute(db, c.id, c.now, c.request).db, i, db.blocks[k])
  {
    if i !in db.rows {
      FirstSeenOff(db, c, i, db.blocks[k]);
    } else {
      var row', s := RowAfter(db, c, i);
      if s.Confirming? {
        ConfirmsClear(db, c, i);
      }
      StepClear(db, i, s, k);
    }
  }

  /** Such writes do bring the two together. */
  lemma BookedUnder(db: Db, c: Call)
    requires BooksUnder(db, c)
    ensures !BlocksClear(Execute(db, c.id, c.now, c.request).db)
  {
    var row, db' := db.rows[c.id], Execute(db, c.id, c.now, c.request).db;
    var k :| k in db.blocks && Covers(db.blocks[k], row.vehicle, row.pickupAt, row.returnAt);
    assert k in db'.blocks && c.id in db'.rows && Over(db'.blocks[k], db'.rows[c.id]);
  }

  lemma RowsOfBlocks(db: Db, id: ReservationId, now: int, q: Request)
    requires OnBlocks(q)
    ensures var db' := Execute(db, id, now, q).db;
      && db'.rows == db.rows
      && (!q.AddBlock? ==> forall k | k in db'.blocks :: k in db.blocks && db'.blocks[k] == db.blocks[k])
      && (q.AddBlock? && q.block !in db.checked ==> db' == db)
      && (q.AddBlock? && q.block in db.checked ==> db'.blocks == db.blocks[q.block := db.checked[q.block]])
  {
  }

  lemma BlockRequest(db: Db, c: Call)
    requires BlocksClear(db) && OnBlocks(c.request)
    ensures BlocksClear(Execute(db, c.id, c.now, c.request).db) <==> !Overlays(db, c)
  {
    var db' := Execute(db, c.id, c.now, c.request).db;
    RowsOfBlocks(db, c.id, c.now, c.request);
    if Overlays(db, c) {
      var i :| i in db.rows && Over(db.checked[c.request.block], db.rows[i]);
      assert c.request.block in db'.blocks && i in db'.rows && Over(db'.blocks[c.request.block], db'.rows[i]);
    }
  }

  /**
   One call keeps blocks clear of bookings exactly when it neither inserts a block over a booking
   nor writes a booking under a block.
   */
  lemma BlocksStep(db: Db, c: Call)
    requires Inv(db) && BlocksClear(db)
    ensures BlocksClear(Execute(db, c.id, c.now, c.request).db) <==> !Collides(db, c)
  {
    var db' := Execute(db, c.id, c.now, c.request).db;
    if OnBlocks(c.request) {
      BlockRequest(db, c);
    } else if BooksUnder(db, c) {
      BookedUnder(db, c);
    } else {
      BlocksOfRequest(db, c.id, c.now, c.request);
      forall k, i | k in db'.blocks && i in db'.rows ensures !Over(db'.blocks[k], db'.rows[i]) {
        RowOver(db, c, i, k);
        assert !Lies(db', i, db'.blocks[k]);
      }
    }
  }

  // ------------------------------------------------------------------ whole runs

  /** How often a run inserts a block over a booking or writes a booking under a block. */
  function Collisions(db: Db, calls: seq<Call>): nat
    decreases |calls|
  {
    if calls == [] then 0
    else
      One(Collides(db, calls[0]))
      + Collisions(Execute(db, calls[0].id, calls[0].now, calls[0].request).db, calls[1..])
  }

  /**
   In every run that starts with blocks clear of bookings, they stay clear throughout exactly when
   no block is inserted over a booking and no booking is written under a block. A confirmation made
   in one go never does the latter.
   */
  lemma {:induction false} BlocksStayClear(db: Db, calls: seq<Call>)
    requires Inv(db) && BlocksClear(db)
    ensures Throughout(BlocksClear, db, calls) <==> Collisions(db, calls) == 0
    decreases |calls|
  {
    NextThroughout(BlocksClear, db, calls);
    if calls != [] {
      var db1 := Execute(db, calls[0].id, calls[0].now, calls[0].request).db;
      BlocksStep(db, calls[0]);
      ExecuteKeeps(db, calls[0].id, calls[0].now, calls[0].request);
      if BlocksClear(db1) {
        BlocksStayClear(db1, calls[1..]);
      } else {
        NextThroughout(BlocksClear, db1, calls[1..]);
      }
    }
  }

  // --------------------------------------------------- between the check and the insertion

  /** The call confirms request i over the period of the block. */
  ghost predicate ConfirmsOver(db: Db, c: Call, i: ReservationId, k: Block) {
    && c.id == i && i in db.rows && StepOf(db, i, c.now, c.request).Confirming?
    && Covers(k, db.rows[i].vehicle, db.rows[i].pickupAt, db.rows[i].returnAt)
  }

  /** Some call of the run does. */
  ghost predicate ConfirmedOver(db: Db, calls: seq<Call>, i: ReservationId, k: Block)
    decreases |calls|
  {
    calls != []
    && (ConfirmsOver(db, calls[0], i, k)
        || ConfirmedOver(Execute(db, calls[0].id, calls[0].now, calls[0].request).db, calls[1..], i, k))
  }

  lemma LiesAfterStep(db: Db, db': Db, i: ReservationId, s: Step, k: Block, confirms: bool)
    requires i in db.rows && ColumnsAgree(db.rows[i]) && Enabled(db.rows[i], s)
    requires i in db'.rows && db'.rows[i] == Apply(db.rows[i], s)
    requires confirms ==
      (s.Confirming? && Covers(k, db.rows[i].vehicle, db.rows[i].pickupAt, db.rows[i].returnAt))
    ensures Lies(db', i, k) <==> confirms || (Lies(db, i, k) && StillLive(db', i))
    ensures confirms ==> !Lies(db, i, k)
  {
    StepOver(db.rows[i], s, k);
  }

  /** A call leaves a request over the block exactly when it confirms it there, or it lay there and is still live. */
  lemma LiesAfter(db: Db, c: Call, i: ReservationId, k: Block)
    requires Inv(db)
    ensures var db' := Execute(db, c.id, c.now, c.request).db;
      && (Lies(db', i, k) <==> ConfirmsOver(db, c, i, k) || (Lies(db, i, k) && StillLive(db', i)))
      && (ConfirmsOver(db, c, i, k) ==> !Lies(db, i, k))
  {
    if i in db.rows {
      var row', s := RowAfter(db, c, i);
      LiesAfterStep(db, Execute(db, c.id, c.now, c.request).db, i, s, k, ConfirmsOver(db, c, i, k));
    } else if i in Execute(db, c.id, c.now, c.request).db.rows {
      FirstSeenOff(db, c, i, k);
    }
  }

  /** A booking that was called off or completed is never live again. */
  predicate Closed(row: Row) { row.booking.Some? && !Live(row) }

  lemma ClosedStep(row: Row, s: Step)
    requires ColumnsAgree(row) && Enabled(row, s) && Closed(row)
    ensures Closed(Apply(row, s))
  {
    if !s.Confirming? {
      BookingStays(row, s);
    }
  }

  lemma {:induction false} ClosedForGood(db: Db, calls: seq<Call>, i: ReservationId)
    requires Inv(db) && i in db.rows && Closed(db.rows[i])
    ensures !StillLive(Run(db, calls), i)
    decreases |calls|
  {
    if calls != [] {
      var row', s := RowAfter(db, calls[0], i);
      ClosedStep(db.rows[i], s);
      ExecuteKeeps(db, calls[0].id, calls[0].now, calls[0].request);
      ClosedForGood(Execute(db, calls[0].id, calls[0].now, calls[0].request).db, calls[1..], i);
    }
  }

  lemma LeftBehind(db: Db, c: Call, i: ReservationId, k: Block)
    requires Inv(db) && Lies(db, i, k) && !StillLive(Execute(db, c.id, c.now, c.request).db, i)
    ensures var db' := Execute(db, c.id, c.now, c.request).db; i in db'.rows && Closed(db'.rows[i])
  {
    var row', s := RowAfter(db, c, i);
    if !s.Confirming? {
      BookingStays(db.rows[i], s);
    }
  }

  /** After a run, a request lies over the block exactly when it is live and lay there before or was confirmed there. */
  lemma {:induction false} LiesAfterRun(db: Db, calls: seq<Call>, i: ReservationId, k: Block)
    requires Inv(db)
    ensures Lies(Run(db, calls), i, k) <==>
      StillLive(Run(db, calls), i) && (Lies(db, i, k) || ConfirmedOver(db, calls, i, k))
    decreases |calls|
  {
    if calls != [] {
      var db1 := Execute(db, calls[0].id, calls[0].now, calls[0].request).db;
      LiesAfter(db, calls[0], i, k);
      ExecuteKeeps(db, calls[0].id, calls[0].now, calls[0].request);
      LiesAfterRun(db1, calls[1..], i, k);
      if Lies(db, i, k) && !StillLive(db1, i) {
        LeftBehind(db, calls[0], i, k);
        ClosedForGood(db1, calls[1..], i);
      }
    }
  }

  /** The conflict check of a block finds every booking under it. */
  lemma CheckFindsBookings(db: Db, block: BlockId, vehicle: VehicleId, startsAt: int, endsAt: int, i: ReservationId)
    requires CheckBlock(db, block, vehicle, startsAt, endsAt).outcome == Done
    ensures !Lies(db, i, Block(vehicle, startsAt, endsAt))
  {
  }

  /**
   The first window. A block is checked, other calls follow, and the block is inserted over a booking
   exactly when a booking that is live by then was confirmed over it in between.
   */
  lemma BlockRace(db: Db, block: BlockId, vehicle: VehicleId, startsAt: int, endsAt: int, between: seq<Call>, c: Call)
    requires Inv(db) && CheckBlock(db, block, vehicle, startsAt, endsAt).outcome == Done
    requires c.request == AddBlock(block)
    requires var k := Block(vehicle, startsAt, endsAt);
      var end := Run(CheckBlock(db, block, vehicle, startsAt, endsAt).db, between);
      block in end.checked && end.checked[block] == k
    ensures var k, db1 := Block(vehicle, startsAt, endsAt), CheckBlock(db, block, vehicle, startsAt, endsAt).db;
      var end := Run(db1, between);
      Overlays(end, c) <==> exists i :: StillLive(end, i) && ConfirmedOver(db1, between, i, k)
  {
    var k, db1 := Block(vehicle, startsAt, endsAt), CheckBlock(db, block, vehicle, startsAt, endsAt).db;
    CheckKeeps(db, block, vehicle, startsAt, endsAt);
    forall i
      ensures Lies(Run(db1, between), i, k) <==>
        StillLive(Run(db1, between), i) && ConfirmedOver(db1, between, i, k)
    {
      LiesAfterRun(db1, between, i, k);
      CheckFindsBookings(db, block, vehicle, startsAt, endsAt, i);
    }
    OverlaysMeans(Run(db1, between), c, k);
  }

  lemma OverlaysMeans(db: Db, c: Call, k: Block)
    requires c.request.AddBlock? && c.request.block in db.checked && db.checked[c.request.block] == k
    ensures Overlays(db, c) <==> exists i :: Lies(db, i, k)
  {
    if Overlays(db, c) {
      var i :| i in db.rows && Over(db.checked[c.request.block], db.rows[i]);
      assert Lies(db, i, k);
    } else {
      forall i ensures !Lies(db, i, k) {
        assert i in db.rows ==> !Over(db.checked[c.request.block], db.rows[i]);
      }
    }
  }

  lemma CheckKeeps(db: Db, block: BlockId, vehicle: VehicleId, startsAt: int, endsAt: int)
    requires Inv(db)
    ensures Inv(CheckBlock(db, block, vehicle, startsAt, endsAt).db)
    ensures CheckBlock(db, block, vehicle, startsAt, endsAt).db.rows == db.rows
  {
    var q := CheckPeriod(block, vehicle, startsAt, endsAt);
    ExecuteKeeps(db, block, startsAt, q);
    FleetFrame(db, block, startsAt, q);
    CheckRequest(db, block, startsAt, q);
  }

  lemma CheckRequest(db: Db, id: ReservationId, now: int, q: Request)
    requires q.CheckPeriod?
    ensures Execute(db, id, now, q) == CheckBlock(db, q.block, q.vehicle, q.startsAt, q.endsAt)
  {
  }

  // ------------------------------------ between the reads and the writes of a confirmation

  /** The call inserts block b, with the content k. */
  predicate Inserts(db: Db, c: Call, b: BlockId, k: Block) {
    c.request == AddBlock(b) && b in db.checked && db.checked[b] == k
  }

  /** Some call of the run does. */
  predicate InsertedIn(db: Db, calls: seq<Call>, b: BlockId, k: Block)
    decreases |calls|
  {
    calls != []
    && (Inserts(db, calls[0], b, k)
        || InsertedIn(Execute(db, calls[0].id, calls[0].now, calls[0].request).db, calls[1..], b, k))
  }

  lemma BlockAfter(db: Db, c: Call, b: BlockId)
    requires b in Execute(db, c.id, c.now, c.request).db.blocks
    ensures var k := Execute(db, c.id, c.now, c.request).db.blocks[b];
      (b in db.blocks && db.blocks[b] == k) || Inserts(db, c, b, k)
  {
    if !OnBlocks(c.request) {
      BlocksOfRequest(db, c.id, c.now, c.request);
    }
  }

  /** A block on file after a run was there before it or was inserted in it. */
  lemma {:induction false} BlockAfterRun(db: Db, calls: seq<Call>, b: BlockId)
    requires b in Run(db, calls).blocks
    ensures var k := Run(db, calls).blocks[b];
      (b in db.blocks && db.blocks[b] == k) || InsertedIn(db, calls, b, k)
    decreases |calls|
  {
    if calls != [] {
      var db1 := Execute(db, calls[0].id, calls[0].now, calls[0].request).db;
      BlockAfterRun(db1, calls[1..], b);
      if b in db1.blocks {
        BlockAfter(db, calls[0], b);
      }
    }
  }

  /** The reads of a confirmation find the period of the request free of blocks, and change no table. */
  lemma ReadsClear(db: Db, i: ReservationId, t: TransactionId, staff: Staff, now: int)
    requires ConfirmationRead(db, i, staff, now).None? && t !in db.confirming
    ensures i in db.rows && Cleared(db.rows[i])
    ensures Unblocked(db, db.rows[i].vehicle, db.rows[i].pickupAt, db.rows[i].returnAt)
    ensures BeginConfirmation(db, i, t, staff, now).db == db.(confirming := db.confirming[t := i])
  {
  }

  /**
   The second window. A confirmation reads that it can go ahead, other calls follow, and its writes
   put the booking under a block exactly when they go through and a block that is still on file was
   inserted over the period in between.
   */
  lemma ConfirmationRace(db: Db, i: ReservationId, t: TransactionId, staff: Staff, now: int,
                         between: seq<Call>, c: Call)
    requires Inv(db) && ConfirmationRead(db, i, staff, now).None? && t !in db.confirming
    requires c.id == i && c.request == WriteConfirmation(t)
    requires var end := Run(BeginConfirmation(db, i, t, staff, now).db, between);
      t in end.confirming && end.confirming[t] == i
    ensures var row, db1 := db.rows[i], BeginConfirmation(db, i, t, staff, now).db;
      var end := Run(db1, between);
      BooksUnder(end, c) <==>
        BookingTaken(end, i)
        && exists b :: b in end.blocks && InsertedIn(db1, between, b, end.blocks[b])
                       && Covers(end.blocks[b], row.vehicle, row.pickupAt, row.returnAt)
  {
    var row, db1 := db.rows[i], BeginConfirmation(db, i, t, staff, now).db;
    var end := Run(db1, between);
    ReadsClear(db, i, t, staff, now);
    ReadKeeps(db, i, t, staff, now);
    ReadStillHolds(db1, between, i);
    if BooksUnder(end, c) {
      var b := InsertedSince(db1, between, row);
      assert InsertedIn(db1, between, b, end.blocks[b]);
    }
  }

  lemma ReadKeeps(db: Db, i: ReservationId, t: TransactionId, staff: Staff, now: int)
    requires Inv(db)
    ensures Inv(BeginConfirmation(db, i, t, staff, now).db)
  {
    ExecuteKeeps(db, i, now, ReadConfirmation(t, staff));
    ReadRequest(db, i, t, staff, now);
  }

  lemma ReadRequest(db: Db, i: ReservationId, t: TransactionId, staff: Staff, now: int)
    ensures Execute(db, i, now, ReadConfirmation(t, staff)) == BeginConfirmation(db, i, t, staff, now)
  {
  }

  lemma InsertedSince(db: Db, calls: seq<Call>, row: Row) returns (b: BlockId)
    requires Unblocked(db, row.vehicle, row.pickupAt, row.returnAt)
    requires !Unblocked(Run(db, calls), row.vehicle, row.pickupAt, row.returnAt)
    ensures b in Run(db, calls).blocks && InsertedIn(db, calls, b, Run(db, calls).blocks[b])
    ensures Covers(Run(db, calls).blocks[b], row.vehicle, row.pickupAt, row.returnAt)
  {
    b :| b in Run(db, calls).blocks && Covers(Run(db, calls).blocks[b], row.vehicle, row.pickupAt, row.returnAt);
    BlockAfterRun(db, calls, b);
  }
}
