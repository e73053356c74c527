/**
 Handing vehicles over. A delivery finds the vehicle available and marks it rented in one guarded
 write, but the vehicle editor writes back the status it read earlier: after a delivery in between
 the mark is lost, and the vehicle can be delivered again. This says exactly when.
 */
module Handovers {
  import opened Util
  import opened Reservations
  import opened ReservationSteps
  import opened ReservationStore

  // ------------------------------------------------------------ one call at a time

  /** Request i has the vehicle. */
  predicate Holds(db: Db, i: ReservationId, v: VehicleId) {
    i in db.rows && db.rows[i].status == Active && db.rows[i].vehicle == v
  }

  /** Every vehicle out with a customer is marked rented. */
  ghost predicate Marked(db: Db) {
    forall i, v :: Holds(db, i, v) ==> v in db.vehicles && db.vehicles[v].status == Rented
  }

  /** No vehicle is out with two customers. */
  ghost predicate OneHolder(db: Db) {
    forall i, j, v :: Holds(db, i, v) && Holds(db, j, v) ==> i == j
  }

  /** An edit writes another status than rented on a vehicle that is out. */
  predicate Forgets(db: Db, c: Call) {
    && c.request.EditFleet? && c.request.vehicle in db.vehicles
    && (c.request.edit.active || c.request.seen == Available || c.request.seen == Inactive)
    && StatusWritten(c.request.edit, c.request.previous) != Rented
    && exists i :: i in db.rows && Holds(db, i, c.request.vehicle)
  }

  /** The checks of a delivery. */
  predicate DeliveryTaken(db: Db, id: ReservationId, staff: Staff, reading: Option<Reading>, now: int) {
    && id in db.rows && db.rows[id].booking.Some? && MayAct(db.rows[id], staff)
    && OperationCheck(db.rows[id], Deliver, reading, now) == Done
    && db.rows[id].vehicle in db.vehicles
    && (db.vehicles[db.rows[id].vehicle].status == Available
        || db.vehicles[db.rows[id].vehicle].status == ConfirmedBooking)
  }

  predicate Delivers(q: Request) { q.RunOperation? && q.action == Deliver }

  /** A delivery of a vehicle that another customer has. */
  predicate DeliversAgain(db: Db, c: Call) {
    && Delivers(c.request) && DeliveryTaken(db, c.id, c.request.staff, c.request.reading, c.now)
    && exists j :: j in db.rows && Holds(db, j, db.rows[c.id].vehicle)
  }

  /** The requests that have a vehicle after the call had it before. */
  ghost predicate NoMoreOut(db: Db, db': Db) {
    forall i, v :: Holds(db', i, v) ==> Holds(db, i, v)
  }

  lemma OperatingStep(row: Row, action: Action, reading: Option<Reading>, now: int)
    requires ColumnsAgree(row) && Enabled(row, Operating(action, reading, now)) && action != Deliver
    ensures var row' := OperateRow(row, action, reading, now);
      row'.vehicle == row.vehicle && (row'.status == Active ==> row.status == Active)
  {
  }

  /** Only a delivery hands a vehicle over, and an active request keeps its vehicle. */
  lemma ActiveStep(row: Row, s: Step)
    requires ColumnsAgree(row) && Enabled(row, s) && !(s.Operating? && s.action == Deliver)
    ensures Apply(row, s).status == Active ==> row.status == Active && Apply(row, s).vehicle == row.vehicle
  {
    if s.Operating? {
      OperatingStep(row, s.action, s.reading, s.now);
    }
  }

  lemma NotADelivery(db: Db, c: Call, i: ReservationId)
    requires i in db.rows && !Delivers(c.request)
    ensures var s := StepOf(db, i, c.now, c.request); !(s.Operating? && s.action == Deliver)
  {
  }

  lemma NoHandover(db: Db, c: Call)
    requires Inv(db) && !Delivers(c.request)
    ensures NoMoreOut(db, Execute(db, c.id, c.now, c.request).db)
  {
    var db' := Execute(db, c.id, c.now, c.request).db;
    forall i, v | Holds(db', i, v) ensures Holds(db, i, v) {
      if i in db.rows {
        var row', s := RowAfter(db, c, i);
        NotADelivery(db, c, i);
        ActiveStep(db.rows[i], s);
      } else {
        FirstSeen(db, c, i);
      }
    }
  }

  /** A delivery whose checks pass marks the vehicle, and any other changes nothing. */
  lemma DeliveryEffect(db: Db, id: ReservationId, staff: Staff, reading: Option<Reading>, now: int)
    ensures var db' := Operate(db, id, staff, Deliver, reading, now).db;
      if DeliveryTaken(db, id, staff, reading, now) then
        var v := db.rows[id].vehicle;
        && db'.rows == db.rows[id := OperateRow(db.rows[id], Deliver, reading, now)]
        && db'.vehicles == db.vehicles[v := db.vehicles[v].(status := Rented)]
      else db' == db
  {
  }

  /** Who has which vehicle after a delivery. */
  lemma DeliveryHolds(db: Db, id: ReservationId, staff: Staff, reading: Option<Reading>, now: int)
    requires DeliveryTaken(db, id, staff, reading, now)
    ensures var db' := Operate(db, id, staff, Deliver, reading, now).db;
      forall i, v :: Holds(db', i, v) <==> Holds(db, i, v) || (i == id && v == db.rows[id].vehicle)
  {
    DeliveryEffect(db, id, staff, reading, now);
  }

  lemma DeliveryKeepsOne(db: Db, c: Call)
    requires OneHolder(db) && Delivers(c.request)
    ensures OneHolder(Execute(db, c.id, c.now, c.request).db) <==> !DeliversAgain(db, c)
  {
    var q, db' := c.request, Execute(db, c.id, c.now, c.request).db;
    DeliveryEffect(db, c.id, q.staff, q.reading, c.now);
    if DeliveryTaken(db, c.id, q.staff, q.reading, c.now) {
      DeliveryHolds(db, c.id, q.staff, q.reading, c.now);
      if DeliversAgain(db, c) {
        var j :| j in db.rows && Holds(db, j, db.rows[c.id].vehicle);
        assert j != c.id && Holds(db', j, db.rows[c.id].vehicle) && Holds(db', c.id, db.rows[c.id].vehicle);
      }
    }
  }

  /** One call leaves a vehicle with two customers exactly when it delivers one that is out. */
  lemma HolderStep(db: Db, c: Call)
    requires Inv(db) && OneHolder(db)
    ensures OneHolder(Execute(db, c.id, c.now, c.request).db) <==> !DeliversAgain(db, c)
  {
    if Delivers(c.request) {
      DeliveryKeepsOne(db, c);
    } else {
      NoHandover(db, c);
    }
  }

  /** A vehicle that is marked rented is not delivered again. */
  lemma MarkGuards(db: Db, c: Call)
    requires Marked(db)
    ensures !DeliversAgain(db, c)
  {
  }

  // ------------------------------------------------------------------- the mark

  lemma EditedMark(db: Db, c: Call)
    requires Marked(db) && c.request.EditFleet?
    ensures Marked(Execute(db, c.id, c.now, c.request).db) <==> !Forgets(db, c)
  {
    var db' := Execute(db, c.id, c.now, c.request).db;
    if Forgets(db, c) {
      var i :| i in db.rows && Holds(db, i, c.request.vehicle);
      assert Holds(db', i, c.request.vehicle);
    } else {
      forall i, v | Holds(db', i, v) ensures v in db'.vehicles && db'.vehicles[v].status == Rented {
        assert Holds(db, i, v);
      }
    }
  }

  lemma DeliveryMarks(db: Db, c: Call)
    requires Marked(db) && Delivers(c.request)
    ensures Marked(Execute(db, c.id, c.now, c.request).db)
  {
    var q := c.request;
    DeliveryEffect(db, c.id, q.staff, q.reading, c.now);
    if DeliveryTaken(db, c.id, q.staff, q.reading, c.now) {
      DeliveryHolds(db, c.id, q.staff, q.reading, c.now);
    }
  }

  lemma CompletionEffect(db: Db, id: ReservationId, staff: Staff, reading: Option<Reading>, now: int)
    ensures var db' := Operate(db, id, staff, Complete, reading, now).db;
      db'.vehicles == db.vehicles
      || (id in db.rows && Holds(db, id, db.rows[id].vehicle) && !Holds(db', id, db.rows[id].vehicle)
          && db.rows[id].vehicle in db.vehicles
          && db'.vehicles ==
               db.vehicles[db.rows[id].vehicle := db.vehicles[db.rows[id].vehicle].(status := Available)])
  {
  }

  /** Releasing a vehicle that only request i had takes no mark off a vehicle that is out. */
  lemma ReleaseKeepsMarks(db: Db, db': Db, i: ReservationId, v: VehicleId, vehicle: Vehicle)
    requires Marked(db) && OneHolder(db) && NoMoreOut(db, db')
    requires Holds(db, i, v) && !Holds(db', i, v) && db'.vehicles == db.vehicles[v := vehicle]
    ensures Marked(db')
  {
  }

  lemma CompletionKeepsMarks(db: Db, c: Call)
    requires Inv(db) && Marked(db) && OneHolder(db) && c.request.RunOperation? && c.request.action == Complete
    ensures Marked(Execute(db, c.id, c.now, c.request).db)
  {
    var db' := Execute(db, c.id, c.now, c.request).db;
    NoHandover(db, c);
    CompletionEffect(db, c.id, c.request.staff, c.request.reading, c.now);
    if db'.vehicles != db.vehicles {
      var v := db.rows[c.id].vehicle;
      ReleaseKeepsMarks(db, db', c.id, v, db'.vehicles[v]);
    }
  }

  lemma RowCallLeavesVehicles(db: Db, c: Call)
    requires OneRowOnly(c.request)
    ensures Execute(db, c.id, c.now, c.request).db.vehicles == db.vehicles
  {
    OneRowFrame(db, c.id, c.now, c.request);
  }

  /** No other call touches a vehicle. */
  lemma VehiclesStay(db: Db, c: Call)
    requires !c.request.EditFleet? && !c.request.RunOperation?
    ensures Execute(db, c.id, c.now, c.request).db.vehicles == db.vehicles
  {
    if OneRowOnly(c.request) {
      RowCallLeavesVehicles(db, c);
    }
  }

  lemma OperationsLeaveVehicles(db: Db, c: Call)
    requires c.request.RunOperation? && c.request.action != Deliver && c.request.action != Complete
    ensures Execute(db, c.id, c.now, c.request).db.vehicles == db.vehicles
  {
  }

  /** One call leaves a vehicle that is out without its mark exactly when it is an edit that forgets it. */
  lemma MarkStep(db: Db, c: Call)
    requires Inv(db) && Marked(db) && OneHolder(db)
    ensures Marked(Execute(db, c.id, c.now, c.request).db) <==> !Forgets(db, c)
  {
    if c.request.EditFleet? {
      EditedMark(db, c);
    } else if Delivers(c.request) {
      DeliveryMarks(db, c);
    } else if c.request.RunOperation? && c.request.action == Complete {
      CompletionKeepsMarks(db, c);
    } else {
      NoHandover(db, c);
      if c.request.RunOperation? {
        OperationsLeaveVehicles(db, c);
      } else {
        VehiclesStay(db, c);
      }
    }
  }

  /** An edit that writes the status as it is forgets nothing. */
  lemma EditInOneGo(db: Db, c: Call)
    requires Marked(db) && c.request.EditFleet?
    requires c.request.vehicle in db.vehicles ==> c.request.previous == db.vehicles[c.request.vehicle].status
    ensures !Forgets(db, c)
  {
  }

  // ------------------------------------------------------------------ whole runs

  /** How often a run delivers a vehicle that another customer has. */
  function DeliveredAgain(db: Db, calls: seq<Call>): nat
    decreases |calls|
  {
    if calls == [] then 0
    else
      One(DeliversAgain(db, calls[0]))
      + DeliveredAgain(Execute(db, calls[0].id, calls[0].now, calls[0].request).db, calls[1..])
  }

  /** How often an edit of the run forgets that a vehicle is out. */
  function Forgotten(db: Db, calls: seq<Call>): nat
    decreases |calls|
  {
    if calls == [] then 0
    else One(Forgets(db, calls[0])) + Forgotten(Execute(db, calls[0].id, calls[0].now, calls[0].request).db, calls[1..])
  }

  lemma {:induction false} HoldersOver(db: Db, calls: seq<Call>)
    requires Inv(db) && OneHolder(db)
    ensures Throughout(OneHolder, db, calls) <==> DeliveredAgain(db, calls) == 0
    decreases |calls|
  {
    NextThroughout(OneHolder, db, calls);
    if calls != [] {
      var db1 := Execute(db, calls[0].id, calls[0].now, calls[0].request).db;
      HolderStep(db, calls[0]);
      ExecuteKeeps(db, calls[0].id, calls[0].now, calls[0].request);
      if OneHolder(db1) {
        HoldersOver(db1, calls[1..]);
      } else {
        NextThroughout(OneHolder, db1, calls[1..]);
      }
    }
  }

  lemma {:induction false} MarksOver(db: Db, calls: seq<Call>)
    requires Inv(db) && Marked(db) && OneHolder(db)
    ensures Throughout(Marked, db, calls) <==> Forgotten(db, calls) == 0
    ensures Forgotten(db, calls) == 0 ==> DeliveredAgain(db, calls) == 0
    decreases |calls|
  {
    NextThroughout(Marked, db, calls);
    if calls != [] {
      var db1 := Execute(db, calls[0].id, calls[0].now, calls[0].request).db;
      MarkGuards(db, calls[0]);
      HolderStep(db, calls[0]);
      MarkStep(db, calls[0]);
      ExecuteKeeps(db, calls[0].id, calls[0].now, calls[0].request);
      if Marked(db1) {
        MarksOver(db1, calls[1..]);
      } else {
        NextThroughout(Marked, db1, calls[1..]);
      }
    }
  }

  /**
   From a store without reservations, whatever anybody asks for and whenever: every vehicle is with
   one customer at a time exactly when none is delivered again while it is out, and that needs an
   edit that wrote an old status over the mark of a vehicle that was out.
   */
  lemma OneCustomerAtATime(db: Db, calls: seq<Call>)
    requires Opening(db)
    ensures Throughout(OneHolder, db, calls) <==> DeliveredAgain(db, calls) == 0
    ensures Throughout(Marked, db, calls) <==> Forgotten(db, calls) == 0
    ensures Forgotten(db, calls) == 0 ==> DeliveredAgain(db, calls) == 0
  {
    assert Inv(db) && Marked(db) && OneHolder(db);
    HoldersOver(db, calls);
    MarksOver(db, calls);
  }
}
