/**
 The whole store under any sequence of requests from customers, sales, administrators, the
 expiry sweep and the fleet office: no vehicle is promised twice, and requests take a bounded way with
 a timeline that shows it.
 */
module ReservationStore {
  import opened Util
  import opened Reservations
  import opened ReservationSteps

  // ------------------------------------------- a request is a step on one row

  /** The step a request makes on the row it names. */
  ghost function StepOf(db: Db, id: ReservationId, now: int, q: Request): Step
    requires id in db.rows
  {
    var row := db.rows[id];
    if Execute(db, id, now, q).db.rows == db.rows then Idle
    else match q
      case Claim(staff) => Take(staff)
      case Decide(_, decision) => Judge(decision, now)
      case Propose(_, vehicle, p, r) => Offering(NewestOffer(Execute(db, id, now, q).db.rows[id]))
      case Sign(_) => Signing(now)
      case RecordBranch(_, amount, receipt) => Checking(Deposit(amount, receipt, now), now)
      case ConfirmRequest(_) => Confirming(now)
      case WriteConfirmation(_) => Confirming(now)
      case RunOperation(_, action, reading) => Operating(action, reading, now)
      case ReviewFile(_, document, accept, _) => Reviewing(document, accept)
      case ReplaceFile(_, document, _) => Replacing(document)
      case AnswerRequest(_) => Replying
      case Answer(_, accept) =>
        var i := PendingOffer(row.offers);
        if i.None? then Idle
        else if row.offers[i.value].expiresAt <= now then AnsweringLate(i.value)
        else if accept then Accepting(i.value) else Declining(i.value)
      case SweepOffer => if PendingOffer(row.offers).None? then Idle else Lapsing(PendingOffer(row.offers).value)
      case SweepPreApproval => Expiring
      case _ => Idle
  }

  function NewestOffer(row: Row): Offer {
    if row.offers == [] then Offer(OfferLapsed, 0, 0, 0, 0, 0, 0, 0) else row.offers[|row.offers| - 1]
  }

  ghost predicate Refines(db: Db, id: ReservationId, now: int, q: Request)
    requires id in db.rows
  {
    var s := StepOf(db, id, now, q);
    var db' := Execute(db, id, now, q).db;
    && Enabled(db.rows[id], s)
    && db'.rows == db.rows[id := Apply(db.rows[id], s)]
    && (s.Offering? ==> OfferPriced(db.rows[id].driverRequested, s.offer))
  }

  /**
   What a confirmation on its way has read still holds, as long as the request is pre-approved; if
   it is not, it never will be again.
   */
  predicate Cleared(row: Row) {
    && row.status != Draft && row.status != PendingReview && row.status != UnderReview
    && row.status != MoreInformationRequired && row.status != AlternativeOffered
    && (row.status == PreApproved ==> row.contractSignedAt.Some? && row.deposit.Some? && row.attendedAt.Some?)
  }

  ghost predicate ReadsHold(db: Db) {
    forall t | t in db.confirming :: db.confirming[t] in db.rows && Cleared(db.rows[db.confirming[t]])
  }

  predicate FromBranch(q: Request) { q.Sign? || q.RecordBranch? || q.ConfirmRequest? }

  predicate InTwoParts(q: Request) { q.ReadConfirmation? || q.WriteConfirmation? }

  lemma ConfirmationStepTaken(db: Db, id: ReservationId, now: int, q: Request)
    requires id in db.rows && ColumnsAgree(db.rows[id]) && ReadsHold(db) && InTwoParts(q)
    ensures Refines(db, id, now, q)
  {
  }

  lemma OperateStepTaken(db: Db, id: ReservationId, now: int, q: Request)
    requires id in db.rows && q.RunOperation?
    ensures Refines(db, id, now, q)
  {
  }

  lemma ProposeStepTaken(db: Db, id: ReservationId, now: int, q: Request)
    requires id in db.rows && q.Propose?
    ensures Refines(db, id, now, q)
  {
  }

  lemma BranchStepTaken(db: Db, id: ReservationId, now: int, q: Request)
    requires id in db.rows && ColumnsAgree(db.rows[id]) && FromBranch(q)
    ensures Refines(db, id, now, q)
  {
  }

  /** An offer or a pre-approval that lapses, or an answer to an offer. */
  predicate OnExpiry(q: Request) { q.SweepOffer? || q.SweepPreApproval? || q.Answer? }

  lemma AnswerStepTaken(db: Db, id: ReservationId, now: int, q: Request)
    requires id in db.rows && ColumnsAgree(db.rows[id]) && q.Answer?
    ensures Refines(db, id, now, q)
  {
  }

  lemma SweepStepTaken(db: Db, id: ReservationId, now: int, q: Request)
    requires id in db.rows && ColumnsAgree(db.rows[id]) && (q.SweepOffer? || q.SweepPreApproval?)
    ensures Refines(db, id, now, q)
  {
  }

  predicate OnPapers(q: Request) { q.ReviewFile? || q.ReplaceFile? || q.AnswerRequest? }

  lemma PaperStepTaken(db: Db, id: ReservationId, now: int, q: Request)
    requires id in db.rows && ColumnsAgree(db.rows[id]) && OnPapers(q)
    ensures Refines(db, id, now, q)
  {
  }

  lemma OtherStepTaken(db: Db, id: ReservationId, now: int, q: Request)
    requires id in db.rows && ColumnsAgree(db.rows[id]) && !OnPapers(q)
    requires !FromBranch(q) && !InTwoParts(q) && !q.RunOperation? && !q.Propose? && !OnExpiry(q)
    ensures Refines(db, id, now, q)
  {
  }

  /** Whatever a request does to the stored requests is one enabled step on the one it names. */
  lemma StepTaken(db: Db, id: ReservationId, now: int, q: Request)
    requires id in db.rows && ColumnsAgree(db.rows[id]) && ReadsHold(db)
    ensures Refines(db, id, now, q)
  {
    if FromBranch(q) {
      BranchStepTaken(db, id, now, q);
    } else if InTwoParts(q) {
      ConfirmationStepTaken(db, id, now, q);
    } else if q.RunOperation? {
      OperateStepTaken(db, id, now, q);
    } else if q.Propose? {
      ProposeStepTaken(db, id, now, q);
    } else if q.Answer? {
      AnswerStepTaken(db, id, now, q);
    } else if OnExpiry(q) {
      SweepStepTaken(db, id, now, q);
    } else if OnPapers(q) {
      PaperStepTaken(db, id, now, q);
    } else {
      OtherStepTaken(db, id, now, q);
    }
  }

  // ------------------------------------------------------- what the store keeps

  ghost predicate RowsSound(db: Db) { forall i :: i in db.rows ==> RowSound(db.rows[i]) }

  predicate Clash(a: Booking, b: Booking) {
    a.vehicle == b.vehicle && Overlaps(a.pickupAt, a.returnAt, b.pickupAt, b.returnAt)
  }

  /** No two confirmed or active bookings share a vehicle and a moment. */
  ghost predicate NoDoubleBooking(db: Db) {
    forall i, j | i in db.rows && j in db.rows && i != j && Live(db.rows[i]) && Live(db.rows[j]) ::
      !Clash(db.rows[i].booking.value, db.rows[j].booking.value)
  }

  /** The block lies over the confirmed or active booking of the row. */
  predicate Over(k: Block, row: Row) {
    Live(row) && Covers(k, row.booking.value.vehicle, row.booking.value.pickupAt, row.booking.value.returnAt)
  }

  /** No fleet block overlaps a confirmed or active booking of its vehicle. */
  ghost predicate BlocksClear(db: Db) {
    forall k, i | k in db.blocks && i in db.rows :: !Over(db.blocks[k], db.rows[i])
  }

  ghost predicate ReceiptsUnique(db: Db) {
    forall i, j | i in db.rows && j in db.rows && i != j
                  && db.rows[i].deposit.Some? && db.rows[j].deposit.Some? ::
      db.rows[i].deposit.value.receipt != db.rows[j].deposit.value.receipt
  }

  ghost predicate OrderAgrees(db: Db) {
    Distinct(db.order) && forall i :: i in db.order <==> i in db.rows
  }

  ghost predicate TablesAgree(db: Db) { NoDoubleBooking(db) && ReceiptsUnique(db) && OrderAgrees(db) }

  ghost predicate Inv(db: Db) { RowsSound(db) && TablesAgree(db) && ReadsHold(db) }

  /** The part of a row that other rows depend on is the same, or smaller. */
  predicate Quiet(row: Row, row': Row) {
    && (Live(row') ==> Live(row) && row'.booking.value.vehicle == row.booking.value.vehicle
                       && row'.booking.value.pickupAt == row.booking.value.pickupAt
                       && row'.booking.value.returnAt == row.booking.value.returnAt)
    && (row'.deposit.Some? ==> row'.deposit == row.deposit)
  }

  lemma QuietOperations(row: Row, action: Action, reading: Option<Reading>, now: int)
    requires ColumnsAgree(row) && Enabled(row, Operating(action, reading, now))
    ensures Quiet(row, OperateRow(row, action, reading, now))
  {
  }

  /** Every step but a confirmation and a checklist is quiet. */
  lemma QuietSteps(row: Row, s: Step)
    requires ColumnsAgree(row) && Enabled(row, s)
    requires !s.Confirming? && !s.Checking?
    ensures Quiet(row, Apply(row, s))
  {
    if s.Operating? {
      QuietOperations(row, s.action, s.reading, s.now);
    }
  }

  lemma QuietKeeps(db: Db, id: ReservationId, row': Row)
    requires TablesAgree(db) && id in db.rows && Quiet(db.rows[id], row')
    ensures TablesAgree(db.(rows := db.rows[id := row']))
  {
  }

  lemma ConfirmKeeps(db: Db, id: ReservationId, price: Price, now: int)
    requires TablesAgree(db) && id in db.rows
    requires Unbooked(db, db.rows[id].vehicle, db.rows[id].pickupAt, db.rows[id].returnAt)
    ensures TablesAgree(db.(rows := db.rows[id := ConfirmRow(db.rows[id], price, now)]))
  {
  }

  lemma ChecklistKeeps(db: Db, id: ReservationId, deposit: Deposit, now: int)
    requires TablesAgree(db) && id in db.rows && db.rows[id].status == PreApproved
    requires !ReceiptTaken(db, id, deposit.receipt)
    ensures TablesAgree(db.(rows := db.rows[id := CheckRow(db.rows[id], deposit, now)]))
  {
  }

  /** The vehicles, the blocks and the calls on their way are no part of the agreement. */
  lemma OtherTables(db: Db, db': Db)
    requires TablesAgree(db) && db'.rows == db.rows && db'.order == db.order
    ensures TablesAgree(db')
  {
  }

  lemma NewRowKeeps(db: Db, id: ReservationId, row: Row)
    requires TablesAgree(db) && id !in db.rows
    requires row.booking.None? && row.deposit.None? && row.status != Active
    ensures TablesAgree(db.(rows := db.rows[id := row], order := db.order + [id]))
  {
    var db' := db.(rows := db.rows[id := row], order := db.order + [id]);
    assert OrderAgrees(db') by {
      forall i ensures i in db'.order <==> i in db'.rows {
        assert i in db'.order <==> i in db.order || i == id;
      }
    }
  }

  function SubmittedRow(d: DraftRequest): Row { Move(DraftRow(d), PendingReview, Submitted) }

  lemma NewRow(db: Db, id: ReservationId, d: DraftRequest, now: int)
    requires SubmitDraft(db, id, d, now).db != db
    ensures id !in db.rows
    ensures SubmitDraft(db, id, d, now).db == db.(rows := db.rows[id := SubmittedRow(d)], order := db.order + [id])
  {
  }

  lemma NewRowInv(db: Db, id: ReservationId, d: DraftRequest)
    requires Inv(db) && id !in db.rows
    ensures Inv(db.(rows := db.rows[id := SubmittedRow(d)], order := db.order + [id]))
  {
    SubmittedSound(d);
    RowSaved(db, db.(rows := db.rows[id := SubmittedRow(d)], order := db.order + [id]), id, SubmittedRow(d));
    NewRowKeeps(db, id, SubmittedRow(d));
  }

  lemma SubmitKeeps(db: Db, id: ReservationId, d: DraftRequest, now: int)
    requires Inv(db)
    ensures Inv(SubmitDraft(db, id, d, now).db)
    ensures var db' := SubmitDraft(db, id, d, now).db;
      db' == db
      || (id !in db.rows && db' == db.(rows := db.rows[id := SubmittedRow(d)], order := db.order + [id]))
  {
    if SubmitDraft(db, id, d, now).db != db {
      NewRow(db, id, d, now);
      NewRowInv(db, id, d);
    }
  }

  lemma OperateFrame(db: Db, id: ReservationId, staff: Staff, action: Action, reading: Option<Reading>, now: int)
    requires id in db.rows
    ensures var db' := Operate(db, id, staff, action, reading, now).db;
      db'.order == db.order
      && (db'.rows == db.rows
          || (Enabled(db.rows[id], Operating(action, reading, now))
              && db'.rows == db.rows[id := OperateRow(db.rows[id], action, reading, now)]))
  {
  }

  lemma OperateKeeps(db: Db, id: ReservationId, staff: Staff, action: Action, reading: Option<Reading>, now: int)
    requires Inv(db) && id in db.rows
    ensures TablesAgree(Operate(db, id, staff, action, reading, now).db)
  {
    var db' := Operate(db, id, staff, action, reading, now).db;
    OperateFrame(db, id, staff, action, reading, now);
    if db'.rows == db.rows {
      OtherTables(db, db');
    } else {
      QuietOperations(db.rows[id], action, reading, now);
      QuietKeeps(db, id, OperateRow(db.rows[id], action, reading, now));
      OtherTables(db.(rows := db'.rows), db');
    }
  }

  /** A confirmation's writes keep bookings apart by the table's constraint alone, whenever its reads were. */
  lemma WriteBookingKeeps(db: Db, id: ReservationId, now: int)
    requires TablesAgree(db)
    ensures TablesAgree(WriteBooking(db, id, now).db)
  {
    if BookingTaken(db, id) {
      ConfirmKeeps(db, id, PriceOf(db.rows[id]), now);
    }
  }

  lemma ConfirmationKeeps(db: Db, id: ReservationId, now: int, q: Request)
    requires TablesAgree(db) && (q.ConfirmRequest? || InTwoParts(q))
    ensures TablesAgree(Execute(db, id, now, q).db)
  {
    if q.ConfirmRequest? {
      WriteBookingKeeps(db, id, now);
    } else if q.WriteConfirmation? && q.transaction in db.confirming {
      WriteBookingKeeps(db.(confirming := db.confirming - {q.transaction}), id, now);
    }
  }

  lemma RecordChecklistKeeps(db: Db, id: ReservationId, staff: Staff, amount: int, receipt: string, now: int)
    requires TablesAgree(db)
    ensures TablesAgree(RecordChecklist(db, id, staff, amount, receipt, now).db)
  {
    if id in db.rows && RecordChecklist(db, id, staff, amount, receipt, now).db != db {
      ChecklistKeeps(db, id, Deposit(amount, receipt, now), now);
    }
  }

  /** Requests that touch one row and neither book, bank nor hand over anything. */
  predicate OneRowOnly(q: Request) {
    || q.Claim? || q.Decide? || q.Propose? || q.Sign? || q.ReviewFile? || q.ReplaceFile?
    || q.AnswerRequest? || q.Answer? || q.SweepOffer? || q.SweepPreApproval?
  }

  lemma OneRowFrame(db: Db, id: ReservationId, now: int, q: Request)
    requires OneRowOnly(q)
    ensures var db' := Execute(db, id, now, q).db; db' == db.(rows := db'.rows)
  {
  }

  lemma NotABooking(db: Db, id: ReservationId, now: int, q: Request)
    requires id in db.rows && OneRowOnly(q)
    ensures var s := StepOf(db, id, now, q); !s.Confirming? && !s.Checking? && !s.Operating?
  {
  }

  /** The row such a request leaves behind. */
  lemma OneRowStep(db: Db, id: ReservationId, now: int, q: Request) returns (row': Row)
    requires Inv(db) && id in db.rows && OneRowOnly(q)
    ensures Execute(db, id, now, q).db == db.(rows := db.rows[id := row']) && Quiet(db.rows[id], row')
  {
    StepTaken(db, id, now, q);
    OneRowFrame(db, id, now, q);
    NotABooking(db, id, now, q);
    QuietSteps(db.rows[id], StepOf(db, id, now, q));
    row' := Apply(db.rows[id], StepOf(db, id, now, q));
  }

  lemma OneRowKeeps(db: Db, id: ReservationId, now: int, q: Request)
    requires Inv(db) && id in db.rows && OneRowOnly(q)
    ensures TablesAgree(Execute(db, id, now, q).db)
  {
    var row' := OneRowStep(db, id, now, q);
    QuietKeeps(db, id, row');
  }

  lemma RowsKept(db: Db, id: ReservationId, now: int, q: Request)
    requires Inv(db) && id in db.rows
    ensures RowsSound(Execute(db, id, now, q).db)
  {
    StepTaken(db, id, now, q);
    StepSound(db.rows[id], StepOf(db, id, now, q));
    RowSaved(db, Execute(db, id, now, q).db, id, Apply(db.rows[id], StepOf(db, id, now, q)));
  }

  lemma RowSaved(db: Db, db': Db, id: ReservationId, row: Row)
    requires RowsSound(db) && RowSound(row) && db'.rows == db.rows[id := row]
    ensures RowsSound(db')
  {
  }

  predicate OnBlocks(q: Request) { q.CheckPeriod? || q.AddBlock? || q.DropBlock? }

  predicate OnFleet(q: Request) { OnBlocks(q) || q.EditFleet? }

  lemma RowRequestKeeps(db: Db, id: ReservationId, now: int, q: Request)
    requires Inv(db) && id in db.rows && !OnFleet(q) && !q.Submit?
    ensures TablesAgree(Execute(db, id, now, q).db)
  {
    if q.ConfirmRequest? || InTwoParts(q) {
      ConfirmationKeeps(db, id, now, q);
    } else if q.RecordBranch? {
      RecordChecklistKeeps(db, id, q.staff, q.amount, q.receipt, now);
    } else if q.RunOperation? {
      OperateKeeps(db, id, q.staff, q.action, q.reading, now);
    } else {
      OneRowKeeps(db, id, now, q);
    }
  }

  lemma UnknownRow(db: Db, id: ReservationId, now: int, q: Request)
    requires ReadsHold(db) && id !in db.rows && !OnFleet(q) && !q.Submit?
    ensures Execute(db, id, now, q).db == db
  {
  }

  /** Every request keeps rows sound and tables in agreement, whoever sends it and whenever. */
  lemma RowsAndTables(db: Db, id: ReservationId, now: int, q: Request)
    requires Inv(db)
    ensures var db' := Execute(db, id, now, q).db; RowsSound(db') && TablesAgree(db')
  {
    if OnFleet(q) {
      FleetFrame(db, id, now, q);
      OtherTables(db, Execute(db, id, now, q).db);
    } else if q.Submit? {
      SubmitKeeps(db, id, q.draft, now);
    } else if id in db.rows {
      RowsKept(db, id, now, q);
      RowRequestKeeps(db, id, now, q);
    } else {
      UnknownRow(db, id, now, q);
    }
  }

  // ------------------------------------------------- confirmations on their way

  lemma ClearedOperation(row: Row, action: Action, reading: Option<Reading>, now: int)
    requires ColumnsAgree(row) && Enabled(row, Operating(action, reading, now))
    ensures Cleared(Apply(row, Operating(action, reading, now)))
  {
  }

  lemma ClearedStep(row: Row, s: Step)
    requires ColumnsAgree(row) && Enabled(row, s) && Cleared(row)
    ensures Cleared(Apply(row, s))
    ensures Apply(row, s).status == PreApproved ==> row.status == PreApproved && SameTerms(row, Apply(row, s))
  {
    if s.Operating? {
      ClearedOperation(row, s.action, s.reading, s.now);
    }
  }

  /** What a confirmation copies from the request into the booking. */
  predicate SameTerms(row: Row, row': Row) {
    && row'.customer == row.customer && row'.vehicle == row.vehicle && row'.branch == row.branch
    && row'.pickupAt == row.pickupAt && row'.returnAt == row.returnAt
    && PriceOf(row') == PriceOf(row)
  }

  lemma NewReads(db: Db, id: ReservationId, now: int, q: Request, t: TransactionId)
    requires t in Execute(db, id, now, q).db.confirming
    ensures var db' := Execute(db, id, now, q).db;
      if t in db.confirming then db'.confirming[t] == db.confirming[t]
      else db'.rows == db.rows && db'.confirming[t] == id && id in db.rows && Cleared(db.rows[id])
  {
  }

  /** What a confirmation on its way has read survives every request. */
  lemma ReadsSurvive(db: Db, c: Call)
    requires Inv(db)
    ensures ReadsHold(Execute(db, c.id, c.now, c.request).db)
  {
    var db' := Execute(db, c.id, c.now, c.request).db;
    forall t | t in db'.confirming ensures db'.confirming[t] in db'.rows && Cleared(db'.rows[db'.confirming[t]]) {
      NewReads(db, c.id, c.now, c.request, t);
      if t in db.confirming {
        var row', s := RowAfter(db, c, db.confirming[t]);
        ClearedStep(db.rows[db.confirming[t]], s);
      }
    }
  }

  /** Every request keeps the store sound, whoever sends it and whenever. */
  lemma ExecuteKeeps(db: Db, id: ReservationId, now: int, q: Request)
    requires Inv(db)
    ensures Inv(Execute(db, id, now, q).db)
  {
    RowsAndTables(db, id, now, q);
    ReadsSurvive(db, Call(id, now, q));
  }

  /**
   The writes of a confirmation use the row as it is then, and the code the row its transaction has
   read: once a request can be confirmed, it keeps its terms for as long as it is pre-approved.
   */
  lemma {:induction false} ReadStillHolds(db: Db, calls: seq<Call>, i: ReservationId)
    requires Inv(db) && i in db.rows && Cleared(db.rows[i])
    ensures var end := Run(db, calls);
      && i in end.rows && Cleared(end.rows[i])
      && (end.rows[i].status == PreApproved ==>
            db.rows[i].status == PreApproved && SameTerms(db.rows[i], end.rows[i]))
    decreases |calls|
  {
    if calls != [] {
      var row', s := RowAfter(db, calls[0], i);
      ClearedStep(db.rows[i], s);
      ExecuteKeeps(db, calls[0].id, calls[0].now, calls[0].request);
      ReadStillHolds(Execute(db, calls[0].id, calls[0].now, calls[0].request).db, calls[1..], i);
    }
  }

  // --------------------------------------------------------------- whole runs

  datatype Call = Call(id: ReservationId, now: int, request: Request)

  function Run(db: Db, calls: seq<Call>): Db
    decreases |calls|
  {
    if calls == [] then db
    else Run(Execute(db, calls[0].id, calls[0].now, calls[0].request).db, calls[1..])
  }

  /** A store without reservations, with whatever vehicles and blocks. */
  predicate Opening(db: Db) { db.rows == map[] && db.order == [] && db.confirming == map[] }

  lemma {:induction false} RunConcat(db: Db, first: seq<Call>, rest: seq<Call>)
    ensures Run(db, first + rest) == Run(Run(db, first), rest)
    decreases |first|
  {
    if first == [] {
      assert first + rest == rest;
    } else {
      assert (first + rest)[1..] == first[1..] + rest;
      RunConcat(Execute(db, first[0].id, first[0].now, first[0].request).db, first[1..], rest);
    }
  }

  /** The property holds at the start and after every call of the run. */
  ghost predicate Throughout(holds: Db -> bool, db: Db, calls: seq<Call>) {
    forall n: nat :: n <= |calls| ==> holds(Run(db, calls[..n]))
  }

  lemma LaterPrefix(db: Db, calls: seq<Call>, n: nat)
    requires 0 < n <= |calls|
    ensures Run(db, calls[..n]) == Run(Execute(db, calls[0].id, calls[0].now, calls[0].request).db, calls[1..][..n - 1])
  {
    assert calls[..n][1..] == calls[1..][..n - 1];
  }

  lemma NextThroughout(holds: Db -> bool, db: Db, calls: seq<Call>)
    ensures Throughout(holds, db, calls) <==>
      holds(db)
      && (calls != [] ==>
            Throughout(holds, Execute(db, calls[0].id, calls[0].now, calls[0].request).db, calls[1..]))
  {
    assert Run(db, calls[..0]) == db;
    if calls != [] {
      var db1 := Execute(db, calls[0].id, calls[0].now, calls[0].request).db;
      if Throughout(holds, db, calls) {
        forall n: nat | n <= |calls[1..]| ensures holds(Run(db1, calls[1..][..n])) {
          LaterPrefix(db, calls, n + 1);
        }
      }
      if holds(db) && Throughout(holds, db1, calls[1..]) {
        forall n: nat | n <= |calls| ensures holds(Run(db, calls[..n])) {
          if n > 0 {
            LaterPrefix(db, calls, n);
          }
        }
      }
    }
  }

  lemma {:induction false} RunKeeps(db: Db, calls: seq<Call>)
    requires Inv(db)
    ensures Inv(Run(db, calls))
    decreases |calls|
  {
    if calls != [] {
      ExecuteKeeps(db, calls[0].id, calls[0].now, calls[0].request);
      RunKeeps(Execute(db, calls[0].id, calls[0].now, calls[0].request).db, calls[1..]);
    }
  }

  /**
   Whatever customers, sales, administrators, the expiry sweep and the fleet office ask for, in
   any order and at any time, and whatever comes between the reads and the writes of a confirmation:
   confirmed and active bookings of one vehicle never overlap each other.
   */
  lemma NeverDoubleBooked(db: Db, calls: seq<Call>, i: ReservationId, j: ReservationId)
    requires Opening(db)
    ensures var end := Run(db, calls);
      i in end.rows && j in end.rows && i != j && Live(end.rows[i]) && Live(end.rows[j]) ==>
        !Clash(end.rows[i].booking.value, end.rows[j].booking.value)
  {
    RunKeeps(db, calls);
  }

  /**
   In every run, a completed request went through every milestone once and in order, and whenever
   a booking is present it carries the request's own status, vehicle and period.
   */
  lemma CompletedInOrder(db: Db, calls: seq<Call>, i: ReservationId)
    requires Opening(db)
    ensures var end := Run(db, calls);
      i in end.rows ==>
        && (end.rows[i].booking.Some? ==> end.rows[i].booking.value.status == end.rows[i].status)
        && (end.rows[i].status == Completed ==>
              Milestones(end.rows[i].timeline) ==
                (if end.rows[i].assignee.Some? then [Claimed] else []) +
                [Decided(PreApprove), ContractStored, ChecklistRecorded, BookingConfirmed,
                 Operated(Deliver), Operated(Return), Operated(Complete)])
  {
    RunKeeps(db, calls);
    var end := Run(db, calls);
    if i in end.rows && end.rows[i].status == Completed {
      FinishedRental(end.rows[i]);
    }
  }

  /**
   What gets booked is what the customer last agreed to: in every run, a booking of a request with
   an accepted offer has the car, the period and the price of the last offer that was accepted.
   */
  lemma BookedAsAccepted(db: Db, calls: seq<Call>, i: ReservationId, k: nat)
    requires Opening(db)
    ensures var end := Run(db, calls);
      i in end.rows && end.rows[i].booking.Some? && LastAccepted(end.rows[i].offers, k) ==>
        var b, o := end.rows[i].booking.value, end.rows[i].offers[k];
        b.vehicle == o.vehicle && b.pickupAt == o.pickupAt && b.returnAt == o.returnAt && b.price.grandTotal == o.total
  {
    RunKeeps(db, calls);
  }

  // ------------------------------------------------------- how long it can take

  /** The sales steps a run makes on request i. */
  ghost function SalesSteps(db: Db, calls: seq<Call>, i: ReservationId): nat
    decreases |calls|
  {
    if calls == [] then 0
    else
      var c := calls[0];
      One(c.id == i && i in db.rows && SalesStep(db.rows[i], StepOf(db, i, c.now, c.request)))
      + SalesSteps(Execute(db, c.id, c.now, c.request).db, calls[1..], i)
  }

  /** The times request i goes back to review: replies, answers to offers and lapsed offers. */
  ghost function Returns(db: Db, calls: seq<Call>, i: ReservationId): nat
    decreases |calls|
  {
    if calls == [] then 0
    else
      var c := calls[0];
      One(c.id == i && i in db.rows && BackToReview(StepOf(db, i, c.now, c.request)))
      + Returns(Execute(db, c.id, c.now, c.request).db, calls[1..], i)
  }

  lemma FleetFrame(db: Db, id: ReservationId, now: int, q: Request)
    requires OnFleet(q)
    ensures var db' := Execute(db, id, now, q).db;
      db'.rows == db.rows && db'.order == db.order && db'.confirming == db.confirming
  {
  }

  lemma RowOfAnother(db: Db, id: ReservationId, now: int, q: Request, i: ReservationId)
    requires Inv(db) && i in db.rows && i != id && !OnFleet(q) && !q.Submit?
    ensures var db' := Execute(db, id, now, q).db; i in db'.rows && db'.rows[i] == db.rows[i]
  {
    if id in db.rows {
      StepTaken(db, id, now, q);
    } else {
      UnknownRow(db, id, now, q);
    }
  }

  /** A request about another reservation leaves this one alone. */
  lemma Untouched(db: Db, id: ReservationId, now: int, q: Request, i: ReservationId)
    requires Inv(db) && i in db.rows && (i != id || OnFleet(q) || q.Submit?)
    ensures var db' := Execute(db, id, now, q).db; i in db'.rows && db'.rows[i] == db.rows[i]
  {
    if OnFleet(q) {
      FleetFrame(db, id, now, q);
    } else if q.Submit? {
      SubmitKeeps(db, id, q.draft, now);
    } else {
      RowOfAnother(db, id, now, q, i);
    }
  }

  /** A confirmation that goes through meets the constraint on bookings; one made in one go has looked at blocks too. */
  lemma ConfirmsUnbooked(db: Db, id: ReservationId, now: int, q: Request)
    requires id in db.rows && StepOf(db, id, now, q).Confirming?
    ensures q.ConfirmRequest? || q.WriteConfirmation?
    ensures Unbooked(db, db.rows[id].vehicle, db.rows[id].pickupAt, db.rows[id].returnAt)
    ensures q.ConfirmRequest? ==> Free(db, db.rows[id].vehicle, db.rows[id].pickupAt, db.rows[id].returnAt)
  {
    if q.ConfirmRequest? {
      assert ConfirmBooking(db, id, q.staff, now).db.rows != db.rows;
    } else if q.WriteConfirmation? {
      assert EndConfirmation(db, id, q.transaction, now).db.rows != db.rows;
    }
  }

  /** A decision that goes through comes from whoever may act on the request. */
  lemma JudgeMayAct(db: Db, id: ReservationId, now: int, q: Request)
    requires id in db.rows && StepOf(db, id, now, q).Judge?
    ensures q.Decide? && MayAct(db.rows[id], q.staff)
  {
    if q.Decide? {
      assert DecideReview(db, id, q.staff, q.decision, now).db.rows != db.rows;
    }
  }

  /** What a call makes of request i, as one step. */
  lemma RowAfter(db: Db, c: Call, i: ReservationId) returns (row': Row, s: Step)
    requires Inv(db) && i in db.rows
    ensures var db' := Execute(db, c.id, c.now, c.request).db; i in db'.rows && db'.rows[i] == row'
    ensures Enabled(db.rows[i], s) && row' == Apply(db.rows[i], s)
    ensures s == if c.id == i then StepOf(db, i, c.now, c.request) else Idle
    ensures s.Confirming? ==>
      && (c.request.ConfirmRequest? || c.request.WriteConfirmation?)
      && (c.request.ConfirmRequest? ==> Free(db, db.rows[i].vehicle, db.rows[i].pickupAt, db.rows[i].returnAt))
    ensures s.Judge? ==> c.request.Decide? && MayAct(db.rows[i], c.request.staff)
  {
    if c.id == i {
      StepTaken(db, i, c.now, c.request);
      s := StepOf(db, i, c.now, c.request);
      if s.Judge? {
        JudgeMayAct(db, i, c.now, c.request);
      } else if s.Confirming? {
        ConfirmsUnbooked(db, i, c.now, c.request);
      }
    } else {
      Untouched(db, c.id, c.now, c.request, i);
      s := Idle;
    }
    row' := Apply(db.rows[i], s);
  }

  lemma RankAfter(db: Db, c: Call, i: ReservationId)
    requires Inv(db) && i in db.rows
    ensures var db' := Execute(db, c.id, c.now, c.request).db;
      && i in db'.rows
      && (if c.id == i then
            var s := StepOf(db, i, c.now, c.request);
            Rank(db'.rows[i]) + One(SalesStep(db.rows[i], s)) <= Rank(db.rows[i]) + One(BackToReview(s))
          else db'.rows[i] == db.rows[i])
  {
    if c.id == i {
      StepTaken(db, i, c.now, c.request);
      RankStep(db.rows[i], StepOf(db, i, c.now, c.request));
    } else {
      Untouched(db, c.id, c.now, c.request, i);
    }
  }

  lemma {:induction false} StepsBounded(db: Db, calls: seq<Call>, i: ReservationId)
    requires Inv(db) && i in db.rows
    ensures SalesSteps(db, calls, i) <= Rank(db.rows[i]) + Returns(db, calls, i)
    decreases |calls|
  {
    if calls != [] {
      RankAfter(db, calls[0], i);
      ExecuteKeeps(db, calls[0].id, calls[0].now, calls[0].request);
      StepsBounded(Execute(db, calls[0].id, calls[0].now, calls[0].request).db, calls[1..], i);
    }
  }

  /** A request first appears by its submission: eight sales steps away from the end, with a gapless timeline. */
  lemma FirstSeen(db: Db, c: Call, i: ReservationId)
    requires Inv(db) && i !in db.rows && i in Execute(db, c.id, c.now, c.request).db.rows
    ensures var row := Execute(db, c.id, c.now, c.request).db.rows[i];
      row.status == PendingReview && Rank(row) == 8 && Gapless(row) && row.assignee.None? && row.booking.None?
  {
    if OnFleet(c.request) {
      FleetFrame(db, c.id, c.now, c.request);
    } else if !c.request.Submit? {
      if c.id in db.rows {
        StepTaken(db, c.id, c.now, c.request);
      } else {
        UnknownRow(db, c.id, c.now, c.request);
      }
    }
  }

  /** From its submission on, a request takes at most eight sales steps more than it is sent back to review. */
  lemma {:induction false} EightStepsAndReturns(db: Db, calls: seq<Call>, i: ReservationId)
    requires Inv(db) && i !in db.rows
    ensures SalesSteps(db, calls, i) <= 8 + Returns(db, calls, i)
    decreases |calls|
  {
    if calls != [] {
      var c := calls[0];
      var db' := Execute(db, c.id, c.now, c.request).db;
      ExecuteKeeps(db, c.id, c.now, c.request);
      if i in db'.rows {
        FirstSeen(db, c, i);
        StepsBounded(db', calls[1..], i);
      } else {
        EightStepsAndReturns(db', calls[1..], i);
      }
    }
  }

  // ------------------------------------------------------------- the audit trail

  predicate LateCall(db: Db, c: Call, i: ReservationId) {
    c.id == i && i in db.rows && c.request.Answer? && AnswersLate(db.rows[i], c.request.customer, c.now)
  }

  /** The answers to request i that arrive after the offer has lapsed. */
  function LateAnswers(db: Db, calls: seq<Call>, i: ReservationId): nat
    decreases |calls|
  {
    if calls == [] then 0
    else
      var c := calls[0];
      One(LateCall(db, c, i)) + LateAnswers(Execute(db, c.id, c.now, c.request).db, calls[1..], i)
  }

  lemma LateStep(db: Db, c: Call, i: ReservationId)
    requires i in db.rows && c.id == i
    ensures StepOf(db, i, c.now, c.request).AnsweringLate? <==> LateCall(db, c, i)
  {
    if LateCall(db, c, i) {
      assert Execute(db, i, c.now, c.request).db.rows[i].status == UnderReview;
    }
  }

  lemma TimelineAfter(db: Db, c: Call, i: ReservationId)
    requires Inv(db) && i in db.rows && TailAgrees(db.rows[i])
    ensures var db' := Execute(db, c.id, c.now, c.request).db;
      && i in db'.rows && TailAgrees(db'.rows[i])
      && (Gapless(db'.rows[i]) <==> Gapless(db.rows[i]) && !LateCall(db, c, i))
  {
    if c.id == i {
      StepTaken(db, i, c.now, c.request);
      GaplessUnlessLate(db.rows[i], StepOf(db, i, c.now, c.request));
      LateStep(db, c, i);
    } else {
      Untouched(db, c.id, c.now, c.request, i);
    }
  }

  lemma {:induction false} TimelineOver(db: Db, calls: seq<Call>, i: ReservationId)
    requires Inv(db) && i in db.rows && TailAgrees(db.rows[i])
    ensures i in Run(db, calls).rows && TailAgrees(Run(db, calls).rows[i])
    ensures Gapless(Run(db, calls).rows[i]) <==> Gapless(db.rows[i]) && LateAnswers(db, calls, i) == 0
    decreases |calls|
  {
    if calls != [] {
      TimelineAfter(db, calls[0], i);
      ExecuteKeeps(db, calls[0].id, calls[0].now, calls[0].request);
      TimelineOver(Execute(db, calls[0].id, calls[0].now, calls[0].request).db, calls[1..], i);
    }
  }

  /** In every run, the timeline of a submitted request has no gap exactly when no offer was answered late. */
  lemma {:induction false} TimelineGapless(db: Db, calls: seq<Call>, i: ReservationId)
    requires Inv(db) && i !in db.rows
    ensures i in Run(db, calls).rows ==>
      (Gapless(Run(db, calls).rows[i]) <==> LateAnswers(db, calls, i) == 0)
    decreases |calls|
  {
    if calls != [] {
      var c := calls[0];
      var db' := Execute(db, c.id, c.now, c.request).db;
      ExecuteKeeps(db, c.id, c.now, c.request);
      if i in db'.rows {
        FirstSeen(db, c, i);
        TimelineOver(db', calls[1..], i);
      } else {
        TimelineGapless(db', calls[1..], i);
      }
    }
  }
}
