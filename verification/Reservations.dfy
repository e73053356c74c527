/**
 The reservation store and its transactions
 (apps/api/src/reservations/reservations.repository.ts, with the role checks of
 reservations.service.ts). The repository object holds no state of its own: an operation writes in
 one database transaction, so each is a function from the store to a reply that carries the new
 store. Where the writes are not guarded by what was read before them, by the service or in the
 transaction, the earlier reads are an argument (ReviewDocument, ReplaceDocument, EditVehicle) or a
 step of their own (CheckBlock before InsertBlock, BeginConfirmation before EndConfirmation).
 Times are integer milliseconds, money is whole EGP, and dates chosen by a person are UTC midnights.
 */
module Reservations {
  import opened Util

  type UserId = nat
  type ReservationId = nat
  type VehicleId = nat
  type BlockId = nat
  type TransactionId = nat

  const DAY: int := 86_400_000
  const REVIEW_WINDOW: int := 48 * 60 * 60 * 1000

  datatype Status =
    | Draft | PendingReview | UnderReview | MoreInformationRequired | PreApproved
    | AlternativeOffered | Rejected | Expired
    | Confirmed | Active | Completed | Cancelled | NoShow

  datatype Decision = RequestInformation | PreApprove | Reject
  datatype Action = Deliver | Return | Complete | Cancel | MarkNoShow

  /** A member of staff; administrators may act on requests assigned to somebody else. */
  datatype Staff = Staff(id: UserId, admin: bool)

  datatype Reading = Reading(odometerKm: nat, fuelPercent: nat)
  datatype OperationType = DeliveryReading | ReturnReading
  datatype Operation = Operation(kind: OperationType, reading: Reading, recordedAt: int)
  datatype Price = Price(days: int, vehicleSubtotal: int, driverSubtotal: int, grandTotal: int)
  datatype Deposit = Deposit(amount: int, receipt: string, recordedAt: int)

  datatype Booking = Booking(
    vehicle: VehicleId, pickupAt: int, returnAt: int, status: Status,
    operations: seq<Operation>, price: Price, confirmedAt: int)

  datatype OfferStatus = OfferPending | OfferAccepted | OfferDeclined | OfferLapsed | OfferWithdrawn
  datatype Offer = Offer(
    status: OfferStatus, vehicle: VehicleId, pickupAt: int, returnAt: int,
    dailyRate: int, driverRate: int, total: int, expiresAt: int)

  /** What one entry of the request's timeline records. */
  datatype Act =
    | Submitted
    | Claimed
    | Decided(decision: Decision)
    | OfferSent
    | OfferAnswered(accepted: bool)
    | OfferTimedOut
    | Replied
    | DocumentReviewed(accepted: bool)
    | DocumentReplaced
    | ContractStored
    | ChecklistRecorded
    | BookingConfirmed
    | Operated(action: Action)
    | PreApprovalTimedOut

  datatype Event = Event(from: Status, to: Status, act: Act)

  datatype Row = Row(
    customer: UserId, branch: nat, assignee: Option<UserId>, status: Status,
    vehicle: VehicleId, pickupAt: int, returnAt: int, driverRequested: bool,
    dailyRate: int, driverRate: int, total: int,
    preApprovalExpiresAt: Option<int>,
    attendedAt: Option<int>, deposit: Option<Deposit>, contractSignedAt: Option<int>,
    booking: Option<Booking>, returnedAt: Option<int>,
    offers: seq<Offer>, rejected: set<nat>, timeline: seq<Event>)

  datatype VehicleStatus = Available | PendingRequest | ConfirmedBooking | Rented | Inactive | OutOfService
  datatype Vehicle = Vehicle(
    branch: nat, active: bool, status: VehicleStatus, minimumDays: nat,
    driverUnavailable: bool, dailyRate: int, driverCharge: int, deposit: Option<int>)

  datatype Block = Block(vehicle: VehicleId, startsAt: int, endsAt: int)

  /**
   The tables; order lists the submitted reservations, oldest first. checked holds the fleet blocks
   on their way: their conflict check has passed, and their row is still to be inserted. confirming
   holds the confirmations on their way: the transaction has read that the request can be confirmed,
   and its writes are still to come.
   */
  datatype Db = Db(
    rows: map<ReservationId, Row>, order: seq<ReservationId>,
    vehicles: map<VehicleId, Vehicle>, blocks: map<BlockId, Block>, checked: map<BlockId, Block>,
    confirming: map<TransactionId, ReservationId>)

  datatype Outcome =
    | Done | NotFound | NotAssigned | AlreadyAssigned | NotReady | InvalidDates | DriverUnavailable
    | VehicleUnavailable | PreApprovalOver | RequirementsIncomplete | DepositNotConfigured
    | DepositMismatch | ContractRequired | AlreadyRecorded | ReceiptInUse | OfferOver
    | DocumentsPending | InvalidTransition | InvalidOdometer | TooEarly

  datatype Reply = Reply(db: Db, outcome: Outcome)

  // ---------------------------------------------------------------- helpers

  function Refuse(db: Db, why: Outcome): Reply { Reply(db, why) }

  function Save(db: Db, id: ReservationId, row: Row): Reply {
    Reply(db.(rows := db.rows[id := row]), Done)
  }

  /** row moved to status to, with the matching timeline entry. */
  function Move(row: Row, to: Status, act: Act): Row {
    row.(status := to, timeline := row.timeline + [Event(row.status, to, act)])
  }

  predicate MayAct(row: Row, staff: Staff) {
    staff.admin || row.assignee == Some(staff.id)
  }

  predicate Overlaps(a: int, b: int, c: int, d: int) { a < d && c < b }

  predicate Live(row: Row) {
    row.booking.Some? && (row.booking.value.status == Confirmed || row.booking.value.status == Active)
  }

  /** The block lies over the period of the vehicle. */
  predicate Covers(k: Block, vehicle: VehicleId, from: int, to: int) {
    k.vehicle == vehicle && Overlaps(k.startsAt, k.endsAt, from, to)
  }

  predicate Unblocked(db: Db, vehicle: VehicleId, from: int, to: int) {
    forall b | b in db.blocks :: !Covers(db.blocks[b], vehicle, from, to)
  }

  predicate Unbooked(db: Db, vehicle: VehicleId, from: int, to: int) {
    forall r | r in db.rows ::
      Live(db.rows[r]) && db.rows[r].booking.value.vehicle == vehicle ==>
        !Overlaps(db.rows[r].booking.value.pickupAt, db.rows[r].booking.value.returnAt, from, to)
  }

  /** No fleet block and no confirmed or active booking touches the vehicle in the period. */
  predicate Free(db: Db, vehicle: VehicleId, from: int, to: int) {
    Unblocked(db, vehicle, from, to) && Unbooked(db, vehicle, from, to)
  }

  /** Math.ceil of the rental length in days. */
  function CeilDays(pickupAt: int, returnAt: int): int { (returnAt - pickupAt + DAY - 1) / DAY }

  /** Math.round of the rental length in days. */
  function RoundDays(pickupAt: int, returnAt: int): int { (2 * (returnAt - pickupAt) + DAY) / (2 * DAY) }

  function PendingOffer(offers: seq<Offer>): (r: Option<nat>)
    ensures r.Some? ==> r.value < |offers| && offers[r.value].status == OfferPending
    ensures r.None? ==> forall i :: 0 <= i < |offers| ==> offers[i].status != OfferPending
    ensures r.Some? ==> forall i :: r.value < i < |offers| ==> offers[i].status != OfferPending
  {
    if offers == [] then None
    else if offers[|offers| - 1].status == OfferPending then Some(|offers| - 1)
    else PendingOffer(offers[..|offers| - 1])
  }

  /** Every pending offer set to status. */
  function Withdraw(offers: seq<Offer>): (r: seq<Offer>)
    ensures |r| == |offers|
    ensures forall i :: 0 <= i < |r| ==>
      r[i] == if offers[i].status == OfferPending then offers[i].(status := OfferWithdrawn) else offers[i]
  {
    seq(|offers|, i requires 0 <= i < |offers| =>
      if offers[i].status == OfferPending then offers[i].(status := OfferWithdrawn) else offers[i])
  }

  // ------------------------------------------------------- customer: submit

  /** A saved draft: dates are whole days, ready says that every submission check passed. */
  datatype DraftRequest = DraftRequest(
    customer: UserId, branch: nat, vehicle: VehicleId, pickupDay: int, returnDay: int,
    driverRequested: bool, dailyRate: int, driverRate: int, ready: bool)

  function DraftRow(d: DraftRequest): Row {
    var pickup, back := d.pickupDay * DAY, d.returnDay * DAY;
    Row(d.customer, d.branch, None, Draft, d.vehicle, pickup, back, d.driverRequested,
        d.dailyRate, d.driverRate,
        (d.dailyRate + if d.driverRequested then d.driverRate else 0) * RoundDays(pickup, back),
        None, None, None, None, None, None, [], {}, [])
  }

  function SubmitDraft(db: Db, id: ReservationId, d: DraftRequest, now: int): Reply {
    var row := DraftRow(d);
    if id in db.rows then
      if db.rows[id].customer != d.customer then Refuse(db, NotFound)
      else if db.rows[id].status == PendingReview then Reply(db, Done)
      else Refuse(db, InvalidTransition)
    else if !d.ready then Refuse(db, NotReady)
    else if d.vehicle !in db.vehicles then Refuse(db, VehicleUnavailable)
    else
      var v := db.vehicles[d.vehicle];
      if !v.active || (v.status != Available && v.status != PendingRequest) || row.pickupAt <= now
         || !Free(db, d.vehicle, row.pickupAt, row.returnAt)
      then Refuse(db, VehicleUnavailable)
      else Save(db.(order := db.order + [id]), id, Move(row, PendingReview, Submitted))
  }

  // ------------------------------------------------ what each step does to a row

  function ClaimRow(row: Row, staff: Staff): Row {
    Move(row, UnderReview, Claimed).(assignee := Some(staff.id))
  }

  function DecideRow(row: Row, decision: Decision, now: int): Row {
    match decision
    case RequestInformation => Move(row, MoreInformationRequired, Decided(decision)).(preApprovalExpiresAt := None)
    case PreApprove => Move(row, PreApproved, Decided(decision)).(preApprovalExpiresAt := Some(now + REVIEW_WINDOW))
    case Reject => Move(row, Rejected, Decided(decision)).(preApprovalExpiresAt := None)
  }

  function OfferRow(row: Row, offer: Offer): Row {
    Move(row, AlternativeOffered, OfferSent).(offers := Withdraw(row.offers) + [offer])
  }

  function SignRow(row: Row, now: int): Row {
    Move(row, PreApproved, ContractStored).(contractSignedAt := Some(now))
  }

  function CheckRow(row: Row, deposit: Deposit, now: int): Row {
    Move(row, PreApproved, ChecklistRecorded).(deposit := Some(deposit), attendedAt := Some(now))
  }

  function PriceOf(row: Row): Price {
    var days := CeilDays(row.pickupAt, row.returnAt);
    Price(days, row.dailyRate * days, if row.driverRequested then row.driverRate * days else 0, row.total)
  }

  function ConfirmRow(row: Row, price: Price, now: int): Row {
    Move(row, Confirmed, BookingConfirmed).(
      booking := Some(Booking(row.vehicle, row.pickupAt, row.returnAt, Confirmed, [], price, now)),
      preApprovalExpiresAt := None)
  }

  function StatusAfter(action: Action): Status {
    match action
    case Deliver => Active
    case Return => Active
    case Complete => Completed
    case Cancel => Cancelled
    case MarkNoShow => NoShow
  }

  function OperateRow(row: Row, action: Action, reading: Option<Reading>, now: int): Row
    requires row.booking.Some?
    requires action == Deliver || action == Return ==> reading.Some?
  {
    var b := row.booking.value;
    var ops := match action
      case Deliver => b.operations + [Operation(DeliveryReading, reading.value, now)]
      case Return => b.operations + [Operation(ReturnReading, reading.value, now)]
      case _ => b.operations;
    Move(row, StatusAfter(action), Operated(action)).(
      booking := Some(b.(status := StatusAfter(action), operations := ops)),
      returnedAt := if action == Return then Some(now) else row.returnedAt)
  }

  /** A rejection asks for more information only while the request is pending or under review. */
  function ReviewRow(row: Row, document: nat, accept: bool): Row {
    if accept then Move(row, row.status, DocumentReviewed(true)).(rejected := row.rejected - {document})
    else
      var to := if row.status == PendingReview || row.status == UnderReview then MoreInformationRequired else row.status;
      Move(row, to, DocumentReviewed(false)).(rejected := row.rejected + {document})
  }

  function ReplaceRow(row: Row, document: nat): Row {
    Move(row, row.status, DocumentReplaced).(rejected := row.rejected - {document})
  }

  function ReplyRow(row: Row): Row { Move(row, UnderReview, Replied) }

  function CloseOffer(offers: seq<Offer>, i: nat, status: OfferStatus): seq<Offer>
    requires i < |offers|
  {
    offers[i := offers[i].(status := status)]
  }

  function AcceptRow(row: Row, i: nat): Row
    requires i < |row.offers|
  {
    var o := row.offers[i];
    Move(row, UnderReview, OfferAnswered(true)).(
      vehicle := o.vehicle, pickupAt := o.pickupAt, returnAt := o.returnAt,
      dailyRate := o.dailyRate, driverRate := o.driverRate, total := o.total,
      offers := CloseOffer(row.offers, i, OfferAccepted))
  }

  function DeclineRow(row: Row, i: nat): Row
    requires i < |row.offers|
  {
    Move(row, UnderReview, OfferAnswered(false)).(offers := CloseOffer(row.offers, i, OfferDeclined))
  }

  /** An answer that comes after the offer lapsed moves the request but writes no timeline entry. */
  function LateRow(row: Row, i: nat): Row
    requires i < |row.offers|
  {
    row.(status := UnderReview, offers := CloseOffer(row.offers, i, OfferLapsed))
  }

  function LapseRow(row: Row, i: nat): Row
    requires i < |row.offers|
  {
    var offers := CloseOffer(row.offers, i, OfferLapsed);
    if row.status == AlternativeOffered then Move(row, UnderReview, OfferTimedOut).(offers := offers)
    else row.(offers := offers)
  }

  function ExpireRow(row: Row): Row { Move(row, Expired, PreApprovalTimedOut) }

  // ------------------------------------------------------------ sales steps

  function ClaimReview(db: Db, id: ReservationId, staff: Staff): Reply {
    if id !in db.rows || (db.rows[id].status != PendingReview && db.rows[id].status != UnderReview)
    then Refuse(db, NotFound)
    else
      var row := db.rows[id];
      if row.status == UnderReview && row.assignee == Some(staff.id) then Reply(db, Done)
      else if row.status != PendingReview || row.assignee.Some? then Refuse(db, AlreadyAssigned)
      else Save(db, id, ClaimRow(row, staff))
  }

  function DecideReview(db: Db, id: ReservationId, staff: Staff, decision: Decision, now: int): Reply {
    if id !in db.rows || db.rows[id].status != UnderReview then Refuse(db, NotFound)
    else if !MayAct(db.rows[id], staff) then Refuse(db, NotAssigned)
    else Save(db, id, DecideRow(db.rows[id], decision, now))
  }

  function SendOffer(db: Db, id: ReservationId, staff: Staff, vehicle: VehicleId,
                     pickupDay: int, returnDay: int, now: int): Reply
  {
    var pickup, back := pickupDay * DAY, returnDay * DAY;
    if pickup <= now || back <= pickup then Refuse(db, InvalidDates)
    else if id !in db.rows || db.rows[id].status != UnderReview then Refuse(db, NotFound)
    else if !MayAct(db.rows[id], staff) then Refuse(db, NotAssigned)
    else
      var row := db.rows[id];
      if vehicle !in db.vehicles || db.vehicles[vehicle].branch != row.branch
         || !db.vehicles[vehicle].active || db.vehicles[vehicle].status != Available
      then Refuse(db, VehicleUnavailable)
      else
        var v := db.vehicles[vehicle];
        if CeilDays(pickup, back) < v.minimumDays then Refuse(db, InvalidDates)
        else if row.driverRequested && v.driverUnavailable then Refuse(db, DriverUnavailable)
        else if !Free(db, vehicle, pickup, back) then Refuse(db, VehicleUnavailable)
        else
          var driverRate := if row.driverRequested then v.driverCharge else 0;
          var offer := Offer(OfferPending, vehicle, pickup, back, v.dailyRate, driverRate,
                             (v.dailyRate + driverRate) * CeilDays(pickup, back), now + REVIEW_WINDOW);
          Save(db, id, OfferRow(row, offer))
  }

  predicate PreApprovalOpen(row: Row, now: int) {
    row.preApprovalExpiresAt.Some? && now < row.preApprovalExpiresAt.value
  }

  function StoreContract(db: Db, id: ReservationId, staff: Staff, now: int): Reply {
    if id !in db.rows || db.rows[id].status != PreApproved then Refuse(db, NotFound)
    else if !MayAct(db.rows[id], staff) then Refuse(db, NotAssigned)
    else if !PreApprovalOpen(db.rows[id], now) then Refuse(db, PreApprovalOver)
    else if db.rows[id].contractSignedAt.Some? then Refuse(db, AlreadyRecorded)
    else Save(db, id, SignRow(db.rows[id], now))
  }

  /** Another reservation already holds this receipt number (a unique column). */
  predicate ReceiptTaken(db: Db, id: ReservationId, receipt: string) {
    exists r :: r in db.rows && r != id && db.rows[r].deposit.Some? && db.rows[r].deposit.value.receipt == receipt
  }

  function RecordChecklist(db: Db, id: ReservationId, staff: Staff, amount: int, receipt: string, now: int): Reply {
    if id !in db.rows || db.rows[id].status != PreApproved then Refuse(db, NotFound)
    else if !MayAct(db.rows[id], staff) then Refuse(db, NotAssigned)
    else if !PreApprovalOpen(db.rows[id], now) then Refuse(db, PreApprovalOver)
    else
      var row := db.rows[id];
      var expected := if row.vehicle in db.vehicles then db.vehicles[row.vehicle].deposit else None;
      if expected.None? then Refuse(db, DepositNotConfigured)
      else if expected.value != amount then Refuse(db, DepositMismatch)
      else if row.contractSignedAt.None? then Refuse(db, ContractRequired)
      else if row.deposit.Some? && row.attendedAt.Some? then
        if row.deposit.value.amount != amount || row.deposit.value.receipt != receipt
        then Refuse(db, AlreadyRecorded) else Reply(db, Done)
      else if ReceiptTaken(db, id, receipt) then Refuse(db, ReceiptInUse)
      else Save(db, id, CheckRow(row, Deposit(amount, receipt, now), now))
  }

  /** What the reads of a confirmation answer; None when its writes are to follow. */
  function ConfirmationRead(db: Db, id: ReservationId, staff: Staff, now: int): Option<Outcome> {
    if id !in db.rows || (db.rows[id].status != PreApproved && db.rows[id].status != Confirmed)
    then Some(NotFound)
    else
      var row := db.rows[id];
      if !MayAct(row, staff) then Some(NotAssigned)
      else if row.booking.Some? then Some(Done)
      else if !PreApprovalOpen(row, now) then Some(PreApprovalOver)
      else if row.attendedAt.None? || row.deposit.None? || row.contractSignedAt.None?
      then Some(RequirementsIncomplete)
      else if !Free(db, row.vehicle, row.pickupAt, row.returnAt) then Some(VehicleUnavailable)
      else None
  }

  /** The writes go through: the request is still pre-approved, and its booking meets the table's constraint. */
  predicate BookingTaken(db: Db, id: ReservationId) {
    && id in db.rows && db.rows[id].status == PreApproved
    && Unbooked(db, db.rows[id].vehicle, db.rows[id].pickupAt, db.rows[id].returnAt)
  }

  /**
   The writes of a confirmation. They are guarded by the status of the request and by the exclusion
   constraint on bookings (migration 20260718120000_milestone_3_baseline, lines 1041-1047; periods
   are never empty, line 1026), not by the fleet blocks. The row read before has the same terms
   (ReservationStore.ReadStillHolds).
   */
  function WriteBooking(db: Db, id: ReservationId, now: int): Reply {
    if !BookingTaken(db, id) then Refuse(db, VehicleUnavailable)
    else Save(db, id, ConfirmRow(db.rows[id], PriceOf(db.rows[id]), now))
  }

  /** A confirmation with nothing between its reads and its writes. */
  function ConfirmBooking(db: Db, id: ReservationId, staff: Staff, now: int): Reply {
    match ConfirmationRead(db, id, staff, now)
    case Some(answer) => Reply(db, answer)
    case None => WriteBooking(db, id, now)
  }

  /** The reads of a confirmation in transaction t. */
  function BeginConfirmation(db: Db, id: ReservationId, t: TransactionId, staff: Staff, now: int): Reply {
    match ConfirmationRead(db, id, staff, now)
    case Some(answer) => Reply(db, answer)
    case None =>
      if t in db.confirming then Refuse(db, NotFound) else Reply(db.(confirming := db.confirming[t := id]), Done)
  }

  /** Its writes, some time later; whether they go through or not, the transaction is over. */
  function EndConfirmation(db: Db, id: ReservationId, t: TransactionId, now: int): Reply {
    if t !in db.confirming || db.confirming[t] != id then Refuse(db, NotFound)
    else WriteBooking(db.(confirming := db.confirming - {t}), id, now)
  }

  function OperationOf(ops: seq<Operation>, kind: OperationType): (r: Option<Operation>)
    ensures r.Some? ==> r.value in ops && r.value.kind == kind
    ensures r.None? <==> forall o :: o in ops ==> o.kind != kind
  {
    if ops == [] then None
    else if ops[0].kind == kind then Some(ops[0])
    else OperationOf(ops[1..], kind)
  }

  /** The booking operation chosen by action is allowed in the current state. */
  function OperationCheck(row: Row, action: Action, reading: Option<Reading>, now: int): (r: Outcome)
    requires row.booking.Some?
    ensures r == Done && (action == Deliver || action == Return) ==> reading.Some?
  {
    var b := row.booking.value;
    var delivery := OperationOf(b.operations, DeliveryReading);
    var back := OperationOf(b.operations, ReturnReading);
    match action
    case Deliver =>
      if row.status != Confirmed || b.status != Confirmed || delivery.Some? || reading.None?
      then InvalidTransition else Done
    case Return =>
      if row.status != Active || b.status != Active || delivery.None? || back.Some? || reading.None?
      then InvalidTransition
      else if reading.value.odometerKm < delivery.value.reading.odometerKm then InvalidOdometer else Done
    case Complete =>
      if row.status != Active || b.status != Active || back.None? || row.returnedAt.None?
      then InvalidTransition else Done
    case Cancel =>
      if row.status != Confirmed || b.status != Confirmed then InvalidTransition else Done
    case MarkNoShow =>
      if row.status != Confirmed || b.status != Confirmed then InvalidTransition
      else if now < row.pickupAt then TooEarly else Done
  }

  function Operate(db: Db, id: ReservationId, staff: Staff, action: Action, reading: Option<Reading>, now: int): Reply {
    if id !in db.rows || (db.rows[id].status != Confirmed && db.rows[id].status != Active)
       || db.rows[id].booking.None?
    then Refuse(db, NotFound)
    else
      var row := db.rows[id];
      var check := OperationCheck(row, action, reading, now);
      if !MayAct(row, staff) then Refuse(db, NotAssigned)
      else if check != Done then Refuse(db, check)
      else
        var row' := OperateRow(row, action, reading, now);
        if action == Deliver then
          if row.vehicle !in db.vehicles
             || (db.vehicles[row.vehicle].status != Available && db.vehicles[row.vehicle].status != ConfirmedBooking)
          then Refuse(db, VehicleUnavailable)
          else Save(db.(vehicles := db.vehicles[row.vehicle := db.vehicles[row.vehicle].(status := Rented)]), id, row')
        else if action == Complete && row.vehicle in db.vehicles && db.vehicles[row.vehicle].status == Rented then
          Save(db.(vehicles := db.vehicles[row.vehicle := db.vehicles[row.vehicle].(status := Available)]), id, row')
        else Save(db, id, row')
  }

  /**
   A verdict on an uploaded document. open says that the reviewer previewed it lately, that it is
   open to this verdict, and that the service, reading the request before the transaction, found it
   in document review; by the time of the transaction the request may have moved on.
   */
  function ReviewDocument(db: Db, id: ReservationId, staff: Staff, document: nat, accept: bool, open: bool): Reply {
    if id !in db.rows then Refuse(db, NotFound)
    else if !MayAct(db.rows[id], staff) then Refuse(db, NotAssigned)
    else if !open then Refuse(db, InvalidTransition)
    else Save(db, id, ReviewRow(db.rows[id], document, accept))
  }

  // --------------------------------------------------------- customer steps

  /** open says that the service, reading before the transaction, found the document rejected. */
  function ReplaceDocument(db: Db, id: ReservationId, customer: UserId, document: nat, open: bool): Reply {
    if id !in db.rows || db.rows[id].customer != customer || db.rows[id].status != MoreInformationRequired
    then Refuse(db, NotFound)
    else if !open then Refuse(db, InvalidTransition)
    else Save(db, id, ReplaceRow(db.rows[id], document))
  }

  function ReplyToRequest(db: Db, id: ReservationId, customer: UserId): Reply {
    if id !in db.rows || db.rows[id].customer != customer || db.rows[id].status != MoreInformationRequired
    then Refuse(db, NotFound)
    else if db.rows[id].rejected != {} then Refuse(db, DocumentsPending)
    else Save(db, id, ReplyRow(db.rows[id]))
  }

  function AnswerOffer(db: Db, id: ReservationId, customer: UserId, accept: bool, now: int): Reply {
    if id !in db.rows || db.rows[id].customer != customer || db.rows[id].status != AlternativeOffered
       || PendingOffer(db.rows[id].offers).None?
    then Refuse(db, NotFound)
    else
      var row := db.rows[id];
      var i := PendingOffer(row.offers).value;
      var offer := row.offers[i];
      if offer.expiresAt <= now then Reply(Save(db, id, LateRow(row, i)).db, OfferOver)
      else if accept then
        if !Free(db, offer.vehicle, offer.pickupAt, offer.returnAt) then Refuse(db, VehicleUnavailable)
        else Save(db, id, AcceptRow(row, i))
      else Save(db, id, DeclineRow(row, i))
  }

  /** The customer's answer now finds the offer lapsed. */
  predicate AnswersLate(row: Row, customer: UserId, now: int) {
    && row.customer == customer && row.status == AlternativeOffered && PendingOffer(row.offers).Some?
    && row.offers[PendingOffer(row.offers).value].expiresAt <= now
  }

  // ----------------------------------------------------------- expiry sweep

  function LapseOffer(db: Db, id: ReservationId, now: int): Reply {
    if id !in db.rows || PendingOffer(db.rows[id].offers).None? then Refuse(db, NotFound)
    else
      var row := db.rows[id];
      var i := PendingOffer(row.offers).value;
      if now < row.offers[i].expiresAt then Refuse(db, NotFound)
      else Save(db, id, LapseRow(row, i))
  }

  function LapsePreApproval(db: Db, id: ReservationId, now: int): Reply {
    if id !in db.rows || db.rows[id].status != PreApproved || db.rows[id].preApprovalExpiresAt.None?
       || now < db.rows[id].preApprovalExpiresAt.value
    then Refuse(db, NotFound)
    else Save(db, id, ExpireRow(db.rows[id]))
  }

  // -------------------------------------------------------------- the fleet

  /**
   apps/api/src/fleet/fleet.service.ts createBlock, after the vehicle was found switched on in a
   call of its own: the conflict query, which no longer looks at the switch.
   */
  function CheckBlock(db: Db, block: BlockId, vehicle: VehicleId, startsAt: int, endsAt: int): Reply {
    if vehicle !in db.vehicles || block in db.blocks || block in db.checked then Refuse(db, NotFound)
    else if endsAt <= startsAt then Refuse(db, InvalidDates)
    else if !Free(db, vehicle, startsAt, endsAt) then Refuse(db, VehicleUnavailable)
    else Reply(db.(checked := db.checked[block := Block(vehicle, startsAt, endsAt)]), Done)
  }

  /** The insertion that follows the check. */
  function InsertBlock(db: Db, block: BlockId): Reply {
    if block !in db.checked then Refuse(db, NotFound)
    else Reply(db.(blocks := db.blocks[block := db.checked[block]], checked := db.checked - {block}), Done)
  }

  function RemoveBlock(db: Db, block: BlockId, now: int): Reply {
    if block !in db.blocks then Refuse(db, NotFound)
    else if db.blocks[block].startsAt < now then Refuse(db, InvalidTransition)
    else Reply(db.(blocks := db.blocks - {block}), Done)
  }

  /**
   The vehicle editor. seen is the status the service read before the transaction, previous the one
   the transaction itself read; the write that follows is not guarded by either. An operational
   status other than available and inactive stays as it was read.
   */
  function EditVehicle(db: Db, vehicle: VehicleId, edit: Vehicle, seen: VehicleStatus, previous: VehicleStatus): Reply {
    if vehicle !in db.vehicles then Refuse(db, NotFound)
    else if !edit.active && seen != Available && seen != Inactive then Refuse(db, InvalidTransition)
    else Reply(db.(vehicles := db.vehicles[vehicle := edit.(status := StatusWritten(edit, previous))]), Done)
  }

  function StatusWritten(edit: Vehicle, previous: VehicleStatus): VehicleStatus {
    if previous != Available && previous != Inactive then previous
    else if edit.active then Available else Inactive
  }

  // ------------------------------------------------------------ one request

  datatype Request =
    | Submit(draft: DraftRequest)
    | Claim(staff: Staff)
    | Decide(staff: Staff, decision: Decision)
    | Propose(staff: Staff, vehicle: VehicleId, pickupDay: int, returnDay: int)
    | Sign(staff: Staff)
    | RecordBranch(staff: Staff, amount: int, receipt: string)
    | ConfirmRequest(staff: Staff)
    | ReadConfirmation(transaction: TransactionId, staff: Staff)
    | WriteConfirmation(transaction: TransactionId)
    | RunOperation(staff: Staff, action: Action, reading: Option<Reading>)
    | ReviewFile(staff: Staff, document: nat, accept: bool, open: bool)
    | ReplaceFile(customer: UserId, document: nat, open: bool)
    | AnswerRequest(customer: UserId)
    | Answer(customer: UserId, accept: bool)
    | SweepOffer
    | SweepPreApproval
    | CheckPeriod(block: BlockId, vehicle: VehicleId, startsAt: int, endsAt: int)
    | AddBlock(block: BlockId)
    | DropBlock(block: BlockId)
    | EditFleet(vehicle: VehicleId, edit: Vehicle, seen: VehicleStatus, previous: VehicleStatus)

  function Execute(db: Db, id: ReservationId, now: int, q: Request): Reply {
    match q
    case Submit(draft) => SubmitDraft(db, id, draft, now)
    case Claim(staff) => ClaimReview(db, id, staff)
    case Decide(staff, decision) => DecideReview(db, id, staff, decision, now)
    case Propose(staff, vehicle, p, r) => SendOffer(db, id, staff, vehicle, p, r, now)
    case Sign(staff) => StoreContract(db, id, staff, now)
    case RecordBranch(staff, amount, receipt) => RecordChecklist(db, id, staff, amount, receipt, now)
    case ConfirmRequest(staff) => ConfirmBooking(db, id, staff, now)
    case ReadConfirmation(t, staff) => BeginConfirmation(db, id, t, staff, now)
    case WriteConfirmation(t) => EndConfirmation(db, id, t, now)
    case RunOperation(staff, action, reading) => Operate(db, id, staff, action, reading, now)
    case ReviewFile(staff, document, accept, open) => ReviewDocument(db, id, staff, document, accept, open)
    case ReplaceFile(customer, document, open) => ReplaceDocument(db, id, customer, document, open)
    case AnswerRequest(customer) => ReplyToRequest(db, id, customer)
    case Answer(customer, accept) => AnswerOffer(db, id, customer, accept, now)
    case SweepOffer => LapseOffer(db, id, now)
    case SweepPreApproval => LapsePreApproval(db, id, now)
    case CheckPeriod(block, vehicle, from, to) => CheckBlock(db, block, vehicle, from, to)
    case AddBlock(block) => InsertBlock(db, block)
    case DropBlock(block) => RemoveBlock(db, block, now)
    case EditFleet(vehicle, edit, seen, previous) => EditVehicle(db, vehicle, edit, seen, previous)
  }
}
