/**
 The sales workspace (apps/web/components/sales-review-workspace.tsx): a queue and one open
 review, both cached from the server and patched in place after every successful action.
 */
module SalesWorkspace {
  import opened Util
  import opened Reservations
  import opened ReservationSteps
  import opened ReservationStore

  datatype QueueItem = QueueItem(
    id: ReservationId, status: Status, vehicle: VehicleId, pickupAt: int, returnAt: int,
    total: int, assignedToMe: bool)

  datatype BookingCard = BookingCard(status: Status, confirmedAt: int)

  datatype Review = Review(
    card: QueueItem, uploadsEnabled: bool, expectedDeposit: Option<int>,
    attendedAt: Option<int>, deposit: Option<Deposit>, contractSignedAt: Option<int>,
    booking: Option<BookingCard>, operations: seq<Operation>)

  /** What the workspace shows: the queue, the open review and the result of its decision. */
  datatype Desk = Desk(queue: seq<QueueItem>, review: Option<Review>, decision: Option<Status>)

  // ------------------------------------------------- what the server would send

  function CardOf(id: ReservationId, row: Row, me: UserId): QueueItem {
    QueueItem(id, row.status, row.vehicle, row.pickupAt, row.returnAt, row.total, row.assignee == Some(me))
  }

  function ReviewOf(id: ReservationId, row: Row, me: UserId, uploads: bool, expected: Option<int>): Review {
    Review(CardOf(id, row, me), uploads, expected, row.attendedAt, row.deposit, row.contractSignedAt,
           if row.booking.None? then None
           else Some(BookingCard(row.booking.value.status, row.booking.value.confirmedAt)),
           if row.booking.None? then [] else row.booking.value.operations)
  }

  function ExpectedDeposit(db: Db, row: Row): Option<int> {
    if row.vehicle in db.vehicles then db.vehicles[row.vehicle].deposit else None
  }

  predicate InQueueStatus(s: Status) {
    || s == PendingReview || s == UnderReview || s == MoreInformationRequired || s == PreApproved
    || s == AlternativeOffered || s == Confirmed || s == Active
  }

  predicate Listed(rows: map<ReservationId, Row>, me: Staff, id: ReservationId) {
    && id in rows && InQueueStatus(rows[id].status)
    && (me.admin || (rows[id].status == PendingReview && rows[id].assignee.None?)
        || rows[id].assignee == Some(me.id))
  }

  const PAGE: nat := 100

  function FirstPage<T(!new)>(s: seq<T>): (r: seq<T>)
    ensures forall x :: x in r ==> x in s
  {
    if |s| <= PAGE then s else s[..PAGE]
  }

  function ListedIds(db: Db, me: Staff): seq<ReservationId> {
    Filter((id: ReservationId) => Listed(db.rows, me, id), db.order)
  }

  function Cards(rows: map<ReservationId, Row>, ids: seq<ReservationId>, me: UserId): seq<QueueItem>
    requires forall i :: i in ids ==> i in rows
  {
    seq(|ids|, i requires 0 <= i < |ids| => CardOf(ids[i], rows[ids[i]], me))
  }

  /** A freshly loaded queue: the oldest hundred requests this person may see. */
  function QueueView(db: Db, me: Staff): seq<QueueItem> {
    Cards(db.rows, FirstPage(ListedIds(db, me)), me.id)
  }

  // -------------------------------------------------- how a response is applied

  function PatchStatus(queue: seq<QueueItem>, id: ReservationId, status: Status): (r: seq<QueueItem>)
    ensures |r| == |queue|
    ensures forall i :: 0 <= i < |r| ==>
      r[i] == if queue[i].id == id then queue[i].(status := status) else queue[i]
  {
    seq(|queue|, i requires 0 <= i < |queue| =>
      if queue[i].id == id then queue[i].(status := status) else queue[i])
  }

  function PatchClaim(queue: seq<QueueItem>, id: ReservationId, status: Status): (r: seq<QueueItem>)
    ensures |r| == |queue|
    ensures forall i :: 0 <= i < |r| ==>
      r[i] == if queue[i].id == id then queue[i].(status := status, assignedToMe := true) else queue[i]
  {
    seq(|queue|, i requires 0 <= i < |queue| =>
      if queue[i].id == id then queue[i].(status := status, assignedToMe := true) else queue[i])
  }

  function Without(queue: seq<QueueItem>, id: ReservationId): seq<QueueItem> {
    Filter((q: QueueItem) => q.id != id, queue)
  }

  function WithStatus(r: Review, status: Status): Review { r.(card := r.card.(status := status)) }

  function AfterClaim(d: Desk, r: Review): Desk {
    d.(review := Some(r), queue := PatchClaim(d.queue, r.card.id, r.card.status))
  }

  function AfterDecision(d: Desk, id: ReservationId, status: Status): Desk {
    Desk(if status == Rejected then Without(d.queue, id) else PatchStatus(d.queue, id, status),
         if status == Rejected || d.review.None? then d.review else Some(WithStatus(d.review.value, status)),
         Some(status))
  }

  function AfterOffer(d: Desk, id: ReservationId): Desk {
    d.(review := if d.review.None? then None else Some(WithStatus(d.review.value, AlternativeOffered)),
       queue := PatchStatus(d.queue, id, AlternativeOffered))
  }

  function AfterContract(d: Desk, signedAt: int): Desk {
    d.(review := if d.review.None? then None else Some(d.review.value.(contractSignedAt := Some(signedAt))))
  }

  function AfterChecklist(d: Desk, receipt: string, attendedAt: int, recordedAt: int, signedAt: int): Desk {
    d.(review :=
         if d.review.None? || d.review.value.expectedDeposit.None? then d.review
         else Some(d.review.value.(
           attendedAt := Some(attendedAt),
           deposit := Some(Deposit(d.review.value.expectedDeposit.value, receipt, recordedAt)),
           contractSignedAt := Some(signedAt))))
  }

  function AfterConfirm(d: Desk, id: ReservationId, booking: BookingCard): Desk {
    d.(review := if d.review.None? then None
                 else Some(WithStatus(d.review.value, Confirmed).(booking := Some(booking))),
       queue := PatchStatus(d.queue, id, Confirmed))
  }

  predicate Terminal(s: Status) { s == Completed || s == Cancelled || s == NoShow }

  function NewOperation(action: Action, reading: Option<Reading>, recordedAt: int): seq<Operation> {
    if reading.None? then []
    else if action == Deliver then [Operation(DeliveryReading, reading.value, recordedAt)]
    else if action == Return then [Operation(ReturnReading, reading.value, recordedAt)]
    else []
  }

  function AfterOperation(d: Desk, id: ReservationId, action: Action, reading: Option<Reading>,
                          status: Status, recordedAt: int): Desk
  {
    d.(review :=
         if d.review.None? then None
         else
           var r := WithStatus(d.review.value, status);
           Some(r.(booking := if r.booking.None? then None else Some(r.booking.value.(status := status)),
                   operations := r.operations + NewOperation(action, reading, recordedAt))),
       queue := if Terminal(status) then Without(d.queue, id) else PatchStatus(d.queue, id, status))
  }

  // --------------------------------------------------- the component's handlers

  /** The component: each handler checks its form, sends the request and applies the response. */
  class Workspace {
    var queue: seq<QueueItem>
    var review: Option<Review>
    var decisionResult: Option<Status>
    var actionError: bool

    ghost function View(): Desk
      reads this
    {
      Desk(queue, review, decisionResult)
    }

    constructor (initial: seq<QueueItem>)
      ensures View() == Desk(initial, None, None)
    {
      queue, review, decisionResult, actionError := initial, None, None, false;
    }

    /** Opening a request drops the old review first; a failed load leaves none open. */
    method OpenReview(response: Option<Review>)
      modifies this
      ensures View() == Desk(old(queue), response, None)
      ensures actionError == response.None?
    {
      review := None;
      decisionResult := None;
      actionError := false;
      if response.Some? {
        review := response;
      } else {
        actionError := true;
      }
    }

    method ClaimReview(response: Option<Review>)
      modifies this
      ensures View() == if old(review).Some? && response.Some? then AfterClaim(old(View()), response.value)
                        else old(View())
    {
      if review.None? {
        return;
      }
      actionError := false;
      if response.Some? {
        review := response;
        queue := PatchClaim(queue, response.value.card.id, response.value.card.status);
      } else {
        actionError := true;
      }
    }

    method SubmitDecision(noteLength: nat, response: Option<(ReservationId, Status)>)
      modifies this
      ensures View() ==
        if old(review).Some? && noteLength >= 10 && response.Some?
        then AfterDecision(old(View()), response.value.0, response.value.1) else old(View())
    {
      if review.None? || noteLength < 10 {
        actionError := true;
        return;
      }
      actionError := false;
      if response.None? {
        actionError := true;
        return;
      }
      var (id, status) := response.value;
      decisionResult := Some(status);
      if status == Rejected {
        queue := Without(queue, id);
      } else {
        queue := PatchStatus(queue, id, status);
        review := Some(WithStatus(review.value, status));
      }
    }

    method SubmitAlternativeOffer(formReady: bool, accepted: bool)
      modifies this
      ensures View() ==
        if old(review).Some? && formReady && accepted
        then AfterOffer(old(View()), old(review).value.card.id) else old(View())
    {
      if review.None? || !formReady {
        actionError := true;
        return;
      }
      actionError := !accepted;
      if accepted {
        queue := PatchStatus(queue, review.value.card.id, AlternativeOffered);
        review := Some(WithStatus(review.value, AlternativeOffered));
      }
    }

    method UploadSignedContract(fileChosen: bool, response: Option<int>)
      modifies this
      ensures View() ==
        if old(review).Some? && old(review).value.uploadsEnabled && fileChosen && response.Some?
        then AfterContract(old(View()), response.value) else old(View())
    {
      if review.None? || !review.value.uploadsEnabled || !fileChosen {
        actionError := true;
        return;
      }
      actionError := response.None?;
      if response.Some? {
        review := Some(review.value.(contractSignedAt := response));
      }
    }

    method RecordBranchRequirements(attended: bool, receipt: string, response: Option<(int, int, int)>)
      modifies this
      ensures View() ==
        if old(review).Some? && attended && ChecklistForm(old(review).value, receipt) && response.Some?
        then AfterChecklist(old(View()), receipt, response.value.0, response.value.1, response.value.2)
        else old(View())
    {
      if review.None? || !attended || !ChecklistForm(review.value, receipt) {
        actionError := true;
        return;
      }
      actionError := response.None?;
      if response.Some? {
        var (attendedAt, recordedAt, signedAt) := response.value;
        var r := review.value;
        review := Some(r.(attendedAt := Some(attendedAt),
                          deposit := Some(Deposit(r.expectedDeposit.value, receipt, recordedAt)),
                          contractSignedAt := Some(signedAt)));
      }
    }

    method ConfirmFinalBooking(response: Option<BookingCard>)
      modifies this
      ensures View() ==
        if old(review).Some? && response.Some?
        then AfterConfirm(old(View()), old(review).value.card.id, response.value) else old(View())
    {
      if review.None? {
        return;
      }
      actionError := response.None?;
      if response.Some? {
        queue := PatchStatus(queue, review.value.card.id, Confirmed);
        review := Some(WithStatus(review.value, Confirmed).(booking := response));
      }
    }

    method SubmitBookingOperation(action: Action, noteLength: nat, reading: Option<Reading>,
                                  response: Option<(Status, int)>)
      modifies this
      ensures View() ==
        if old(review).Some? && noteLength >= 10 && OperationForm(action, reading) && response.Some?
        then AfterOperation(old(View()), old(review).value.card.id, action, reading, response.value.0, response.value.1)
        else old(View())
    {
      if review.None? || noteLength < 10 || !OperationForm(action, reading) {
        actionError := true;
        return;
      }
      actionError := response.None?;
      if response.Some? {
        var (status, recordedAt) := response.value;
        var r := review.value;
        if Terminal(status) {
          queue := Without(queue, r.card.id);
        } else {
          queue := PatchStatus(queue, r.card.id, status);
        }
        if r.booking.Some? {
          r := r.(booking := Some(r.booking.value.(status := status)));
        }
        review := Some(WithStatus(r, status).(operations := r.operations + NewOperation(action, reading, recordedAt)));
      }
    }
  }

  predicate ChecklistForm(r: Review, receipt: string) {
    && r.contractSignedAt.Some? && |receipt| >= 3
    && r.expectedDeposit.Some? && r.expectedDeposit.value != 0
  }

  /** Readings are asked for a delivery and a return only; the fuel level is a percentage. */
  predicate OperationForm(action: Action, reading: Option<Reading>) {
    action == Deliver || action == Return ==> reading.Some? && reading.value.fuelPercent <= 100
  }

  // --------------------------------------------------------- the enabled buttons

  datatype Button =
    | ClaimButton
    | DecisionButton(decision: Decision)
    | OfferButton(vehicle: VehicleId, pickupDay: int, returnDay: int)
    | ContractButton
    | ChecklistButton(receipt: string)
    | ConfirmButton
    | OperationButton(action: Action, reading: Option<Reading>)

  predicate BranchComplete(r: Review) { r.attendedAt.Some? && r.deposit.Some? && r.contractSignedAt.Some? }

  predicate Returned(r: Review) { exists o :: o in r.operations && o.kind == ReturnReading }

  /** The conditions under which the page renders the button and its handler goes on to the request. */
  predicate ButtonEnabled(d: Desk, b: Button) {
    d.review.Some? &&
    var r := d.review.value;
    var s := r.card.status;
    match b
    case ClaimButton => !r.card.assignedToMe && s == PendingReview
    case DecisionButton(_) => r.card.assignedToMe && d.decision.None? && s == UnderReview
    case OfferButton(_, _, _) => r.card.assignedToMe && d.decision.None? && s == UnderReview
    case ContractButton =>
      r.card.assignedToMe && s == PreApproved && !BranchComplete(r) && r.contractSignedAt.None? && r.uploadsEnabled
    case ChecklistButton(receipt) =>
      r.card.assignedToMe && s == PreApproved && !BranchComplete(r) && ChecklistForm(r, receipt)
    case ConfirmButton => r.card.assignedToMe && s == PreApproved && BranchComplete(r)
    case OperationButton(action, reading) =>
      r.card.assignedToMe && OperationForm(action, reading) &&
      match action
      case Deliver => s == Confirmed
      case Cancel => s == Confirmed
      case MarkNoShow => s == Confirmed
      case Return => s == Active && !Returned(r)
      case Complete => s == Active && Returned(r)
  }

  /** The request a button sends for the open review. */
  function RequestOf(d: Desk, b: Button, me: Staff): Request
    requires ButtonEnabled(d, b)
  {
    match b
    case ClaimButton => Claim(me)
    case DecisionButton(decision) => Decide(me, decision)
    case OfferButton(vehicle, p, r) => Propose(me, vehicle, p, r)
    case ContractButton => Sign(me)
    case ChecklistButton(receipt) => RecordBranch(me, d.review.value.expectedDeposit.value, receipt)
    case ConfirmButton => ConfirmRequest(me)
    case OperationButton(action, reading) => RunOperation(me, action, reading)
  }

  // ----------------------------------------------- the page and the server together

  datatype World = World(db: Db, desk: Desk)

  function ValueOr(o: Option<int>, default: int): int { if o.Some? then o.value else default }

  /** The desk after the server accepted the button's request and left row behind. */
  function Applied(d: Desk, b: Button, id: ReservationId, row: Row, me: Staff, uploads: bool, expected: Option<int>, now: int): Desk
  {
    match b
    case ClaimButton => AfterClaim(d, ReviewOf(id, row, me.id, uploads, expected))
    case DecisionButton(_) => AfterDecision(d, id, row.status)
    case OfferButton(_, _, _) => AfterOffer(d, id)
    case ContractButton => AfterContract(d, ValueOr(row.contractSignedAt, now))
    case ChecklistButton(receipt) =>
      AfterChecklist(d, receipt, ValueOr(row.attendedAt, now),
                     if row.deposit.Some? then row.deposit.value.recordedAt else now,
                     ValueOr(row.contractSignedAt, now))
    case ConfirmButton =>
      AfterConfirm(d, id, BookingCard(Confirmed, if row.booking.Some? then row.booking.value.confirmedAt else now))
    case OperationButton(action, reading) => AfterOperation(d, id, action, reading, row.status, now)
  }

  function Press(w: World, b: Button, me: Staff, now: int): World
    requires ButtonEnabled(w.desk, b)
  {
    var r := w.desk.review.value;
    var reply := Execute(w.db, r.card.id, now, RequestOf(w.desk, b, me));
    if reply.outcome != Done || r.card.id !in reply.db.rows then World(reply.db, w.desk)
    else World(reply.db, Applied(w.desk, b, r.card.id, reply.db.rows[r.card.id], me,
                                 r.uploadsEnabled, ExpectedDeposit(reply.db, reply.db.rows[r.card.id]), now))
  }

  /** The open review equals a fresh copy from the server, except that a rejection leaves it as it was. */
  predicate ReviewFresh(w: World, me: Staff) {
    w.desk.review.Some? ==>
      var r := w.desk.review.value;
      && r.card.id in w.db.rows
      && var row := w.db.rows[r.card.id];
         || r == ReviewOf(r.card.id, row, me.id, r.uploadsEnabled, ExpectedDeposit(w.db, row))
         || (row.status == Rejected && w.desk.decision == Some(Rejected)
             && r.card.assignedToMe && r.card.status == UnderReview)
  }

  predicate QueueFresh(w: World, me: Staff) { w.desk.queue == QueueView(w.db, me) }

  // ------------------------------------------------------------ the open review

  ghost predicate RowsColumns(db: Db) { forall i :: i in db.rows ==> ColumnsAgree(db.rows[i]) }

  /** An enabled button means that the open review is an exact copy of its row. */
  lemma EnabledMeansFresh(w: World, b: Button, me: Staff)
    requires ReviewFresh(w, me) && ButtonEnabled(w.desk, b)
    ensures var r := w.desk.review.value;
      && r.card.id in w.db.rows
      && r == ReviewOf(r.card.id, w.db.rows[r.card.id], me.id, r.uploadsEnabled,
                       ExpectedDeposit(w.db, w.db.rows[r.card.id]))
  {
  }

  lemma ClaimFresh(w: World, me: Staff, now: int)
    requires RowsColumns(w.db) && ReviewFresh(w, me) && ButtonEnabled(w.desk, ClaimButton)
    ensures ReviewFresh(Press(w, ClaimButton, me, now), me)
  {
  }

  lemma DecisionFresh(w: World, decision: Decision, me: Staff, now: int)
    requires RowsColumns(w.db) && ReviewFresh(w, me) && ButtonEnabled(w.desk, DecisionButton(decision))
    ensures ReviewFresh(Press(w, DecisionButton(decision), me, now), me)
  {
  }

  /** What an offer does on the server. */
  lemma OfferedServer(db: Db, id: ReservationId, me: Staff, vehicle: VehicleId, p: int, r: int, now: int)
    ensures var reply := SendOffer(db, id, me, vehicle, p, r, now);
      if reply.outcome == Done then
        id in db.rows && id in reply.db.rows && reply.db.vehicles == db.vehicles
        && reply.db.rows[id] == OfferRow(db.rows[id], NewestOffer(reply.db.rows[id]))
      else reply.db == db
  {
  }

  lemma PressOffer(w: World, vehicle: VehicleId, p: int, r: int, me: Staff, now: int)
    requires ButtonEnabled(w.desk, OfferButton(vehicle, p, r))
    ensures var id := w.desk.review.value.card.id;
      var reply := SendOffer(w.db, id, me, vehicle, p, r, now);
      Press(w, OfferButton(vehicle, p, r), me, now) ==
        World(reply.db, if reply.outcome != Done || id !in reply.db.rows then w.desk else AfterOffer(w.desk, id))
  {
  }

  lemma OfferFresh(w: World, vehicle: VehicleId, p: int, r: int, me: Staff, now: int)
    requires RowsColumns(w.db) && ReviewFresh(w, me) && ButtonEnabled(w.desk, OfferButton(vehicle, p, r))
    ensures ReviewFresh(Press(w, OfferButton(vehicle, p, r), me, now), me)
  {
    var id := w.desk.review.value.card.id;
    EnabledMeansFresh(w, OfferButton(vehicle, p, r), me);
    PressOffer(w, vehicle, p, r, me, now);
    OfferedServer(w.db, id, me, vehicle, p, r, now);
    if SendOffer(w.db, id, me, vehicle, p, r, now).outcome == Done {
      CopyIsFresh(Press(w, OfferButton(vehicle, p, r), me, now), me, id, w.desk.review.value.uploadsEnabled);
    }
  }

  lemma ContractFresh(w: World, me: Staff, now: int)
    requires RowsColumns(w.db) && ReviewFresh(w, me) && ButtonEnabled(w.desk, ContractButton)
    ensures ReviewFresh(Press(w, ContractButton, me, now), me)
  {
  }

  lemma ChecklistFresh(w: World, receipt: string, me: Staff, now: int)
    requires RowsColumns(w.db) && ReviewFresh(w, me) && ButtonEnabled(w.desk, ChecklistButton(receipt))
    ensures ReviewFresh(Press(w, ChecklistButton(receipt), me, now), me)
  {
  }

  lemma ConfirmFresh(w: World, me: Staff, now: int)
    requires RowsColumns(w.db) && ReviewFresh(w, me) && ButtonEnabled(w.desk, ConfirmButton)
    ensures ReviewFresh(Press(w, ConfirmButton, me, now), me)
  {
  }

  /** The handler turns a fresh copy of a booked row into a fresh copy of the operated row. */
  lemma OperatedReview(d: Desk, id: ReservationId, row: Row, me: UserId, uploads: bool, expected: Option<int>,
                       action: Action, reading: Option<Reading>, now: int)
    requires row.booking.Some? && d.review == Some(ReviewOf(id, row, me, uploads, expected))
    requires action == Deliver || action == Return ==> reading.Some?
    ensures AfterOperation(d, id, action, reading, StatusAfter(action), now).review ==
      Some(ReviewOf(id, OperateRow(row, action, reading, now), me, uploads, expected))
  {
    var ops := row.booking.value.operations;
    assert ops + [] == ops;
  }

  lemma OperatedServer(db: Db, id: ReservationId, me: Staff, action: Action, reading: Option<Reading>, now: int)
    requires id in db.rows && Operate(db, id, me, action, reading, now).outcome == Done
    ensures var db' := Operate(db, id, me, action, reading, now).db;
      && db.rows[id].booking.Some? && (action == Deliver || action == Return ==> reading.Some?)
      && id in db'.rows && db'.rows[id] == OperateRow(db.rows[id], action, reading, now)
      && ExpectedDeposit(db', db'.rows[id]) == ExpectedDeposit(db, db.rows[id])
  {
  }

  lemma PressOperation(w: World, action: Action, reading: Option<Reading>, me: Staff, now: int)
    requires ButtonEnabled(w.desk, OperationButton(action, reading))
    ensures var id := w.desk.review.value.card.id;
      var reply := Operate(w.db, id, me, action, reading, now);
      Press(w, OperationButton(action, reading), me, now) ==
        World(reply.db, if reply.outcome != Done || id !in reply.db.rows then w.desk
                        else AfterOperation(w.desk, id, action, reading, reply.db.rows[id].status, now))
  {
  }

  lemma OperationRefused(db: Db, id: ReservationId, me: Staff, action: Action, reading: Option<Reading>, now: int)
    requires Operate(db, id, me, action, reading, now).outcome != Done
    ensures Operate(db, id, me, action, reading, now).db == db
  {
  }

  /** A review that equals a copy of its row is fresh. */
  lemma CopyIsFresh(w: World, me: Staff, id: ReservationId, uploads: bool)
    requires id in w.db.rows
    requires w.desk.review == Some(ReviewOf(id, w.db.rows[id], me.id, uploads, ExpectedDeposit(w.db, w.db.rows[id])))
    ensures ReviewFresh(w, me)
  {
  }

  lemma OperationFresh(w: World, action: Action, reading: Option<Reading>, me: Staff, now: int)
    requires RowsColumns(w.db) && ReviewFresh(w, me) && ButtonEnabled(w.desk, OperationButton(action, reading))
    ensures ReviewFresh(Press(w, OperationButton(action, reading), me, now), me)
  {
    EnabledMeansFresh(w, OperationButton(action, reading), me);
    PressOperation(w, action, reading, me, now);
    var r := w.desk.review.value;
    var id := r.card.id;
    if Operate(w.db, id, me, action, reading, now).outcome == Done {
      OperatedServer(w.db, id, me, action, reading, now);
      OperatedReview(w.desk, id, w.db.rows[id], me.id, r.uploadsEnabled, ExpectedDeposit(w.db, w.db.rows[id]),
                     action, reading, now);
      CopyIsFresh(Press(w, OperationButton(action, reading), me, now), me, id, r.uploadsEnabled);
    } else {
      OperationRefused(w.db, id, me, action, reading, now);
    }
  }

  // ------------------------------------------------------------------ the queue

  /** Dropping one card from the queue is dropping its request from the list behind it. */
  lemma WithoutCards(rows: map<ReservationId, Row>, ids: seq<ReservationId>, me: UserId, i: nat)
    requires Distinct(ids) && i < |ids| && forall x :: x in ids ==> x in rows
    ensures Without(Cards(rows, ids, me), ids[i]) == Cards(rows, ids[..i] + ids[i + 1..], me)
  {
    var cards := Cards(rows, ids, me);
    assert Distinct(cards);
    FilterOut((q: QueueItem) => q.id != ids[i], cards, i);
    assert cards[..i] + cards[i + 1..] == Cards(rows, ids[..i] + ids[i + 1..], me);
  }

  lemma UnlistedChange(db: Db, db': Db, me: Staff, id: ReservationId)
    requires db'.order == db.order && db'.rows.Keys == db.rows.Keys
    requires forall x :: x in db.rows && x != id ==> db'.rows[x] == db.rows[x]
    requires Listed(db.rows, me, id) && !Listed(db'.rows, me, id)
    ensures forall i: nat :: i < |ListedIds(db, me)| && ListedIds(db, me)[i] == id && Distinct(db.order) ==>
      ListedIds(db', me) == ListedIds(db, me)[..i] + ListedIds(db, me)[i + 1..]
  {
    var ids := ListedIds(db, me);
    var other := (x: ReservationId) => x != id;
    FilterDrops((x: ReservationId) => Listed(db.rows, me, x), (x: ReservationId) => Listed(db'.rows, me, x),
                other, db.order);
    forall i: nat | i < |ids| && ids[i] == id && Distinct(db.order)
      ensures ListedIds(db', me) == ids[..i] + ids[i + 1..]
    {
      FilterDistinct((x: ReservationId) => Listed(db.rows, me, x), db.order);
      FilterOut(other, ids, i);
    }
  }

  /** The place of a listed request, and what the list is without it. */
  lemma ListDrop(db: Db, db': Db, me: Staff, id: ReservationId) returns (i: nat)
    requires OrderAgrees(db) && db'.order == db.order && db'.rows.Keys == db.rows.Keys
    requires forall x :: x in db.rows && x != id ==> db'.rows[x] == db.rows[x]
    requires Listed(db.rows, me, id) && !Listed(db'.rows, me, id)
    ensures Distinct(ListedIds(db, me)) && i < |ListedIds(db, me)| && ListedIds(db, me)[i] == id
    ensures ListedIds(db', me) == ListedIds(db, me)[..i] + ListedIds(db, me)[i + 1..]
  {
    FilterDistinct((x: ReservationId) => Listed(db.rows, me, x), db.order);
    i :| i < |ListedIds(db, me)| && ListedIds(db, me)[i] == id;
    UnlistedChange(db, db', me, id);
  }

  /** Pages of a list with the element at i taken out, as cards over rows that may differ only there. */
  lemma PageDrop(rows: map<ReservationId, Row>, rows': map<ReservationId, Row>, ids: seq<ReservationId>, me: UserId, i: nat)
    requires Distinct(ids) && i < |ids| && rows'.Keys == rows.Keys && forall x :: x in ids ==> x in rows
    requires forall x :: x in rows && x != ids[i] ==> rows'[x] == rows[x]
    ensures Without(Cards(rows, FirstPage(ids), me), ids[i]) == Cards(rows', FirstPage(ids[..i] + ids[i + 1..]), me)
      <==> |ids| <= PAGE || ids[i] !in FirstPage(ids)
  {
    var ids' := ids[..i] + ids[i + 1..];
    assert forall x :: x in ids' ==> x in ids && x != ids[i];
    assert Cards(rows', FirstPage(ids'), me) == Cards(rows, FirstPage(ids'), me);
    if |ids| <= PAGE {
      WithoutCards(rows, ids, me, i);
    } else if i < PAGE {
      WithoutCards(rows, FirstPage(ids), me, i);
      assert FirstPage(ids)[i] == ids[i];
    } else {
      assert FirstPage(ids') == FirstPage(ids);
      FilterAll((q: QueueItem) => q.id != ids[i], Cards(rows, FirstPage(ids), me));
    }
  }

  /** A request that leaves the list: dropping its card gives the fresh queue unless a later request moves up. */
  lemma QueueDrop(db: Db, db': Db, me: Staff, id: ReservationId)
    requires OrderAgrees(db) && db'.order == db.order && db'.rows.Keys == db.rows.Keys
    requires forall x :: x in db.rows && x != id ==> db'.rows[x] == db.rows[x]
    requires Listed(db.rows, me, id) && !Listed(db'.rows, me, id)
    ensures Without(QueueView(db, me), id) == QueueView(db', me) <==>
      |ListedIds(db, me)| <= PAGE || id !in FirstPage(ListedIds(db, me))
  {
    var i := ListDrop(db, db', me, id);
    PageDrop(db.rows, db'.rows, ListedIds(db, me), me.id, i);
  }

  /** A request that stays listed: patching its card gives the fresh queue. */
  lemma QueuePatch(db: Db, db': Db, me: Staff, id: ReservationId)
    requires db'.order == db.order && db'.rows.Keys == db.rows.Keys
    requires forall x :: x in db.rows && x != id ==> db'.rows[x] == db.rows[x]
    requires Listed(db.rows, me, id) && Listed(db'.rows, me, id)
    ensures |QueueView(db', me)| == |QueueView(db, me)|
    ensures forall i :: 0 <= i < |QueueView(db, me)| ==>
      QueueView(db', me)[i] == if QueueView(db, me)[i].id == id then CardOf(id, db'.rows[id], me.id)
                               else QueueView(db, me)[i]
  {
    FilterSame((x: ReservationId) => Listed(db.rows, me, x), (x: ReservationId) => Listed(db'.rows, me, x), db.order);
    var ids := ListedIds(db, me);
    assert ListedIds(db', me) == ids;
    forall i | 0 <= i < |QueueView(db, me)|
      ensures QueueView(db', me)[i] == if QueueView(db, me)[i].id == id then CardOf(id, db'.rows[id], me.id)
                                       else QueueView(db, me)[i]
    {
      assert FirstPage(ids)[i] in FirstPage(ids);
      assert QueueView(db, me)[i] == CardOf(FirstPage(ids)[i], db.rows[FirstPage(ids)[i]], me.id);
    }
  }

  /** The requests the workspace sends. */
  predicate FromDesk(q: Request) {
    || q.Claim? || q.Decide? || q.Propose? || q.Sign? || q.RecordBranch? || q.ConfirmRequest? || q.RunOperation?
  }

  lemma DeskFrame(db: Db, id: ReservationId, now: int, q: Request)
    requires FromDesk(q)
    ensures var reply := Execute(db, id, now, q);
      reply.db.order == db.order && (reply.outcome != Done ==> reply.db == db)
  {
  }

  /** A sales step changes nothing a queue card shows but the status and, on a claim, the assignee. */
  lemma DeskStepCard(row: Row, s: Step)
    requires Enabled(row, s) && SalesKind(s)
    ensures var row' := Apply(row, s);
      && row'.vehicle == row.vehicle && row'.pickupAt == row.pickupAt && row'.returnAt == row.returnAt
      && row'.total == row.total
      && row'.assignee == (if s.Take? then Some(s.staff.id) else row.assignee)
  {
  }

  /** The kind of step a request from the desk can be. */
  lemma DeskStepKind(db: Db, id: ReservationId, now: int, q: Request) returns (s: Step)
    requires id in db.rows && FromDesk(q)
    ensures s == StepOf(db, id, now, q) && SalesKind(s) && (s.Take? ==> q.Claim?)
  {
    s := StepOf(db, id, now, q);
  }

  predicate SalesKind(s: Step) {
    s.Idle? || s.Take? || s.Judge? || s.Offering? || s.Signing? || s.Checking? || s.Confirming? || s.Operating?
  }

  /** A request from the desk changes at most its own row. */
  lemma DeskRow(db: Db, id: ReservationId, now: int, q: Request) returns (row': Row, s: Step)
    requires Inv(db) && id in db.rows && FromDesk(q)
    ensures SalesKind(s) && (s.Take? ==> q.Claim?) && Enabled(db.rows[id], s) && row' == Apply(db.rows[id], s)
    ensures var db' := Execute(db, id, now, q).db; db'.order == db.order && db'.rows == db.rows[id := row']
  {
    StepTaken(db, id, now, q);
    DeskFrame(db, id, now, q);
    s := DeskStepKind(db, id, now, q);
    row' := Apply(db.rows[id], s);
  }

  lemma PressDb(w: World, b: Button, me: Staff, now: int)
    requires ButtonEnabled(w.desk, b)
    ensures Press(w, b, me, now).db == Execute(w.db, w.desk.review.value.card.id, now, RequestOf(w.desk, b, me)).db
  {
  }

  lemma EnabledMeansListed(w: World, b: Button, me: Staff)
    requires Inv(w.db) && ReviewFresh(w, me) && ButtonEnabled(w.desk, b)
    ensures var id := w.desk.review.value.card.id;
      Listed(w.db.rows, me, id) && (!b.ClaimButton? ==> w.db.rows[id].assignee == Some(me.id))
  {
    EnabledMeansFresh(w, b, me);
    assert PapersAgree(w.db.rows[w.desk.review.value.card.id]);
  }

  lemma StepCardChange(db: Db, db': Db, me: Staff, id: ReservationId, s: Step)
    requires Listed(db.rows, me, id) && SalesKind(s) && Enabled(db.rows[id], s)
    requires db'.order == db.order && db'.rows == db.rows[id := Apply(db.rows[id], s)]
    ensures CardChange(db, db', me, id) && (!s.Take? ==> db'.rows[id].assignee == db.rows[id].assignee)
  {
    DeskStepCard(db.rows[id], s);
  }

  /** What pressing an enabled button does on the server: at most its own row changes, and only in status and assignee. */
  lemma PressServer(w: World, b: Button, me: Staff, now: int)
    requires Inv(w.db) && ReviewFresh(w, me) && ButtonEnabled(w.desk, b)
    ensures var id, db' := w.desk.review.value.card.id, Press(w, b, me, now).db;
      && CardChange(w.db, db', me, id)
      && (!b.ClaimButton? ==> db'.rows[id].assignee == w.db.rows[id].assignee == Some(me.id))
  {
    EnabledMeansListed(w, b, me);
    PressDb(w, b, me, now);
    var id := w.desk.review.value.card.id;
    var row', s := DeskRow(w.db, id, now, RequestOf(w.desk, b, me));
    StepCardChange(w.db, Press(w, b, me, now).db, me, id, s);
  }

  /** The status and assignee a request that the server accepts from a button leaves on its row. */
  predicate ButtonResult(b: Button, me: Staff, row: Row, row': Row) {
    && (b.ClaimButton? ==> row'.assignee == Some(me.id) && row'.status == UnderReview)
    && (b.DecisionButton? ==> InQueueStatus(row'.status) == (b.decision != Reject))
    && (b.DecisionButton? && b.decision == Reject ==> row'.status == Rejected)
    && (b.OfferButton? ==> row'.status == AlternativeOffered)
    && (b.ContractButton? || b.ChecklistButton? ==> row'.status == row.status)
    && (b.ConfirmButton? ==> row'.status == Confirmed)
    && (b.OperationButton? ==> row'.status == StatusAfter(b.action))
  }

  predicate Results(db: Db, id: ReservationId, now: int, q: Request, b: Button, me: Staff) {
    var db' := Execute(db, id, now, q).db;
    id in db.rows && id in db'.rows && ButtonResult(b, me, db.rows[id], db'.rows[id])
  }

  lemma PressedBranch(w: World, b: Button, me: Staff, now: int)
    requires RowsColumns(w.db) && ReviewFresh(w, me) && ButtonEnabled(w.desk, b)
    requires b.ContractButton? || b.ChecklistButton? || b.ConfirmButton?
    requires Execute(w.db, w.desk.review.value.card.id, now, RequestOf(w.desk, b, me)).outcome == Done
    ensures Results(w.db, w.desk.review.value.card.id, now, RequestOf(w.desk, b, me), b, me)
  {
    EnabledMeansFresh(w, b, me);
  }

  lemma PressedOperation(w: World, b: Button, me: Staff, now: int)
    requires RowsColumns(w.db) && ReviewFresh(w, me) && ButtonEnabled(w.desk, b) && b.OperationButton?
    requires Execute(w.db, w.desk.review.value.card.id, now, RequestOf(w.desk, b, me)).outcome == Done
    ensures Results(w.db, w.desk.review.value.card.id, now, RequestOf(w.desk, b, me), b, me)
  {
    EnabledMeansFresh(w, b, me);
  }

  lemma PressedReview(w: World, b: Button, me: Staff, now: int)
    requires RowsColumns(w.db) && ReviewFresh(w, me) && ButtonEnabled(w.desk, b)
    requires b.ClaimButton? || b.DecisionButton? || b.OfferButton?
    requires Execute(w.db, w.desk.review.value.card.id, now, RequestOf(w.desk, b, me)).outcome == Done
    ensures Results(w.db, w.desk.review.value.card.id, now, RequestOf(w.desk, b, me), b, me)
  {
    EnabledMeansFresh(w, b, me);
  }

  lemma PressStatus(w: World, b: Button, me: Staff, now: int)
    requires RowsColumns(w.db) && ReviewFresh(w, me) && ButtonEnabled(w.desk, b)
    requires Execute(w.db, w.desk.review.value.card.id, now, RequestOf(w.desk, b, me)).outcome == Done
    ensures Results(w.db, w.desk.review.value.card.id, now, RequestOf(w.desk, b, me), b, me)
  {
    if b.ContractButton? || b.ChecklistButton? || b.ConfirmButton? {
      PressedBranch(w, b, me, now);
    } else if b.OperationButton? {
      PressedOperation(w, b, me, now);
    } else {
      PressedReview(w, b, me, now);
    }
  }

  /** The desk after a button the server accepted: the handlers patch the card, or drop it when the request is closed. */
  lemma PressQueue(w: World, b: Button, me: Staff, now: int)
    requires RowsColumns(w.db) && ReviewFresh(w, me) && ButtonEnabled(w.desk, b)
    requires Execute(w.db, w.desk.review.value.card.id, now, RequestOf(w.desk, b, me)).outcome == Done
    ensures var id, w' := w.desk.review.value.card.id, Press(w, b, me, now);
      && id in w'.db.rows
      && w'.desk.queue ==
           (if b.ClaimButton? then PatchClaim(w.desk.queue, id, w'.db.rows[id].status)
            else if b.ContractButton? || b.ChecklistButton? then w.desk.queue
            else if !InQueueStatus(w'.db.rows[id].status) then Without(w.desk.queue, id)
            else PatchStatus(w.desk.queue, id, w'.db.rows[id].status))
      && (b.ClaimButton? ==> w'.db.rows[id].assignee == Some(me.id) && InQueueStatus(w'.db.rows[id].status))
      && (b.ContractButton? || b.ChecklistButton? ==> w'.db.rows[id].status == w.db.rows[id].status)
  {
    PressStatus(w, b, me, now);
  }

  /** The change of one row that a button can make, seen from the queue. */
  ghost predicate CardChange(db: Db, db': Db, me: Staff, id: ReservationId) {
    && Listed(db.rows, me, id)
    && db'.order == db.order && db'.rows.Keys == db.rows.Keys
    && (forall x :: x in db.rows && x != id ==> db'.rows[x] == db.rows[x])
    && CardOf(id, db'.rows[id], me.id) ==
         CardOf(id, db.rows[id], me.id).(status := db'.rows[id].status,
                                         assignedToMe := db'.rows[id].assignee == Some(me.id))
  }

  lemma PatchRefines(db: Db, db': Db, me: Staff, id: ReservationId)
    requires CardChange(db, db', me, id) && Listed(db'.rows, me, id)
    ensures db'.rows[id].assignee == db.rows[id].assignee ==>
      PatchStatus(QueueView(db, me), id, db'.rows[id].status) == QueueView(db', me)
    ensures db'.rows[id].assignee == Some(me.id) ==>
      PatchClaim(QueueView(db, me), id, db'.rows[id].status) == QueueView(db', me)
    ensures db'.rows[id].assignee == db.rows[id].assignee && db'.rows[id].status == db.rows[id].status ==>
      QueueView(db, me) == QueueView(db', me)
  {
    QueuePatch(db, db', me, id);
    forall i | 0 <= i < |QueueView(db, me)| && QueueView(db, me)[i].id == id
      ensures QueueView(db, me)[i] == CardOf(id, db.rows[id], me.id)
    {
      assert FirstPage(ListedIds(db, me))[i] == id;
    }
  }

  lemma QueueStays(w: World, b: Button, me: Staff, now: int)
    requires Inv(w.db) && ReviewFresh(w, me) && QueueFresh(w, me) && ButtonEnabled(w.desk, b)
    requires Listed(Press(w, b, me, now).db.rows, me, w.desk.review.value.card.id)
    ensures QueueFresh(Press(w, b, me, now), me)
  {
    var id, w' := w.desk.review.value.card.id, Press(w, b, me, now);
    PressServer(w, b, me, now);
    DeskFrame(w.db, id, now, RequestOf(w.desk, b, me));
    if w' != w {
      PressQueue(w, b, me, now);
      PatchRefines(w.db, w'.db, me, id);
    }
  }

  lemma QueueLeaves(w: World, b: Button, me: Staff, now: int)
    requires Inv(w.db) && ReviewFresh(w, me) && QueueFresh(w, me) && ButtonEnabled(w.desk, b)
    requires !Listed(Press(w, b, me, now).db.rows, me, w.desk.review.value.card.id)
    ensures QueueFresh(Press(w, b, me, now), me) <==>
      (|ListedIds(w.db, me)| <= PAGE || w.desk.review.value.card.id !in FirstPage(ListedIds(w.db, me)))
  {
    var id, w' := w.desk.review.value.card.id, Press(w, b, me, now);
    PressServer(w, b, me, now);
    DeskFrame(w.db, id, now, RequestOf(w.desk, b, me));
    PressQueue(w, b, me, now);
    QueueDrop(w.db, w'.db, me, id);
  }

  predicate ClosingButton(b: Button) {
    || (b.DecisionButton? && b.decision == Reject)
    || (b.OperationButton? && (b.action == Complete || b.action == Cancel || b.action == MarkNoShow))
  }

  /** The button closes the open request: it rejects, completes or cancels it, or marks a no-show that is due. */
  predicate Closes(d: Desk, b: Button, now: int) {
    ClosingButton(b)
    && (b.OperationButton? && b.action == MarkNoShow ==> d.review.Some? && d.review.value.card.pickupAt <= now)
  }

  /** The server takes what closes a request, and refuses a no-show before the pickup. */
  lemma RejectionTaken(w: World, me: Staff, now: int)
    requires Inv(w.db) && ReviewFresh(w, me) && ButtonEnabled(w.desk, DecisionButton(Reject))
    ensures var id := w.desk.review.value.card.id; DecideReview(w.db, id, me, Reject, now).outcome == Done
  {
    EnabledMeansFresh(w, DecisionButton(Reject), me);
  }

  /** A request whose return is on file can be completed, a confirmed one cancelled, or marked a no-show when due. */
  lemma ClosingCheck(row: Row, action: Action, reading: Option<Reading>, now: int)
    requires ColumnsAgree(row) && row.booking.Some? && action != Deliver && action != Return
    requires action != Complete ==> row.status == Confirmed
    requires action == Complete ==>
      row.status == Active && exists o :: o in row.booking.value.operations && o.kind == ReturnReading
    ensures OperationCheck(row, action, reading, now) == Done <==> (action == MarkNoShow ==> row.pickupAt <= now)
  {
    if action == Complete {
      assert OperationOf(row.booking.value.operations, ReturnReading).Some?;
    }
  }

  lemma ClosingReview(w: World, action: Action, reading: Option<Reading>, me: Staff)
    requires Inv(w.db) && ReviewFresh(w, me) && ButtonEnabled(w.desk, OperationButton(action, reading))
    requires action != Deliver && action != Return
    ensures var id := w.desk.review.value.card.id;
      && id in w.db.rows && ColumnsAgree(w.db.rows[id]) && MayAct(w.db.rows[id], me)
      && w.db.rows[id].pickupAt == w.desk.review.value.card.pickupAt
      && w.db.rows[id].booking.Some?
      && w.db.rows[id].status == (if action == Complete then Active else Confirmed)
      && (action == Complete ==>
            exists o :: o in w.db.rows[id].booking.value.operations && o.kind == ReturnReading)
  {
    EnabledMeansFresh(w, OperationButton(action, reading), me);
    assert ColumnsAgree(w.db.rows[w.desk.review.value.card.id]);
  }

  lemma ClosingOperation(w: World, action: Action, reading: Option<Reading>, me: Staff, now: int)
    requires Inv(w.db) && ReviewFresh(w, me) && ButtonEnabled(w.desk, OperationButton(action, reading))
    requires action != Deliver && action != Return
    ensures var id, b := w.desk.review.value.card.id, OperationButton(action, reading);
      Operate(w.db, id, me, action, reading, now).outcome == Done <==> Closes(w.desk, b, now)
  {
    ClosingReview(w, action, reading, me);
    ClosingCheck(w.db.rows[w.desk.review.value.card.id], action, reading, now);
  }

  /** What the server makes of a closing button's request. */
  function ClosingOutcome(db: Db, id: ReservationId, b: Button, me: Staff, now: int): Outcome
    requires ClosingButton(b)
  {
    if b.DecisionButton? then DecideReview(db, id, me, Reject, now).outcome
    else Operate(db, id, me, b.action, b.reading, now).outcome
  }

  lemma ClosingSent(w: World, b: Button, me: Staff, now: int)
    requires ButtonEnabled(w.desk, b) && ClosingButton(b)
    ensures var id := w.desk.review.value.card.id;
      Execute(w.db, id, now, RequestOf(w.desk, b, me)).outcome == ClosingOutcome(w.db, id, b, me, now)
  {
  }

  lemma Taken(w: World, b: Button, me: Staff, now: int)
    requires Inv(w.db) && ReviewFresh(w, me) && ButtonEnabled(w.desk, b) && ClosingButton(b)
    ensures ClosingOutcome(w.db, w.desk.review.value.card.id, b, me, now) == Done <==> Closes(w.desk, b, now)
  {
    if b.DecisionButton? {
      RejectionTaken(w, me, now);
    } else {
      ClosingOperation(w, b.action, b.reading, me, now);
    }
  }

  lemma ResultListed(b: Button, me: Staff, row: Row, rows: map<ReservationId, Row>, id: ReservationId)
    requires id in rows && ButtonResult(b, me, row, rows[id]) && rows[id].assignee == Some(me.id)
    requires InQueueStatus(row.status)
    ensures Listed(rows, me, id) <==> !ClosingButton(b)
  {
  }

  /** A request leaves the list exactly by a button that closes it. */
  lemma LeavesByClosing(w: World, b: Button, me: Staff, now: int)
    requires Inv(w.db) && ReviewFresh(w, me) && ButtonEnabled(w.desk, b)
    ensures Listed(Press(w, b, me, now).db.rows, me, w.desk.review.value.card.id) <==> !Closes(w.desk, b, now)
  {
    var id, db' := w.desk.review.value.card.id, Press(w, b, me, now).db;
    PressDb(w, b, me, now);
    PressServer(w, b, me, now);
    if ClosingButton(b) {
      Taken(w, b, me, now);
      ClosingSent(w, b, me, now);
    }
    if Execute(w.db, id, now, RequestOf(w.desk, b, me)).outcome == Done {
      PressStatus(w, b, me, now);
      ResultListed(b, me, w.db.rows[id], db'.rows, id);
    } else {
      DeskFrame(w.db, id, now, RequestOf(w.desk, b, me));
    }
  }

  /**
   The queue refines the server's table. Starting from a fresh queue, with nobody else writing,
   the patched queue after any button equals a freshly loaded one, in the same order, except when
   the button closes a request of the first page while more than a page is listed: then the fresh
   queue has moved the next request up and the patched one has not.
   */
  lemma QueueRefines(w: World, b: Button, me: Staff, now: int)
    requires Inv(w.db) && ReviewFresh(w, me) && QueueFresh(w, me) && ButtonEnabled(w.desk, b)
    ensures QueueFresh(Press(w, b, me, now), me) <==>
      !(Closes(w.desk, b, now) && |ListedIds(w.db, me)| > PAGE
        && w.desk.review.value.card.id in FirstPage(ListedIds(w.db, me)))
  {
    LeavesByClosing(w, b, me, now);
    if Closes(w.desk, b, now) {
      QueueLeaves(w, b, me, now);
    } else {
      QueueStays(w, b, me, now);
    }
  }
}
