/**
 Whole runs of the sales workspace against the store: how long its cache stays exact, and which
 requests its buttons can carry to the end.
 */
module SalesRuns {
  import opened Util
  import opened Reservations
  import opened ReservationSteps
  import opened ReservationStore
  import opened SalesWorkspace

  // ------------------------------------------------- one desk, nobody else writing

  datatype DeskEvent = Push(button: Button, now: int) | Open(id: ReservationId, uploads: bool)

  /** getSalesReview: an open request that is not assigned to another sales employee. */
  predicate MayOpen(db: Db, me: Staff, id: ReservationId) {
    && id in db.rows && InQueueStatus(db.rows[id].status)
    && (me.admin || db.rows[id].assignee.None? || db.rows[id].assignee == Some(me.id))
  }

  function Opened(w: World, me: Staff, id: ReservationId, uploads: bool): World {
    w.(desk := Desk(w.desk.queue,
                    if MayOpen(w.db, me, id)
                    then Some(ReviewOf(id, w.db.rows[id], me.id, uploads, ExpectedDeposit(w.db, w.db.rows[id])))
                    else None,
                    None))
  }

  function DeskStep(w: World, me: Staff, e: DeskEvent): World {
    match e
    case Push(button, now) => if ButtonEnabled(w.desk, button) then Press(w, button, me, now) else w
    case Open(id, uploads) => Opened(w, me, id, uploads)
  }

  function DeskRun(w: World, me: Staff, events: seq<DeskEvent>): World
    decreases |events|
  {
    if events == [] then w else DeskRun(DeskStep(w, me, events[0]), me, events[1..])
  }

  ghost predicate Exact(w: World, me: Staff) {
    Inv(w.db) && QueueFresh(w, me) && ReviewFresh(w, me) && |ListedIds(w.db, me)| <= PAGE
  }

  /** The list can only shrink: every request a button leaves listed was listed before. */
  lemma ListShrinks(db: Db, db': Db, me: Staff, id: ReservationId)
    requires CardChange(db, db', me, id)
    ensures |ListedIds(db', me)| <= |ListedIds(db, me)|
  {
    var other := (x: ReservationId) => x != id || Listed(db'.rows, me, id);
    FilterDrops((x: ReservationId) => Listed(db.rows, me, x), (x: ReservationId) => Listed(db'.rows, me, x),
                other, db.order);
  }

  lemma PressReviewFresh(w: World, b: Button, me: Staff, now: int)
    requires RowsColumns(w.db) && ReviewFresh(w, me) && ButtonEnabled(w.desk, b)
    ensures ReviewFresh(Press(w, b, me, now), me)
  {
    match b {
      case ClaimButton => ClaimFresh(w, me, now);
      case DecisionButton(decision) => DecisionFresh(w, decision, me, now);
      case OfferButton(vehicle, p, r) => OfferFresh(w, vehicle, p, r, me, now);
      case ContractButton => ContractFresh(w, me, now);
      case ChecklistButton(receipt) => ChecklistFresh(w, receipt, me, now);
      case ConfirmButton => ConfirmFresh(w, me, now);
      case OperationButton(action, reading) => OperationFresh(w, action, reading, me, now);
    }
  }

  lemma PressInv(w: World, b: Button, me: Staff, now: int)
    requires Inv(w.db) && ButtonEnabled(w.desk, b)
    ensures Inv(Press(w, b, me, now).db)
  {
    ExecuteKeeps(w.db, w.desk.review.value.card.id, now, RequestOf(w.desk, b, me));
  }

  lemma PressExact(w: World, b: Button, me: Staff, now: int)
    requires Exact(w, me) && ButtonEnabled(w.desk, b)
    ensures Exact(Press(w, b, me, now), me)
  {
    PressInv(w, b, me, now);
    PressReviewFresh(w, b, me, now);
    QueueRefines(w, b, me, now);
    PressServer(w, b, me, now);
    ListShrinks(w.db, Press(w, b, me, now).db, me, w.desk.review.value.card.id);
  }

  /**
   With at most one page of requests listed and nobody else writing, any sequence of opened
   reviews and pressed buttons leaves the queue equal to a freshly loaded one and the open review
   equal to its row.
   */
  lemma {:induction false} CacheStaysExact(w: World, me: Staff, events: seq<DeskEvent>)
    requires Exact(w, me)
    ensures Exact(DeskRun(w, me, events), me)
    decreases |events|
  {
    if events != [] {
      var e := events[0];
      if e.Push? && ButtonEnabled(w.desk, e.button) {
        PressExact(w, e.button, me, e.now);
      }
      CacheStaysExact(DeskStep(w, me, e), me, events[1..]);
    }
  }

  /** No request appears twice in the queue. */
  lemma QueueIdsUnique(w: World, me: Staff, i: nat, j: nat)
    requires Exact(w, me) && i < j < |w.desk.queue|
    ensures w.desk.queue[i].id != w.desk.queue[j].id
  {
    FilterDistinct((x: ReservationId) => Listed(w.db.rows, me, x), w.db.order);
  }

  // ------------------------------- the desk among customers, colleagues and the sweep

  datatype WorldEvent = AtDesk(event: DeskEvent) | Elsewhere(call: Call)

  function WorldStep(w: World, me: Staff, e: WorldEvent): World {
    match e
    case AtDesk(event) => DeskStep(w, me, event)
    case Elsewhere(c) => w.(db := Execute(w.db, c.id, c.now, c.request).db)
  }

  function WorldRun(w: World, me: Staff, events: seq<WorldEvent>): World
    decreases |events|
  {
    if events == [] then w else WorldRun(WorldStep(w, me, events[0]), me, events[1..])
  }

  /** A review that says "mine" is of a request assigned to me, however old the copy is. */
  predicate HonestDesk(w: World, me: Staff) {
    w.desk.review.Some? && w.desk.review.value.card.assignedToMe ==>
      var id := w.desk.review.value.card.id;
      id in w.db.rows && w.db.rows[id].assignee == Some(me.id)
  }

  /** Only a claim assigns a request, and only one that nobody has and that was just submitted. */
  lemma AssigneeStep(row: Row, s: Step)
    requires ColumnsAgree(row) && Enabled(row, s)
    ensures Apply(row, s).assignee == if s.Take? then Some(s.staff.id) else row.assignee
    ensures s.Take? ==> row.assignee.None? && row.status == PendingReview
  {
  }

  lemma OperatingStep(row: Row, action: Action, reading: Option<Reading>, now: int)
    requires ColumnsAgree(row) && Enabled(row, Operating(action, reading, now))
    ensures Apply(row, Operating(action, reading, now)).status != PendingReview
  {
  }

  lemma PendingStep(row: Row, s: Step)
    requires ColumnsAgree(row) && Enabled(row, s) && row.status != PendingReview
    ensures Apply(row, s).status != PendingReview
  {
    if s.Operating? {
      OperatingStep(row, s.action, s.reading, s.now);
    }
  }

  /** Once assigned, a request stays with the same person. */
  lemma AssigneeStays(db: Db, c: Call, i: ReservationId)
    requires Inv(db) && i in db.rows && db.rows[i].assignee.Some?
    ensures var db' := Execute(db, c.id, c.now, c.request).db;
      i in db'.rows && db'.rows[i].assignee == db.rows[i].assignee
  {
    var row', s := RowAfter(db, c, i);
    AssigneeStep(db.rows[i], s);
  }

  lemma {:induction false} AssigneeForever(db: Db, calls: seq<Call>, i: ReservationId)
    requires Inv(db) && i in db.rows && db.rows[i].assignee.Some?
    ensures Inv(Run(db, calls))
    ensures i in Run(db, calls).rows && Run(db, calls).rows[i].assignee == db.rows[i].assignee
    decreases |calls|
  {
    if calls != [] {
      AssigneeStays(db, calls[0], i);
      ExecuteKeeps(db, calls[0].id, calls[0].now, calls[0].request);
      AssigneeForever(Execute(db, calls[0].id, calls[0].now, calls[0].request).db, calls[1..], i);
    }
  }

  lemma ClaimKeeps(db: Db, id: ReservationId, winner: Staff)
    requires Inv(db)
    ensures Inv(ClaimReview(db, id, winner).db)
  {
    ExecuteKeeps(db, id, 0, Claim(winner));
  }

  lemma ClaimAssigns(db: Db, id: ReservationId, winner: Staff)
    requires ClaimReview(db, id, winner).outcome == Done
    ensures var db' := ClaimReview(db, id, winner).db; id in db'.rows && db'.rows[id].assignee == Some(winner.id)
  {
  }

  lemma TakenFromOthers(db: Db, id: ReservationId, winner: UserId, other: Staff)
    requires id in db.rows && PapersAgree(db.rows[id]) && db.rows[id].assignee == Some(winner)
    requires other.id != winner && !other.admin
    ensures !Listed(db.rows, other, id) && !MayOpen(db, other, id) && !MayAct(db.rows[id], other)
    ensures ClaimReview(db, id, other).outcome != Done
  {
  }

  /**
   A claim is exclusive for good: whatever happens afterwards, no other sales employee sees the
   request in the queue, can open it, claim it or act on it.
   */
  lemma ClaimIsExclusive(db: Db, id: ReservationId, winner: Staff, calls: seq<Call>, other: Staff)
    requires Inv(db) && ClaimReview(db, id, winner).outcome == Done
    requires other.id != winner.id && !other.admin
    ensures var end := Run(ClaimReview(db, id, winner).db, calls);
      && id in end.rows && end.rows[id].assignee == Some(winner.id)
      && !Listed(end.rows, other, id) && !MayOpen(end, other, id) && !MayAct(end.rows[id], other)
      && ClaimReview(end, id, other).outcome != Done
  {
    ClaimKeeps(db, id, winner);
    ClaimAssigns(db, id, winner);
    AssigneeForever(ClaimReview(db, id, winner).db, calls, id);
    TakenFromOthers(Run(ClaimReview(db, id, winner).db, calls), id, winner.id, other);
  }

  /** The call an event makes on the store, if it makes one. */
  function CallOf(w: World, me: Staff, e: WorldEvent): Option<Call> {
    match e
    case Elsewhere(c) => Some(c)
    case AtDesk(Open(_, _)) => None
    case AtDesk(Push(b, now)) =>
      if ButtonEnabled(w.desk, b) then Some(Call(w.desk.review.value.card.id, now, RequestOf(w.desk, b, me))) else None
  }

  lemma WorldStore(w: World, me: Staff, e: WorldEvent)
    ensures var c := CallOf(w, me, e);
      WorldStep(w, me, e).db ==
        if c.None? then w.db else Execute(w.db, c.value.id, c.value.now, c.value.request).db
  {
  }

  /** A button other than the claim leaves the identity of the open review alone. */
  lemma PressCard(w: World, b: Button, me: Staff, now: int)
    requires ButtonEnabled(w.desk, b) && !b.ClaimButton?
    ensures var d := Press(w, b, me, now).desk;
      d.review.Some? && d.review.value.card.id == w.desk.review.value.card.id
      && d.review.value.card.assignedToMe == w.desk.review.value.card.assignedToMe
  {
  }

  lemma ClaimHonest(w: World, me: Staff, now: int)
    requires HonestDesk(w, me) && ButtonEnabled(w.desk, ClaimButton)
    ensures HonestDesk(Press(w, ClaimButton, me, now), me)
  {
  }

  /** Whoever acts, the desk never takes somebody else's request for its own. */
  lemma StaysHonest(w: World, me: Staff, e: WorldEvent)
    requires Inv(w.db) && HonestDesk(w, me)
    ensures HonestDesk(WorldStep(w, me, e), me)
  {
    var c := CallOf(w, me, e);
    if e.AtDesk? && e.event.Push? && c.Some? && e.event.button.ClaimButton? {
      ClaimHonest(w, me, e.event.now);
    } else if c.Some? {
      WorldStore(w, me, e);
      if w.desk.review.Some? && w.desk.review.value.card.assignedToMe {
        AssigneeStays(w.db, c.value, w.desk.review.value.card.id);
      }
      if e.AtDesk? {
        PressCard(w, e.event.button, me, e.event.now);
      }
    }
  }

  /** The calls that reach the store in a run, in their order. */
  function CallsOf(w: World, me: Staff, events: seq<WorldEvent>): seq<Call>
    decreases |events|
  {
    if events == [] then []
    else
      (if CallOf(w, me, events[0]).None? then [] else [CallOf(w, me, events[0]).value])
      + CallsOf(WorldStep(w, me, events[0]), me, events[1..])
  }

  lemma {:induction false} WorldRunIsRun(w: World, me: Staff, events: seq<WorldEvent>)
    ensures WorldRun(w, me, events).db == Run(w.db, CallsOf(w, me, events))
    decreases |events|
  {
    if events != [] {
      var c, rest := CallOf(w, me, events[0]), CallsOf(WorldStep(w, me, events[0]), me, events[1..]);
      WorldStore(w, me, events[0]);
      WorldRunIsRun(WorldStep(w, me, events[0]), me, events[1..]);
      if c.None? {
        assert CallsOf(w, me, events) == rest;
      } else {
        assert CallsOf(w, me, events) == [c.value] + rest;
        assert ([c.value] + rest)[1..] == rest;
      }
    }
  }

  // ------------------------------------------------- completed without ever being claimed

  /** Out of the claimable state without ever having been claimed. */
  predicate Stranded(row: Row) { row.assignee.None? && row.status != PendingReview }

  /** An administrator rejects a document of request i before anybody has claimed the request. */
  predicate RejectsEarly(db: Db, c: Call, i: ReservationId) {
    && c.id == i && i in db.rows && db.rows[i].status == PendingReview
    && c.request.ReviewFile? && !c.request.accept && c.request.open && c.request.staff.admin
  }

  function EarlyRejections(db: Db, calls: seq<Call>, i: ReservationId): nat
    decreases |calls|
  {
    if calls == [] then 0
    else
      var c := calls[0];
      One(RejectsEarly(db, c, i)) + EarlyRejections(Execute(db, c.id, c.now, c.request).db, calls[1..], i)
  }

  lemma StrandingStep(row: Row, s: Step)
    requires ColumnsAgree(row) && Enabled(row, s) && !Stranded(row)
    ensures Stranded(Apply(row, s)) <==> row.status == PendingReview && s.Reviewing? && !s.accept
  {
    if s.Lapsing? {
      PendingIsNewest(row, s.i);
    } else if row.assignee.Some? {
      AssigneeStep(row, s);
    }
  }

  /** Nobody but an administrator has a say in a request that nobody has claimed. */
  lemma EarlyRejection(db: Db, i: ReservationId, now: int, q: Request)
    requires i in db.rows && PapersAgree(db.rows[i]) && db.rows[i].status == PendingReview
    ensures var s := StepOf(db, i, now, q);
      s.Reviewing? && !s.accept <==> q.ReviewFile? && !q.accept && q.open && q.staff.admin
  {
    if q.ReviewFile? && !q.accept && q.open && q.staff.admin {
      assert ReviewRow(db.rows[i], q.document, false).status != db.rows[i].status;
      assert Execute(db, i, now, q).db.rows[i] != db.rows[i];
    }
  }

  lemma StrandedAfter(db: Db, c: Call, i: ReservationId)
    requires Inv(db) && i in db.rows
    ensures var db' := Execute(db, c.id, c.now, c.request).db;
      i in db'.rows && (Stranded(db'.rows[i]) <==> Stranded(db.rows[i]) || RejectsEarly(db, c, i))
  {
    var row', s := RowAfter(db, c, i);
    if Stranded(db.rows[i]) {
      AssigneeStep(db.rows[i], s);
      PendingStep(db.rows[i], s);
    } else {
      StrandingStep(db.rows[i], s);
      if c.id == i && db.rows[i].status == PendingReview {
        EarlyRejection(db, i, c.now, c.request);
      }
    }
  }

  lemma {:induction false} StrandedOver(db: Db, calls: seq<Call>, i: ReservationId)
    requires Inv(db) && i in db.rows
    ensures i in Run(db, calls).rows
    ensures Stranded(Run(db, calls).rows[i]) <==> Stranded(db.rows[i]) || EarlyRejections(db, calls, i) > 0
    decreases |calls|
  {
    if calls != [] {
      StrandedAfter(db, calls[0], i);
      ExecuteKeeps(db, calls[0].id, calls[0].now, calls[0].request);
      StrandedOver(Execute(db, calls[0].id, calls[0].now, calls[0].request).db, calls[1..], i);
    }
  }

  /** In every run, a request submitted in it is stranded exactly when a document of it was rejected before its claim. */
  lemma {:induction false} StrandedExactly(db: Db, calls: seq<Call>, i: ReservationId)
    requires Inv(db) && i !in db.rows
    ensures i in Run(db, calls).rows ==>
      (Stranded(Run(db, calls).rows[i]) <==> EarlyRejections(db, calls, i) > 0)
    decreases |calls|
  {
    if calls != [] {
      var c := calls[0];
      var db' := Execute(db, c.id, c.now, c.request).db;
      ExecuteKeeps(db, c.id, c.now, c.request);
      if i in db'.rows {
        FirstSeen(db, c, i);
        StrandedOver(db', calls[1..], i);
      } else {
        StrandedExactly(db', calls[1..], i);
      }
    }
  }

  const RENTAL: seq<Act> :=
    [Decided(PreApprove), ContractStored, ChecklistRecorded, BookingConfirmed,
     Operated(Deliver), Operated(Return), Operated(Complete)]

  lemma FinishedShows(row: Row)
    requires RowSound(row) && row.status == Completed
    ensures Milestones(row.timeline) == (if Stranded(row) then [] else [Claimed]) + RENTAL
    ensures Claimed in Milestones(row.timeline) <==> !Stranded(row)
  {
    FinishedRental(row);
    assert Claimed !in RENTAL;
  }

  /**
   From a store without reservations, whatever anybody does: a completed request was claimed,
   before its pre-approval, exactly when no document of it was rejected before the claim.
   */
  lemma ClaimedUnlessRejectedEarly(db: Db, calls: seq<Call>, i: ReservationId)
    requires Opening(db)
    ensures var end := Run(db, calls);
      i in end.rows && end.rows[i].status == Completed ==>
        && Milestones(end.rows[i].timeline) ==
             (if EarlyRejections(db, calls, i) == 0 then [Claimed] else []) + RENTAL
        && (Claimed in Milestones(end.rows[i].timeline) <==> EarlyRejections(db, calls, i) == 0)
  {
    RunKeeps(db, calls);
    StrandedExactly(db, calls, i);
    var end := Run(db, calls);
    if i in end.rows && end.rows[i].status == Completed {
      FinishedShows(end.rows[i]);
    }
  }

  /**
   A desk with however stale a cache, among customers, colleagues, administrators, the expiry sweep
   and the fleet office, in any interleaving: every completed request was claimed, pre-approved,
   signed, checked, confirmed, delivered, returned and completed, once each and in this order,
   the claim missing exactly when a document was rejected before it.
   */
  lemma CompletedWasClaimed(w: World, me: Staff, events: seq<WorldEvent>, i: ReservationId)
    requires Opening(w.db)
    ensures var end := WorldRun(w, me, events).db;
      i in end.rows && end.rows[i].status == Completed ==>
        Milestones(end.rows[i].timeline) ==
          (if EarlyRejections(w.db, CallsOf(w, me, events), i) == 0 then [Claimed] else []) + RENTAL
  {
    WorldRunIsRun(w, me, events);
    ClaimedUnlessRejectedEarly(w.db, CallsOf(w, me, events), i);
  }

  // ----------------------------------------------- requests nobody can take any more

  /** What staff ask for, signed with their name. */
  predicate FromStaff(q: Request, staff: Staff) {
    || q == Claim(staff) || (q.Decide? && q.staff == staff) || (q.Propose? && q.staff == staff) || q == Sign(staff)
    || (q.RecordBranch? && q.staff == staff) || q == ConfirmRequest(staff)
    || (q.ReadConfirmation? && q.staff == staff) || (q.RunOperation? && q.staff == staff)
    || (q.ReviewFile? && q.staff == staff)
  }

  lemma RefusesSales(db: Db, i: ReservationId, now: int, q: Request, staff: Staff)
    requires i in db.rows && Stranded(db.rows[i]) && FromStaff(q, staff) && (!staff.admin || q.Claim?)
    ensures Execute(db, i, now, q).outcome != Done && Execute(db, i, now, q).db == db
  {
  }

  /**
   A stranded request is never assigned again, and every action of a sales employee on it is
   refused, at any later time and whatever happens in between; an administrator cannot claim it either.
   */
  lemma StrandedForever(db: Db, calls: seq<Call>, i: ReservationId, now: int, q: Request, staff: Staff)
    requires Inv(db) && i in db.rows && Stranded(db.rows[i])
    requires FromStaff(q, staff) && (!staff.admin || q.Claim?)
    ensures var end := Run(db, calls);
      && i in end.rows && Stranded(end.rows[i])
      && Execute(end, i, now, q).outcome != Done && Execute(end, i, now, q).db == end
  {
    StrandedOver(db, calls, i);
    RefusesSales(Run(db, calls), i, now, q, staff);
  }

  /** No button of the workspace is ever enabled on a freshly opened stranded request. */
  lemma StrandedHasNoButton(w: World, b: Button, me: Staff, id: ReservationId, uploads: bool)
    requires id in w.db.rows && Stranded(w.db.rows[id])
    ensures !ButtonEnabled(Opened(w, me, id, uploads).desk, b)
  {
  }

  /**
   How a request gets stranded: an administrator rejects a document before anybody claimed the
   request, and the customer replaces it and replies. It is then under review and unassigned, and
   an administrator's override can decide it.
   */
  lemma RejectedBeforeClaim(db: Db, id: ReservationId, boss: Staff, document: nat, now: int, staff: Staff)
    requires id in db.rows && db.rows[id].status == PendingReview && db.rows[id].assignee.None?
    requires db.rows[id].rejected == {} && boss.admin && !staff.admin
    ensures var db1 := Execute(db, id, now, ReviewFile(boss, document, false, true)).db;
      var db2 := Execute(db1, id, now, ReplaceFile(db.rows[id].customer, document, true)).db;
      var db3 := Execute(db2, id, now, AnswerRequest(db.rows[id].customer)).db;
      && id in db3.rows && Stranded(db3.rows[id]) && db3.rows[id].status == UnderReview
      && Execute(db3, id, now, Claim(staff)).outcome == AlreadyAssigned
      && Execute(db3, id, now, Decide(staff, PreApprove)).outcome == NotAssigned
      && Execute(db3, id, now, Decide(boss, PreApprove)).outcome == Done
  {
    var row1 := ReviewRow(db.rows[id], document, false);
    var row2 := ReplaceRow(row1, document);
    assert row2.rejected == {};
  }
}
