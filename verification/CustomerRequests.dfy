/**
 The customer's request list (apps/web/components/customer-requests-workspace.tsx): replies,
 answers to alternative offers, the progress track and the filters, against the server's rows.
 */
module CustomerRequests {
  import opened Util
  import opened Reservations
  import opened ReservationSteps
  import opened ReservationStore

  datatype Summary = Summary(
    id: ReservationId, status: Status, vehicle: VehicleId, pickupAt: int, returnAt: int,
    total: int, needsResponse: bool)

  datatype Detail = Detail(summary: Summary, offer: Option<Offer>, messages: seq<string>)

  datatype Page = Page(requests: seq<Summary>, detail: Option<Detail>)

  // ------------------------------------------------- what the server would send

  predicate NeedsResponse(s: Status) { s == MoreInformationRequired || s == AlternativeOffered }

  function SummaryOf(id: ReservationId, row: Row): Summary {
    Summary(id, row.status, row.vehicle, row.pickupAt, row.returnAt, row.total, NeedsResponse(row.status))
  }

  function LatestOffer(row: Row): Option<Offer> {
    if row.offers == [] then None else Some(row.offers[|row.offers| - 1])
  }

  // --------------------------------------------------- the component's handlers

  /** Whatever the answer was, the list shows the request back under review. */
  function ListAnswered(requests: seq<Summary>, id: ReservationId): (r: seq<Summary>)
    ensures |r| == |requests|
    ensures forall i :: 0 <= i < |r| ==>
      r[i] == if requests[i].id == id then requests[i].(status := UnderReview, needsResponse := false) else requests[i]
  {
    seq(|requests|, i requires 0 <= i < |requests| =>
      if requests[i].id == id then requests[i].(status := UnderReview, needsResponse := false) else requests[i])
  }

  function AfterReply(p: Page, d: Detail, body: string): Page {
    Page(ListAnswered(p.requests, d.summary.id),
         Some(d.(summary := d.summary.(status := UnderReview, needsResponse := false),
                 messages := d.messages + [body])))
  }

  /** An answered offer leaves the detail's needsResponse as it was. */
  function AfterAnswer(p: Page, d: Detail, verdict: OfferStatus): Page
    requires d.offer.Some?
  {
    Page(ListAnswered(p.requests, d.summary.id),
         Some(d.(summary := d.summary.(status := UnderReview),
                 offer := Some(d.offer.value.(status := verdict)))))
  }

  class Workspace {
    var requests: seq<Summary>
    var detail: Option<Detail>
    var sending: bool
    var sendError: bool
    var sent: bool
    var feedback: Option<OfferStatus>
    var offerError: bool

    ghost function View(): Page
      reads this
    {
      Page(requests, detail)
    }

    constructor (initial: seq<Summary>)
      ensures View() == Page(initial, None)
    {
      requests, detail := initial, None;
      sending, sendError, sent, feedback, offerError := false, false, false, None, false;
    }

    method OpenRequest(response: Option<Detail>)
      modifies this
      ensures View() == Page(old(requests), response)
      ensures !sent && !sendError && feedback.None?
    {
      sent, sendError, feedback, offerError := false, false, None, false;
      detail := response;
    }

    /** body is the trimmed message; accepted says that the server took the reply. */
    method SendReply(body: string, accepted: bool)
      modifies this
      ensures var go := old(detail).Some? && 10 <= |body| <= 500;
        && View() == (if go && accepted then AfterReply(old(View()), old(detail).value, body) else old(View()))
        && (go ==> sendError == !accepted && (sent <==> accepted || old(sent)))
    {
      if detail.None? || |body| < 10 || |body| > 500 {
        return;
      }
      sendError := false;
      if accepted {
        var d := detail.value;
        requests := ListAnswered(requests, d.summary.id);
        detail := Some(d.(summary := d.summary.(status := UnderReview, needsResponse := false),
                          messages := d.messages + [body]));
        sent := true;
      } else {
        sendError := true;
      }
    }

    /** verdict is the offer status in the server's response, if it took the answer. */
    method RespondToAlternative(verdict: Option<OfferStatus>)
      modifies this
      ensures var go := old(detail).Some? && old(detail).value.offer.Some?;
        && View() == (if go && verdict.Some? then AfterAnswer(old(View()), old(detail).value, verdict.value)
                      else old(View()))
        && (go ==> feedback == verdict && offerError == verdict.None?)
    {
      if detail.None? || detail.value.offer.None? {
        return;
      }
      feedback, offerError := verdict, verdict.None?;
      if verdict.Some? {
        var d := detail.value;
        requests := ListAnswered(requests, d.summary.id);
        detail := Some(d.(summary := d.summary.(status := UnderReview),
                          offer := Some(d.offer.value.(status := verdict.value))));
      }
    }
  }

  // ----------------------------------------------- the page and the server together

  datatype World = World(db: Db, page: Page)

  datatype PageEvent =
    | Look(id: ReservationId, messages: seq<string>)
    | Write(body: string, now: int)
    | Respond(accept: bool, now: int)

  /** The reply panel is shown and its button is enabled. */
  predicate ReplyEnabled(p: Page, body: string) {
    p.detail.Some? && p.detail.value.summary.needsResponse && 10 <= |body| <= 500
  }

  /** The accept and decline buttons are shown. */
  predicate AnswerEnabled(p: Page) {
    p.detail.Some? && p.detail.value.offer.Some? && p.detail.value.offer.value.status == OfferPending
    && p.detail.value.summary.status == AlternativeOffered
  }

  function Opened(w: World, customer: UserId, id: ReservationId, messages: seq<string>): World {
    w.(page := w.page.(detail :=
      if id in w.db.rows && w.db.rows[id].customer == customer
      then Some(Detail(SummaryOf(id, w.db.rows[id]), LatestOffer(w.db.rows[id]), messages)) else None))
  }

  function PressReply(w: World, customer: UserId, body: string, now: int): World
    requires ReplyEnabled(w.page, body)
  {
    var d := w.page.detail.value;
    var reply := Execute(w.db, d.summary.id, now, AnswerRequest(customer));
    World(reply.db, if reply.outcome == Done then AfterReply(w.page, d, body) else w.page)
  }

  function PressAnswer(w: World, customer: UserId, accept: bool, now: int): World
    requires AnswerEnabled(w.page)
  {
    var d := w.page.detail.value;
    var reply := AnswerOffer(w.db, d.summary.id, customer, accept, now);
    World(reply.db,
          if reply.outcome == Done then AfterAnswer(w.page, d, if accept then OfferAccepted else OfferDeclined)
          else w.page)
  }

  function EventStep(w: World, customer: UserId, e: PageEvent): World {
    match e
    case Look(id, messages) => Opened(w, customer, id, messages)
    case Write(body, now) => if ReplyEnabled(w.page, body) then PressReply(w, customer, body, now) else w
    case Respond(accept, now) => if AnswerEnabled(w.page) then PressAnswer(w, customer, accept, now) else w
  }

  // -------------------------------------------------------------- how fresh it is

  predicate SummaryFresh(s: Summary, db: Db) { s.id in db.rows && s == SummaryOf(s.id, db.rows[s.id]) }

  predicate ListFresh(w: World) { forall s :: s in w.page.requests ==> SummaryFresh(s, w.db) }

  predicate DetailFresh(w: World) {
    w.page.detail.Some? ==>
      var d := w.page.detail.value;
      SummaryFresh(d.summary, w.db) && d.offer == LatestOffer(w.db.rows[d.summary.id])
  }

  /** A reply the server takes leaves list and detail equal to a fresh copy, and so does a refused one. */
  lemma ReplyStaysFresh(w: World, customer: UserId, body: string, now: int)
    requires ListFresh(w) && DetailFresh(w) && ReplyEnabled(w.page, body)
    ensures ListFresh(PressReply(w, customer, body, now)) && DetailFresh(PressReply(w, customer, body, now))
  {
    var w' := PressReply(w, customer, body, now);
    forall s | s in w'.page.requests ensures SummaryFresh(s, w'.db) {
      var i :| 0 <= i < |w'.page.requests| && w'.page.requests[i] == s;
      assert SummaryFresh(w.page.requests[i], w.db);
    }
  }

  /** The panel also shows while an offer waits for its answer, when the server takes no reply. */
  lemma ReplyTaken(w: World, customer: UserId, body: string, now: int)
    requires DetailFresh(w) && ReplyEnabled(w.page, body)
    requires w.db.rows[w.page.detail.value.summary.id].customer == customer
    ensures var id := w.page.detail.value.summary.id;
      Execute(w.db, id, now, AnswerRequest(customer)).outcome == Done <==>
        w.page.detail.value.summary.status != AlternativeOffered && w.db.rows[id].rejected == {}
  {
  }

  predicate SameTerms(o: Offer, s: Summary) {
    o.vehicle == s.vehicle && o.pickupAt == s.pickupAt && o.returnAt == s.returnAt && o.total == s.total
  }

  /** What the server would send for a request whose newest offer is answered. */
  lemma AnsweredCopy(id: ReservationId, row: Row, i: nat)
    requires row.offers != [] && i == |row.offers| - 1
    ensures var o := row.offers[i];
      && SummaryOf(id, AcceptRow(row, i)) == Summary(id, UnderReview, o.vehicle, o.pickupAt, o.returnAt, o.total, false)
      && SummaryOf(id, DeclineRow(row, i)) == SummaryOf(id, row).(status := UnderReview, needsResponse := false)
      && LatestOffer(AcceptRow(row, i)) == Some(o.(status := OfferAccepted))
      && LatestOffer(DeclineRow(row, i)) == Some(o.(status := OfferDeclined))
  {
  }

  lemma AnswerStored(db: Db, id: ReservationId, customer: UserId, accept: bool, now: int) returns (i: nat)
    requires Inv(db) && AnswerOffer(db, id, customer, accept, now).outcome == Done
    ensures id in db.rows && i == |db.rows[id].offers| - 1 && i < |db.rows[id].offers|
    ensures AnswerOffer(db, id, customer, accept, now) ==
      Save(db, id, if accept then AcceptRow(db.rows[id], i) else DeclineRow(db.rows[id], i))
  {
    i := PendingOffer(db.rows[id].offers).value;
    PendingIsNewest(db.rows[id], i);
  }

  lemma AnswerRow(w: World, customer: UserId, accept: bool, now: int)
    requires Inv(w.db) && DetailFresh(w) && AnswerEnabled(w.page)
    requires AnswerOffer(w.db, w.page.detail.value.summary.id, customer, accept, now).outcome == Done
    ensures var d, db' := w.page.detail.value, PressAnswer(w, customer, accept, now).db;
      var id, o := d.summary.id, d.offer.value;
      && db'.rows.Keys == w.db.rows.Keys && (forall x :: x in w.db.rows && x != id ==> db'.rows[x] == w.db.rows[x])
      && SummaryOf(id, db'.rows[id]) ==
           (if accept then Summary(id, UnderReview, o.vehicle, o.pickupAt, o.returnAt, o.total, false)
            else d.summary.(status := UnderReview, needsResponse := false))
      && LatestOffer(db'.rows[id]) == Some(o.(status := if accept then OfferAccepted else OfferDeclined))
  {
    var id := w.page.detail.value.summary.id;
    var i := AnswerStored(w.db, id, customer, accept, now);
    AnsweredCopy(id, w.db.rows[id], i);
  }

  /** The patched list against rows that changed at id only. */
  lemma PatchedList(requests: seq<Summary>, db: Db, db': Db, id: ReservationId)
    requires id in db.rows && db'.rows.Keys == db.rows.Keys
    requires forall x :: x in db.rows && x != id ==> db'.rows[x] == db.rows[x]
    requires forall s :: s in requests ==> SummaryFresh(s, db)
    ensures (forall s :: s in ListAnswered(requests, id) ==> SummaryFresh(s, db')) <==>
      || SummaryOf(id, db'.rows[id]) == SummaryOf(id, db.rows[id]).(status := UnderReview, needsResponse := false)
      || SummaryOf(id, db.rows[id]) !in requests
  {
    var shown, kept := SummaryOf(id, db.rows[id]), ListAnswered(requests, id);
    if shown in requests {
      var k :| 0 <= k < |requests| && requests[k] == shown;
      assert kept[k] == shown.(status := UnderReview, needsResponse := false);
      assert kept[k] in kept;
    }
    forall i | 0 <= i < |requests| && requests[i].id != id ensures SummaryFresh(kept[i], db') {
      assert SummaryFresh(requests[i], db);
    }
    forall i | 0 <= i < |requests| && requests[i].id == id ensures requests[i] == shown {
      assert SummaryFresh(requests[i], db);
    }
  }

  /**
   After an answer the server took, the list is fresh exactly when the offer was declined, or
   proposed the very terms already shown, or the request is not listed: accepting moves the
   request to the offered car, dates and price, and the patched row keeps the old ones.
   */
  lemma AnswerList(w: World, customer: UserId, accept: bool, now: int)
    requires Inv(w.db) && ListFresh(w) && DetailFresh(w) && AnswerEnabled(w.page)
    requires AnswerOffer(w.db, w.page.detail.value.summary.id, customer, accept, now).outcome == Done
    ensures var d := w.page.detail.value;
      ListFresh(PressAnswer(w, customer, accept, now)) <==>
        !accept || SameTerms(d.offer.value, d.summary) || d.summary !in w.page.requests
  {
    AnswerRow(w, customer, accept, now);
    PatchedList(w.page.requests, w.db, PressAnswer(w, customer, accept, now).db, w.page.detail.value.summary.id);
  }

  /**
   After every answer the server took, the open detail still asks for a response that the server
   no longer expects: the reply panel stays, and any reply sent from it is refused.
   */
  lemma PanelOutlivesTheOffer(w: World, customer: UserId, accept: bool, now: int, body: string, later: int)
    requires Inv(w.db) && DetailFresh(w) && AnswerEnabled(w.page) && 10 <= |body| <= 500
    requires AnswerOffer(w.db, w.page.detail.value.summary.id, customer, accept, now).outcome == Done
    ensures var w' := PressAnswer(w, customer, accept, now);
      && !DetailFresh(w') && ReplyEnabled(w'.page, body) && PressReply(w', customer, body, later) == w'
  {
    var w' := PressAnswer(w, customer, accept, now);
    AnswerRow(w, customer, accept, now);
    PanelStays(w, customer, accept, now);
    ReplyRefused(w', customer, body, later);
  }

  lemma PanelStays(w: World, customer: UserId, accept: bool, now: int)
    requires DetailFresh(w) && AnswerEnabled(w.page)
    requires AnswerOffer(w.db, w.page.detail.value.summary.id, customer, accept, now).outcome == Done
    ensures var p, p' := w.page, PressAnswer(w, customer, accept, now).page;
      p'.detail.Some? && p'.detail.value.summary == p.detail.value.summary.(status := UnderReview)
      && p'.detail.value.summary.needsResponse
  {
  }

  lemma ReplyRefused(w: World, customer: UserId, body: string, now: int)
    requires ReplyEnabled(w.page, body)
    requires var id := w.page.detail.value.summary.id; id in w.db.rows && w.db.rows[id].status == UnderReview
    ensures PressReply(w, customer, body, now) == w
  {
  }

  // --------------------------------------------------------- statuses over whole runs

  predicate StatusFresh(s: Summary, db: Db) { s.id in db.rows && s.status == db.rows[s.id].status }

  /** Every status on the page is the server's, and the list asks for a response exactly when the server does. */
  predicate StatusesFresh(w: World) {
    && (forall s :: s in w.page.requests ==> StatusFresh(s, w.db) && s.needsResponse == NeedsResponse(s.status))
    && (w.page.detail.Some? ==> StatusFresh(w.page.detail.value.summary, w.db))
  }

  /** The customer answers an offer that has lapsed on the server but not yet on the page. */
  predicate LateAnswer(w: World, customer: UserId, e: PageEvent) {
    && e.Respond? && AnswerEnabled(w.page) && w.page.detail.value.summary.id in w.db.rows
    && AnswersLate(w.db.rows[w.page.detail.value.summary.id], customer, e.now)
  }

  /** The reply or answer moved one request back to review, on the server and on the page. */
  lemma BothUnderReview(w: World, w': World, id: ReservationId)
    requires StatusesFresh(w) && id in w'.db.rows && w'.db.rows[id].status == UnderReview
    requires w'.db.rows.Keys == w.db.rows.Keys
    requires forall x :: x in w.db.rows && x != id ==> w'.db.rows[x] == w.db.rows[x]
    requires w'.page.requests == ListAnswered(w.page.requests, id)
    requires w'.page.detail.Some? && w'.page.detail.value.summary.id == id
             && w'.page.detail.value.summary.status == UnderReview
    ensures StatusesFresh(w')
  {
    forall s | s in w'.page.requests
      ensures StatusFresh(s, w'.db) && s.needsResponse == NeedsResponse(s.status)
    {
      var i :| 0 <= i < |w'.page.requests| && w'.page.requests[i] == s;
      assert StatusFresh(w.page.requests[i], w.db);
    }
  }

  lemma AnswerStatuses(w: World, customer: UserId, accept: bool, now: int)
    requires StatusesFresh(w) && AnswerEnabled(w.page)
    ensures StatusesFresh(PressAnswer(w, customer, accept, now)) <==> !LateAnswer(w, customer, Respond(accept, now))
  {
    var id, w' := w.page.detail.value.summary.id, PressAnswer(w, customer, accept, now);
    if AnswerOffer(w.db, id, customer, accept, now).outcome == Done {
      BothUnderReview(w, w', id);
    }
  }

  /** With nobody else writing, exactly a late answer leaves a wrong status on the page. */
  lemma StatusesStay(w: World, customer: UserId, e: PageEvent)
    requires StatusesFresh(w)
    ensures StatusesFresh(EventStep(w, customer, e)) <==> !LateAnswer(w, customer, e)
  {
    match e {
      case Look(_, _) =>
      case Write(body, now) =>
        if ReplyEnabled(w.page, body) && PressReply(w, customer, body, now) != w {
          BothUnderReview(w, PressReply(w, customer, body, now), w.page.detail.value.summary.id);
        }
      case Respond(accept, now) =>
        if AnswerEnabled(w.page) {
          AnswerStatuses(w, customer, accept, now);
        }
    }
  }

  function PageRun(w: World, customer: UserId, events: seq<PageEvent>): World
    decreases |events|
  {
    if events == [] then w else PageRun(EventStep(w, customer, events[0]), customer, events[1..])
  }

  predicate InTime(w: World, customer: UserId, events: seq<PageEvent>)
    decreases |events|
  {
    events == []
    || (!LateAnswer(w, customer, events[0]) && InTime(EventStep(w, customer, events[0]), customer, events[1..]))
  }

  /** Over any sequence of opened requests, replies and answers in time, every status shown stays the server's. */
  lemma {:induction false} StatusesOverRuns(w: World, customer: UserId, events: seq<PageEvent>)
    requires StatusesFresh(w) && InTime(w, customer, events)
    ensures StatusesFresh(PageRun(w, customer, events))
    decreases |events|
  {
    if events != [] {
      StatusesStay(w, customer, events[0]);
      StatusesOverRuns(EventStep(w, customer, events[0]), customer, events[1..]);
    }
  }

  // -------------------------------------------------------- progress and filters

  predicate Closed(s: Status) { s == Rejected || s == Expired || s == Completed || s == Cancelled || s == NoShow }

  /** The step of the progress track on which a status is shown. */
  function StatusStep(s: Status): nat {
    if s == Confirmed || s == Active || s == Completed then 4
    else if s == PreApproved || s == Rejected || s == Expired || s == Cancelled || s == NoShow then 3
    else if s == UnderReview || s == MoreInformationRequired || s == AlternativeOffered then 2
    else 1
  }

  predicate CallsOff(s: Step) { s.Operating? && (s.action == Cancel || s.action == MarkNoShow) }

  lemma PendingLapse(row: Row, s: Step)
    requires ColumnsAgree(row) && Enabled(row, s) && s.Lapsing?
    ensures StatusStep(Apply(row, s).status) == StatusStep(row.status)
  {
    PendingIsNewest(row, s.i);
  }

  /** The track goes back for a cancellation or a no-show, and for nothing else. */
  lemma TrackGoesBack(row: Row, s: Step)
    requires ColumnsAgree(row) && Enabled(row, s)
    ensures StatusStep(Apply(row, s).status) < StatusStep(row.status) <==> CallsOff(s)
  {
    if s.Lapsing? {
      PendingLapse(row, s);
    }
  }

  /** The cancellations and no-shows of request i in a run. */
  ghost function CallOffs(db: Db, calls: seq<Call>, i: ReservationId): nat
    decreases |calls|
  {
    if calls == [] then 0
    else
      var c := calls[0];
      One(c.id == i && i in db.rows && CallsOff(StepOf(db, i, c.now, c.request)))
      + CallOffs(Execute(db, c.id, c.now, c.request).db, calls[1..], i)
  }

  lemma TrackAfter(db: Db, c: Call, i: ReservationId)
    requires Inv(db) && i in db.rows
    ensures var db' := Execute(db, c.id, c.now, c.request).db;
      i in db'.rows
      && (c.id != i || !CallsOff(StepOf(db, i, c.now, c.request)) ==>
            StatusStep(db'.rows[i].status) >= StatusStep(db.rows[i].status))
  {
    if c.id == i {
      StepTaken(db, i, c.now, c.request);
      TrackGoesBack(db.rows[i], StepOf(db, i, c.now, c.request));
    } else {
      Untouched(db, c.id, c.now, c.request, i);
    }
  }

  /** Whatever everybody does, the track a customer watches never goes back unless the booking is called off. */
  lemma {:induction false} TrackOverRuns(db: Db, calls: seq<Call>, i: ReservationId)
    requires Inv(db) && i in db.rows && CallOffs(db, calls, i) == 0
    ensures i in Run(db, calls).rows
    ensures StatusStep(Run(db, calls).rows[i].status) >= StatusStep(db.rows[i].status)
    decreases |calls|
  {
    if calls != [] {
      TrackAfter(db, calls[0], i);
      ExecuteKeeps(db, calls[0].id, calls[0].now, calls[0].request);
      TrackOverRuns(Execute(db, calls[0].id, calls[0].now, calls[0].request).db, calls[1..], i);
    }
  }

  datatype Choice = All | ActionNeeded | Open | ClosedOnly

  predicate Shows(choice: Choice, s: Summary) {
    match choice
    case All => true
    case ActionNeeded => s.needsResponse
    case Open => !Closed(s.status)
    case ClosedOnly => Closed(s.status)
  }

  function Visible(choice: Choice, requests: seq<Summary>): seq<Summary> {
    Filter((s: Summary) => Shows(choice, s), requests)
  }

  /** Open and closed requests split the list. */
  lemma {:induction false} OpenAndClosed(requests: seq<Summary>)
    ensures |Visible(Open, requests)| + |Visible(ClosedOnly, requests)| == |requests|
    ensures forall s :: s in requests <==> s in Visible(Open, requests) || s in Visible(ClosedOnly, requests)
    ensures forall s :: !(s in Visible(Open, requests) && s in Visible(ClosedOnly, requests))
  {
    if requests != [] {
      OpenAndClosed(requests[1..]);
    }
  }

  /** On a page with fresh statuses, what needs an answer is open: its filter narrows the open one, in the same order. */
  lemma ActionIsOpen(w: World)
    requires StatusesFresh(w)
    ensures Visible(ActionNeeded, w.page.requests) ==
      Visible(ActionNeeded, Visible(Open, w.page.requests))
    ensures |Visible(ActionNeeded, w.page.requests)| <= |Visible(Open, w.page.requests)|
  {
    FilterDrops((s: Summary) => Shows(Open, s), (s: Summary) => Shows(ActionNeeded, s),
                (s: Summary) => Shows(ActionNeeded, s), w.page.requests);
  }
}
