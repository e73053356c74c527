/**
 The life of one request, seen through its row alone: which steps a row allows, what every
 step keeps, the fixed order of the milestones, and a bound on how many sales steps there can be.
 */
module ReservationSteps {
  import opened Util
  import opened Reservations

  /** The effect of one successful transaction on the request it names. */
  datatype Step =
    | Idle
    | Take(staff: Staff)
    | Judge(decision: Decision, now: int)
    | Offering(offer: Offer)
    | Signing(now: int)
    | Checking(deposit: Deposit, now: int)
    | Confirming(now: int)
    | Operating(action: Action, reading: Option<Reading>, now: int)
    | Reviewing(document: nat, accept: bool)
    | Replacing(document: nat)
    | Replying
    | Accepting(i: nat)
    | Declining(i: nat)
    | AnsweringLate(i: nat)
    | Lapsing(i: nat)
    | Expiring

  predicate Enabled(row: Row, s: Step) {
    match s
    case Idle => true
    case Take(_) => row.status == PendingReview && row.assignee.None?
    case Judge(_, _) => row.status == UnderReview
    case Offering(o) => row.status == UnderReview && o.status == OfferPending
    case Signing(_) => row.status == PreApproved && row.contractSignedAt.None?
    case Checking(_, _) => row.status == PreApproved && row.contractSignedAt.Some? && row.deposit.None?
    case Confirming(_) =>
      row.status == PreApproved && row.contractSignedAt.Some? && row.deposit.Some? && row.attendedAt.Some?
    case Operating(action, reading, now) =>
      row.booking.Some? && OperationCheck(row, action, reading, now) == Done
    case Reviewing(_, _) => true
    case Replacing(_) => row.status == MoreInformationRequired
    case Replying => row.status == MoreInformationRequired
    case Accepting(i) => row.status == AlternativeOffered && PendingOffer(row.offers) == Some(i)
    case Declining(i) => row.status == AlternativeOffered && PendingOffer(row.offers) == Some(i)
    case AnsweringLate(i) => row.status == AlternativeOffered && PendingOffer(row.offers) == Some(i)
    case Lapsing(i) => PendingOffer(row.offers) == Some(i)
    case Expiring => row.status == PreApproved
  }

  function Apply(row: Row, s: Step): Row
    requires Enabled(row, s)
  {
    match s
    case Idle => row
    case Take(staff) => ClaimRow(row, staff)
    case Judge(decision, now) => DecideRow(row, decision, now)
    case Offering(offer) => OfferRow(row, offer)
    case Signing(now) => SignRow(row, now)
    case Checking(deposit, now) => CheckRow(row, deposit, now)
    case Confirming(now) => ConfirmRow(row, PriceOf(row), now)
    case Operating(action, reading, now) => OperateRow(row, action, reading, now)
    case Reviewing(document, accept) => ReviewRow(row, document, accept)
    case Replacing(document) => ReplaceRow(row, document)
    case Replying => ReplyRow(row)
    case Accepting(i) => AcceptRow(row, i)
    case Declining(i) => DeclineRow(row, i)
    case AnsweringLate(i) => LateRow(row, i)
    case Lapsing(i) => LapseRow(row, i)
    case Expiring => ExpireRow(row)
  }

  // ------------------------------------------------------- what a row keeps

  predicate Booked(s: Status) {
    s == Confirmed || s == Active || s == Completed || s == Cancelled || s == NoShow
  }

  predicate Approved(s: Status) { s == PreApproved || s == Expired || Booked(s) }

  /** The booking, when there is one, carries the request's own status, vehicle and period. */
  predicate BookingAgrees(row: Row) {
    && (row.booking.Some? <==> Booked(row.status))
    && (row.booking.Some? ==>
          var b := row.booking.value;
          && b.status == row.status && b.vehicle == row.vehicle
          && b.pickupAt == row.pickupAt && b.returnAt == row.returnAt
          && row.contractSignedAt.Some? && row.deposit.Some? && row.preApprovalExpiresAt.None?)
  }

  predicate PapersAgree(row: Row) {
    && (row.deposit.Some? <==> row.attendedAt.Some?)
    && (row.deposit.Some? ==> row.contractSignedAt.Some?)
    && (row.contractSignedAt.Some? ==> Approved(row.status))
    && (row.status == PreApproved ==> row.preApprovalExpiresAt.Some?)
    && (row.status == PendingReview ==> row.assignee.None?)
    && row.status != Draft
  }

  /** One delivery reading, then one return reading that is not lower, and nothing else. */
  predicate ReadingsAgree(row: Row) {
    if row.booking.None? then row.returnedAt.None?
    else
      var ops := row.booking.value.operations;
      && (row.status == Confirmed || row.status == Cancelled || row.status == NoShow ==> |ops| == 0)
      && (row.status == Active ==> 1 <= |ops| <= 2)
      && (row.status == Completed ==> |ops| == 2)
      && (|ops| >= 1 ==> ops[0].kind == DeliveryReading)
      && (|ops| >= 2 ==> ops[1].kind == ReturnReading
                         && ops[0].reading.odometerKm <= ops[1].reading.odometerKm)
      && (row.returnedAt.Some? <==> |ops| == 2)
  }

  /** Only the newest offer can be pending, exactly while the request waits for an answer to it. */
  predicate OffersAgree(row: Row) {
    && (forall i :: 0 <= i < |row.offers| - 1 ==> row.offers[i].status != OfferPending)
    && (row.status == AlternativeOffered <==>
          |row.offers| > 0 && row.offers[|row.offers| - 1].status == OfferPending)
  }

  predicate ColumnsAgree(row: Row) {
    BookingAgrees(row) && PapersAgree(row) && ReadingsAgree(row) && OffersAgree(row)
  }

  lemma DeliveredColumns(row: Row, reading: Reading, now: int)
    requires ColumnsAgree(row) && row.status == Confirmed
    ensures ColumnsAgree(OperateRow(row, Deliver, Some(reading), now))
  {
    assert row.booking.value.operations == [];
  }

  lemma DeliveringColumns(row: Row, reading: Option<Reading>, now: int)
    requires ColumnsAgree(row) && Enabled(row, Operating(Deliver, reading, now))
    ensures ColumnsAgree(Apply(row, Operating(Deliver, reading, now)))
  {
    assert row.status == Confirmed && reading.Some?;
    DeliveredColumns(row, reading.value, now);
  }

  lemma ReturningColumns(row: Row, reading: Option<Reading>, now: int)
    requires ColumnsAgree(row) && Enabled(row, Operating(Return, reading, now))
    ensures ColumnsAgree(Apply(row, Operating(Return, reading, now)))
    ensures |row.booking.value.operations| == 1
  {
    assert OperationOf(row.booking.value.operations, DeliveryReading).value in row.booking.value.operations;
  }

  lemma ClosingColumns(row: Row, action: Action, now: int)
    requires action == Complete || action == Cancel || action == MarkNoShow
    requires ColumnsAgree(row) && Enabled(row, Operating(action, None, now))
    ensures ColumnsAgree(Apply(row, Operating(action, None, now)))
    ensures action == Complete ==> |row.booking.value.operations| == 2
  {
  }

  /** The decision, and the branch steps that follow it up to the booking. */
  predicate OnBranch(s: Step) { s.Judge? || s.Signing? || s.Checking? || s.Confirming? || s.Expiring? }

  /** Everything about an alternative offer. */
  predicate OnOffer(s: Step) { s.Offering? || s.Accepting? || s.Declining? || s.AnsweringLate? || s.Lapsing? }

  lemma OfferColumns(row: Row, s: Step)
    requires ColumnsAgree(row) && Enabled(row, s) && OnOffer(s)
    ensures ColumnsAgree(Apply(row, s))
  {
  }

  lemma DecisionColumns(row: Row, decision: Decision, now: int)
    requires ColumnsAgree(row) && Enabled(row, Judge(decision, now))
    ensures ColumnsAgree(DecideRow(row, decision, now))
  {
    if decision == RequestInformation {
      EarlyColumns(row, DecideRow(row, decision, now));
    }
  }

  lemma ExpiredColumns(row: Row)
    requires ColumnsAgree(row) && Enabled(row, Expiring)
    ensures ColumnsAgree(ExpireRow(row))
  {
  }

  lemma SignedColumns(row: Row, now: int)
    requires ColumnsAgree(row) && Enabled(row, Signing(now))
    ensures ColumnsAgree(SignRow(row, now))
  {
  }

  lemma CheckedColumns(row: Row, deposit: Deposit, now: int)
    requires ColumnsAgree(row) && Enabled(row, Checking(deposit, now))
    ensures ColumnsAgree(CheckRow(row, deposit, now))
  {
  }

  lemma ConfirmedColumns(row: Row, price: Price, now: int)
    requires ColumnsAgree(row) && row.status == PreApproved && row.contractSignedAt.Some? && row.deposit.Some?
    ensures ColumnsAgree(ConfirmRow(row, price, now))
  {
  }

  lemma BranchColumns(row: Row, s: Step)
    requires ColumnsAgree(row) && Enabled(row, s) && OnBranch(s)
    ensures ColumnsAgree(Apply(row, s))
  {
    match s {
      case Confirming(now) => ConfirmedColumns(row, PriceOf(row), now);
      case Signing(now) => SignedColumns(row, now);
      case Checking(deposit, now) => CheckedColumns(row, deposit, now);
      case Judge(decision, now) => DecisionColumns(row, decision, now);
      case Expiring => ExpiredColumns(row);
    }
  }

  /** Before any decision, offer or booking. */
  predicate Early(s: Status) { s == PendingReview || s == UnderReview || s == MoreInformationRequired }

  predicate SameButStatus(row: Row, row': Row) {
    && row'.booking == row.booking && row'.deposit == row.deposit && row'.attendedAt == row.attendedAt
    && row'.contractSignedAt == row.contractSignedAt && row'.returnedAt == row.returnedAt
    && row'.offers == row.offers && row'.assignee == row.assignee
  }

  lemma EarlyColumns(row: Row, row': Row)
    requires ColumnsAgree(row) && SameButStatus(row, row') && Early(row.status) && Early(row'.status)
    requires row'.status == PendingReview ==> row.assignee.None?
    ensures ColumnsAgree(row')
  {
  }

  /** A verdict on a document after the request has moved on changes nothing but the papers and the timeline. */
  lemma UnmovedColumns(row: Row, row': Row)
    requires ColumnsAgree(row) && SameButStatus(row, row') && row'.status == row.status
    requires row'.vehicle == row.vehicle && row'.pickupAt == row.pickupAt && row'.returnAt == row.returnAt
    requires row'.preApprovalExpiresAt == row.preApprovalExpiresAt
    ensures ColumnsAgree(row')
  {
  }

  lemma TakeColumns(row: Row, staff: Staff)
    requires ColumnsAgree(row) && Enabled(row, Take(staff))
    ensures ColumnsAgree(ClaimRow(row, staff))
  {
  }

  lemma DocumentColumns(row: Row, document: nat, accept: bool)
    requires ColumnsAgree(row)
    ensures ColumnsAgree(ReviewRow(row, document, accept))
  {
    var row' := ReviewRow(row, document, accept);
    if row'.status == row.status {
      UnmovedColumns(row, row');
    } else {
      EarlyColumns(row, row');
    }
  }

  lemma OperatedColumns(row: Row, action: Action, reading: Option<Reading>, now: int)
    requires ColumnsAgree(row) && Enabled(row, Operating(action, reading, now))
    ensures ColumnsAgree(OperateRow(row, action, reading, now))
  {
    match action {
      case Deliver => DeliveringColumns(row, reading, now);
      case Return => ReturningColumns(row, reading, now);
      case _ => ClosingColumns(row, action, now);
    }
  }

  lemma ColumnsKept(row: Row, s: Step)
    requires ColumnsAgree(row) && Enabled(row, s)
    ensures ColumnsAgree(Apply(row, s))
  {
    if s.Operating? {
      OperatedColumns(row, s.action, s.reading, s.now);
    } else if OnOffer(s) {
      OfferColumns(row, s);
    } else if OnBranch(s) {
      BranchColumns(row, s);
    } else if s.Take? {
      TakeColumns(row, s.staff);
    } else if s.Reviewing? {
      DocumentColumns(row, s.document, s.accept);
    } else if !s.Idle? {
      EarlyColumns(row, Apply(row, s));
    }
  }

  // ---------------------------------------------------------------- prices

  /** The estimate: daily rate, plus the driver when one was asked for, over the whole days. */
  function Quote(dailyRate: int, driverRate: int, driverRequested: bool, pickupAt: int, returnAt: int): int {
    (dailyRate + if driverRequested then driverRate else 0) * CeilDays(pickupAt, returnAt)
  }

  predicate OfferPriced(driverRequested: bool, o: Offer) {
    o.total == Quote(o.dailyRate, o.driverRate, driverRequested, o.pickupAt, o.returnAt)
  }

  /** Every total is its quote, and a confirmed price is the sum of its two lines. */
  predicate PricesAgree(row: Row) {
    && row.total == Quote(row.dailyRate, row.driverRate, row.driverRequested, row.pickupAt, row.returnAt)
    && (forall i :: 0 <= i < |row.offers| ==> OfferPriced(row.driverRequested, row.offers[i]))
    && (row.booking.Some? ==>
          var p := row.booking.value.price;
          && p.days == CeilDays(row.booking.value.pickupAt, row.booking.value.returnAt)
          && p.vehicleSubtotal == row.dailyRate * p.days
          && p.vehicleSubtotal + p.driverSubtotal == p.grandTotal == row.total)
  }

  /** The two lines of a confirmed price add up to the estimate the customer saw. */
  lemma ConfirmedPrice(row: Row)
    requires PricesAgree(row)
    ensures var p := PriceOf(row); p.vehicleSubtotal + p.driverSubtotal == p.grandTotal == row.total
  {
  }

  /** Rates, period and estimate. */
  predicate SameMoney(row: Row, row': Row) {
    && row'.total == row.total && row'.dailyRate == row.dailyRate && row'.driverRate == row.driverRate
    && row'.driverRequested == row.driverRequested && row'.pickupAt == row.pickupAt && row'.returnAt == row.returnAt
  }

  lemma OperatingPrices(row: Row, action: Action, reading: Option<Reading>, now: int)
    requires row.booking.Some? && (action == Deliver || action == Return ==> reading.Some?)
    ensures var row' := OperateRow(row, action, reading, now);
      && SameMoney(row, row') && row'.offers == row.offers && row'.booking.Some?
      && row'.booking.value.price == row.booking.value.price
      && row'.booking.value.pickupAt == row.booking.value.pickupAt
      && row'.booking.value.returnAt == row.booking.value.returnAt
  {
  }

  /** Steps that leave every price as it is, in the booking too. */
  predicate OffMoney(s: Step) { !s.Operating? && !s.Confirming? && !s.Offering? && !s.Accepting? }

  lemma OffMoneySteps(row: Row, s: Step)
    requires Enabled(row, s) && OffMoney(s)
    ensures var row' := Apply(row, s);
      && SameMoney(row, row') && row'.booking == row.booking && |row'.offers| == |row.offers|
      && forall i :: 0 <= i < |row.offers| ==> row.offers[i].(status := row'.offers[i].status) == row'.offers[i]
  {
  }

  lemma PricesStay(row: Row, row': Row)
    requires PricesAgree(row) && SameMoney(row, row') && row'.booking == row.booking && |row'.offers| == |row.offers|
    requires forall i :: 0 <= i < |row.offers| ==> row.offers[i].(status := row'.offers[i].status) == row'.offers[i]
    ensures PricesAgree(row')
  {
    forall i | 0 <= i < |row'.offers| ensures OfferPriced(row'.driverRequested, row'.offers[i]) {
      assert OfferPriced(row.driverRequested, row.offers[i]);
    }
  }

  lemma OfferedPrices(row: Row, offer: Offer)
    requires PricesAgree(row) && OfferPriced(row.driverRequested, offer)
    ensures PricesAgree(OfferRow(row, offer))
  {
    var row' := OfferRow(row, offer);
    forall i | 0 <= i < |row'.offers| ensures OfferPriced(row'.driverRequested, row'.offers[i]) {
      if i < |row.offers| {
        assert OfferPriced(row.driverRequested, row.offers[i]);
      }
    }
  }

  lemma AcceptedPrices(row: Row, i: nat)
    requires PricesAgree(row) && i < |row.offers| && row.booking.None?
    ensures PricesAgree(AcceptRow(row, i))
  {
    var row' := AcceptRow(row, i);
    forall k | 0 <= k < |row'.offers| ensures OfferPriced(row'.driverRequested, row'.offers[k]) {
      assert OfferPriced(row.driverRequested, row.offers[k]);
    }
  }

  lemma PricesKept(row: Row, s: Step)
    requires PricesAgree(row) && Enabled(row, s)
    requires s.Accepting? ==> row.booking.None?
    requires s.Offering? ==> OfferPriced(row.driverRequested, s.offer)
    ensures PricesAgree(Apply(row, s))
  {
    match s {
      case Confirming(_) => ConfirmedPrice(row);
      case Accepting(i) => AcceptedPrices(row, i);
      case Offering(offer) => OfferedPrices(row, offer);
      case Operating(action, reading, now) => OperatingPrices(row, action, reading, now);
      case _ =>
        OffMoneySteps(row, s);
        PricesStay(row, Apply(row, s));
    }
  }

  // ---------------------------------------------------- what the customer agreed to

  predicate OnTerms(row: Row, o: Offer) {
    row.vehicle == o.vehicle && row.pickupAt == o.pickupAt && row.returnAt == o.returnAt && row.total == o.total
  }

  predicate LastAccepted(offers: seq<Offer>, i: nat) {
    && i < |offers| && offers[i].status == OfferAccepted
    && forall j :: i < j < |offers| ==> offers[j].status != OfferAccepted
  }

  /** Once an offer has been accepted, the request is on the terms of the last one that was. */
  ghost predicate TermsAgree(row: Row) {
    forall i: nat :: LastAccepted(row.offers, i) ==> OnTerms(row, row.offers[i])
  }

  /** The same offers are accepted before and after. */
  predicate SameAcceptances(a: seq<Offer>, b: seq<Offer>) {
    && |a| <= |b|
    && (forall i :: 0 <= i < |a| ==> (a[i].status == OfferAccepted <==> b[i].status == OfferAccepted)
                                     && a[i].(status := b[i].status) == b[i])
    && (forall i :: |a| <= i < |b| ==> b[i].status != OfferAccepted)
  }

  lemma TermsStay(row: Row, row': Row)
    requires TermsAgree(row) && SameAcceptances(row.offers, row'.offers)
    requires row'.vehicle == row.vehicle && row'.pickupAt == row.pickupAt && row'.returnAt == row.returnAt
             && row'.total == row.total
    ensures TermsAgree(row')
  {
    forall i: nat | LastAccepted(row'.offers, i) ensures OnTerms(row', row'.offers[i]) {
      assert LastAccepted(row.offers, i);
    }
  }

  lemma TermsAccepted(row: Row, i: nat)
    requires OffersAgree(row) && PendingOffer(row.offers) == Some(i)
    ensures TermsAgree(AcceptRow(row, i))
  {
    PendingIsNewest(row, i);
    forall k: nat | LastAccepted(AcceptRow(row, i).offers, k) ensures k == i {
      assert AcceptRow(row, i).offers[i].status == OfferAccepted;
    }
  }

  lemma OfferTerms(row: Row, s: Step)
    requires Enabled(row, s) && OnOffer(s) && !s.Accepting?
    ensures var row' := Apply(row, s);
      SameAcceptances(row.offers, row'.offers) && row'.vehicle == row.vehicle && row'.pickupAt == row.pickupAt
      && row'.returnAt == row.returnAt && row'.total == row.total
  {
  }

  lemma OtherTerms(row: Row, s: Step)
    requires Enabled(row, s) && !OnOffer(s)
    ensures var row' := Apply(row, s);
      row'.offers == row.offers && row'.vehicle == row.vehicle && row'.pickupAt == row.pickupAt
      && row'.returnAt == row.returnAt && row'.total == row.total
  {
  }

  lemma TermsKept(row: Row, s: Step)
    requires OffersAgree(row) && TermsAgree(row) && Enabled(row, s)
    ensures TermsAgree(Apply(row, s))
  {
    if s.Accepting? {
      TermsAccepted(row, s.i);
    } else {
      if OnOffer(s) {
        OfferTerms(row, s);
      } else {
        OtherTerms(row, s);
      }
      TermsStay(row, Apply(row, s));
    }
  }

  // --------------------------------------------------------- the milestones

  /** The entries that carry a request from its claim to a finished rental. */
  predicate IsMilestone(a: Act) {
    || a == Claimed || a == Decided(PreApprove) || a == ContractStored || a == ChecklistRecorded
    || a == BookingConfirmed || a == Operated(Deliver) || a == Operated(Return) || a == Operated(Complete)
  }

  function Milestones(timeline: seq<Event>): seq<Act> {
    if timeline == [] then []
    else
      var last := timeline[|timeline| - 1].act;
      Milestones(timeline[..|timeline| - 1]) + if IsMilestone(last) then [last] else []
  }

  /** After the claim, the k-th milestone of a rental. */
  function ChainAt(k: nat): Act {
    if k == 0 then Decided(PreApprove) else if k == 1 then ContractStored
    else if k == 2 then ChecklistRecorded else if k == 3 then BookingConfirmed
    else if k == 4 then Operated(Deliver) else if k == 5 then Operated(Return)
    else Operated(Complete)
  }

  function Chain(k: nat): seq<Act> {
    if k == 0 then [] else Chain(k - 1) + [ChainAt(k - 1)]
  }

  /** How far along the chain a request is, read off its columns. */
  function Stage(row: Row): nat {
    if !Approved(row.status) then 0
    else if row.contractSignedAt.None? then 1
    else if row.deposit.None? then 2
    else if row.booking.None? then 3
    else if |row.booking.value.operations| == 0 then 4
    else if |row.booking.value.operations| == 1 then 5
    else if row.status != Completed then 6
    else 7
  }

  /** The timeline shows the claim, if there was one, and then the chain up to the row's stage. */
  predicate HistoryAgrees(row: Row) {
    Milestones(row.timeline) == (if row.assignee.Some? then [Claimed] else []) + Chain(Stage(row))
  }

  /** An entry that is no milestone leaves the history in step with the columns. */
  lemma SideEntry(row: Row, row': Row, e: Event)
    requires HistoryAgrees(row) && row'.timeline == row.timeline + [e]
    requires !IsMilestone(e.act) && Stage(row') == Stage(row) && row'.assignee.Some? == row.assignee.Some?
    ensures HistoryAgrees(row')
  {
    assert row'.timeline[..|row.timeline|] == row.timeline;
  }

  /** The next entry of the chain, together with the next stage, does too. */
  lemma ChainEntry(row: Row, row': Row, e: Event)
    requires HistoryAgrees(row) && row'.timeline == row.timeline + [e]
    requires e.act == ChainAt(Stage(row)) && IsMilestone(e.act)
    requires Stage(row') == Stage(row) + 1 && row'.assignee.Some? == row.assignee.Some?
    ensures HistoryAgrees(row')
  {
    assert row'.timeline[..|row.timeline|] == row.timeline;
  }

  lemma ClaimEntry(row: Row, staff: Staff)
    requires HistoryAgrees(row) && PapersAgree(row) && row.status == PendingReview
    ensures HistoryAgrees(ClaimRow(row, staff))
  {
    assert ClaimRow(row, staff).timeline[..|row.timeline|] == row.timeline;
  }

  lemma OperatingHistory(row: Row, action: Action, reading: Option<Reading>, now: int)
    requires ColumnsAgree(row) && HistoryAgrees(row) && Enabled(row, Operating(action, reading, now))
    ensures HistoryAgrees(Apply(row, Operating(action, reading, now)))
  {
    var row' := Apply(row, Operating(action, reading, now));
    var e := Event(row.status, StatusAfter(action), Operated(action));
    match action {
      case Deliver => ChainEntry(row, row', e);
      case Return =>
        ReturningColumns(row, reading, now);
        ChainEntry(row, row', e);
      case Complete =>
        ClosingColumns(row, action, now);
        ChainEntry(row, row', e);
      case _ => SideEntry(row, row', e);
    }
  }

  lemma DecisionHistory(row: Row, decision: Decision, now: int)
    requires HistoryAgrees(row) && row.status == UnderReview && PapersAgree(row)
    ensures HistoryAgrees(DecideRow(row, decision, now))
  {
    var row' := DecideRow(row, decision, now);
    if decision == PreApprove {
      ChainEntry(row, row', Event(row.status, PreApproved, Decided(decision)));
    } else {
      SideEntry(row, row', Event(row.status, row'.status, Decided(decision)));
    }
  }

  lemma PaperHistory(row: Row, s: Step)
    requires ColumnsAgree(row) && HistoryAgrees(row) && Enabled(row, s) && (s.Signing? || s.Checking?)
    ensures HistoryAgrees(Apply(row, s))
  {
    ChainEntry(row, Apply(row, s), Event(row.status, PreApproved, if s.Signing? then ContractStored else ChecklistRecorded));
  }

  lemma ConfirmedHistory(row: Row, now: int)
    requires ColumnsAgree(row) && HistoryAgrees(row) && Enabled(row, Confirming(now))
    ensures HistoryAgrees(ConfirmRow(row, PriceOf(row), now))
  {
    ChainEntry(row, ConfirmRow(row, PriceOf(row), now), Event(row.status, Confirmed, BookingConfirmed));
  }

  lemma ExpiredHistory(row: Row)
    requires ColumnsAgree(row) && HistoryAgrees(row) && row.status == PreApproved
    ensures HistoryAgrees(ExpireRow(row))
  {
    SideEntry(row, ExpireRow(row), Event(row.status, Expired, PreApprovalTimedOut));
  }

  lemma BranchHistory(row: Row, s: Step)
    requires OnBranch(s) && ColumnsAgree(row) && HistoryAgrees(row) && Enabled(row, s)
    ensures HistoryAgrees(Apply(row, s))
  {
    match s {
      case Judge(decision, now) => DecisionHistory(row, decision, now);
      case Confirming(now) => ConfirmedHistory(row, now);
      case Expiring => ExpiredHistory(row);
      case _ => PaperHistory(row, s);
    }
  }

  /** A pending offer is the newest one, and the request waits for its answer. */
  lemma PendingIsNewest(row: Row, i: nat)
    requires OffersAgree(row) && PendingOffer(row.offers) == Some(i)
    ensures i == |row.offers| - 1 && row.status == AlternativeOffered
  {
  }

  lemma LapseHistory(row: Row, i: nat)
    requires ColumnsAgree(row) && HistoryAgrees(row) && Enabled(row, Lapsing(i))
    ensures HistoryAgrees(Apply(row, Lapsing(i)))
  {
    PendingIsNewest(row, i);
    SideEntry(row, LapseRow(row, i), Event(row.status, UnderReview, OfferTimedOut));
  }

  lemma AnswerHistory(row: Row, i: nat)
    requires HistoryAgrees(row) && row.status == AlternativeOffered && i < |row.offers|
    ensures HistoryAgrees(AcceptRow(row, i)) && HistoryAgrees(DeclineRow(row, i))
  {
    SideEntry(row, AcceptRow(row, i), Event(row.status, UnderReview, OfferAnswered(true)));
    SideEntry(row, DeclineRow(row, i), Event(row.status, UnderReview, OfferAnswered(false)));
  }

  lemma LateHistory(row: Row, i: nat)
    requires HistoryAgrees(row) && row.status == AlternativeOffered && i < |row.offers|
    ensures HistoryAgrees(LateRow(row, i))
  {
  }

  lemma OfferHistory(row: Row, s: Step)
    requires OnOffer(s) && ColumnsAgree(row) && HistoryAgrees(row) && Enabled(row, s)
    ensures HistoryAgrees(Apply(row, s))
  {
    match s {
      case Offering(offer) =>
        SideEntry(row, OfferRow(row, offer), Event(row.status, AlternativeOffered, OfferSent));
      case Lapsing(i) => LapseHistory(row, i);
      case Accepting(i) => AnswerHistory(row, i);
      case Declining(i) => AnswerHistory(row, i);
      case AnsweringLate(i) => LateHistory(row, i);
    }
  }

  lemma DocumentHistory(row: Row, document: nat, accept: bool)
    requires HistoryAgrees(row)
    ensures HistoryAgrees(ReviewRow(row, document, accept))
  {
    var row' := ReviewRow(row, document, accept);
    SideEntry(row, row', Event(row.status, row'.status, DocumentReviewed(accept)));
  }

  lemma DeskHistory(row: Row, s: Step)
    requires (s.Reviewing? || s.Replacing? || s.Replying?) && HistoryAgrees(row) && Enabled(row, s)
    ensures HistoryAgrees(Apply(row, s))
  {
    match s {
      case Reviewing(document, accept) => DocumentHistory(row, document, accept);
      case Replacing(document) =>
        SideEntry(row, ReplaceRow(row, document), Event(row.status, row.status, DocumentReplaced));
      case Replying => SideEntry(row, ReplyRow(row), Event(row.status, UnderReview, Replied));
    }
  }

  lemma HistoryKept(row: Row, s: Step)
    requires ColumnsAgree(row) && HistoryAgrees(row) && Enabled(row, s)
    ensures HistoryAgrees(Apply(row, s))
  {
    if s.Operating? {
      OperatingHistory(row, s.action, s.reading, s.now);
    } else if OnBranch(s) {
      BranchHistory(row, s);
    } else if OnOffer(s) {
      OfferHistory(row, s);
    } else if s.Take? {
      ClaimEntry(row, s.staff);
    } else if !s.Idle? {
      DeskHistory(row, s);
    }
  }

  // ------------------------------------------------- everything at once

  ghost predicate RowSound(row: Row) {
    ColumnsAgree(row) && PricesAgree(row) && TermsAgree(row) && HistoryAgrees(row)
  }

  lemma WholeDays(p: int, r: int)
    ensures RoundDays(p * DAY, r * DAY) == r - p == CeilDays(p * DAY, r * DAY)
  {
  }

  lemma SubmittedPrice(d: DraftRequest)
    ensures PricesAgree(Move(DraftRow(d), PendingReview, Submitted))
  {
    WholeDays(d.pickupDay, d.returnDay);
    var rate := d.dailyRate + if d.driverRequested then d.driverRate else 0;
    assert DraftRow(d).total == rate * (d.returnDay - d.pickupDay);
  }

  lemma SubmittedColumns(d: DraftRequest)
    ensures ColumnsAgree(Move(DraftRow(d), PendingReview, Submitted))
  {
  }

  /** A request enters the sales queue sound. */
  lemma SubmittedSound(d: DraftRequest)
    ensures RowSound(Move(DraftRow(d), PendingReview, Submitted))
  {
    SubmittedPrice(d);
    SubmittedColumns(d);
    SideEntry(DraftRow(d), Move(DraftRow(d), PendingReview, Submitted), Event(Draft, PendingReview, Submitted));
  }

  lemma StepSound(row: Row, s: Step)
    requires RowSound(row) && Enabled(row, s)
    requires s.Offering? ==> OfferPriced(row.driverRequested, s.offer)
    ensures RowSound(Apply(row, s))
  {
    ColumnsKept(row, s);
    PricesKept(row, s);
    TermsKept(row, s);
    HistoryKept(row, s);
  }

  /**
   A finished rental shows, once each and in this order: the claim (when the request was ever
   assigned), the pre-approval, the signed contract, the checklist, the confirmation, one
   delivery, one return, the completion. Its papers are on file and its readings do not decrease.
   */
  lemma FinishedRental(row: Row)
    requires RowSound(row) && row.status == Completed
    ensures Milestones(row.timeline) ==
      (if row.assignee.Some? then [Claimed] else []) +
      [Decided(PreApprove), ContractStored, ChecklistRecorded, BookingConfirmed,
       Operated(Deliver), Operated(Return), Operated(Complete)]
    ensures row.booking.Some? && row.contractSignedAt.Some? && row.deposit.Some? && row.attendedAt.Some?
    ensures var ops := row.booking.value.operations;
      && |ops| == 2 && ops[0].kind == DeliveryReading && ops[1].kind == ReturnReading
      && ops[0].reading.odometerKm <= ops[1].reading.odometerKm
  {
    assert Chain(2) == [ChainAt(0), ChainAt(1)];
    assert Chain(4) == [ChainAt(0), ChainAt(1), ChainAt(2), ChainAt(3)];
    assert Chain(6) == [ChainAt(0), ChainAt(1), ChainAt(2), ChainAt(3), ChainAt(4), ChainAt(5)];
  }

  // ------------------------------------------------------------- the ranking

  /** The most sales steps that can still happen if nobody sends the request back to review. */
  function Rank(row: Row): (r: nat)
    ensures r <= 8
  {
    match row.status
    case PendingReview => 8
    case UnderReview => 7
    case MoreInformationRequired => 6
    case AlternativeOffered => 6
    case PreApproved =>
      if row.contractSignedAt.None? then 6 else if row.deposit.None? then 5 else 4
    case Confirmed => 3
    case Active => if row.returnedAt.None? then 2 else 1
    case _ => 0
  }

  /** A step by which staff move the request on. */
  predicate SalesStep(row: Row, s: Step) {
    || s.Take? || s.Judge? || s.Offering? || s.Signing? || s.Checking? || s.Confirming? || s.Operating?
    || (s.Reviewing? && !s.accept && (row.status == PendingReview || row.status == UnderReview))
  }

  /** A reply, an answer to an offer or the lapse of one: the request goes back to review. */
  predicate BackToReview(s: Step) {
    s.Replying? || s.Accepting? || s.Declining? || s.AnsweringLate? || s.Lapsing?
  }

  function One(b: bool): nat { if b then 1 else 0 }

  lemma RankOperating(row: Row, action: Action, reading: Option<Reading>, now: int)
    requires ColumnsAgree(row) && Enabled(row, Operating(action, reading, now))
    ensures Rank(Apply(row, Operating(action, reading, now))) < Rank(row)
  {
    if action == Return {
      ReturningColumns(row, reading, now);
    }
  }

  lemma RankOffer(row: Row, s: Step)
    requires OffersAgree(row) && Enabled(row, s) && OnOffer(s)
    ensures Rank(Apply(row, s)) + One(SalesStep(row, s)) <= Rank(row) + One(BackToReview(s))
    ensures BackToReview(s) ==> Apply(row, s).status == UnderReview
  {
    if s.Lapsing? {
      PendingIsNewest(row, s.i);
    }
  }

  lemma RankBranch(row: Row, s: Step)
    requires PapersAgree(row) && Enabled(row, s) && OnBranch(s)
    ensures Rank(Apply(row, s)) + One(SalesStep(row, s)) <= Rank(row)
  {
  }

  lemma RankDesk(row: Row, s: Step)
    requires Enabled(row, s) && !OnOffer(s) && !OnBranch(s) && !s.Operating?
    ensures Rank(Apply(row, s)) + One(SalesStep(row, s)) <= Rank(row) + One(BackToReview(s))
    ensures BackToReview(s) ==> Apply(row, s).status == UnderReview
  {
  }

  lemma RankStep(row: Row, s: Step)
    requires ColumnsAgree(row) && Enabled(row, s)
    ensures Rank(Apply(row, s)) + One(SalesStep(row, s)) <= Rank(row) + One(BackToReview(s))
    ensures BackToReview(s) ==> Apply(row, s).status == UnderReview
  {
    if OnOffer(s) {
      RankOffer(row, s);
    } else if OnBranch(s) {
      RankBranch(row, s);
    } else if s.Operating? {
      RankOperating(row, s.action, s.reading, s.now);
    } else {
      RankDesk(row, s);
    }
  }

  // ------------------------------------------------------------ the timeline

  /** Every entry starts where the one before it ended, and the last one ends at the row's status. */
  predicate Gapless(row: Row) {
    && TailAgrees(row) && row.timeline[|row.timeline| - 1].to == row.status
    && forall i :: 0 < i < |row.timeline| ==> row.timeline[i - 1].to == row.timeline[i].from
  }

  /** The last entry ends at the row's status, or at the offer whose answer came too late. */
  predicate TailAgrees(row: Row) {
    && |row.timeline| > 0
    && (var last := row.timeline[|row.timeline| - 1].to;
        last == row.status || (last == AlternativeOffered && row.status == UnderReview))
  }

  /** row' is row with one more entry, from its status to the new one. */
  predicate Wrote(row: Row, row': Row) {
    && |row'.timeline| == |row.timeline| + 1
    && row'.timeline == row.timeline + [Event(row.status, row'.status, row'.timeline[|row.timeline|].act)]
  }

  lemma OfferWritten(row: Row, s: Step)
    requires OffersAgree(row) && Enabled(row, s) && OnOffer(s) && !s.AnsweringLate?
    ensures Wrote(row, Apply(row, s))
  {
    if s.Lapsing? {
      PendingIsNewest(row, s.i);
    }
  }

  lemma OtherWritten(row: Row, s: Step)
    requires Enabled(row, s) && !OnOffer(s) && !s.Idle?
    ensures Wrote(row, Apply(row, s))
  {
  }

  /** Every step but the late answer writes an entry from the row's status to its new one. */
  lemma EntryWritten(row: Row, s: Step)
    requires OffersAgree(row) && Enabled(row, s) && !s.Idle? && !s.AnsweringLate?
    ensures Wrote(row, Apply(row, s))
  {
    if OnOffer(s) {
      OfferWritten(row, s);
    } else {
      OtherWritten(row, s);
    }
  }

  lemma EntryGapless(row: Row, row': Row, act: Act)
    requires TailAgrees(row) && row'.timeline == row.timeline + [Event(row.status, row'.status, act)]
    ensures TailAgrees(row') && (Gapless(row') <==> Gapless(row))
  {
    var t, t' := row.timeline, row'.timeline;
    assert forall i :: 0 <= i < |t| ==> t'[i] == t[i];
    if Gapless(row') {
      assert t'[|t| - 1].to == t'[|t|].from;
    }
  }

  /**
   The timeline of a request stays gapless across exactly the steps that are not an answer to a
   lapsed offer: that one moves the request back to review without writing an entry, and the gap
   is never closed again.
   */
  lemma GaplessUnlessLate(row: Row, s: Step)
    requires ColumnsAgree(row) && TailAgrees(row) && Enabled(row, s)
    ensures TailAgrees(Apply(row, s))
    ensures Gapless(Apply(row, s)) <==> Gapless(row) && !s.AnsweringLate?
  {
    if !s.Idle? && !s.AnsweringLate? {
      EntryWritten(row, s);
      EntryGapless(row, Apply(row, s), Apply(row, s).timeline[|row.timeline|].act);
    }
  }
}
