/**
 The reservation wizard (apps/web/components/reservation-start.tsx): a chain of saved stages,
 four effects whose requests are aborted when their inputs change, and buttons whose requests are
 not, against the draft records the server keeps (reservations.service.ts and
 reservations.repository.ts). The server answers a request in the step in which its response
 arrives.
 */
module Wizard {
  import opened Util

  type DraftId = nat
  type Version = nat

  /** What the server has on file for one draft. */
  datatype Record = Record(details: bool, consents: Option<Version>)

  /** The drafts on file and the policy version in force. */
  datatype Server = Server(records: map<DraftId, Record>, policy: Version)

  /** A saved stage, with the draft its response was about. */
  datatype Consents = Consents(of: DraftId, version: Version)

  /** The consents a resumed draft came with; version is set when all required ones were accepted. */
  datatype Resumed = NotResumed | Resumed(accepted: Option<Version>)

  /** The stages shown as saved, and everything that is still on its way. */
  datatype Page = Page(
    draft: Option<DraftId>, details: Option<DraftId>, consents: Option<Consents>,
    checklist: Option<DraftId>, review: Option<DraftId>, submitted: Option<DraftId>,
    bundle: Option<Version>, resumed: Resumed,
    // requests started by effects
    resuming: bool, policies: bool, checklistOf: Option<DraftId>, reviewOf: Option<DraftId>,
    // requests started by buttons
    saving: bool, savingDetails: Option<DraftId>, savingConsents: Option<Consents>,
    uploading: Option<DraftId>, removing: seq<DraftId>, submitting: Option<DraftId>)

  function FirstPage(resume: bool): Page {
    Page(None, None, None, None, None, None, None, NotResumed,
         resume, false, None, None, false, None, None, None, [], None)
  }

  // ------------------------------------------------------- effects that run again

  /** The policy effect: its old request is aborted, a new one starts when details are saved. */
  function PolicyEffect(p: Page): Page { p.(policies := p.details.Some?) }

  function ChecklistEffect(p: Page): Page {
    p.(checklistOf := if p.draft.Some? && p.consents.Some? then p.draft else None)
  }

  function ReviewEffect(p: Page): Page {
    p.(reviewOf := if p.draft.Some? && p.checklist.Some? && p.submitted.None? then p.draft else None)
  }

  // ------------------------------------------------- what each handler does to the page

  function AfterResume(p: Page, id: DraftId, r: Record): Page {
    var p1 := p.(resuming := false, draft := Some(id),
                 details := if r.details then Some(id) else p.details,
                 resumed := Resumed(r.consents),
                 consents := if r.consents.Some? then Some(Consents(id, r.consents.value)) else p.consents);
    ReviewEffect(ChecklistEffect(PolicyEffect(p1)))
  }

  /** A resumed draft accepted another version than the one just loaded. */
  predicate Outdated(p: Page, version: Version) {
    p.resumed.Resumed? && p.resumed.accepted.Some? && p.resumed.accepted.value != version
  }

  function AfterPolicies(p: Page, version: Version): Page {
    var p1 := p.(policies := false, bundle := Some(version));
    if Outdated(p, version) then ReviewEffect(ChecklistEffect(p1.(consents := None, checklist := None))) else p1
  }

  function AfterChecklist(p: Page, id: DraftId): Page {
    ReviewEffect(p.(checklistOf := None, checklist := Some(id)))
  }

  function AfterReview(p: Page, id: DraftId): Page { p.(reviewOf := None, review := Some(id)) }

  function ResetDraft(p: Page): Page {
    var p1 := p.(draft := None, details := None, consents := None, checklist := None,
                 review := None, submitted := None, bundle := None);
    ReviewEffect(ChecklistEffect(PolicyEffect(p1)))
  }

  function DropDetails(p: Page): Page {
    var p1 := p.(details := None, consents := None, checklist := None,
                 review := None, submitted := None, bundle := None);
    ReviewEffect(ChecklistEffect(PolicyEffect(p1)))
  }

  function DropConsents(p: Page): Page {
    var p1 := p.(consents := None, checklist := None, review := None, submitted := None);
    ReviewEffect(ChecklistEffect(p1))
  }

  function AfterSave(p: Page, id: DraftId): Page { ReviewEffect(ChecklistEffect(p.(draft := Some(id)))) }

  function AfterDetails(p: Page, id: DraftId): Page { PolicyEffect(p.(details := Some(id))) }

  function AfterConsents(p: Page, c: Consents): Page { ChecklistEffect(p.(consents := Some(c))) }

  function AfterDocument(p: Page, id: DraftId): Page { ReviewEffect(p.(checklist := Some(id))) }

  function AfterSubmit(p: Page, id: DraftId): Page { ReviewEffect(p.(submitted := Some(id))) }

  // ------------------------------------------------------------- the component

  /** The component's saved stages, set and cleared one field at a time. */
  class Component {
    var draft: Option<DraftId>
    var details: Option<DraftId>
    var consents: Option<Consents>
    var checklist: Option<DraftId>
    var review: Option<DraftId>
    var submitted: Option<DraftId>
    var bundle: Option<Version>
    var resumed: Resumed
    var resuming: bool
    var policies: bool
    var checklistOf: Option<DraftId>
    var reviewOf: Option<DraftId>

    /** The page this component shows, with the buttons' requests taken from p. */
    ghost function View(p: Page): Page
      reads this
    {
      p.(draft := draft, details := details, consents := consents, checklist := checklist, review := review,
         submitted := submitted, bundle := bundle, resumed := resumed, resuming := resuming,
         policies := policies, checklistOf := checklistOf, reviewOf := reviewOf)
    }

    constructor (resume: bool)
      ensures View(FirstPage(resume)) == FirstPage(resume)
    {
      draft, details, consents, checklist, review, submitted, bundle := None, None, None, None, None, None, None;
      resumed, resuming, policies, checklistOf, reviewOf := NotResumed, resume, false, None, None;
    }

    method RunPolicyEffect()
      modifies this`policies
      ensures forall p :: View(p) == PolicyEffect(old(View(p)))
    {
      policies := details.Some?;
    }

    method RunChecklistEffect()
      modifies this`checklistOf
      ensures forall p :: View(p) == ChecklistEffect(old(View(p)))
    {
      checklistOf := None;
      if draft.Some? && consents.Some? {
        checklistOf := draft;
      }
    }

    method RunReviewEffect()
      modifies this`reviewOf
      ensures forall p :: View(p) == ReviewEffect(old(View(p)))
    {
      reviewOf := None;
      if draft.Some? && checklist.Some? && submitted.None? {
        reviewOf := draft;
      }
    }

    method RunEffects()
      modifies this`policies, this`checklistOf, this`reviewOf
      ensures forall p :: View(p) == ReviewEffect(ChecklistEffect(PolicyEffect(old(View(p)))))
    {
      RunPolicyEffect();
      RunChecklistEffect();
      RunReviewEffect();
    }

    method ResumeArrived(id: DraftId, r: Record)
      modifies this
      ensures forall p :: View(p) == AfterResume(old(View(p)), id, r)
    {
      resuming := false;
      draft := Some(id);
      if r.details {
        details := Some(id);
      }
      resumed := Resumed(r.consents);
      if r.consents.Some? {
        consents := Some(Consents(id, r.consents.value));
      }
      RunEffects();
    }

    method PoliciesArrived(version: Version)
      modifies this
      ensures forall p :: View(p) == AfterPolicies(old(View(p)), version)
    {
      policies := false;
      bundle := Some(version);
      if resumed.Resumed? && resumed.accepted.Some? && resumed.accepted.value != version {
        consents, checklist := None, None;
        RunChecklistEffect();
        RunReviewEffect();
      }
    }

    method ChecklistArrived(id: DraftId)
      modifies this
      ensures forall p :: View(p) == AfterChecklist(old(View(p)), id)
    {
      checklistOf := None;
      checklist := Some(id);
      RunReviewEffect();
    }

    method ResetSavedDraft()
      modifies this
      ensures forall p :: View(p) == ResetDraft(old(View(p)))
    {
      draft, details, consents, checklist, review := None, None, None, None, None;
      submitted, bundle := None, None;
      RunEffects();
    }

    method InvalidateCustomerDetails()
      modifies this
      ensures forall p :: View(p) == DropDetails(old(View(p)))
    {
      details, consents, checklist, bundle := None, None, None, None;
      review, submitted := None, None;
      RunEffects();
    }

    method InvalidateConsents()
      modifies this
      ensures forall p :: View(p) == DropConsents(old(View(p)))
    {
      consents, checklist, review, submitted := None, None, None, None;
      RunChecklistEffect();
      RunReviewEffect();
    }

    method DraftSaved(id: DraftId)
      modifies this
      ensures forall p :: View(p) == AfterSave(old(View(p)), id)
    {
      draft := Some(id);
      RunChecklistEffect();
      RunReviewEffect();
    }

    method DetailsSaved(id: DraftId)
      modifies this
      ensures forall p :: View(p) == AfterDetails(old(View(p)), id)
    {
      details := Some(id);
      RunPolicyEffect();
    }

    method ConsentsSaved(c: Consents)
      modifies this
      ensures forall p :: View(p) == AfterConsents(old(View(p)), c)
    {
      consents := Some(c);
      RunChecklistEffect();
    }

    method DocumentsChanged(id: DraftId)
      modifies this
      ensures forall p :: View(p) == AfterDocument(old(View(p)), id)
    {
      checklist := Some(id);
      RunReviewEffect();
    }
  }

  // ---------------------------------------------- the page and the server together

  datatype System = System(server: Server, page: Page)

  datatype Event =
    // responses to effects
    | ResumeResponse(ok: bool) | PoliciesResponse(ok: bool) | ChecklistResponse(ok: bool) | ReviewResponse(ok: bool)
    // edits of the three forms
    | EditTrip | EditDetails | EditConsents
    // buttons and their responses
    | PressSave | SaveResponse(id: DraftId, ok: bool)
    | PressDetails | DetailsResponse(ok: bool)
    | PressConsents | ConsentsResponse(ok: bool)
    | PressUpload | UploadResponse(ok: bool)
    | PressRemove | RemoveResponse(which: nat, ok: bool)
    | PressSubmit | SubmitResponse(ok: bool)
    // a new policy version comes into force
    | Publish(version: Version)

  /** POST /drafts returns the draft on file with the same trip, or a new empty one. */
  function WithDraft(s: Server, id: DraftId): Server {
    if id in s.records then s else s.(records := s.records[id := Record(false, None)])
  }

  function WithDetails(s: Server, id: DraftId): Server
    requires id in s.records
  {
    s.(records := s.records[id := s.records[id].(details := true)])
  }

  /** Consents are taken for a draft with details, in the version in force. */
  predicate TakesConsents(s: Server, c: Consents) {
    c.of in s.records && s.records[c.of].details && c.version == s.policy
  }

  function WithConsents(s: Server, c: Consents): Server
    requires TakesConsents(s, c)
  {
    s.(records := s.records[c.of := s.records[c.of].(consents := Some(c.version))])
  }

  /** Documents are listed, stored and removed for a draft with details and consents. */
  predicate TakesDocuments(s: Server, id: DraftId) {
    id in s.records && s.records[id].details && s.records[id].consents.Some?
  }

  function EffectStep(sys: System, wanted: DraftId, e: Event): System {
    var s, p := sys.server, sys.page;
    match e
    case ResumeResponse(ok) =>
      if !p.resuming then sys
      else if !ok || wanted !in s.records then sys.(page := p.(resuming := false))
      else sys.(page := AfterResume(p, wanted, s.records[wanted]))
    case PoliciesResponse(ok) =>
      if !p.policies then sys
      else if !ok then sys.(page := p.(policies := false)) else sys.(page := AfterPolicies(p, s.policy))
    case ChecklistResponse(ok) =>
      if p.checklistOf.None? then sys
      else if !ok || !TakesDocuments(s, p.checklistOf.value) then sys.(page := p.(checklistOf := None))
      else sys.(page := AfterChecklist(p, p.checklistOf.value))
    case ReviewResponse(ok) =>
      if p.reviewOf.None? then sys
      else if !ok then sys.(page := p.(reviewOf := None)) else sys.(page := AfterReview(p, p.reviewOf.value))
    case _ => sys
  }

  function EditStep(sys: System, e: Event): System {
    var p := sys.page;
    match e
    case EditTrip => sys.(page := ResetDraft(p))
    case EditDetails => if p.draft.Some? then sys.(page := DropDetails(p)) else sys
    case EditConsents => if p.details.Some? && p.bundle.Some? then sys.(page := DropConsents(p)) else sys
    case Publish(version) => sys.(server := sys.server.(policy := version))
    case _ => sys
  }

  /** A press that the page offers and its handler does not turn down. */
  function PressStep(sys: System, e: Event): System {
    var p := sys.page;
    match e
    case PressSave => if p.draft.None? && !p.saving then sys.(page := p.(saving := true)) else sys
    case PressDetails =>
      if p.draft.Some? && p.savingDetails.None? then sys.(page := p.(savingDetails := p.draft)) else sys
    case PressConsents =>
      if p.draft.Some? && p.details.Some? && p.bundle.Some? && p.savingConsents.None?
      then sys.(page := p.(savingConsents := Some(Consents(p.draft.value, p.bundle.value)))) else sys
    case PressUpload =>
      if p.draft.Some? && p.consents.Some? && p.checklist.Some? && p.uploading.None?
      then sys.(page := p.(uploading := p.draft)) else sys
    case PressRemove =>
      if p.draft.Some? && p.consents.Some? && p.checklist.Some? && p.uploading.None?
      then sys.(page := p.(removing := p.removing + [p.draft.value])) else sys
    case PressSubmit =>
      if p.draft.Some? && p.checklist.Some? && p.review.Some? && p.submitted.None? && p.submitting.None?
      then sys.(page := p.(submitting := p.draft)) else sys
    case _ => sys
  }

  function ReplyStep(sys: System, e: Event): System {
    var s, p := sys.server, sys.page;
    match e
    case SaveResponse(id, ok) =>
      if !p.saving then sys
      else if !ok then sys.(page := p.(saving := false))
      else System(WithDraft(s, id), AfterSave(p.(saving := false), id))
    case DetailsResponse(ok) =>
      if p.savingDetails.None? then sys
      else
        var id, p1 := p.savingDetails.value, p.(savingDetails := None);
        if !ok || id !in s.records then sys.(page := p1) else System(WithDetails(s, id), AfterDetails(p1, id))
    case ConsentsResponse(ok) =>
      if p.savingConsents.None? then sys
      else
        var c, p1 := p.savingConsents.value, p.(savingConsents := None);
        if !ok || !TakesConsents(s, c) then sys.(page := p1) else System(WithConsents(s, c), AfterConsents(p1, c))
    case UploadResponse(ok) =>
      if p.uploading.None? then sys
      else
        var id, p1 := p.uploading.value, p.(uploading := None);
        if !ok || !TakesDocuments(s, id) then sys.(page := p1) else sys.(page := AfterDocument(p1, id))
    case RemoveResponse(which, ok) =>
      if which >= |p.removing| then sys
      else
        var id, p1 := p.removing[which], p.(removing := p.removing[..which] + p.removing[which + 1..]);
        if !ok || !TakesDocuments(s, id) then sys.(page := p1) else sys.(page := AfterDocument(p1, id))
    case SubmitResponse(ok) =>
      if p.submitting.None? then sys
      else
        var id, p1 := p.submitting.value, p.(submitting := None);
        if !ok then sys.(page := p1) else sys.(page := AfterSubmit(p1, id))
    case _ => sys
  }

  predicate OfEffect(e: Event) {
    e.ResumeResponse? || e.PoliciesResponse? || e.ChecklistResponse? || e.ReviewResponse?
  }

  predicate OfForm(e: Event) { e.EditTrip? || e.EditDetails? || e.EditConsents? || e.Publish? }

  predicate OfPress(e: Event) {
    e.PressSave? || e.PressDetails? || e.PressConsents? || e.PressUpload? || e.PressRemove? || e.PressSubmit?
  }

  function Step(sys: System, wanted: DraftId, e: Event): System {
    if OfEffect(e) then EffectStep(sys, wanted, e)
    else if OfForm(e) then EditStep(sys, e)
    else if OfPress(e) then PressStep(sys, e)
    else ReplyStep(sys, e)
  }

  function Run(sys: System, wanted: DraftId, events: seq<Event>): System
    decreases |events|
  {
    if events == [] then sys else Run(Step(sys, wanted, events[0]), wanted, events[1..])
  }

  // ------------------------------------------------------------------- the chain

  /** Every saved stage stands on the one before it. */
  predicate Chain(p: Page) {
    && (p.checklist.Some? ==> p.consents.Some?)
    && (p.consents.Some? ==> p.details.Some?)
    && (p.details.Some? ==> p.draft.Some?)
  }

  /** The server keeps its own chain: no consents without details. */
  predicate ServerChain(s: Server) {
    forall i :: i in s.records && s.records[i].consents.Some? ==> s.records[i].details
  }

  /** Requests of effects are on their way only while their inputs are there. */
  predicate EffectsFed(p: Page) {
    && (p.policies ==> p.details.Some?)
    && (p.checklistOf.Some? ==> p.checklistOf == p.draft && p.consents.Some?)
    && (p.reviewOf.Some? ==> p.reviewOf == p.draft && p.checklist.Some?)
  }

  predicate Sound(sys: System) { ServerChain(sys.server) && EffectsFed(sys.page) }

  lemma ResumeSound(sys: System, wanted: DraftId, ok: bool)
    requires Sound(sys)
    ensures Sound(EffectStep(sys, wanted, ResumeResponse(ok)))
  {
  }

  lemma EffectSound(sys: System, wanted: DraftId, e: Event)
    requires Sound(sys) && OfEffect(e)
    ensures Sound(EffectStep(sys, wanted, e))
  {
    if e.ResumeResponse? {
      ResumeSound(sys, wanted, e.ok);
    }
  }

  lemma ReplyServer(sys: System, e: Event)
    requires ServerChain(sys.server)
    ensures ServerChain(ReplyStep(sys, e).server)
  {
  }

  lemma SavedFed(sys: System, id: DraftId, ok: bool)
    requires EffectsFed(sys.page)
    ensures EffectsFed(ReplyStep(sys, SaveResponse(id, ok)).page)
  {
  }

  lemma DetailsFed(sys: System, ok: bool)
    requires EffectsFed(sys.page)
    ensures EffectsFed(ReplyStep(sys, DetailsResponse(ok)).page)
  {
  }

  lemma ConsentsFed(sys: System, ok: bool)
    requires EffectsFed(sys.page)
    ensures EffectsFed(ReplyStep(sys, ConsentsResponse(ok)).page)
  {
  }

  lemma UploadFed(sys: System, ok: bool)
    requires EffectsFed(sys.page)
    ensures EffectsFed(ReplyStep(sys, UploadResponse(ok)).page)
  {
  }

  lemma RemoveFed(sys: System, which: nat, ok: bool)
    requires EffectsFed(sys.page)
    ensures EffectsFed(ReplyStep(sys, RemoveResponse(which, ok)).page)
  {
  }

  lemma SubmitFed(sys: System, ok: bool)
    requires EffectsFed(sys.page)
    ensures EffectsFed(ReplyStep(sys, SubmitResponse(ok)).page)
  {
  }

  lemma ReplyFed(sys: System, e: Event)
    requires EffectsFed(sys.page) && !OfEffect(e) && !OfForm(e) && !OfPress(e)
    ensures EffectsFed(ReplyStep(sys, e).page)
  {
    match e {
      case ConsentsResponse(ok) => ConsentsFed(sys, ok);
      case SubmitResponse(ok) => SubmitFed(sys, ok);
      case SaveResponse(id, ok) => SavedFed(sys, id, ok);
      case DetailsResponse(ok) => DetailsFed(sys, ok);
      case UploadResponse(ok) => UploadFed(sys, ok);
      case RemoveResponse(which, ok) => RemoveFed(sys, which, ok);
    }
  }

  lemma SoundStep(sys: System, wanted: DraftId, e: Event)
    requires Sound(sys)
    ensures Sound(Step(sys, wanted, e))
  {
    if OfEffect(e) {
      EffectSound(sys, wanted, e);
    } else if !OfForm(e) && !OfPress(e) {
      ReplyServer(sys, e);
      ReplyFed(sys, e);
    }
  }

  /** The response belongs to a stage whose previous stage is no longer there. */
  predicate Late(sys: System, e: Event) {
    var s, p := sys.server, sys.page;
    match e
    case DetailsResponse(ok) =>
      p.savingDetails.Some? && ok && p.savingDetails.value in s.records && p.draft.None?
    case ConsentsResponse(ok) =>
      p.savingConsents.Some? && ok && TakesConsents(s, p.savingConsents.value) && p.details.None?
    case UploadResponse(ok) =>
      p.uploading.Some? && ok && TakesDocuments(s, p.uploading.value) && p.consents.None?
    case RemoveResponse(which, ok) =>
      which < |p.removing| && ok && TakesDocuments(s, p.removing[which]) && p.consents.None?
    case _ => false
  }

  /** A resumed draft brings its details along whenever it brings consents. */
  lemma ResumeChain(p: Page, id: DraftId, r: Record)
    requires Chain(p) && (r.consents.Some? ==> r.details)
    ensures Chain(AfterResume(p, id, r))
  {
  }

  lemma PoliciesChain(p: Page, version: Version)
    requires Chain(p)
    ensures Chain(AfterPolicies(p, version))
  {
  }

  lemma LoadedChain(sys: System, wanted: DraftId, e: Event)
    requires Sound(sys) && Chain(sys.page) && (e.ChecklistResponse? || e.ReviewResponse?)
    ensures Chain(EffectStep(sys, wanted, e).page)
  {
  }

  lemma EffectChain(sys: System, wanted: DraftId, e: Event)
    requires Sound(sys) && Chain(sys.page) && OfEffect(e)
    ensures Chain(EffectStep(sys, wanted, e).page)
  {
    match e {
      case ResumeResponse(ok) =>
        if wanted in sys.server.records {
          ResumeChain(sys.page, wanted, sys.server.records[wanted]);
        }
      case PoliciesResponse(ok) => PoliciesChain(sys.page, sys.server.policy);
      case _ => LoadedChain(sys, wanted, e);
    }
  }

  lemma SavedChain(sys: System, e: Event)
    requires Chain(sys.page) && (e.SaveResponse? || e.DetailsResponse? || e.ConsentsResponse?)
    ensures Chain(ReplyStep(sys, e).page) <==> !Late(sys, e)
  {
  }

  lemma UploadedChain(sys: System, ok: bool)
    requires Chain(sys.page)
    ensures Chain(ReplyStep(sys, UploadResponse(ok)).page) <==> !Late(sys, UploadResponse(ok))
  {
  }

  lemma RemovedChain(sys: System, which: nat, ok: bool)
    requires Chain(sys.page)
    ensures Chain(ReplyStep(sys, RemoveResponse(which, ok)).page) <==> !Late(sys, RemoveResponse(which, ok))
  {
  }

  lemma SubmittedChain(sys: System, ok: bool)
    requires Chain(sys.page)
    ensures Chain(ReplyStep(sys, SubmitResponse(ok)).page)
  {
  }

  lemma ReplyChain(sys: System, e: Event)
    requires Chain(sys.page) && !OfEffect(e) && !OfForm(e) && !OfPress(e)
    ensures Chain(ReplyStep(sys, e).page) <==> !Late(sys, e)
  {
    match e {
      case UploadResponse(ok) => UploadedChain(sys, ok);
      case RemoveResponse(which, ok) => RemovedChain(sys, which, ok);
      case SubmitResponse(ok) => SubmittedChain(sys, ok);
      case _ => SavedChain(sys, e);
    }
  }

  /**
   Under any interleaving of effects, edits, presses and responses, exactly one kind of step
   breaks the chain: a button's response that arrives after the stage it builds on was cleared.
   The effects never do, because they are aborted.
   */
  lemma ChainBroken(sys: System, wanted: DraftId, e: Event)
    requires Sound(sys) && Chain(sys.page)
    ensures Chain(Step(sys, wanted, e).page) <==> !Late(sys, e)
  {
    if OfEffect(e) {
      EffectChain(sys, wanted, e);
    } else if !OfForm(e) && !OfPress(e) {
      ReplyChain(sys, e);
    }
  }

  predicate OnTime(sys: System, wanted: DraftId, events: seq<Event>)
    decreases |events|
  {
    events == [] || (!Late(sys, events[0]) && OnTime(Step(sys, wanted, events[0]), wanted, events[1..]))
  }

  lemma {:induction false} ChainHolds(sys: System, wanted: DraftId, events: seq<Event>)
    requires Sound(sys) && Chain(sys.page) && OnTime(sys, wanted, events)
    ensures Sound(Run(sys, wanted, events)) && Chain(Run(sys, wanted, events).page)
    decreases |events|
  {
    if events != [] {
      SoundStep(sys, wanted, events[0]);
      ChainBroken(sys, wanted, events[0]);
      ChainHolds(Step(sys, wanted, events[0]), wanted, events[1..]);
    }
  }

  /**
   The chain can break without any edit. A draft resumed with consents to an outdated version
   shows its documents before the policies load; when they do, they clear the consents under an
   upload that is on its way, and its response then restores the document list alone.
   */
  lemma UploadOutlivesConsents(s: Server, id: DraftId)
    requires id in s.records && s.records[id].details
    requires s.records[id].consents.Some? && s.records[id].consents.value != s.policy
    ensures var events :=
        [ResumeResponse(true), ChecklistResponse(true), PressUpload, PoliciesResponse(true), UploadResponse(true)];
      var end := Run(System(s, FirstPage(true)), id, events).page;
      end.checklist == Some(id) && end.consents.None? && !Chain(end)
  {
    var p1 := AfterResume(FirstPage(true), id, s.records[id]);
    var p3 := AfterChecklist(p1, id).(uploading := Some(id));
    assert Step(System(s, FirstPage(true)), id, ResumeResponse(true)) == System(s, p1);
    assert Step(System(s, AfterChecklist(p1, id)), id, PressUpload) == System(s, p3);
    assert Step(System(s, p3), id, PoliciesResponse(true)) == System(s, AfterPolicies(p3, s.policy));
    RunFive(System(s, FirstPage(true)), id,
            ResumeResponse(true), ChecklistResponse(true), PressUpload, PoliciesResponse(true), UploadResponse(true));
  }

  lemma RunFive(sys: System, id: DraftId, a: Event, b: Event, c: Event, d: Event, e: Event)
    ensures Run(sys, id, [a, b, c, d, e]) == Step(Step(Step(Step(Step(sys, id, a), id, b), id, c), id, d), id, e)
  {
    assert [a, b, c, d, e][1..] == [b, c, d, e] && [b, c, d, e][1..] == [c, d, e];
    assert [c, d, e][1..] == [d, e] && [d, e][1..] == [e] && [e][1..] == [];
    var s1 := Step(sys, id, a);
    var s2 := Step(s1, id, b);
    var s3 := Step(s2, id, c);
    var s4 := Step(s3, id, d);
    assert Run(s4, id, [e]) == Step(s4, id, e);
    assert Run(s2, id, [c, d, e]) == Run(s3, id, [d, e]);
    assert Run(s1, id, [b, c, d, e]) == Run(s2, id, [c, d, e]);
  }

  // ----------------------------------------------- every stage belongs to the draft

  /** All saved stages are about the draft shown, and the server has them on file. */
  predicate Owned(sys: System) {
    var s, p := sys.server, sys.page;
    && (p.draft.Some? ==> p.draft.value in s.records)
    && (p.details.Some? ==> p.details == p.draft && s.records[p.draft.value].details)
    && (p.consents.Some? ==>
          p.details.Some? && p.consents.value.of == p.draft.value
          && s.records[p.draft.value].consents == Some(p.consents.value.version))
    && (p.checklist.Some? ==> p.consents.Some? && p.checklist == p.draft)
    && (p.review.Some? ==> p.review == p.draft)
    && (p.submitted.Some? ==> p.submitted == p.draft)
  }

  /** A button's request on its way is about the draft shown, and its previous stage is there. */
  predicate ButtonsFed(p: Page) {
    && (p.saving ==> p.draft.None?)
    && (p.savingDetails.Some? ==> p.savingDetails == p.draft)
    && (p.savingConsents.Some? ==> p.details.Some? && Some(p.savingConsents.value.of) == p.draft)
    && (p.uploading.Some? ==> p.consents.Some? && p.uploading == p.draft)
    && (forall x :: x in p.removing ==> p.consents.Some? && Some(x) == p.draft)
    && (p.submitting.Some? ==> p.submitting == p.draft)
  }

  predicate Settled(sys: System) { Sound(sys) && Owned(sys) && ButtonsFed(sys.page) }

  predicate DocumentsMoving(p: Page) { p.uploading.Some? || p.removing != [] }

  /** Something clears or replaces a stage under a button's request that is on its way. */
  predicate Disturbs(sys: System, wanted: DraftId, e: Event) {
    var p := sys.page;
    match e
    case EditTrip => p.savingDetails.Some? || p.savingConsents.Some? || DocumentsMoving(p) || p.submitting.Some?
    case EditDetails => p.savingConsents.Some? || DocumentsMoving(p)
    case EditConsents => DocumentsMoving(p)
    case PoliciesResponse(ok) => Outdated(p, sys.server.policy) && DocumentsMoving(p)
    case ResumeResponse(ok) => p.saving || (p.draft.Some? && p.draft.value != wanted)
    case _ => false
  }

  lemma ResumeOwned(sys: System, wanted: DraftId, ok: bool)
    requires Settled(sys) && !Disturbs(sys, wanted, ResumeResponse(ok))
    ensures Owned(EffectStep(sys, wanted, ResumeResponse(ok)))
    ensures ButtonsFed(EffectStep(sys, wanted, ResumeResponse(ok)).page)
  {
    if sys.page.removing != [] {
      assert sys.page.removing[0] in sys.page.removing;
    }
  }

  lemma PoliciesOwned(sys: System, wanted: DraftId, ok: bool)
    requires Settled(sys) && !Disturbs(sys, wanted, PoliciesResponse(ok))
    ensures Owned(EffectStep(sys, wanted, PoliciesResponse(ok)))
    ensures ButtonsFed(EffectStep(sys, wanted, PoliciesResponse(ok)).page)
  {
    var p := sys.page;
    if p.policies && ok && Outdated(p, sys.server.policy) {
      assert p.uploading.None? && p.removing == [];
    }
  }

  lemma ChecklistOwned(sys: System, wanted: DraftId, ok: bool)
    requires Settled(sys)
    ensures Owned(EffectStep(sys, wanted, ChecklistResponse(ok)))
    ensures ButtonsFed(EffectStep(sys, wanted, ChecklistResponse(ok)).page)
  {
  }

  lemma ReviewOwned(sys: System, wanted: DraftId, ok: bool)
    requires Settled(sys)
    ensures Owned(EffectStep(sys, wanted, ReviewResponse(ok)))
    ensures ButtonsFed(EffectStep(sys, wanted, ReviewResponse(ok)).page)
  {
  }

  lemma EffectOwned(sys: System, wanted: DraftId, e: Event)
    requires Settled(sys) && OfEffect(e) && !Disturbs(sys, wanted, e)
    ensures Owned(EffectStep(sys, wanted, e)) && ButtonsFed(EffectStep(sys, wanted, e).page)
  {
    match e {
      case ResumeResponse(ok) => ResumeOwned(sys, wanted, ok);
      case PoliciesResponse(ok) => PoliciesOwned(sys, wanted, ok);
      case ChecklistResponse(ok) => ChecklistOwned(sys, wanted, ok);
      case ReviewResponse(ok) => ReviewOwned(sys, wanted, ok);
    }
  }

  lemma EditOwned(sys: System, wanted: DraftId, e: Event)
    requires Settled(sys) && OfForm(e) && !Disturbs(sys, wanted, e)
    ensures Owned(EditStep(sys, e)) && ButtonsFed(EditStep(sys, e).page)
  {
  }

  lemma PressOwned(sys: System, e: Event)
    requires Settled(sys) && OfPress(e)
    ensures Owned(PressStep(sys, e)) && ButtonsFed(PressStep(sys, e).page)
  {
  }

  lemma DraftOwned(sys: System, id: DraftId, ok: bool)
    requires Settled(sys)
    ensures Owned(ReplyStep(sys, SaveResponse(id, ok))) && ButtonsFed(ReplyStep(sys, SaveResponse(id, ok)).page)
  {
    if sys.page.removing != [] {
      assert sys.page.removing[0] in sys.page.removing;
    }
  }

  lemma DetailsOwned(sys: System, ok: bool)
    requires Settled(sys)
    ensures Owned(ReplyStep(sys, DetailsResponse(ok))) && ButtonsFed(ReplyStep(sys, DetailsResponse(ok)).page)
  {
  }

  lemma ConsentsOwned(sys: System, ok: bool)
    requires Settled(sys)
    ensures Owned(ReplyStep(sys, ConsentsResponse(ok))) && ButtonsFed(ReplyStep(sys, ConsentsResponse(ok)).page)
  {
  }

  lemma RemoveOwned(sys: System, which: nat, ok: bool)
    requires Settled(sys)
    ensures Owned(ReplyStep(sys, RemoveResponse(which, ok)))
    ensures ButtonsFed(ReplyStep(sys, RemoveResponse(which, ok)).page)
  {
    if which < |sys.page.removing| {
      assert sys.page.removing[which] in sys.page.removing;
    }
  }

  lemma UploadOwned(sys: System, ok: bool)
    requires Settled(sys)
    ensures Owned(ReplyStep(sys, UploadResponse(ok))) && ButtonsFed(ReplyStep(sys, UploadResponse(ok)).page)
  {
  }

  lemma SubmitOwned(sys: System, ok: bool)
    requires Settled(sys)
    ensures Owned(ReplyStep(sys, SubmitResponse(ok))) && ButtonsFed(ReplyStep(sys, SubmitResponse(ok)).page)
  {
  }

  lemma ReplyOwned(sys: System, e: Event)
    requires Settled(sys)
    ensures Owned(ReplyStep(sys, e)) && ButtonsFed(ReplyStep(sys, e).page)
  {
    match e {
      case SaveResponse(id, ok) => DraftOwned(sys, id, ok);
      case DetailsResponse(ok) => DetailsOwned(sys, ok);
      case ConsentsResponse(ok) => ConsentsOwned(sys, ok);
      case RemoveResponse(which, ok) => RemoveOwned(sys, which, ok);
      case UploadResponse(ok) => UploadOwned(sys, ok);
      case SubmitResponse(ok) => SubmitOwned(sys, ok);
      case _ =>
    }
  }

  lemma NotLate(sys: System, e: Event)
    requires Owned(sys) && ButtonsFed(sys.page)
    ensures !Late(sys, e)
  {
    if e.RemoveResponse? && e.which < |sys.page.removing| {
      assert sys.page.removing[e.which] in sys.page.removing;
    }
  }

  lemma SettledStep(sys: System, wanted: DraftId, e: Event)
    requires Settled(sys) && !Disturbs(sys, wanted, e)
    ensures Settled(Step(sys, wanted, e)) && !Late(sys, e)
  {
    SoundStep(sys, wanted, e);
    NotLate(sys, e);
    if OfEffect(e) {
      EffectOwned(sys, wanted, e);
    } else if OfForm(e) {
      EditOwned(sys, wanted, e);
    } else if OfPress(e) {
      PressOwned(sys, e);
    } else {
      ReplyOwned(sys, e);
    }
  }

  predicate Undisturbed(sys: System, wanted: DraftId, events: seq<Event>)
    decreases |events|
  {
    events == [] || (!Disturbs(sys, wanted, events[0]) && Undisturbed(Step(sys, wanted, events[0]), wanted, events[1..]))
  }

  lemma {:induction false} SettledRun(sys: System, wanted: DraftId, events: seq<Event>)
    requires Settled(sys) && Undisturbed(sys, wanted, events)
    ensures Settled(Run(sys, wanted, events))
    decreases |events|
  {
    if events != [] {
      SettledStep(sys, wanted, events[0]);
      SettledRun(Step(sys, wanted, events[0]), wanted, events[1..]);
    }
  }

  /**
   From an empty or a resuming page, as long as nothing clears a stage under a button's request
   that is on its way: whatever is shown as saved, is saved on the server, for the draft shown,
   and every stage stands on the one before it.
   */
  lemma SavedMeansSaved(s: Server, resume: bool, wanted: DraftId, events: seq<Event>)
    requires ServerChain(s) && Undisturbed(System(s, FirstPage(resume)), wanted, events)
    ensures var end := Run(System(s, FirstPage(resume)), wanted, events); Owned(end) && Chain(end.page)
  {
    SettledRun(System(s, FirstPage(resume)), wanted, events);
  }

  /** The details are saved once more, and the policies that this loads again arrive. */
  function ResaveDetails(sys: System, wanted: DraftId): System {
    Step(Step(Step(sys, wanted, PressDetails), wanted, DetailsResponse(true)), wanted, PoliciesResponse(true))
  }

  /**
   Consents survive saving the unchanged details once more exactly when the draft was not resumed
   with consents to another version than the one in force. The page keeps that resumed version in
   mind, whatever the customer accepted since, and the server keeps the consents in either case.
   */
  lemma ResavedDetails(sys: System, wanted: DraftId)
    requires Owned(sys) && sys.page.consents.Some? && sys.page.savingDetails.None?
    ensures var end := ResaveDetails(sys, wanted);
      && (end.page.consents == sys.page.consents <==> !Outdated(sys.page, sys.server.policy))
      && (Outdated(sys.page, sys.server.policy) ==> end.page.consents.None? && end.page.checklist.None?)
      && end.page.draft == sys.page.draft
      && end.server.records[sys.page.draft.value].consents == Some(sys.page.consents.value.version)
  {
    var id := sys.page.draft.value;
    var sys0 := sys.(page := sys.page.(savingDetails := Some(id)));
    var sys1 := System(WithDetails(sys.server, id), AfterDetails(sys.page.(savingDetails := None), id));
    assert Step(sys, wanted, PressDetails) == sys0;
    assert Step(sys0, wanted, DetailsResponse(true)) == sys1;
    assert Step(sys1, wanted, PoliciesResponse(true)).page == AfterPolicies(sys1.page, sys.server.policy);
  }

  /** The consents of a resumed draft, accepted again in the version in force. */
  function AcceptAgain(sys: System, wanted: DraftId): System {
    Step(Step(Step(Step(sys, wanted, ResumeResponse(true)), wanted, PoliciesResponse(true)),
              wanted, PressConsents), wanted, ConsentsResponse(true))
  }

  lemma AcceptedAgain(s: Server, id: DraftId)
    requires ServerChain(s) && id in s.records && s.records[id].consents.Some? && s.records[id].consents.value != s.policy
    ensures var sys := AcceptAgain(System(s, FirstPage(true)), id);
      && Owned(sys) && sys.server.policy == s.policy && Outdated(sys.page, s.policy)
      && sys.page.draft == Some(id) && sys.page.consents == Some(Consents(id, s.policy))
      && sys.page.savingDetails.None?
  {
    var p1 := AfterResume(FirstPage(true), id, s.records[id]);
    var p2 := AfterPolicies(p1, s.policy);
    var p3 := p2.(savingConsents := Some(Consents(id, s.policy)));
    assert Step(System(s, FirstPage(true)), id, ResumeResponse(true)) == System(s, p1);
    assert Step(System(s, p1), id, PoliciesResponse(true)) == System(s, p2);
    assert Step(System(s, p2), id, PressConsents) == System(s, p3);
    assert TakesConsents(s, Consents(id, s.policy));
  }

  function StaleEvents(): seq<Event> {
    [ResumeResponse(true), PoliciesResponse(true), PressConsents, ConsentsResponse(true),
     PressDetails, DetailsResponse(true), PoliciesResponse(true)]
  }

  lemma RunTwoAndFive(sys: System, id: DraftId, a: Event, b: Event, c: Event, d: Event, e: Event, f: Event, g: Event)
    ensures Run(sys, id, [a, b, c, d, e, f, g]) == Run(Step(Step(sys, id, a), id, b), id, [c, d, e, f, g])
  {
    assert [a, b, c, d, e, f, g][1..] == [b, c, d, e, f, g];
    assert [b, c, d, e, f, g][1..] == [c, d, e, f, g];
    assert Run(Step(sys, id, a), id, [b, c, d, e, f, g]) == Run(Step(Step(sys, id, a), id, b), id, [c, d, e, f, g]);
  }

  lemma StaleRun(sys: System, id: DraftId)
    ensures Run(sys, id, StaleEvents()) == ResaveDetails(AcceptAgain(sys, id), id)
  {
    RunTwoAndFive(sys, id, ResumeResponse(true), PoliciesResponse(true), PressConsents, ConsentsResponse(true),
                  PressDetails, DetailsResponse(true), PoliciesResponse(true));
    RunFive(Step(Step(sys, id, ResumeResponse(true)), id, PoliciesResponse(true)), id,
            PressConsents, ConsentsResponse(true), PressDetails, DetailsResponse(true), PoliciesResponse(true));
  }

  /**
   A draft resumed with consents to an outdated version: the customer accepts the version in force,
   saves the unchanged details once more, and the consents are gone from the page, while the server
   has them in the version in force.
   */
  lemma StaleResumeDropsConsents(s: Server, id: DraftId)
    requires ServerChain(s) && id in s.records && s.records[id].consents.Some? && s.records[id].consents.value != s.policy
    ensures var end := Run(System(s, FirstPage(true)), id, StaleEvents());
      && end.page.draft == Some(id) && end.page.consents.None? && end.page.checklist.None?
      && end.server.policy == s.policy
      && id in end.server.records && end.server.records[id].consents == Some(s.policy)
  {
    var sys := System(s, FirstPage(true));
    StaleRun(sys, id);
    AcceptedAgain(s, id);
    ResavedDetails(AcceptAgain(sys, id), id);
    PolicyStays(AcceptAgain(sys, id), id);
  }

  /** Saving details changes neither the policy nor which drafts are on file. */
  lemma PolicyStays(sys: System, wanted: DraftId)
    ensures var end := ResaveDetails(sys, wanted);
      end.server.policy == sys.server.policy && end.server.records.Keys == sys.server.records.Keys
  {
  }
}
