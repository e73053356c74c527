/**
 The image list of the vehicle editor (apps/web/components/fleet-vehicle-manager.tsx): rows are
 edited, moved, removed and added, presets are picked, and upload batches, which may overlap
 because files can also be dropped on the page while a batch is on its way, add their rows when
 they end.
 */
module VehicleImages {
  import opened Util

  const LIMIT: nat := 6

  datatype Image = Image(url: string, altAr: string, altEn: string)
  datatype Field = Url | AltAr | AltEn

  const EMPTY: Image := Image("", "", "")

  /** The trimmed url is not empty. */
  predicate Filled(image: Image) { Trim(image.url) != "" }

  function FilledRows(images: seq<Image>): seq<Image> { Filter((i: Image) => Filled(i), images) }

  function FirstSix(images: seq<Image>): seq<Image> { if |images| <= LIMIT then images else images[..LIMIT] }

  // ------------------------------------------------------- what each handler makes of the list

  function Written(image: Image, field: Field, text: string): Image {
    match field
    case Url => image.(url := text)
    case AltAr => image.(altAr := text)
    case AltEn => image.(altEn := text)
  }

  function Updated(images: seq<Image>, index: nat, field: Field, text: string): seq<Image> {
    if index < |images| then images[index := Written(images[index], field, text)] else images
  }

  /** up swaps with the row before, otherwise with the row after; at the ends nothing moves. */
  function Moved(images: seq<Image>, index: nat, up: bool): seq<Image> {
    var destination: int := if up then index - 1 else index + 1;
    if index >= |images| || destination < 0 || destination >= |images| then images
    else images[index := images[destination]][destination := images[index]]
  }

  function Removed(images: seq<Image>, index: nat): seq<Image> {
    if index < |images| then images[..index] + images[index + 1..] else images
  }

  predicate HasUrl(images: seq<Image>, url: string) { exists i :: 0 <= i < |images| && images[i].url == url }

  function WithPreset(images: seq<Image>, url: string): seq<Image> {
    var draft := Image(url, "", "");
    if HasUrl(images, url) then images
    else if |images| == 1 && images[0].url == "" then [draft]
    else if |images| < LIMIT then images + [draft] else images
  }

  function FreeSlots(images: seq<Image>): nat {
    if |FilledRows(images)| < LIMIT then LIMIT - |FilledRows(images)| else 0
  }

  function WithUploads(images: seq<Image>, uploaded: seq<Image>): seq<Image> {
    FirstSix(FilledRows(images) + uploaded)
  }

  function Uploaded(urls: seq<string>): (r: seq<Image>)
    ensures |r| == |urls| && forall i :: 0 <= i < |r| ==> r[i] == Image(urls[i], "", "")
  {
    seq(|urls|, i requires 0 <= i < |urls| => Image(urls[i], "", ""))
  }

  // ------------------------------------------------------------------------ the editor

  class Editor {
    var images: seq<Image>
    var uploading: bool
    var uploadError: bool

    /** A new vehicle, or one without images, starts with one empty row. */
    constructor (stored: seq<Image>)
      ensures images == if stored == [] then [EMPTY] else stored
    {
      images := if stored == [] then [EMPTY] else stored;
      uploading, uploadError := false, false;
    }

    method UpdateImage(index: nat, field: Field, text: string)
      requires index < |images|
      modifies this`images
      ensures images == Updated(old(images), index, field, text)
    {
      images := images[index := Written(images[index], field, text)];
    }

    method MoveImage(index: nat, up: bool)
      requires index < |images|
      modifies this`images
      ensures images == Moved(old(images), index, up)
    {
      var destination: int := if up then index - 1 else index + 1;
      if destination < 0 || destination >= |images| {
        return;
      }
      var next := images;
      next := next[index := images[destination]];
      next := next[destination := images[index]];
      images := next;
    }

    method AddPreset(url: string)
      modifies this`images
      ensures images == WithPreset(old(images), url)
    {
      if exists i :: 0 <= i < |images| && images[i].url == url {
        return;
      }
      var draft := Image(url, "", "");
      if |images| == 1 && images[0].url == "" {
        images := [draft];
      } else if |images| < LIMIT {
        images := images + [draft];
      }
    }

    /** The files of a selection that the batch takes: as many as there are rows free when it starts. */
    method ChooseFiles(selected: nat) returns (files: nat)
      modifies this`uploading, this`uploadError
      ensures files == if selected < FreeSlots(images) then selected else FreeSlots(images)
      ensures files > 0 ==> uploading
    {
      var filled := |FilledRows(images)|;
      var slots := if filled < LIMIT then LIMIT - filled else 0;
      files := if selected < slots then selected else slots;
      if files > 0 {
        uploading, uploadError := true, false;
      }
    }

    /** One request after the other; the first failure gives up the whole batch. */
    method SendFiles(responses: seq<Option<string>>) returns (uploaded: Option<seq<Image>>)
      ensures uploaded.Some? <==> forall i :: 0 <= i < |responses| ==> responses[i].Some?
      ensures uploaded.Some? ==>
        |uploaded.value| == |responses|
        && forall i :: 0 <= i < |responses| ==> uploaded.value[i] == Image(responses[i].value, "", "")
    {
      var rows: seq<Image> := [];
      for i := 0 to |responses|
        invariant |rows| == i && forall k :: 0 <= k < i ==> responses[k].Some?
        invariant forall k :: 0 <= k < i ==> rows[k] == Image(responses[k].value, "", "")
      {
        if responses[i].None? {
          return None;
        }
        rows := rows + [Image(responses[i].value, "", "")];
      }
      uploaded := Some(rows);
    }

    method EndBatch(uploaded: Option<seq<Image>>)
      modifies this
      ensures images == if uploaded.Some? then WithUploads(old(images), uploaded.value) else old(images)
      ensures !uploading && uploadError == (uploaded.None? || old(uploadError))
    {
      if uploaded.Some? {
        images := FirstSix(FilledRows(images) + uploaded.value);
      } else {
        uploadError := true;
      }
      uploading := false;
    }
  }

  // ------------------------------------------------------------------------ every run

  datatype Event =
    | Update(index: nat, field: Field, text: string)
    | Move(index: nat, up: bool)
    | Remove(index: nat)
    | Add
    | Preset(url: string)
    | Start(selected: nat)
    | Finish(batch: nat, urls: Option<seq<string>>)

  /** The rows, and the sizes of the batches on their way. */
  datatype State = State(images: seq<Image>, batches: seq<nat>)

  function Step(s: State, e: Event): State {
    match e
    case Update(index, field, text) => s.(images := Updated(s.images, index, field, text))
    case Move(index, up) => s.(images := Moved(s.images, index, up))
    case Remove(index) => if |s.images| == 1 then s else s.(images := Removed(s.images, index))
    case Add => if |s.images| < LIMIT then s.(images := s.images + [EMPTY]) else s
    case Preset(url) => s.(images := WithPreset(s.images, url))
    case Start(selected) =>
      var files := if selected < FreeSlots(s.images) then selected else FreeSlots(s.images);
      if files == 0 then s else s.(batches := s.batches + [files])
    case Finish(batch, urls) =>
      if batch >= |s.batches| || (urls.Some? && |urls.value| != s.batches[batch]) then s
      else State(if urls.None? then s.images else WithUploads(s.images, Uploaded(urls.value)),
                 s.batches[..batch] + s.batches[batch + 1..])
  }

  function Run(s: State, events: seq<Event>): State
    decreases |events|
  {
    if events == [] then s else Run(Step(s, events[0]), events[1..])
  }

  predicate Proper(s: State) { 1 <= |s.images| <= LIMIT && forall b :: b in s.batches ==> b > 0 }

  lemma StepProper(s: State, e: Event)
    requires Proper(s)
    ensures Proper(Step(s, e))
  {
    if e.Finish? && e.batch < |s.batches| {
      FinishProper(s, e.batch, e.urls);
    }
  }

  lemma FinishProper(s: State, batch: nat, urls: Option<seq<string>>)
    requires Proper(s) && batch < |s.batches|
    ensures Proper(Step(s, Finish(batch, urls)))
  {
    assert s.batches[batch] in s.batches;
    var rest := s.batches[..batch] + s.batches[batch + 1..];
    assert forall b :: b in rest ==> b in s.batches;
    if urls.Some? && |urls.value| == s.batches[batch] {
      assert |WithUploads(s.images, Uploaded(urls.value))| >= 1;
    }
  }

  /** However edits, moves, presets and overlapping batches interleave, the list has one to six rows. */
  lemma {:induction false} OneToSixRows(s: State, events: seq<Event>)
    requires Proper(s)
    ensures 1 <= |Run(s, events).images| <= LIMIT
    decreases |events|
  {
    if events != [] {
      StepProper(s, events[0]);
      OneToSixRows(Step(s, events[0]), events[1..]);
    }
  }

  // -------------------------------------------------------------------------- uploads

  /**
   What a finished batch leaves: the filled rows, unmoved and in front, and then as many of its
   own rows as there is room for, first ones first. All of them exactly when they fit at that moment.
   */
  lemma UploadsAppend(images: seq<Image>, uploaded: seq<Image>)
    requires |images| <= LIMIT
    ensures var after, filled := WithUploads(images, uploaded), FilledRows(images);
      && |after| == (if |filled| + |uploaded| <= LIMIT then |filled| + |uploaded| else LIMIT)
      && after[..|filled|] == filled
      && after[|filled|..] == uploaded[..|after| - |filled|]
      && (after == filled + uploaded <==> |filled| + |uploaded| <= LIMIT)
  {
    var after, filled := WithUploads(images, uploaded), FilledRows(images);
    assert after[..|filled|] == filled;
  }

  /** A batch that runs alone, with the rows as they were when it started, is added whole or not at all. */
  lemma LoneBatchIsWhole(s: State, selected: nat, urls: Option<seq<string>>)
    requires Proper(s) && s.batches == [] && selected > 0 && FreeSlots(s.images) > 0
    requires var s1 := Step(s, Start(selected)); urls.Some? ==> |urls.value| == s1.batches[0]
    ensures Step(Step(s, Start(selected)), Finish(0, urls)) ==
      s.(images := if urls.None? then s.images else FilledRows(s.images) + Uploaded(urls.value))
  {
    var s1 := Step(s, Start(selected));
    if urls.Some? {
      UploadsAppend(s.images, Uploaded(urls.value));
    }
    assert s1.batches[..0] + s1.batches[1..] == [];
  }

  lemma StartTwo(images: seq<Image>, first: nat, second: nat)
    requires first > 0 && second > 0 && FreeSlots(images) >= first && FreeSlots(images) >= second
    ensures Step(Step(State(images, []), Start(first)), Start(second)) == State(images, [first, second])
  {
  }

  lemma FinishFirst(images: seq<Image>, batches: seq<nat>, urls: seq<string>)
    requires batches != [] && |urls| == batches[0]
    ensures Step(State(images, batches), Finish(0, Some(urls))) ==
      State(WithUploads(images, Uploaded(urls)), batches[1..])
  {
    assert batches[..0] + batches[0 + 1..] == batches[1..];
  }

  lemma FilledWhole(images: seq<Image>)
    requires forall i :: 0 <= i < |images| ==> Filled(images[i])
    ensures FilledRows(images) == images
  {
    FilterAll((i: Image) => Filled(i), images);
  }

  /** Two batches started over the same four filled rows: the second ends with one of its two rows. */
  lemma OverlapIsPartial(four: seq<Image>, a: string, b: string, c: string)
    requires |four| == 4 && (forall i :: 0 <= i < 4 ==> Filled(four[i]))
    requires Filled(Image(a, "", ""))
    ensures var s1 := Step(Step(State(four, []), Start(1)), Start(2));
      && s1 == State(four, [1, 2])
      && Step(Step(s1, Finish(0, Some([a]))), Finish(0, Some([b, c]))).images == four + Uploaded([a]) + Uploaded([b])
  {
    var five := four + Uploaded([a]);
    FilledWhole(four);
    FilledWhole(five);
    StartTwo(four, 1, 2);
    FinishFirst(four, [1, 2], [a]);
    UploadsAppend(four, Uploaded([a]));
    assert [1, 2][1..] == [2];
    FinishFirst(five, [2], [b, c]);
    UploadsAppend(five, Uploaded([b, c]));
    var six := WithUploads(five, Uploaded([b, c]));
    assert Uploaded([b, c])[..1] == Uploaded([b]);
    assert six == six[..5] + six[5..];
  }

  // --------------------------------------------------------------------------- moves

  lemma SwapIsPermutation(images: seq<Image>, i: nat)
    requires i + 1 < |images|
    ensures multiset(images[i := images[i + 1]][i + 1 := images[i]]) == multiset(images)
  {
    var front, back := images[..i], images[i + 2..];
    assert images == front + [images[i], images[i + 1]] + back;
    assert images[i := images[i + 1]][i + 1 := images[i]] == front + [images[i + 1], images[i]] + back;
  }

  /** A move swaps two neighbours, loses nothing, and the opposite move of the moved row undoes it. */
  lemma MoveUndone(images: seq<Image>, index: nat, up: bool)
    requires index < |images|
    ensures var to := if up then index - 1 else index + 1;
      var after := Moved(images, index, up);
      && |after| == |images| && multiset(after) == multiset(images)
      && (0 <= to < |images| ==> after[to] == images[index] && Moved(after, to, !up) == images)
      && (!(0 <= to < |images|) ==> after == images)
  {
    var to := if up then index - 1 else index + 1;
    if 0 <= to < |images| {
      var low := if up then to else index;
      SwapIsPermutation(images, low);
      assert Moved(images, index, up) == images[low := images[low + 1]][low + 1 := images[low]];
      assert Moved(Moved(images, index, up), to, !up) == images;
    }
  }

  /** Picking a preset again changes nothing, and picking one never removes a row that has a url. */
  lemma PresetsOnce(images: seq<Image>, url: string)
    ensures WithPreset(WithPreset(images, url), url) == WithPreset(images, url)
    ensures forall i :: i in images && i.url != "" ==> i in WithPreset(images, url)
    ensures HasUrl(WithPreset(images, url), url) <==> HasUrl(images, url) || |images| < LIMIT
  {
    var after := WithPreset(images, url);
    if !HasUrl(images, url) {
      if |images| == 1 && images[0].url == "" {
        assert after[0].url == url;
      } else if |images| < LIMIT {
        assert after[|images|].url == url;
      }
    }
  }
}
