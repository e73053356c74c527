/**
 The notification center (apps/web/components/notification-center.tsx) against the user's
 notifications on the server (apps/api/src/notifications/notifications.repository.ts): a count of
 everything unread, and at most fifty items.
 */
module Inbox {
  import opened Util

  type NoteId = nat

  datatype Note = Note(id: NoteId, important: bool, read: bool)

  datatype Box = Box(unreadCount: nat, items: seq<Note>)

  /** The inbox, the note in the preview, and the notes whose preview this session has shown. */
  datatype Center = Center(inbox: Option<Box>, featured: Option<Note>, previewed: set<NoteId>)

  const PAGE: nat := 50

  function Unread(notes: seq<Note>): nat {
    if notes == [] then 0 else (if notes[0].read then 0 else 1) + Unread(notes[1..])
  }

  function Marked(notes: seq<Note>, id: NoteId): (r: seq<Note>)
    ensures |r| == |notes|
    ensures forall i :: 0 <= i < |r| ==> r[i] == if notes[i].id == id then notes[i].(read := true) else notes[i]
  {
    seq(|notes|, i requires 0 <= i < |notes| => if notes[i].id == id then notes[i].(read := true) else notes[i])
  }

  function AllMarked(notes: seq<Note>): (r: seq<Note>)
    ensures |r| == |notes|
    ensures forall i :: 0 <= i < |r| ==> r[i] == notes[i].(read := true)
  {
    seq(|notes|, i requires 0 <= i < |notes| => notes[i].(read := true))
  }

  /** server lists the user's visible notes in the order of the inbox. */
  function Served(server: seq<Note>): Box {
    Box(Unread(server), if |server| <= PAGE then server else server[..PAGE])
  }

  function FirstUnread(notes: seq<Note>): (r: Option<Note>)
    ensures r.Some? ==> r.value in notes && !r.value.read
    ensures r.None? <==> forall n :: n in notes ==> n.read
  {
    if notes == [] then None else if !notes[0].read then Some(notes[0]) else FirstUnread(notes[1..])
  }

  // ------------------------------------------------------------------- the handlers

  /** A loaded inbox replaces the old one; the first unread note is previewed once a session. */
  function Loaded(c: Center, box: Box): Center {
    var latest := FirstUnread(box.items);
    if latest.None? || latest.value.id in c.previewed then c.(inbox := Some(box))
    else Center(Some(box), latest, c.previewed + {latest.value.id})
  }

  function ReadOne(box: Box, id: NoteId): Box {
    Box(if box.unreadCount == 0 then 0 else box.unreadCount - 1, Marked(box.items, id))
  }

  /** note is the copy that was clicked: a row of the list, or the preview. */
  function AfterRead(c: Center, note: Note): Center {
    var c1 := if c.featured.Some? && c.featured.value.id == note.id then c.(featured := None) else c;
    if note.read || c1.inbox.None? then c1 else c1.(inbox := Some(ReadOne(c1.inbox.value, note.id)))
  }

  function AfterReadAll(c: Center): Center {
    if c.inbox.None? || c.inbox.value.unreadCount == 0 then c
    else c.(inbox := Some(Box(0, AllMarked(c.inbox.value.items))))
  }

  class NotificationCenter {
    var inbox: Option<Box>
    var featured: Option<Note>
    var previewed: set<NoteId>
    var error: bool

    ghost function View(): Center
      reads this
    {
      Center(inbox, featured, previewed)
    }

    constructor ()
      ensures View() == Center(None, None, {})
    {
      inbox, featured, previewed, error := None, None, {}, false;
    }

    method Load(response: Option<Box>)
      modifies this
      ensures View() == if response.Some? then Loaded(old(View()), response.value) else old(View())
      ensures error == response.None?
    {
      error := response.None?;
      if response.Some? {
        inbox := response;
        var latest := FirstUnread(response.value.items);
        if latest.Some? && latest.value.id !in previewed {
          previewed := previewed + {latest.value.id};
          featured := latest;
        }
      }
    }

    /** Returns whether the read request is sent. */
    method MarkRead(note: Note) returns (sent: bool)
      modifies this`inbox, this`featured
      ensures View() == AfterRead(old(View()), note) && sent == !note.read
    {
      if featured.Some? && featured.value.id == note.id {
        featured := None;
      }
      sent := !note.read;
      if !note.read && inbox.Some? {
        var box := inbox.value;
        inbox := Some(Box(if box.unreadCount == 0 then 0 else box.unreadCount - 1, Marked(box.items, note.id)));
      }
    }

    method MarkAllRead(accepted: bool)
      modifies this
      ensures View() == if accepted then AfterReadAll(old(View())) else old(View())
    {
      if inbox.None? || inbox.value.unreadCount == 0 {
        return;
      }
      if accepted {
        inbox := Some(Box(0, AllMarked(inbox.value.items)));
      } else {
        error := true;
      }
    }
  }

  // ----------------------------------------------------------------- counting unread

  predicate UniqueIds(notes: seq<Note>) {
    forall i, j :: 0 <= i < j < |notes| ==> notes[i].id != notes[j].id
  }

  predicate UnreadIn(notes: seq<Note>, id: NoteId) {
    exists i :: 0 <= i < |notes| && notes[i].id == id && !notes[i].read
  }

  lemma {:induction false} MarkedCount(notes: seq<Note>, id: NoteId)
    requires UniqueIds(notes)
    ensures Unread(Marked(notes, id)) == Unread(notes) - if UnreadIn(notes, id) then 1 else 0
  {
    if notes != [] {
      MarkedCount(notes[1..], id);
      assert Marked(notes, id)[1..] == Marked(notes[1..], id);
      if notes[0].id == id {
        assert !UnreadIn(notes[1..], id);
        if !notes[0].read {
          assert UnreadIn(notes, id);
        }
      } else if i :| 0 <= i < |notes| && notes[i].id == id && !notes[i].read {
        assert notes[1..][i - 1].id == id;
      } else {
        assert !UnreadIn(notes[1..], id);
      }
    }
  }

  lemma {:induction false} UnreadCounted(notes: seq<Note>, id: NoteId)
    requires UnreadIn(notes, id)
    ensures Unread(notes) > 0
  {
    var i :| 0 <= i < |notes| && notes[i].id == id && !notes[i].read;
    if i > 0 {
      assert notes[1..][i - 1] == notes[i];
      UnreadCounted(notes[1..], id);
    }
  }

  lemma {:induction false} AllMarkedCount(notes: seq<Note>)
    ensures Unread(AllMarked(notes)) == 0
  {
    if notes != [] {
      AllMarkedCount(notes[1..]);
      assert AllMarked(notes)[1..] == AllMarked(notes[1..]);
    }
  }

  lemma {:induction false} PrefixCount(notes: seq<Note>, n: nat)
    requires n <= |notes|
    ensures Unread(notes[..n]) <= Unread(notes)
  {
    if n > 0 {
      PrefixCount(notes[1..], n - 1);
      assert notes[..n][1..] == notes[1..][..n - 1];
    }
  }

  // --------------------------------------------------- the badge and the list between loads

  /** What the badge counts beyond the unread rows of the list. */
  function Beyond(box: Box): int { box.unreadCount - Unread(box.items) }

  /** A loaded inbox never counts less than it shows. */
  lemma LoadedCounts(server: seq<Note>)
    ensures Beyond(Served(server)) >= 0
  {
    if |server| > PAGE {
      PrefixCount(server, PAGE);
    }
  }

  /**
   Marking a note keeps the difference between badge and list exactly when the badge and the list
   both lose one, or neither does.
   */
  lemma BeyondKept(box: Box, id: NoteId)
    requires UniqueIds(box.items)
    ensures Beyond(ReadOne(box, id)) == Beyond(box) <==> (UnreadIn(box.items, id) <==> box.unreadCount > 0)
    ensures UniqueIds(ReadOne(box, id).items)
    ensures forall i :: 0 <= i < |box.items| && box.items[i].read ==> ReadOne(box, id).items[i].read
  {
    MarkedCount(box.items, id);
  }

  datatype Click = Row(index: nat) | All

  function Clicked(box: Box, c: Click): Box {
    match c
    case Row(index) =>
      if index >= |box.items| || box.items[index].read then box else ReadOne(box, box.items[index].id)
    case All => if box.unreadCount == 0 then box else Box(0, AllMarked(box.items))
  }

  function Clicks(box: Box, clicks: seq<Click>): Box
    decreases |clicks|
  {
    if clicks == [] then box else Clicks(Clicked(box, clicks[0]), clicks[1..])
  }

  predicate NoMarkAll(clicks: seq<Click>) { forall c :: c in clicks ==> c.Row? }

  lemma ClickKept(box: Box, c: Click)
    requires UniqueIds(box.items) && Beyond(box) >= 0
    ensures var after := Clicked(box, c);
      && UniqueIds(after.items) && Beyond(after) >= 0
      && (c.Row? ==> Beyond(after) == Beyond(box))
      && (c.All? ==> after.unreadCount == 0 && Unread(after.items) == 0)
      && |after.items| == |box.items|
      && (forall i :: 0 <= i < |box.items| && box.items[i].read ==> after.items[i].read)
  {
    match c {
      case Row(index) =>
        if index < |box.items| && !box.items[index].read {
          BeyondKept(box, box.items[index].id);
          UnreadCounted(box.items, box.items[index].id);
        }
      case All =>
        AllMarkedCount(box.items);
    }
  }

  /**
   Between loads, clicking rows keeps what the badge counts beyond the list, which never becomes
   negative; mark-all brings badge and list to zero; and nothing that is read becomes unread.
   */
  lemma {:induction false} BadgeFollowsList(box: Box, clicks: seq<Click>)
    requires UniqueIds(box.items) && Beyond(box) >= 0
    ensures var after := Clicks(box, clicks);
      && Beyond(after) >= 0 && (NoMarkAll(clicks) ==> Beyond(after) == Beyond(box))
      && (clicks != [] && clicks[|clicks| - 1].All? ==> after.unreadCount == 0 && Unread(after.items) == 0)
      && |after.items| == |box.items|
      && (forall i :: 0 <= i < |box.items| && box.items[i].read ==> after.items[i].read)
    decreases |clicks|
  {
    if clicks != [] {
      ClickKept(box, clicks[0]);
      BadgeFollowsList(Clicked(box, clicks[0]), clicks[1..]);
      if |clicks| > 1 {
        assert clicks[1..][|clicks| - 2] == clicks[|clicks| - 1];
      }
      if NoMarkAll(clicks) {
        assert NoMarkAll(clicks[1..]);
      }
    }
  }

  // ------------------------------------------------------- the center and the server

  /** The page shows what the server would send. */
  predicate Exact(c: Center, server: seq<Note>) { c.inbox == Some(Served(server)) }

  lemma MarkedPage(server: seq<Note>, id: NoteId)
    ensures Served(Marked(server, id)).items == Marked(Served(server).items, id)
  {
  }

  /**
   Clicking a copy that says unread, and the server marking that note: the page stays what the
   server would send exactly when the note really was unread there, or nothing is unread at all.
   A copy of a note that has been read elsewhere takes one off the badge that it should not.
   */
  lemma ClickStaysExact(c: Center, server: seq<Note>, note: Note)
    requires UniqueIds(server) && Exact(c, server) && !note.read
    ensures Exact(AfterRead(c, note), Marked(server, note.id)) <==>
      UnreadIn(server, note.id) || Unread(server) == 0
  {
    MarkedCount(server, note.id);
    MarkedPage(server, note.id);
    if UnreadIn(server, note.id) {
      UnreadCounted(server, note.id);
    }
  }

  /** Mark-all leaves page and server exact, also while more notes are unread than the list shows. */
  lemma ReadAllStaysExact(c: Center, server: seq<Note>)
    requires Exact(c, server)
    ensures Exact(AfterReadAll(c), AllMarked(server))
  {
    AllMarkedCount(server);
    assert Served(AllMarked(server)).items == AllMarked(Served(server).items);
    if Unread(server) == 0 {
      NothingUnread(server);
    }
  }

  lemma {:induction false} NothingUnread(notes: seq<Note>)
    requires Unread(notes) == 0
    ensures AllMarked(notes) == notes
  {
    if notes != [] {
      NothingUnread(notes[1..]);
      assert AllMarked(notes)[1..] == AllMarked(notes[1..]);
    }
  }

  /**
   How a stale preview comes about: b is previewed, then the newer a; a is read on another device,
   and the next load leaves a's preview up because b was previewed before. Clicking it empties the
   badge although b is unread.
   */
  lemma StalePreview(a: NoteId, b: NoteId)
    requires a != b
    ensures var one := Loaded(Center(None, None, {}), Served([Note(b, false, false)]));
      var two := Loaded(one, Served([Note(a, false, false), Note(b, false, false)]));
      var server := [Note(a, false, true), Note(b, false, false)];
      var three := Loaded(two, Served(server));
      && three.featured == Some(Note(a, false, false)) && Exact(three, server)
      && AfterRead(three, three.featured.value).inbox.value.unreadCount == 0
      && Unread(Marked(server, a)) == 1
  {
    var server := [Note(a, false, true), Note(b, false, false)];
    assert server[1..] == [Note(b, false, false)];
    assert [Note(a, false, false), Note(b, false, false)][1..] == [Note(b, false, false)];
    assert Marked(server, a) == server;
    assert FirstUnread(server) == Some(Note(b, false, false));
    var one := Loaded(Center(None, None, {}), Served([Note(b, false, false)]));
    assert one.featured == Some(Note(b, false, false)) && one.previewed == {b};
    var two := Loaded(one, Served([Note(a, false, false), Note(b, false, false)]));
    assert two.featured == Some(Note(a, false, false)) && two.previewed == {b, a};
    assert Unread(server) == Unread(server[1..]) == 1;
  }
}
