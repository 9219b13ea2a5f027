/** The inbox page: the conversation-preview projection built from the signed-in
    profile's messages (newest first), the send guard, and the reaction to a
    realtime message insert. */
module InboxPage {
  import opened Common
  import opened Types

  /** One row of the conversation list. */
  datatype Preview = Preview(user: ProfileRef, lastMessage: Option<string>, timestamp: int)

  /** The other party of message `m` as seen by the signed-in profile `me`
      (`dbId`, which the user record may lack): the receiver of what `me` sent,
      the sender of everything else. */
  function Counterpart(m: MessageRow, me: Option<string>): Option<ProfileRef> {
    if me == Some(m.senderId) then m.receiver else m.sender
  }

  /** The counterpart profile of `m` exists and has id `id`. */
  predicate WithCounterpart(m: MessageRow, me: Option<string>, id: string) {
    Counterpart(m, me).Some? && Counterpart(m, me).value.id == id
  }

  /** `i` is the first message of `ms` exchanged with counterpart `id`. */
  predicate IsFirstWith(ms: seq<MessageRow>, me: Option<string>, id: string, i: int) {
    && 0 <= i < |ms|
    && WithCounterpart(ms[i], me, id)
    && forall j :: 0 <= j < i ==> !WithCounterpart(ms[j], me, id)
  }

  /** The index of the first message exchanged with counterpart `id`, if any. */
  function FirstWith(ms: seq<MessageRow>, me: Option<string>, id: string): (r: Option<nat>)
    ensures r.Some? ==> IsFirstWith(ms, me, id, r.value)
    ensures r.None? ==> forall j :: 0 <= j < |ms| ==> !WithCounterpart(ms[j], me, id)
  {
    if |ms| == 0 then None
    else if WithCounterpart(ms[0], me, id) then Some(0)
    else match FirstWith(ms[1..], me, id)
      case Some(k) => assert forall j :: 1 <= j <= k ==> ms[j] == ms[1..][j - 1]; Some(k + 1)
      case None => assert forall j :: 1 <= j < |ms| ==> ms[j] == ms[1..][j - 1]; None
  }

  function PreviewOf(m: MessageRow, other: ProfileRef): Preview {
    Preview(other, m.text, m.createdAt)
  }

  /** Reference definition of the projection, independent of the source's loop:
      a fold from the right in which every message overwrites the entry of its
      counterpart, so the earliest message of each counterpart is the one left. */
  function Previews(ms: seq<MessageRow>, me: Option<string>): map<string, Preview> {
    if |ms| == 0 then map[]
    else
      var rest := Previews(ms[1..], me);
      match Counterpart(ms[0], me)
      case None => rest
      case Some(o) => rest[o.id := PreviewOf(ms[0], o)]
  }

  /** One step of the source's loop: a message adds a preview only for a
      counterpart that has none yet. */
  function AddIfAbsent(chats: map<string, Preview>, m: MessageRow, me: Option<string>): map<string, Preview> {
    match Counterpart(m, me)
    case Some(o) => if o.id in chats then chats else chats[o.id := PreviewOf(m, o)]
    case None => chats
  }

  /** Appending a message at the end acts on the reference like one loop step. */
  lemma {:induction false} PreviewsSnoc(ms: seq<MessageRow>, m: MessageRow, me: Option<string>)
    ensures Previews(ms + [m], me) == AddIfAbsent(Previews(ms, me), m, me)
  {
    if |ms| == 0 {
      assert (ms + [m])[1..] == [];
    } else {
      assert (ms + [m])[1..] == ms[1..] + [m];
      PreviewsSnoc(ms[1..], m, me);
    }
  }

  /** The `fetchPreviews` reply handler. When the query returns rows it walks
      them in order and keeps, per counterpart id, the first message met; when it
      returns no data the previews stay as they were. */
  method FetchPreviews(reply: Remote<seq<MessageRow>>, me: Option<string>, current: map<string, Preview>)
    returns (chats: map<string, Preview>)
    ensures reply.Err? ==> chats == current
    ensures reply.Ok? ==> chats == Previews(reply.data, me)
  {
    if reply.Err? {
      return current;
    }
    var data := reply.data;
    chats := map[];
    var i := 0;
    while i < |data|
      invariant 0 <= i <= |data|
      invariant chats == Previews(data[..i], me)
    {
      var m := data[i];
      PreviewsSnoc(data[..i], m, me);
      assert data[..i + 1] == data[..i] + [m];
      var other := Counterpart(m, me);
      if other.Some? && other.value.id !in chats {
        chats := chats[other.value.id := PreviewOf(m, other.value)];
      }
      i := i + 1;
    }
    assert data[..|data|] == data;
  }

  /** A counterpart has a preview exactly when some message was exchanged with
      it and its profile was found; messages without one contribute nothing. */
  lemma {:induction false} PreviewKeys(ms: seq<MessageRow>, me: Option<string>, id: string)
    ensures id in Previews(ms, me) <==> exists i :: 0 <= i < |ms| && WithCounterpart(ms[i], me, id)
  {
    if |ms| > 0 {
      PreviewKeys(ms[1..], me, id);
      if id in Previews(ms[1..], me) {
        var i :| 0 <= i < |ms[1..]| && WithCounterpart(ms[1..][i], me, id);
        assert WithCounterpart(ms[i + 1], me, id);
      }
      if exists i :: 0 <= i < |ms| && WithCounterpart(ms[i], me, id) {
        var i :| 0 <= i < |ms| && WithCounterpart(ms[i], me, id);
        if i > 0 {
          assert WithCounterpart(ms[1..][i - 1], me, id);
        }
      }
    }
  }

  /** The preview of a counterpart carries the text and timestamp of the first
      message exchanged with it, and that counterpart's profile. */
  lemma {:induction false} PreviewFromFirst(ms: seq<MessageRow>, me: Option<string>, id: string, i: int)
    requires IsFirstWith(ms, me, id, i)
    ensures id in Previews(ms, me)
    ensures Previews(ms, me)[id] == PreviewOf(ms[i], Counterpart(ms[i], me).value)
    ensures Previews(ms, me)[id].user.id == id
  {
    if i > 0 {
      assert IsFirstWith(ms[1..], me, id, i - 1) by {
        forall j | 0 <= j < i - 1 ensures !WithCounterpart(ms[1..][j], me, id) {
          assert ms[1..][j] == ms[j + 1];
        }
      }
      PreviewFromFirst(ms[1..], me, id, i - 1);
      assert !WithCounterpart(ms[0], me, id);
    }
  }

  /** Every preview is keyed by its own counterpart's id, so no two previews
      belong to the same counterpart. */
  lemma OnePreviewPerCounterpart(ms: seq<MessageRow>, me: Option<string>)
    ensures forall id :: id in Previews(ms, me) ==> Previews(ms, me)[id].user.id == id
    ensures forall a, b :: a in Previews(ms, me) && b in Previews(ms, me) && a != b ==>
      Previews(ms, me)[a].user.id != Previews(ms, me)[b].user.id
  {
    forall id | id in Previews(ms, me) ensures Previews(ms, me)[id].user.id == id {
      PreviewKeys(ms, me, id);
      var k := FirstWith(ms, me, id);
      PreviewFromFirst(ms, me, id, k.value);
    }
  }

  /** There are never more previews than fetched messages. */
  lemma {:induction false} PreviewCount(ms: seq<MessageRow>, me: Option<string>)
    ensures |Previews(ms, me)| <= |ms|
  {
    if |ms| > 0 {
      PreviewCount(ms[1..], me);
      var rest := Previews(ms[1..], me);
      match Counterpart(ms[0], me)
      case None =>
      case Some(o) =>
        assert rest[o.id := PreviewOf(ms[0], o)].Keys == rest.Keys + {o.id};
        assert |rest.Keys + {o.id}| <= |rest.Keys| + 1;
    }
  }

  /** Messages ordered by `created_at`, newest first, as the query requests. */
  predicate NewestFirst(ms: seq<MessageRow>) {
    forall i, j :: 0 <= i < j < |ms| ==> ms[i].createdAt >= ms[j].createdAt
  }

  /** With the query's newest-first order, each preview shows the latest message
      exchanged with its counterpart. */
  lemma PreviewIsNewest(ms: seq<MessageRow>, me: Option<string>, id: string, j: int)
    requires NewestFirst(ms)
    requires 0 <= j < |ms| && WithCounterpart(ms[j], me, id)
    ensures id in Previews(ms, me)
    ensures Previews(ms, me)[id].timestamp >= ms[j].createdAt
  {
    var k := FirstWith(ms, me, id);
    PreviewFromFirst(ms, me, id, k.value);
  }

  // ---------------------------------------------------------------------------
  // Sending and realtime inserts

  /** The page state this model tracks: the open conversation partner, its
      thread, the previews and the message draft. */
  datatype InboxState = InboxState(
    selected: Option<ProfileRef>,
    thread: seq<MessageRow>,
    previews: map<string, Preview>,
    draft: string)

  /** The row `handleSendMessage` inserts. */
  datatype NewMessage = NewMessage(senderId: Option<string>, receiverId: string, text: string)

  /** What a send does: the next state, the row inserted (if any) and the
      conversation whose thread is re-fetched (if any). */
  datatype SendOutcome = SendOutcome(state: InboxState, insert: Option<NewMessage>, refetchThread: Option<string>)

  /** `handleSendMessage`, given the insert's reply `result` (consulted only when
      the insert is issued). */
  function SendMessage(s: InboxState, me: Option<string>, result: Remote<()>): (r: SendOutcome)
    ensures r.insert.None? <==> IsBlank(s.draft) || s.selected.None?
    ensures r.insert.None? ==> r.state == s && r.refetchThread.None?
    ensures r.insert.Some? ==> r.insert.value == NewMessage(me, s.selected.value.id, s.draft)
    ensures r.insert.Some? && result.Ok? ==>
      r.state == s.(draft := "") && r.refetchThread == Some(s.selected.value.id)
    ensures r.insert.Some? && result.Err? ==> r.state == s && r.refetchThread.None?
  {
    TrimEmptyIffBlank(s.draft);
    if Trim(s.draft) == "" || s.selected.None? then SendOutcome(s, None, None)
    else
      var row := NewMessage(me, s.selected.value.id, s.draft);
      if result.Ok? then SendOutcome(s.(draft := ""), Some(row), Some(s.selected.value.id))
      else SendOutcome(s, Some(row), None)
  }

  /** A successful send empties the draft, so sending again at once inserts
      nothing: one press, one row. */
  lemma SendTwiceInsertsOnce(s: InboxState, me: Option<string>, first: Remote<()>, second: Remote<()>)
    requires SendMessage(s, me, first).insert.Some? && first.Ok?
    ensures SendMessage(SendMessage(s, me, first).state, me, second).insert.None?
  {
  }

  /** A failed send keeps the draft, so sending again issues the same row. */
  lemma FailedSendRetriesSameRow(s: InboxState, me: Option<string>, msg: string, second: Remote<()>)
    requires SendMessage(s, me, Err(msg)).insert.Some?
    ensures SendMessage(SendMessage(s, me, Err(msg)).state, me, second).insert
      == SendMessage(s, me, Err(msg)).insert
  {
  }

  /** What the page does on a realtime insert into `messages`. */
  datatype InsertReaction = InsertReaction(refetchThread: Option<string>, refetchPreviews: bool)

  /** The realtime insert handler: the open thread is re-fetched only when the
      new row involves the selected partner; the previews are always refreshed. */
  function OnMessageInsert(selected: Option<ProfileRef>, row: MessageRow): (r: InsertReaction)
    ensures r.refetchPreviews
    ensures r.refetchThread.Some? <==>
      selected.Some? && (row.senderId == selected.value.id || row.receiverId == selected.value.id)
    ensures r.refetchThread.Some? ==> r.refetchThread.value == selected.value.id
  {
    match selected
    case Some(u) =>
      if row.senderId == u.id || row.receiverId == u.id then InsertReaction(Some(u.id), true)
      else InsertReaction(None, true)
    case None => InsertReaction(None, true)
  }

  /** A message between two other profiles never re-fetches the open thread. */
  lemma OtherConversationLeavesThread(selected: Option<ProfileRef>, row: MessageRow)
    requires selected.Some? ==> row.senderId != selected.value.id && row.receiverId != selected.value.id
    ensures OnMessageInsert(selected, row).refetchThread.None?
    ensures OnMessageInsert(selected, row).refetchPreviews
  {
  }

  /** The realtime echo of a message just sent to the open conversation
      re-fetches that conversation's thread. */
  lemma SentMessageEchoRefreshesThread(s: InboxState, me: Option<string>, result: Remote<()>, row: MessageRow)
    requires SendMessage(s, me, result).insert.Some?
    requires row.receiverId == SendMessage(s, me, result).insert.value.receiverId
    ensures OnMessageInsert(s.selected, row).refetchThread == Some(s.selected.value.id)
  {
  }
}
