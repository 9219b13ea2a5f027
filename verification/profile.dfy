/** The profile page: decoding of posts that carry a video inside their text
    (the `__MEDIA_VIDEO__` convention), the choice of media block, the one-shot
    reduced-column retry of the posts query, ownership of the viewed profile,
    realtime profile updates and the inline name/bio/photo update. */
module ProfilePage {
  import opened Common
  import opened Types

  /** The reserved prefix marking post content that holds a video URL. */
  const VideoPrefix: string := "__MEDIA_VIDEO__"

  /** Storing a video in the text column: the prefix followed by the URL. */
  function EncodeVideo(url: string): string {
    VideoPrefix + url
  }

  /** A post as the activity list shows it: the video to play (if any) and the
      text to display. */
  datatype PostView = PostView(videoUrl: Option<string>, display: Option<string>)

  /** The per-post decoding of the activity list. Content that starts with the
      prefix yields the rest of the content as the video URL and an empty text;
      any other content, or none, is shown as is and the post's own `video`
      column supplies the video. */
  function DecodePost(p: PostRow): (v: PostView)
    ensures p.content.Some? && StartsWith(p.content.value, VideoPrefix) ==>
      v == PostView(Some(p.content.value[|VideoPrefix|..]), Some(""))
    ensures !(p.content.Some? && StartsWith(p.content.value, VideoPrefix)) ==>
      v == PostView(p.video, p.content)
  {
    match p.content
    case Some(c) =>
      if StartsWith(c, VideoPrefix) then
        ReplaceLeadingPattern(c, VideoPrefix);
        PostView(Some(ReplaceFirst(c, VideoPrefix, "")), Some(""))
      else PostView(p.video, p.content)
    case None => PostView(p.video, p.content)
  }

  /** Decoding inverts the text-column encoding: a post whose content is
      `EncodeVideo(url)` plays exactly `url` and shows no text, whatever its other
      columns hold. */
  lemma DecodeEncodedVideo(p: PostRow, url: string)
    requires p.content == Some(EncodeVideo(url))
    ensures DecodePost(p) == PostView(Some(url), Some(""))
  {
    assert StartsWith(EncodeVideo(url), VideoPrefix) by {
      assert EncodeVideo(url)[..|VideoPrefix|] == VideoPrefix;
    }
    assert EncodeVideo(url)[|VideoPrefix|..] == url;
  }

  /** Content that is absent or does not carry the prefix passes through, and
      the video falls back to the post's `video` column. */
  lemma PlainContentPassesThrough(p: PostRow)
    requires p.content.None? || !StartsWith(p.content.value, VideoPrefix)
    ensures DecodePost(p).display == p.content
    ensures DecodePost(p).videoUrl == p.video
  {
  }

  /** The media block under a post. */
  datatype Media = NoMedia | VideoMedia(url: string) | ImageMedia(url: string)

  function MediaBlock(p: PostRow): (m: Media)
    ensures m != NoMedia <==> Truthy(p.image) || Truthy(DecodePost(p).videoUrl)
    ensures Truthy(DecodePost(p).videoUrl) ==> m == VideoMedia(DecodePost(p).videoUrl.value)
    ensures !Truthy(DecodePost(p).videoUrl) && Truthy(p.image) ==> m == ImageMedia(p.image.value)
  {
    var v := DecodePost(p).videoUrl;
    if Truthy(p.image) || Truthy(v) then
      if Truthy(v) then VideoMedia(v.value) else ImageMedia(p.image.value)
    else NoMedia
  }

  /** A post stored through the text-column fallback with a non-empty URL plays
      that video, even when it also has an image and a `video` column. */
  lemma EncodedVideoTakesPrecedence(p: PostRow, url: string)
    requires p.content == Some(EncodeVideo(url)) && |url| > 0
    ensures MediaBlock(p) == VideoMedia(url)
  {
    DecodeEncodedVideo(p, url);
  }

  /** The text paragraph is shown only for truthy display content; an encoded
      video therefore never shows its prefix or URL as text. */
  lemma EncodedVideoShowsNoText(p: PostRow, url: string)
    requires p.content == Some(EncodeVideo(url))
    ensures !Truthy(DecodePost(p).display)
  {
    DecodeEncodedVideo(p, url);
  }

  // ---------------------------------------------------------------------------
  // Looking up the viewed profile

  /** The backend's answers to the `profiles` lookup by uid: `lookup(uid)` is the
      row the query for the single row whose `uid` is `uid` returns, none when
      it returns no data. */
  type UidLookup = string -> Option<ProfileRow>

  /** A lookup that only ever answers with a row of the uid it was asked for. */
  ghost predicate KeyedByUid(lookup: UidLookup) {
    forall uid :: lookup(uid).Some? ==> lookup(uid).value.uid == uid
  }

  // ---------------------------------------------------------------------------
  // Fetching the viewed profile's posts

  /** The two column sets the posts query may ask for: everything, or the
      reduced list without `video` for a table that lacks that column. */
  datatype Columns = AllColumns | WithoutVideo

  /** The backend's answers to the posts query filtered by an author id, for a
      column set. */
  type PostsQuery = (string, Columns) -> Remote<seq<PostRow>>

  /** A posts query that only returns rows of the author it filters by. */
  ghost predicate FilteredByAuthor(query: PostsQuery) {
    forall author, cols :: query(author, cols).Ok? ==>
      forall i :: 0 <= i < |query(author, cols).data| ==> query(author, cols).data[i].authorId == author
  }

  /** The reduced query selects no `video` column, so none of its rows carries
      a video. */
  predicate ReducedRepliesLackVideo(query: PostsQuery, author: string) {
    query(author, WithoutVideo).Ok? ==>
      forall i :: 0 <= i < |query(author, WithoutVideo).data| ==> query(author, WithoutVideo).data[i].video.None?
  }

  /** The queries issued, in order, and the resulting post list. */
  datatype PostsFetch = PostsFetch(queried: seq<Columns>, posts: seq<PostRow>)

  /** `fetchUserPosts` for the viewed uid: the profile's row id is looked up by
      uid, and the posts are queried by that id. A first reply whose error
      mentions "video" triggers exactly one reduced query; the list is replaced
      only by rows actually returned. */
  function FetchUserPosts(viewingUid: string, lookup: UidLookup, query: PostsQuery, posts: seq<PostRow>)
    : (r: PostsFetch)
    ensures lookup(viewingUid).None? ==> r == PostsFetch([], posts)
    ensures lookup(viewingUid).Some? ==> 1 <= |r.queried| <= 2 && r.queried[0] == AllColumns
    ensures lookup(viewingUid).Some? ==> var a := lookup(viewingUid).value.id;
      && (|r.queried| == 2 <==> query(a, AllColumns).Err? && Contains(query(a, AllColumns).message, "video"))
      && (|r.queried| == 2 ==> r.queried[1] == WithoutVideo)
      && (|r.queried| == 2 ==> r.posts == (if query(a, WithoutVideo).Ok? then query(a, WithoutVideo).data else posts))
      && (|r.queried| == 1 ==> r.posts == (if query(a, AllColumns).Ok? then query(a, AllColumns).data else posts))
    ensures lookup(viewingUid).Some? && |r.queried| == 2 ==> var a := lookup(viewingUid).value.id;
      query(a, WithoutVideo).Ok? && ReducedRepliesLackVideo(query, a) ==>
        forall i :: 0 <= i < |r.posts| ==> r.posts[i].video.None?
    ensures KeyedByUid(lookup) && FilteredByAuthor(query) && r.posts != posts ==>
      && lookup(viewingUid).Some? && lookup(viewingUid).value.uid == viewingUid
      && forall i :: 0 <= i < |r.posts| ==> r.posts[i].authorId == lookup(viewingUid).value.id
  {
    match lookup(viewingUid)
    case None => PostsFetch([], posts)
    case Some(row) =>
      var first := query(row.id, AllColumns);
      if first.Err? && Contains(first.message, "video") then
        var second := query(row.id, WithoutVideo);
        PostsFetch([AllColumns, WithoutVideo], if second.Ok? then second.data else posts)
      else
        PostsFetch([AllColumns], if first.Ok? then first.data else posts)
  }

  /** Whatever the replies, the reduced query is never asked for twice and
      never before the full one. */
  lemma RetryIsOneShot(viewingUid: string, lookup: UidLookup, query: PostsQuery, posts: seq<PostRow>)
    ensures var r := FetchUserPosts(viewingUid, lookup, query, posts);
      forall i :: 0 <= i < |r.queried| ==> (r.queried[i] == WithoutVideo <==> i == 1)
  {
  }

  // ---------------------------------------------------------------------------
  // Ownership, realtime updates and inline editing

  /** The page shows the signed-in user's own profile. */
  predicate IsMe(me: User, viewingUid: string) {
    me.uid == viewingUid
  }

  /** The state of the profile page this model tracks. */
  datatype ProfileState = ProfileState(
    profile: Option<ProfileRow>,
    loading: bool,
    editedBio: string,
    editedName: string,
    isUpdating: bool)

  /** The state the page mounts with: no profile, loading, empty drafts. */
  const Mounted: ProfileState := ProfileState(None, true, "", "", false)

  /** The profile held, if any, is the viewed uid's. */
  predicate ShowsViewed(s: ProfileState, viewingUid: string) {
    s.profile.Some? ==> s.profile.value.uid == viewingUid
  }

  /** `fetchProfile` for the viewed uid: a row the lookup returns becomes the
      profile and seeds the name and bio drafts, and loading ends either way.
      With a lookup keyed by uid, a newly installed profile is the viewed
      uid's. */
  function FetchProfile(s: ProfileState, viewingUid: string, lookup: UidLookup): (r: ProfileState)
    ensures !r.loading && r.isUpdating == s.isUpdating
    ensures lookup(viewingUid).None? ==> r == s.(loading := false)
    ensures lookup(viewingUid).Some? ==> r.profile == lookup(viewingUid) && r.editedName == lookup(viewingUid).value.name
    ensures lookup(viewingUid).Some? ==>
      r.editedBio == (if lookup(viewingUid).value.bio.Some? then lookup(viewingUid).value.bio.value else "")
    ensures KeyedByUid(lookup) && r.profile.Some? && r.profile != s.profile ==> r.profile.value.uid == viewingUid
  {
    match lookup(viewingUid)
    case Some(d) => s.(profile := Some(d), editedBio := OrElse(d.bio, Some("")).value, editedName := d.name, loading := false)
    case None => s.(loading := false)
  }

  /** The realtime `profiles` update handler: only an update of the viewed uid
      replaces the local profile. */
  function OnProfileUpdate(s: ProfileState, viewingUid: string, updated: ProfileRow): (r: ProfileState)
    ensures updated.uid == viewingUid ==> r == s.(profile := Some(updated))
    ensures updated.uid != viewingUid ==> r == s
  {
    if updated.uid == viewingUid then s.(profile := Some(updated)) else s
  }

  /** The realtime handler applied to a stream of updates, in delivery order. */
  function ApplyUpdates(s: ProfileState, viewingUid: string, updates: seq<ProfileRow>): ProfileState
    decreases |updates|
  {
    if |updates| == 0 then s
    else ApplyUpdates(OnProfileUpdate(s, viewingUid, updates[0]), viewingUid, updates[1..])
  }

  /** Any sequence of realtime updates keeps the profile held the viewed uid's,
      and leaves `loading` alone. */
  lemma {:induction false} UpdatesStayInScope(s: ProfileState, viewingUid: string, updates: seq<ProfileRow>)
    requires ShowsViewed(s, viewingUid)
    ensures ShowsViewed(ApplyUpdates(s, viewingUid, updates), viewingUid)
    ensures ApplyUpdates(s, viewingUid, updates).loading == s.loading
    decreases |updates|
  {
    if |updates| > 0 {
      UpdatesStayInScope(OnProfileUpdate(s, viewingUid, updates[0]), viewingUid, updates[1..]);
    }
  }

  /** The column changes the page can request of the signed-in profile: a new
      photo or cover (as data URLs), the draft name, the draft bio. */
  datatype ProfileUpdate = SetPhoto(photo: string) | SetCover(cover: string) | SetName(name: string) | SetBio(bio: string)

  /** The update sent to `profiles`: the change, applied to the row whose id is
      the signed-in user's `dbId` (which the user record may lack). */
  datatype UpdateRequest = UpdateRequest(change: ProfileUpdate, rowId: Option<string>)

  /** What `handleUpdate` does: the update sent, the next state and whether the
      app shell is told to reload the signed-in user. */
  datatype UpdateOutcome = UpdateOutcome(request: UpdateRequest, state: ProfileState, notifyApp: bool)

  /** The state while an update is in flight: only `isUpdating` is set. */
  function BeginUpdate(s: ProfileState): (r: ProfileState)
    ensures r.isUpdating
    ensures r.(isUpdating := s.isUpdating) == s
  {
    s.(isUpdating := true)
  }

  /** `handleUpdate(change)` by the user with row id `dbId` on the page viewing
      `viewingUid`, given the update's reply and the lookup the follow-up
      `fetchProfile` reads. Only a successful update notifies the app and
      reloads the profile; `isUpdating` ends false either way. */
  function HandleUpdate(
    s: ProfileState, change: ProfileUpdate, dbId: Option<string>, result: Remote<()>,
    viewingUid: string, reread: UidLookup)
    : (r: UpdateOutcome)
    ensures r.request == UpdateRequest(change, dbId)
    ensures !r.state.isUpdating
    ensures r.notifyApp <==> result.Ok?
    ensures result.Err? ==> r.state == s.(isUpdating := false)
    ensures result.Ok? ==> r.state == FetchProfile(s, viewingUid, reread).(isUpdating := false)
    ensures KeyedByUid(reread) && ShowsViewed(s, viewingUid) ==> ShowsViewed(r.state, viewingUid)
  {
    var busy := BeginUpdate(s);
    var request := UpdateRequest(change, dbId);
    if result.Ok? then UpdateOutcome(request, FetchProfile(busy, viewingUid, reread).(isUpdating := false), true)
    else UpdateOutcome(request, busy.(isUpdating := false), false)
  }

  /** What reaches a mounted page: a realtime row update, or one of its own
      updates with its reply and the lookup the re-read then sees. */
  datatype PageEvent =
    | Realtime(updated: ProfileRow)
    | Update(change: ProfileUpdate, result: Remote<()>, reread: UidLookup)

  /** The page's reaction to one event. */
  function Step(s: ProfileState, viewingUid: string, dbId: Option<string>, e: PageEvent): ProfileState {
    match e
    case Realtime(row) => OnProfileUpdate(s, viewingUid, row)
    case Update(change, result, reread) => HandleUpdate(s, change, dbId, result, viewingUid, reread).state
  }

  /** The page's reaction to a stream of events, in order. */
  function Run(s: ProfileState, viewingUid: string, dbId: Option<string>, events: seq<PageEvent>): ProfileState
    decreases |events|
  {
    if |events| == 0 then s else Run(Step(s, viewingUid, dbId, events[0]), viewingUid, dbId, events[1..])
  }

  /** Every re-read in the stream is keyed by uid. */
  ghost predicate RereadsKeyed(events: seq<PageEvent>) {
    forall i :: 0 <= i < |events| && events[i].Update? ==> KeyedByUid(events[i].reread)
  }

  /** Realtime updates and the page's own updates keep the profile held the
      viewed uid's. */
  lemma {:induction false} RunStaysInScope(s: ProfileState, viewingUid: string, dbId: Option<string>, events: seq<PageEvent>)
    requires ShowsViewed(s, viewingUid) && RereadsKeyed(events)
    ensures ShowsViewed(Run(s, viewingUid, dbId, events), viewingUid)
    decreases |events|
  {
    if |events| > 0 {
      assert RereadsKeyed(events[1..]) by {
        forall i | 0 <= i < |events[1..]| && events[1..][i].Update?
          ensures KeyedByUid(events[1..][i].reread)
        {
          assert events[1..][i] == events[i + 1];
        }
      }
      assert events[0].Update? ==> KeyedByUid(events[0].reread);
      RunStaysInScope(Step(s, viewingUid, dbId, events[0]), viewingUid, dbId, events[1..]);
    }
  }

  /** From mount on, whatever realtime updates and own updates follow the first
      fetch, the page only ever holds the viewed uid's profile. */
  lemma PageShowsOnlyViewedProfile(viewingUid: string, dbId: Option<string>, lookup: UidLookup, events: seq<PageEvent>)
    requires KeyedByUid(lookup) && RereadsKeyed(events)
    ensures ShowsViewed(Run(FetchProfile(Mounted, viewingUid, lookup), viewingUid, dbId, events), viewingUid)
  {
    RunStaysInScope(FetchProfile(Mounted, viewingUid, lookup), viewingUid, dbId, events);
  }

  /** The Save Name button is disabled while an update runs or while the draft
      name is blank. */
  function SaveNameDisabled(s: ProfileState): (disabled: bool)
    ensures disabled <==> s.isUpdating || IsBlank(s.editedName)
  {
    TrimEmptyIffBlank(s.editedName);
    s.isUpdating || Trim(s.editedName) == ""
  }

  /** Save Name stays disabled for the whole time an update is in flight, and
      after a failed update the disabling condition is false again exactly when
      the draft name is not blank. */
  lemma SaveNameBlockedDuringUpdate(
    s: ProfileState, change: ProfileUpdate, dbId: Option<string>, msg: string, viewingUid: string, reread: UidLookup)
    ensures SaveNameDisabled(BeginUpdate(s))
    ensures !SaveNameDisabled(HandleUpdate(s, change, dbId, Err(msg), viewingUid, reread).state) <==> !IsBlank(s.editedName)
  {
  }

  /** An enabled Save Name sends a non-blank name to the signed-in user's row. */
  lemma SaveNameSendsDraft(
    s: ProfileState, dbId: Option<string>, result: Remote<()>, viewingUid: string, reread: UidLookup)
    requires !SaveNameDisabled(s)
    ensures var r := HandleUpdate(s, SetName(s.editedName), dbId, result, viewingUid, reread);
      r.request.change.SetName? && r.request.change.name == s.editedName
      && !IsBlank(r.request.change.name) && r.request.rowId == dbId
  {
  }

  /** A fetched profile seeds the name draft, so Save Name is enabled after a
      fetch that finds a row exactly when its name is not blank and no update
      runs. */
  lemma FetchedProfileSeedsDrafts(s: ProfileState, viewingUid: string, lookup: UidLookup)
    requires lookup(viewingUid).Some?
    ensures SaveNameDisabled(FetchProfile(s, viewingUid, lookup)) <==>
      s.isUpdating || IsBlank(lookup(viewingUid).value.name)
  {
  }
}
