/** The feed page: the publish guard, the inserted row and the composer reset,
    the classification of a failed posts fetch, and the author placeholder. */
module FeedPage {
  import opened Common
  import opened Types

  /** The message shown when the posts table lacks a usable `author_id`. */
  const SetupMessage: string :=
    "Database 'author_id' check failed. Please ensure the posts table has author_id linked to profiles."

  /** The prefix of the alert raised by a failed publish. */
  const PublishErrorPrefix: string := "Publish Error: "

  datatype FeedState = FeedState(
    posts: seq<PostRow>,
    content: string,
    media: Option<string>,
    isPosting: bool,
    setupRequired: Option<string>)

  /** Nothing to publish: the text trims to empty and no media is attached. */
  predicate NothingToPublish(s: FeedState) {
    Trim(s.content) == "" && !Truthy(s.media)
  }

  /** The publish button is disabled while posting or with nothing to publish. */
  function PublishDisabled(s: FeedState): (disabled: bool)
    ensures disabled <==> s.isPosting || (IsBlank(s.content) && !Truthy(s.media))
  {
    TrimEmptyIffBlank(s.content);
    s.isPosting || NothingToPublish(s)
  }

  /** The row `handlePost` inserts. */
  datatype PostInsert = PostInsert(authorId: Option<string>, content: string, image: Option<string>)

  /** What a publish does: the next state, the row inserted (if any), the alert
      raised (if any) and whether the feed is re-fetched. */
  datatype PublishOutcome = PublishOutcome(state: FeedState, insert: Option<PostInsert>, alert: Option<string>, refetch: bool)

  /** `handlePost` by the user with profile id `dbId`, given the insert's reply
      (consulted only when the insert is issued). */
  function Publish(s: FeedState, dbId: Option<string>, result: Remote<()>): (r: PublishOutcome)
    ensures r.insert.None? <==> IsBlank(s.content) && !Truthy(s.media)
    ensures r.insert.None? ==> r == PublishOutcome(s, None, None, false)
    ensures r.insert.Some? ==> r.insert.value == PostInsert(dbId, s.content, s.media)
    ensures r.insert.Some? ==> !r.state.isPosting
    ensures r.insert.Some? && result.Ok? ==>
      r.state == s.(content := "", media := None, isPosting := false) && r.refetch && r.alert.None?
    ensures r.insert.Some? && result.Err? ==>
      r.state == s.(isPosting := false) && !r.refetch && r.alert == Some(PublishErrorPrefix + result.message)
  {
    TrimEmptyIffBlank(s.content);
    if NothingToPublish(s) then PublishOutcome(s, None, None, false)
    else
      var busy := s.(isPosting := true);
      var row := PostInsert(dbId, s.content, s.media);
      match result
      case Ok(_) => PublishOutcome(busy.(content := "", media := None, isPosting := false), Some(row), None, true)
      case Err(msg) => PublishOutcome(busy.(isPosting := false), Some(row), Some(PublishErrorPrefix + msg), false)
  }

  /** A successful publish clears the composer, so publishing again at once
      inserts nothing. */
  lemma PublishTwiceInsertsOnce(s: FeedState, dbId: Option<string>, first: Remote<()>, second: Remote<()>)
    requires Publish(s, dbId, first).insert.Some? && first.Ok?
    ensures Publish(Publish(s, dbId, first).state, dbId, second).insert.None?
  {
  }

  /** A failed publish keeps text and media, so a retry inserts the same row. */
  lemma FailedPublishRetriesSameRow(s: FeedState, dbId: Option<string>, msg: string, second: Remote<()>)
    requires Publish(s, dbId, Err(msg)).insert.Some?
    ensures Publish(Publish(s, dbId, Err(msg)).state, dbId, second).insert == Publish(s, dbId, Err(msg)).insert
  {
  }

  /** `fetchPosts` given the query's reply: `setupRequired` is cleared first and
      set again only for an error mentioning `author_id`; an error keeps the
      post list, rows replace it. */
  function FetchPosts(s: FeedState, reply: Remote<seq<PostRow>>): (r: FeedState)
    ensures r.content == s.content && r.media == s.media && r.isPosting == s.isPosting
    ensures r.setupRequired.Some? <==> reply.Err? && Contains(reply.message, "author_id")
    ensures r.setupRequired.Some? ==> r.setupRequired.value == SetupMessage
    ensures r.posts == (if reply.Ok? then reply.data else s.posts)
  {
    var cleared := s.(setupRequired := None);
    match reply
    case Err(msg) => if Contains(msg, "author_id") then cleared.(setupRequired := Some(SetupMessage)) else cleared
    case Ok(rows) => cleared.(posts := rows)
  }

  /** A successful fetch after a schema complaint clears the complaint: the
      state never remembers an earlier fetch's error. */
  lemma FetchForgetsEarlierError(s: FeedState, first: Remote<seq<PostRow>>, rows: seq<PostRow>)
    ensures FetchPosts(FetchPosts(s, first), Ok(rows)) == FetchPosts(s, Ok(rows))
  {
  }

  /** The author card drawn above a post. */
  datatype AuthorCard = AuthorCard(name: string, profilePhoto: string, uid: string)

  /** The card drawn for a post whose author profile was not joined. */
  const PlaceholderAuthor: AuthorCard := AuthorCard("Identity", "https://i.pravatar.cc/150", "???")

  /** The author shown above a post: the joined profile, or the placeholder. */
  function AuthorOf(p: PostRow): (a: AuthorCard)
    ensures p.author.None? ==> a == PlaceholderAuthor
    ensures p.author.Some? ==>
      a.uid == p.author.value.uid && a.name == p.author.value.name && a.profilePhoto == p.author.value.profilePhoto
  {
    match p.author
    case Some(q) => AuthorCard(q.name, q.profilePhoto, q.uid)
    case None => PlaceholderAuthor
  }
}
