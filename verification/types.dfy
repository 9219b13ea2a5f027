/** Record shapes shared by the pages: the signed-in `User` of `types.ts`, and the
    rows of the backend's `profiles`, `messages` and `posts` tables as the pages
    read them. Timestamps are kept as integers (milliseconds), the value
    `new Date(created_at).getTime()` gives; only their order matters here. */
module Types {
  import opened Common

  /** A row of the `profiles` table. */
  datatype ProfileRow = ProfileRow(
    id: string,
    uid: string,
    name: string,
    profilePhoto: string,
    coverPhoto: Option<string>,
    bio: Option<string>,
    createdAt: int)

  /** The joined profile columns `(id, name, profile_photo, uid)`. */
  datatype ProfileRef = ProfileRef(id: string, name: string, profilePhoto: string, uid: string)

  /** The signed-in user held by the app shell. */
  datatype User = User(
    uid: string,
    dbId: Option<string>,
    name: string,
    email: string,
    profilePhoto: string,
    coverPhoto: Option<string>,
    bio: Option<string>,
    joinedAt: int,
    followers: seq<string>,
    following: seq<string>)

  /** A row of the `messages` table with its sender and receiver profiles joined;
      a join finds no profile when the referenced row is absent. */
  datatype MessageRow = MessageRow(
    id: string,
    senderId: string,
    receiverId: string,
    text: Option<string>,
    createdAt: int,
    sender: Option<ProfileRef>,
    receiver: Option<ProfileRef>)

  /** A row of the `posts` table; `author` is the joined `profiles:author_id`
      record, present only when the query asks for the join. */
  datatype PostRow = PostRow(
    id: string,
    authorId: string,
    content: Option<string>,
    image: Option<string>,
    video: Option<string>,
    createdAt: int,
    author: Option<ProfileRef>)
}
