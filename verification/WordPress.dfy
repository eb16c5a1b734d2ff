/** The part of WordPress the importer talks to, made abstract: a user
    directory behind get_users(), wp_insert_post() as an oracle that may
    fail, and update_field() as a logged write. */
module WordPress {
  import opened Strings
  import opened Records

  /** A WordPress user as get_users() returns it. */
  datatype User = User(id: nat, displayName: string)

  /** For each value of the `numero_de_identificacion` user meta, the first
      user get_users() returns for it; a value with no entry matches nobody. */
  type Directory = map<string, User>

  /** get_users(['meta_key' => 'numero_de_identificacion',
      'meta_value' => v, 'number' => 1]): the first match, if any. */
  function GetUsers(users: Directory, v: string): (r: Option<User>)
  {
    if v in users then Some(users[v]) else None
  }

  /** What wp_insert_post() returns: a post id (0 means failure) or a
      WP_Error. */
  datatype Reply = PostId(id: nat) | WpError

  /** The reply to insert call number `n` of an oracle. */
  function ReplyAt(answer: nat -> Reply, n: nat): Reply {
    answer(n)
  }

  /** The post array handed to wp_insert_post(); `author` is None when the
      caller leaves `post_author` out. */
  datatype PostArgs = PostArgs(postType: string, title: string, status: string, author: Option<nat>)

  /** The field a write targets; UnsetKey stands for a target variable that
      was never assigned. */
  datatype FieldKey = Key(name: string) | UnsetKey

  datatype FieldValue =
    | Text(text: string)
    | SongRows(songs: seq<Song>)
    | TrackRows(layout: TrackLayout, tracks: seq<CliTrack>)

  /** One update_field() call. */
  datatype FieldWrite = FieldWrite(postId: nat, key: FieldKey, value: FieldValue)

  /** The backend as the importer sees it. `answer(n)` is what the n-th
      call to wp_insert_post() (counting from 0) returns, so every sequence
      of successes and failures is covered. */
  class Backend {
    const users: Directory
    const answer: nat -> Reply
    /** Every wp_insert_post() call so far, in order. */
    var calls: seq<PostArgs>
    /** Every update_field() call so far, in order. */
    var writes: seq<FieldWrite>

    constructor (users: Directory, answer: nat -> Reply)
      ensures this.users == users && this.answer == answer
      ensures calls == [] && writes == []
    {
      this.users := users;
      this.answer := answer;
      calls := [];
      writes := [];
    }

    /** wp_insert_post(): the call is recorded, the oracle answers. */
    method InsertPost(args: PostArgs) returns (r: Reply)
      modifies this
      ensures r == ReplyAt(answer, |old(calls)|)
      ensures calls == old(calls) + [args] && writes == old(writes)
    {
      r := ReplyAt(answer, |calls|);
      calls := calls + [args];
    }

    /** update_field() (or update_post_meta() without ACF): the write is
      recorded. */
    method UpdateField(key: FieldKey, value: FieldValue, postId: nat)
      modifies this
      ensures writes == old(writes) + [FieldWrite(postId, key, value)]
      ensures calls == old(calls)
    {
      writes := writes + [FieldWrite(postId, key, value)];
    }
  }
}
