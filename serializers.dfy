/** The projections of library objects into the plain records the tools
    return (`_serialize_submission`, `_serialize_comment`,
    `_serialize_redditor`). Long texts are cut to 500 characters, a
    deleted author shows as "[deleted]", and permalinks become absolute. */
module Serializers {

  import opened Wrappers
  import opened Strings

  const MaxExcerptLength: nat := 500
  const DeletedAuthor := "[deleted]"
  const RedditOrigin := "https://reddit.com"

  /** A post as the client library presents it. `author` is the author's
      name, or `None` when the account is gone; `upvoteRatio` and
      `createdUtc` are floating-point values that are only copied. */
  datatype Submission = Submission(
    id: string, title: string, author: Option<string>, subreddit: string,
    score: int, upvoteRatio: real, numComments: int, createdUtc: real,
    url: string, permalink: string, selftext: string, isSelf: bool,
    linkFlairText: Option<string>)

  /** A comment as the client library presents it. `submissionId` is the
      id of the post it belongs to, or `None` when the object has no
      `submission` attribute. */
  datatype Comment = Comment(
    id: string, author: Option<string>, body: string, score: int,
    createdUtc: real, permalink: string, parentId: string,
    submissionId: Option<string>)

  /** A user account as the client library presents it. */
  datatype Redditor = Redditor(
    name: string, id: string, createdUtc: real, linkKarma: int,
    commentKarma: int, isGold: bool, isMod: bool, hasVerifiedEmail: bool)

  /** The returned record of a post. */
  datatype SubmissionRecord = SubmissionRecord(
    id: string, title: string, author: string, subreddit: string,
    score: int, upvoteRatio: real, numComments: int, createdUtc: real,
    url: string, permalink: string, selftext: string, isSelf: bool,
    linkFlairText: Option<string>)

  /** The returned record of a comment. */
  datatype CommentRecord = CommentRecord(
    id: string, author: string, body: string, score: int,
    createdUtc: real, permalink: string, parentId: string,
    submissionId: Option<string>)

  /** The returned record of a user account. */
  datatype RedditorRecord = RedditorRecord(
    name: string, id: string, createdUtc: real, linkKarma: int,
    commentKarma: int, isGold: bool, isMod: bool, hasVerifiedEmail: bool)

  /** `str(author) if author else "[deleted]"`. */
  function AuthorName(author: Option<string>): (r: string)
    ensures author.None? ==> r == DeletedAuthor
    ensures author.Some? ==> r == author.value
  {
    match author
    case None => DeletedAuthor
    case Some(name) => name
  }

  /** `text[:500] if text else ""`. */
  function ShortText(text: string): (r: string)
    ensures |r| <= MaxExcerptLength
    ensures IsPrefix(r, text)
    ensures |text| <= MaxExcerptLength ==> r == text
    ensures MaxExcerptLength <= |text| ==> |r| == MaxExcerptLength
  {
    if text != "" then Take(text, MaxExcerptLength) else ""
  }

  /** The absolute form of a site-relative permalink. */
  function AbsoluteLink(path: string): (r: string)
    ensures StripPrefix(RedditOrigin, r) == Some(path)
  {
    StripPrefixOfConcat(RedditOrigin, path);
    RedditOrigin + path
  }

  function SerializeSubmission(s: Submission): (r: SubmissionRecord)
    ensures r.id == s.id && r.title == s.title && r.subreddit == s.subreddit
    ensures r.score == s.score && r.upvoteRatio == s.upvoteRatio
    ensures r.numComments == s.numComments && r.createdUtc == s.createdUtc
    ensures r.url == s.url && r.isSelf == s.isSelf && r.linkFlairText == s.linkFlairText
    ensures r.author == AuthorName(s.author)
    ensures StripPrefix(RedditOrigin, r.permalink) == Some(s.permalink)
    ensures |r.selftext| <= MaxExcerptLength && IsPrefix(r.selftext, s.selftext)
    ensures |s.selftext| <= MaxExcerptLength ==> r.selftext == s.selftext
    ensures MaxExcerptLength <= |s.selftext| ==> |r.selftext| == MaxExcerptLength
  {
    SubmissionRecord(
      s.id, s.title, AuthorName(s.author), s.subreddit, s.score, s.upvoteRatio,
      s.numComments, s.createdUtc, s.url, AbsoluteLink(s.permalink),
      ShortText(s.selftext), s.isSelf, s.linkFlairText)
  }

  function SerializeComment(c: Comment): (r: CommentRecord)
    ensures r.id == c.id && r.score == c.score && r.createdUtc == c.createdUtc
    ensures r.parentId == c.parentId && r.submissionId == c.submissionId
    ensures r.author == AuthorName(c.author)
    ensures StripPrefix(RedditOrigin, r.permalink) == Some(c.permalink)
    ensures |r.body| <= MaxExcerptLength && IsPrefix(r.body, c.body)
    ensures |c.body| <= MaxExcerptLength ==> r.body == c.body
    ensures MaxExcerptLength <= |c.body| ==> |r.body| == MaxExcerptLength
  {
    CommentRecord(
      c.id, AuthorName(c.author), ShortText(c.body), c.score, c.createdUtc,
      AbsoluteLink(c.permalink), c.parentId, c.submissionId)
  }

  function SerializeRedditor(u: Redditor): (r: RedditorRecord)
    ensures r.name == u.name && r.id == u.id && r.createdUtc == u.createdUtc
    ensures r.linkKarma == u.linkKarma && r.commentKarma == u.commentKarma
    ensures r.isGold == u.isGold && r.isMod == u.isMod && r.hasVerifiedEmail == u.hasVerifiedEmail
  {
    RedditorRecord(u.name, u.id, u.createdUtc, u.linkKarma, u.commentKarma,
                   u.isGold, u.isMod, u.hasVerifiedEmail)
  }

  /** Reads a user record back: the redditor projection loses nothing. */
  function RedditorOfRecord(r: RedditorRecord): Redditor
  {
    Redditor(r.name, r.id, r.createdUtc, r.linkKarma, r.commentKarma,
             r.isGold, r.isMod, r.hasVerifiedEmail)
  }

  lemma RedditorRoundTrip(u: Redditor)
    ensures RedditorOfRecord(SerializeRedditor(u)) == u
  {
  }

  /** A post whose text fits and whose author still exists can be read back
      from its record: in that case the projection loses nothing. */
  function SubmissionOfRecord(r: SubmissionRecord): Option<Submission>
  {
    match StripPrefix(RedditOrigin, r.permalink)
    case None => None
    case Some(path) =>
      Some(Submission(r.id, r.title, Some(r.author), r.subreddit, r.score, r.upvoteRatio,
                      r.numComments, r.createdUtc, r.url, path, r.selftext, r.isSelf,
                      r.linkFlairText))
  }

  lemma SubmissionRoundTrip(s: Submission)
    requires s.author.Some? && |s.selftext| <= MaxExcerptLength
    ensures SubmissionOfRecord(SerializeSubmission(s)) == Some(s)
  {
  }

  /** `[_serialize_submission(p) for p in posts]`. */
  function SerializeSubmissions(posts: seq<Submission>): (r: seq<SubmissionRecord>)
    ensures |r| == |posts|
    ensures forall i :: 0 <= i < |posts| ==> r[i] == SerializeSubmission(posts[i])
  {
    if posts == [] then []
    else [SerializeSubmission(posts[0])] + SerializeSubmissions(posts[1..])
  }

  /** `[_serialize_comment(c) for c in comments]`. */
  function SerializeComments(comments: seq<Comment>): (r: seq<CommentRecord>)
    ensures |r| == |comments|
    ensures forall i :: 0 <= i < |comments| ==> r[i] == SerializeComment(comments[i])
  {
    if comments == [] then []
    else [SerializeComment(comments[0])] + SerializeComments(comments[1..])
  }
}
