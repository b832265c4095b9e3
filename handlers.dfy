/** The eighteen tools registered by `register_tools`. Every tool checks its
    inputs first and returns an error before any client is requested; then
    it asks for a client, issues one library request and turns what comes
    back, or what the library raised, into a plain record.

    The library itself is not modelled: each tool takes the outcome the
    library would produce (`ApiOutcome`) as a parameter, and reports the
    request it issued in its result, so that what the tool sends and what it
    returns can both be stated. */
module Handlers {

  import opened Wrappers
  import opened Strings
  import opened Validation
  import opened Credentials
  import opened Serializers

  // ---------------------------------------------------------------------------
  // Library requests and outcomes

  /** The body of a new post: its text, or the link it points to. */
  datatype PostBody = SelfText(text: string) | Link(url: string)

  datatype VoteDirection = Up | Down

  /** Which kind of object a vote is cast on: the tools look the id up as a
      post first and fall back to a comment when that lookup raises. */
  datatype VoteTarget = AsSubmission | AsComment

  /** The library request a tool issues once it has a client. */
  datatype Request =
    | Search(subreddit: string, query: string, timeFilter: string, sort: string, limit: int)
    | ListNew(subreddit: string, limit: int)
    | ListHot(subreddit: string, limit: int)
    | FetchSubmission(id: string)
    | FetchComments(id: string, sort: string, limit: int)
    | Submit(subreddit: string, title: string, body: PostBody, flairId: Option<string>)
    | ReplyUnderSubmission(id: string, text: string)
    | ReplyUnderComment(id: string, text: string)
    | Edit(id: string, text: string)
    | Delete(id: string)
    | FetchRedditor(name: string)
    | Vote(id: string, direction: VoteDirection, target: VoteTarget)
    | Save(id: string)
    | Remove(id: string, spam: bool)
    | Approve(id: string)
    | Ban(subreddit: string, username: string, duration: Option<int>, reason: string, note: string)

  /** What the library does with a request: returns a value, raises one of
      its own API exceptions, or raises any other exception. */
  datatype ApiOutcome<T> = Returned(value: T) | PrawcoreRaised(message: string) | OtherRaised(message: string)

  datatype ApiCall = ApiCall(client: Client, request: Request)

  // ---------------------------------------------------------------------------
  // Tool results

  /** The record a tool returns on success. Every variant except
      `PostSearch`, `Feed` and `CommentListing` carries `"success": True`. */
  datatype Payload =
    | PostSearch(query: string, subreddit: string, count: int, posts: seq<SubmissionRecord>)
    | Feed(subreddit: string, feedType: string, count: int, posts: seq<SubmissionRecord>)
    | PostDetail(post: SubmissionRecord)
    | CommentListing(postId: string, count: int, comments: seq<CommentRecord>)
    | SubmittedPost(postId: string, permalink: string, post: SubmissionRecord)
    | NewComment(commentId: string, permalink: string)
    | Acknowledged(idKey: string, id: string, message: string)
    | UserProfile(user: RedditorRecord)
    | UserBanned(username: string, subreddit: string, message: string)

  datatype Response = Failed(err: ErrorDict) | Succeeded(payload: Payload)

  /** One run of a tool: whether it asked for a client, the library request
      it issued (if any), and what it returned. */
  datatype Invocation = Invocation(consultedCredentials: bool, call: Option<ApiCall>, response: Response)

  // ---------------------------------------------------------------------------
  // Messages

  const QueryMessage := "Query must be 1-512 characters"
  const SubredditMessage := "Subreddit name must be 1-50 characters"
  const PostIdMessage := "Post ID must be 1-20 characters"
  const CommentIdMessage := "Comment ID must be 1-20 characters"
  const ItemIdMessage := "Item ID must be 1-20 characters"
  const UsernameMessage := "Username must be 1-50 characters"
  const TitleMessage := "Title must be 1-300 characters"
  const NoBodyMessage := "Must provide either content (text post) or url (link post)"
  const TwoBodiesMessage := "Cannot provide both content and url - choose one"
  const ReplyTextMessage := "Reply text must be 1-10000 characters"
  const CommentTextMessage := "Comment text must be 1-10000 characters"

  const ApiErrorPrefix := "Reddit API error: "
  const ModeratorApiErrorPrefix := "Reddit API error (check moderator permissions): "

  const CommentSearchUnsupported := ErrorDict(
    "Comment search not directly supported by PRAW",
    Some("Use reddit_search_posts and then reddit_get_comments for specific posts"))

  // ---------------------------------------------------------------------------
  // The shared shape

  /** An input check failed: the tool returns its message and neither asks
      for a client nor calls the library. */
  function Reject(message: string): (r: Invocation)
    ensures !r.consultedCredentials && r.call.None?
    ensures r.response == Failed(ErrorDict(message, None))
  {
    Invocation(false, None, Failed(ErrorDict(message, None)))
  }

  /** What every tool promises once its inputs passed: it asks for a
      client; a client error is returned unchanged and nothing is sent;
      with a client, exactly `request` is sent; an exception becomes an
      error holding its message behind the library's or the tool's prefix;
      and success needs both a client and a returned value. */
  ghost predicate Dispatched<T>(r: Invocation, cfg: Config, request: Request, api: ApiOutcome<T>,
                                apiPrefix: string, failurePrefix: string)
  {
    var client := GetRedditClient(cfg);
    && r.consultedCredentials
    && (client.Failure? ==> r.call.None? && r.response == Failed(client.error))
    && (client.Success? ==> r.call == Some(ApiCall(client.value, request)))
    && (client.Success? && api.PrawcoreRaised? ==>
          r.response == Failed(ErrorDict(apiPrefix + api.message, None)))
    && (client.Success? && api.OtherRaised? ==>
          r.response == Failed(ErrorDict(failurePrefix + api.message, None)))
    && (r.response.Succeeded? <==> client.Success? && api.Returned?)
  }

  /** Asks for a client, sends `request`, and shapes the outcome. */
  function Invoke<T>(cfg: Config, request: Request, api: ApiOutcome<T>, present: T -> Payload,
                     apiPrefix: string, failurePrefix: string): (r: Invocation)
    ensures Dispatched(r, cfg, request, api, apiPrefix, failurePrefix)
    ensures r.response.Succeeded? ==> r.response.payload == present(api.value)
  {
    match GetRedditClient(cfg)
    case Failure(e) => Invocation(true, None, Failed(e))
    case Success(client) =>
      var response :=
        match api
        case Returned(v) => Succeeded(present(v))
        case PrawcoreRaised(m) => Failed(ErrorDict(apiPrefix + m, None))
        case OtherRaised(m) => Failed(ErrorDict(failurePrefix + m, None));
      Invocation(true, Some(ApiCall(client, request)), response)
  }

  // ---------------------------------------------------------------------------
  // Search and monitoring

  function SearchPosts(cfg: Config, api: ApiOutcome<seq<Submission>>, query: string, subreddit: string := "all",
                       timeFilter: string := "all", sort: string := "relevance", limit: int := 10): (r: Invocation)
    ensures !WithinLength(query, MaxQueryLength) ==> r == Reject(QueryMessage)
    ensures WithinLength(query, MaxQueryLength) ==>
              Dispatched(r, cfg, Search(subreddit, query, timeFilter, sort, ClampLimit(limit, MaxPostLimit)),
                         api, ApiErrorPrefix, "Search failed: ")
    ensures r.call.Some? ==> 1 <= r.call.value.request.limit <= MaxPostLimit
    ensures r.response.Succeeded? ==>
              r.response.payload == PostSearch(query, subreddit, |api.value|, SerializeSubmissions(api.value))
              && r.response.payload.count == |r.response.payload.posts|
  {
    if !WithinLength(query, MaxQueryLength) then Reject(QueryMessage)
    else
      var limit := ClampLimit(limit, MaxPostLimit);
      Invoke(cfg, Search(subreddit, query, timeFilter, sort, limit), api,
             posts => PostSearch(query, subreddit, |posts|, SerializeSubmissions(posts)),
             ApiErrorPrefix, "Search failed: ")
  }

  /** Comment search checks its query and asks for a client, then always
      reports that it is not supported. */
  function SearchComments(cfg: Config, query: string, subreddit: string := "all", timeFilter: string := "all",
                          sort: string := "relevance", limit: int := 10): (r: Invocation)
    ensures !WithinLength(query, MaxQueryLength) ==> r == Reject(QueryMessage)
    ensures WithinLength(query, MaxQueryLength) ==> r.consultedCredentials && r.call.None?
    ensures WithinLength(query, MaxQueryLength) ==>
              r.response == Failed(if GetRedditClient(cfg).Failure? then GetRedditClient(cfg).error
                                   else CommentSearchUnsupported)
    ensures r.response.Failed?
  {
    if !WithinLength(query, MaxQueryLength) then Reject(QueryMessage)
    else match GetRedditClient(cfg)
      case Failure(e) => Invocation(true, None, Failed(e))
      case Success(_) => Invocation(true, None, Failed(CommentSearchUnsupported))
  }

  function GetSubredditNew(cfg: Config, api: ApiOutcome<seq<Submission>>, subreddit: string,
                           limit: int := 25): (r: Invocation)
    ensures !WithinLength(subreddit, MaxSubredditLength) ==> r == Reject(SubredditMessage)
    ensures WithinLength(subreddit, MaxSubredditLength) ==>
              Dispatched(r, cfg, ListNew(subreddit, ClampLimit(limit, MaxPostLimit)),
                         api, ApiErrorPrefix, "Failed to get posts: ")
    ensures r.call.Some? ==> 1 <= r.call.value.request.limit <= MaxPostLimit
    ensures r.response.Succeeded? ==>
              r.response.payload == Feed(subreddit, "new", |api.value|, SerializeSubmissions(api.value))
              && r.response.payload.count == |r.response.payload.posts|
  {
    if !WithinLength(subreddit, MaxSubredditLength) then Reject(SubredditMessage)
    else
      var limit := ClampLimit(limit, MaxPostLimit);
      Invoke(cfg, ListNew(subreddit, limit), api,
             posts => Feed(subreddit, "new", |posts|, SerializeSubmissions(posts)),
             ApiErrorPrefix, "Failed to get posts: ")
  }

  function GetSubredditHot(cfg: Config, api: ApiOutcome<seq<Submission>>, subreddit: string,
                           limit: int := 25): (r: Invocation)
    ensures !WithinLength(subreddit, MaxSubredditLength) ==> r == Reject(SubredditMessage)
    ensures WithinLength(subreddit, MaxSubredditLength) ==>
              Dispatched(r, cfg, ListHot(subreddit, ClampLimit(limit, MaxPostLimit)),
                         api, ApiErrorPrefix, "Failed to get posts: ")
    ensures r.call.Some? ==> 1 <= r.call.value.request.limit <= MaxPostLimit
    ensures r.response.Succeeded? ==>
              r.response.payload == Feed(subreddit, "hot", |api.value|, SerializeSubmissions(api.value))
              && r.response.payload.count == |r.response.payload.posts|
  {
    if !WithinLength(subreddit, MaxSubredditLength) then Reject(SubredditMessage)
    else
      var limit := ClampLimit(limit, MaxPostLimit);
      Invoke(cfg, ListHot(subreddit, limit), api,
             posts => Feed(subreddit, "hot", |posts|, SerializeSubmissions(posts)),
             ApiErrorPrefix, "Failed to get posts: ")
  }

  function GetPost(cfg: Config, api: ApiOutcome<Submission>, postId: string): (r: Invocation)
    ensures !WithinLength(postId, MaxIdLength) ==> r == Reject(PostIdMessage)
    ensures WithinLength(postId, MaxIdLength) ==>
              Dispatched(r, cfg, FetchSubmission(postId), api, ApiErrorPrefix, "Failed to get post: ")
    ensures r.response.Succeeded? ==> r.response.payload == PostDetail(SerializeSubmission(api.value))
  {
    if !WithinLength(postId, MaxIdLength) then Reject(PostIdMessage)
    else
      Invoke(cfg, FetchSubmission(postId), api, (s: Submission) => PostDetail(SerializeSubmission(s)),
             ApiErrorPrefix, "Failed to get post: ")
  }

  function GetComments(cfg: Config, api: ApiOutcome<seq<Comment>>, postId: string, sort: string := "best",
                       limit: int := 50): (r: Invocation)
    ensures !WithinLength(postId, MaxIdLength) ==> r == Reject(PostIdMessage)
    ensures WithinLength(postId, MaxIdLength) ==>
              Dispatched(r, cfg, FetchComments(postId, sort, ClampLimit(limit, MaxCommentLimit)),
                         api, ApiErrorPrefix, "Failed to get comments: ")
    ensures r.call.Some? ==> 1 <= r.call.value.request.limit <= MaxCommentLimit
    ensures r.response.Succeeded? ==>
              r.response.payload == CommentListing(postId, |api.value|, SerializeComments(api.value))
              && r.response.payload.count == |r.response.payload.comments|
  {
    if !WithinLength(postId, MaxIdLength) then Reject(PostIdMessage)
    else
      var limit := ClampLimit(limit, MaxCommentLimit);
      Invoke(cfg, FetchComments(postId, sort, limit), api,
             comments => CommentListing(postId, |comments|, SerializeComments(comments)),
             ApiErrorPrefix, "Failed to get comments: ")
  }

  // ---------------------------------------------------------------------------
  // Content creation

  /** The input checks of `reddit_submit_post`, in the order it runs them. */
  function SubmitPostError(subreddit: string, title: string, content: string, url: string): (e: Option<string>)
    ensures !WithinLength(subreddit, MaxSubredditLength) ==> e == Some(SubredditMessage)
    ensures (WithinLength(subreddit, MaxSubredditLength) && !WithinLength(title, MaxTitleLength))
            ==> e == Some(TitleMessage)
    ensures (WithinLength(subreddit, MaxSubredditLength) && WithinLength(title, MaxTitleLength)
             && content == "" && url == "") ==> e == Some(NoBodyMessage)
    ensures (WithinLength(subreddit, MaxSubredditLength) && WithinLength(title, MaxTitleLength)
             && content != "" && url != "") ==> e == Some(TwoBodiesMessage)
    ensures e.None? <==> WithinLength(subreddit, MaxSubredditLength) && WithinLength(title, MaxTitleLength)
                         && ((content != "") != (url != ""))
  {
    if !WithinLength(subreddit, MaxSubredditLength) then Some(SubredditMessage)
    else if !WithinLength(title, MaxTitleLength) then Some(TitleMessage)
    else if content == "" && url == "" then Some(NoBodyMessage)
    else if content != "" && url != "" then Some(TwoBodiesMessage)
    else None
  }

  /** A link post when a url is given, a text post otherwise. */
  function PostBodyOf(content: string, url: string): (r: PostBody)
    ensures r.Link? <==> url != ""
    ensures r.Link? ==> r.url == url
    ensures r.SelfText? ==> r.text == content
  {
    if url != "" then Link(url) else SelfText(content)
  }

  /** An empty flair id means no flair. */
  function FlairOf(flairId: string): (r: Option<string>)
    ensures r.None? <==> flairId == ""
    ensures r.Some? ==> r.value == flairId
  {
    if flairId != "" then Some(flairId) else None
  }

  function SubmitPost(cfg: Config, api: ApiOutcome<Submission>, subreddit: string, title: string,
                      content: string := "", url: string := "", flairId: string := ""): (r: Invocation)
    ensures SubmitPostError(subreddit, title, content, url).Some? ==>
              r == Reject(SubmitPostError(subreddit, title, content, url).value)
    ensures SubmitPostError(subreddit, title, content, url).None? ==>
              Dispatched(r, cfg, Submit(subreddit, title, PostBodyOf(content, url), FlairOf(flairId)),
                         api, ApiErrorPrefix, "Failed to submit post: ")
    ensures r.call.Some? ==> (content != "") != (url != "")
    ensures r.call.Some? && url != "" ==> r.call.value.request.body == Link(url)
    ensures r.call.Some? && content != "" ==> r.call.value.request.body == SelfText(content)
    ensures r.call.Some? ==> (r.call.value.request.flairId.Some? <==> flairId != "")
    ensures r.response.Succeeded? ==>
              r.response.payload == SubmittedPost(api.value.id, AbsoluteLink(api.value.permalink),
                                                  SerializeSubmission(api.value))
  {
    match SubmitPostError(subreddit, title, content, url)
    case Some(message) => Reject(message)
    case None =>
      Invoke(cfg, Submit(subreddit, title, PostBodyOf(content, url), FlairOf(flairId)), api,
             (s: Submission) => SubmittedPost(s.id, AbsoluteLink(s.permalink), SerializeSubmission(s)),
             ApiErrorPrefix, "Failed to submit post: ")
  }

  function ReplyToPost(cfg: Config, api: ApiOutcome<Comment>, postId: string, text: string): (r: Invocation)
    ensures !WithinLength(postId, MaxIdLength) ==> r == Reject(PostIdMessage)
    ensures WithinLength(postId, MaxIdLength) && !WithinLength(text, MaxTextLength)
            ==> r == Reject(ReplyTextMessage)
    ensures WithinLength(postId, MaxIdLength) && WithinLength(text, MaxTextLength) ==>
              Dispatched(r, cfg, ReplyUnderSubmission(postId, text), api, ApiErrorPrefix, "Failed to reply: ")
    ensures r.response.Succeeded? ==>
              r.response.payload == NewComment(api.value.id, AbsoluteLink(api.value.permalink))
  {
    if !WithinLength(postId, MaxIdLength) then Reject(PostIdMessage)
    else if !WithinLength(text, MaxTextLength) then Reject(ReplyTextMessage)
    else
      Invoke(cfg, ReplyUnderSubmission(postId, text), api,
             (c: Comment) => NewComment(c.id, AbsoluteLink(c.permalink)),
             ApiErrorPrefix, "Failed to reply: ")
  }

  function ReplyToComment(cfg: Config, api: ApiOutcome<Comment>, commentId: string, text: string): (r: Invocation)
    ensures !WithinLength(commentId, MaxIdLength) ==> r == Reject(CommentIdMessage)
    ensures WithinLength(commentId, MaxIdLength) && !WithinLength(text, MaxTextLength)
            ==> r == Reject(ReplyTextMessage)
    ensures WithinLength(commentId, MaxIdLength) && WithinLength(text, MaxTextLength) ==>
              Dispatched(r, cfg, ReplyUnderComment(commentId, text), api, ApiErrorPrefix, "Failed to reply: ")
    ensures r.response.Succeeded? ==>
              r.response.payload == NewComment(api.value.id, AbsoluteLink(api.value.permalink))
  {
    if !WithinLength(commentId, MaxIdLength) then Reject(CommentIdMessage)
    else if !WithinLength(text, MaxTextLength) then Reject(ReplyTextMessage)
    else
      Invoke(cfg, ReplyUnderComment(commentId, text), api,
             (c: Comment) => NewComment(c.id, AbsoluteLink(c.permalink)),
             ApiErrorPrefix, "Failed to reply: ")
  }

  function EditComment(cfg: Config, api: ApiOutcome<()>, commentId: string, newText: string): (r: Invocation)
    ensures !WithinLength(commentId, MaxIdLength) ==> r == Reject(CommentIdMessage)
    ensures WithinLength(commentId, MaxIdLength) && !WithinLength(newText, MaxTextLength)
            ==> r == Reject(CommentTextMessage)
    ensures WithinLength(commentId, MaxIdLength) && WithinLength(newText, MaxTextLength) ==>
              Dispatched(r, cfg, Edit(commentId, newText), api, ApiErrorPrefix, "Failed to edit comment: ")
    ensures r.response.Succeeded? ==>
              r.response.payload == Acknowledged("comment_id", commentId, "Comment edited successfully")
  {
    if !WithinLength(commentId, MaxIdLength) then Reject(CommentIdMessage)
    else if !WithinLength(newText, MaxTextLength) then Reject(CommentTextMessage)
    else
      Invoke(cfg, Edit(commentId, newText), api,
             _ => Acknowledged("comment_id", commentId, "Comment edited successfully"),
             ApiErrorPrefix, "Failed to edit comment: ")
  }

  function DeleteComment(cfg: Config, api: ApiOutcome<()>, commentId: string): (r: Invocation)
    ensures !WithinLength(commentId, MaxIdLength) ==> r == Reject(CommentIdMessage)
    ensures WithinLength(commentId, MaxIdLength) ==>
              Dispatched(r, cfg, Delete(commentId), api, ApiErrorPrefix, "Failed to delete comment: ")
    ensures r.response.Succeeded? ==>
              r.response.payload == Acknowledged("comment_id", commentId, "Comment deleted successfully")
  {
    if !WithinLength(commentId, MaxIdLength) then Reject(CommentIdMessage)
    else
      Invoke(cfg, Delete(commentId), api,
             _ => Acknowledged("comment_id", commentId, "Comment deleted successfully"),
             ApiErrorPrefix, "Failed to delete comment: ")
  }

  // ---------------------------------------------------------------------------
  // User engagement

  function GetUserProfile(cfg: Config, api: ApiOutcome<Redditor>, username: string): (r: Invocation)
    ensures !WithinLength(username, MaxUsernameLength) ==> r == Reject(UsernameMessage)
    ensures WithinLength(username, MaxUsernameLength) ==>
              Dispatched(r, cfg, FetchRedditor(username), api, ApiErrorPrefix, "Failed to get user profile: ")
    ensures r.response.Succeeded? ==> r.response.payload == UserProfile(SerializeRedditor(api.value))
  {
    if !WithinLength(username, MaxUsernameLength) then Reject(UsernameMessage)
    else
      Invoke(cfg, FetchRedditor(username), api, (u: Redditor) => UserProfile(SerializeRedditor(u)),
             ApiErrorPrefix, "Failed to get user profile: ")
  }

  /** The object a vote lands on: a post, unless looking the id up as a
      post raised. */
  function VoteTargetOf(submissionLookupRaised: bool): (r: VoteTarget)
    ensures r == AsComment <==> submissionLookupRaised
  {
    if submissionLookupRaised then AsComment else AsSubmission
  }

  function Upvote(cfg: Config, api: ApiOutcome<()>, itemId: string, submissionLookupRaised: bool): (r: Invocation)
    ensures !WithinLength(itemId, MaxIdLength) ==> r == Reject(ItemIdMessage)
    ensures WithinLength(itemId, MaxIdLength) ==>
              Dispatched(r, cfg, Vote(itemId, Up, VoteTargetOf(submissionLookupRaised)),
                         api, ApiErrorPrefix, "Failed to upvote: ")
    ensures r.response.Succeeded? ==>
              r.response.payload == Acknowledged("item_id", itemId, "Upvoted successfully")
  {
    if !WithinLength(itemId, MaxIdLength) then Reject(ItemIdMessage)
    else
      Invoke(cfg, Vote(itemId, Up, VoteTargetOf(submissionLookupRaised)), api,
             _ => Acknowledged("item_id", itemId, "Upvoted successfully"),
             ApiErrorPrefix, "Failed to upvote: ")
  }

  function Downvote(cfg: Config, api: ApiOutcome<()>, itemId: string, submissionLookupRaised: bool): (r: Invocation)
    ensures !WithinLength(itemId, MaxIdLength) ==> r == Reject(ItemIdMessage)
    ensures WithinLength(itemId, MaxIdLength) ==>
              Dispatched(r, cfg, Vote(itemId, Down, VoteTargetOf(submissionLookupRaised)),
                         api, ApiErrorPrefix, "Failed to downvote: ")
    ensures r.response.Succeeded? ==>
              r.response.payload == Acknowledged("item_id", itemId, "Downvoted successfully")
  {
    if !WithinLength(itemId, MaxIdLength) then Reject(ItemIdMessage)
    else
      Invoke(cfg, Vote(itemId, Down, VoteTargetOf(submissionLookupRaised)), api,
             _ => Acknowledged("item_id", itemId, "Downvoted successfully"),
             ApiErrorPrefix, "Failed to downvote: ")
  }

  function SavePost(cfg: Config, api: ApiOutcome<()>, postId: string): (r: Invocation)
    ensures !WithinLength(postId, MaxIdLength) ==> r == Reject(PostIdMessage)
    ensures WithinLength(postId, MaxIdLength) ==>
              Dispatched(r, cfg, Save(postId), api, ApiErrorPrefix, "Failed to save post: ")
    ensures r.response.Succeeded? ==>
              r.response.payload == Acknowledged("post_id", postId, "Post saved successfully")
  {
    if !WithinLength(postId, MaxIdLength) then Reject(PostIdMessage)
    else
      Invoke(cfg, Save(postId), api,
             _ => Acknowledged("post_id", postId, "Post saved successfully"),
             ApiErrorPrefix, "Failed to save post: ")
  }

  // ---------------------------------------------------------------------------
  // Moderation

  const SpamNote := "marked as spam and "
  const RemovedNote := "removed successfully"

  /** The confirmation of a removal; it mentions spam exactly when the post
      was removed as spam. */
  function RemovalMessage(spam: bool): (m: string)
    ensures IsPrefix("Post ", m)
    ensures spam <==> IsPrefix("Post " + SpamNote, m)
    ensures spam ==> m == "Post " + SpamNote + RemovedNote
    ensures !spam ==> m == "Post " + RemovedNote
  {
    var done := RemovedNote;
    if spam then
      StripPrefixOfConcat("Post " + SpamNote, done);
      StripPrefixOfConcat("Post ", SpamNote + done);
      "Post " + SpamNote + done
    else
      var m := "Post " + done;
      StripPrefixOfConcat("Post ", done);
      assert m[5] == 'r' && ("Post " + SpamNote)[5] == 'm';
      m
  }

  function RemovePost(cfg: Config, api: ApiOutcome<()>, postId: string, spam: bool := false): (r: Invocation)
    ensures !WithinLength(postId, MaxIdLength) ==> r == Reject(PostIdMessage)
    ensures WithinLength(postId, MaxIdLength) ==>
              Dispatched(r, cfg, Remove(postId, spam), api, ModeratorApiErrorPrefix, "Failed to remove post: ")
    ensures r.response.Succeeded? ==>
              r.response.payload == Acknowledged("post_id", postId, RemovalMessage(spam))
  {
    if !WithinLength(postId, MaxIdLength) then Reject(PostIdMessage)
    else
      Invoke(cfg, Remove(postId, spam), api,
             _ => Acknowledged("post_id", postId, RemovalMessage(spam)),
             ModeratorApiErrorPrefix, "Failed to remove post: ")
  }

  function ApprovePost(cfg: Config, api: ApiOutcome<()>, postId: string): (r: Invocation)
    ensures !WithinLength(postId, MaxIdLength) ==> r == Reject(PostIdMessage)
    ensures WithinLength(postId, MaxIdLength) ==>
              Dispatched(r, cfg, Approve(postId), api, ModeratorApiErrorPrefix, "Failed to approve post: ")
    ensures r.response.Succeeded? ==>
              r.response.payload == Acknowledged("post_id", postId, "Post approved successfully")
  {
    if !WithinLength(postId, MaxIdLength) then Reject(PostIdMessage)
    else
      Invoke(cfg, Approve(postId), api,
             _ => Acknowledged("post_id", postId, "Post approved successfully"),
             ModeratorApiErrorPrefix, "Failed to approve post: ")
  }

  /** The duration handed to the library: `None` (a permanent ban) unless
      a positive number of days was asked for. */
  function BanDuration(duration: int): (d: Option<int>)
    ensures d.None? <==> duration <= 0
    ensures d.Some? ==> d.value == duration
  {
    if duration > 0 then Some(duration) else None
  }

  /** How the confirmation describes the ban's length. */
  function BanSpan(duration: int): (s: string)
    ensures s == "permanently" <==> duration == 0
  {
    var s := if duration == 0 then "permanently" else "for " + IntToString(duration) + " days";
    assert s[0] == if duration == 0 then 'p' else 'f';
    s
  }

  /** Reads the number of days back out of a ban span. */
  function DaysOfSpan(span: string): Option<int>
  {
    if |span| >= 9 && span[..4] == "for " && span[|span| - 5..] == " days"
    then ParseInt(span[4..|span| - 5])
    else None
  }

  /** The span names the number of days it was made from: a non-zero
      duration can be read back from it, a permanent ban names none. */
  lemma BanSpanRoundTrip(duration: int)
    ensures DaysOfSpan(BanSpan(duration)) == if duration == 0 then None else Some(duration)
  {
    var s := BanSpan(duration);
    if duration == 0 {
      assert s[..4] != "for " by { assert s[0] == 'p'; }
    } else {
      var digits := IntToString(duration);
      assert s == "for " + digits + " days";
      assert s[..4] == "for ";
      assert s[|s| - 5..] == " days";
      assert s[4..|s| - 5] == digits;
      IntToStringRoundTrip(duration);
    }
  }

  /** Conversely, a span that names a number of days is written exactly as
      the confirmation writes that number: no leading zeros, no "-0". */
  lemma SpanOfDays(span: string, days: int)
    requires DaysOfSpan(span) == Some(days)
    ensures span == "for " + IntToString(days) + " days"
    ensures days != 0 ==> span == BanSpan(days)
  {
    var digits := span[4..|span| - 5];
    ParseIntCanonical(digits, days);
    assert span == span[..4] + digits + span[|span| - 5..];
  }

  /** A negative duration asks the library for a permanent ban, while the
      confirmation reports a (negative) number of days. */
  lemma NegativeBanDurationIsPermanent(duration: int)
    requires duration < 0
    ensures BanDuration(duration).None?
    ensures DaysOfSpan(BanSpan(duration)) == Some(duration)
  {
    BanSpanRoundTrip(duration);
  }

  function BanMessage(username: string, subreddit: string, duration: int): (r: string)
    ensures StripPrefix("User " + username + " banned ", r) == Some(BanSpan(duration) + " from r/" + subreddit)
  {
    var head := "User " + username + " banned ";
    var tail := BanSpan(duration) + " from r/" + subreddit;
    StripPrefixOfConcat(head, tail);
    head + tail
  }

  function BanUser(cfg: Config, api: ApiOutcome<()>, subreddit: string, username: string, duration: int := 0,
                   reason: string := "", note: string := ""): (r: Invocation)
    ensures !WithinLength(subreddit, MaxSubredditLength) ==> r == Reject(SubredditMessage)
    ensures WithinLength(subreddit, MaxSubredditLength) && !WithinLength(username, MaxUsernameLength)
            ==> r == Reject(UsernameMessage)
    ensures WithinLength(subreddit, MaxSubredditLength) && WithinLength(username, MaxUsernameLength) ==>
              Dispatched(r, cfg, Ban(subreddit, username, BanDuration(duration), reason, note),
                         api, ModeratorApiErrorPrefix, "Failed to ban user: ")
    ensures r.call.Some? ==> (r.call.value.request.duration.None? <==> duration <= 0)
    ensures r.response.Succeeded? ==>
              r.response.payload == UserBanned(username, subreddit, BanMessage(username, subreddit, duration))
  {
    if !WithinLength(subreddit, MaxSubredditLength) then Reject(SubredditMessage)
    else if !WithinLength(username, MaxUsernameLength) then Reject(UsernameMessage)
    else
      Invoke(cfg, Ban(subreddit, username, BanDuration(duration), reason, note), api,
             _ => UserBanned(username, subreddit, BanMessage(username, subreddit, duration)),
             ModeratorApiErrorPrefix, "Failed to ban user: ")
  }

  // ---------------------------------------------------------------------------
  // Cross-cutting properties

  /** Input checks come before credentials: a query the search rejects
      yields the same result whatever the configuration and whatever the
      library would have done. */
  lemma RejectedQueryIgnoresEnvironment(cfg1: Config, cfg2: Config, query: string, subreddit: string,
                                        timeFilter: string, sort: string, limit: int,
                                        api1: ApiOutcome<seq<Submission>>, api2: ApiOutcome<seq<Submission>>)
    requires !WithinLength(query, MaxQueryLength)
    ensures SearchPosts(cfg1, api1, query, subreddit, timeFilter, sort, limit)
            == SearchPosts(cfg2, api2, query, subreddit, timeFilter, sort, limit)
    ensures !SearchPosts(cfg1, api1, query, subreddit, timeFilter, sort, limit).consultedCredentials
  {
  }

  /** The empty query and a 513-character query are both refused. */
  lemma QueryBoundsExample(cfg: Config, api: ApiOutcome<seq<Submission>>)
    ensures SearchPosts(cfg, api, "") == Reject(QueryMessage)
    ensures SearchPosts(cfg, api, seq(513, _ => 'x')) == Reject(QueryMessage)
  {
  }

  // ---------------------------------------------------------------------------
  // Default arguments

  /** A search given only its query looks in "all" over all time, by
      relevance, for at most ten posts. */
  lemma DefaultSearchArguments(cfg: Config, api: ApiOutcome<seq<Submission>>, query: string)
    ensures var r := SearchPosts(cfg, api, query);
            r.call.Some? ==> r.call.value.request == Search("all", query, "all", "relevance", 10)
  {
  }

  /** A feed given only its subreddit asks for 25 posts. */
  lemma DefaultFeedLimit(cfg: Config, api: ApiOutcome<seq<Submission>>, subreddit: string)
    ensures var r := GetSubredditNew(cfg, api, subreddit);
            r.call.Some? ==> r.call.value.request == ListNew(subreddit, 25)
    ensures var r := GetSubredditHot(cfg, api, subreddit);
            r.call.Some? ==> r.call.value.request == ListHot(subreddit, 25)
  {
  }

  /** Comments fetched with only a post id come in "best" order, at most 50. */
  lemma DefaultCommentArguments(cfg: Config, api: ApiOutcome<seq<Comment>>, postId: string)
    ensures var r := GetComments(cfg, api, postId);
            r.call.Some? ==> r.call.value.request == FetchComments(postId, "best", 50)
  {
  }

  /** A post submitted with neither content nor url is refused once the
      subreddit and title pass their checks. */
  lemma DefaultSubmissionHasNoBody(cfg: Config, api: ApiOutcome<Submission>, subreddit: string, title: string)
    requires WithinLength(subreddit, MaxSubredditLength) && WithinLength(title, MaxTitleLength)
    ensures SubmitPost(cfg, api, subreddit, title) == Reject(NoBodyMessage)
  {
  }

  /** A removal without the spam flag is an ordinary removal. */
  lemma DefaultRemovalIsNotSpam(cfg: Config, api: ApiOutcome<()>, postId: string)
    ensures var r := RemovePost(cfg, api, postId);
            && (r.call.Some? ==> r.call.value.request == Remove(postId, false))
            && (r.response.Succeeded? ==> r.response.payload.message == "Post " + RemovedNote)
  {
  }

  /** A ban given no duration is permanent, and its confirmation says so. */
  lemma DefaultBanIsPermanent(cfg: Config, api: ApiOutcome<()>, subreddit: string, username: string)
    ensures var r := BanUser(cfg, api, subreddit, username);
            && (r.call.Some? ==> r.call.value.request == Ban(subreddit, username, None, "", ""))
            && (r.response.Succeeded? ==>
                  r.response.payload.message == "User " + username + " banned " + "permanently" + " from r/" + subreddit)
  {
  }
}
