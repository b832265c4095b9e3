# Reddit tools: gatekeeping and projection

This project models the Reddit tool module of the `aden_tools` package. The module exposes eighteen Reddit operations to an agent tool server. The model covers what those operations decide by themselves:

- how a tool obtains its API client: the credential store when one is registered, otherwise the REDDIT_CREDENTIALS environment variable, and then the check for the four OAuth fields;
- the input checks each tool runs before it asks for a client: string lengths, clamping of `limit`, and the text-or-link rule for new posts;
- how library objects are projected into plain records: 500-character excerpts, `"[deleted]"` for a missing author, absolute permalinks;
- how results and errors are shaped: `count`, ban and removal messages, and the error prefixes.

The client library (PRAW) is not modelled. Each tool takes the outcome the library would produce as a parameter (`Handlers.ApiOutcome`: a returned value, a library API exception, or any other exception). Each tool function takes the configuration and that outcome first, then the tool's own arguments with the same default values as the Python signature. Each tool also reports the request it issued (`Handlers.Request`). A tool run is a value `Invocation(consultedCredentials, call, response)`: whether it asked for a client, the library call it made (if any), and the record or `{"error": ...}` dictionary it returned.

Modules:

- `Wrappers`: `Option` and `Result`.
- `Strings`: Python slicing, `", ".join`, `str(int)`, and the lemmas that these can be read back.
- `Validation`: the length bounds and `max(1, min(max, limit))`.
- `Credentials`: `_get_reddit_client`.
- `Serializers`: `_serialize_submission`, `_serialize_comment`, `_serialize_redditor` and the list comprehensions over them.
- `Handlers`: the eighteen tools of `register_tools`.

Only the arguments named in the table below are checked against a length bound. The `subreddit` filter of the two search tools, `time_filter`, `sort`, `flair_id`, `reason` and `note` are passed on without any check. The `content` and `url` of a new post are only checked so that exactly one of them is non-empty, never for length.

One behaviour of the code is worth knowing (`Handlers.NegativeBanDurationIsPermanent`). A negative ban duration asks the library for a permanent ban, because the duration becomes `None` when it is `<= 0`. The confirmation still says "for -N days", because it says "permanently" only when the duration is exactly 0. The documented contract of `reddit_ban_user` ("0 = permanent") does not say what a negative duration means, so this is recorded as a property of the model, not as a defect.

## Model

| member | source | states |
|---|---|---|
| `Validation.ClampLimit` | tools/src/aden_tools/tools/reddit_tool/reddit_tool.py:184 | The clamped limit lies in [1, max]. It equals the request when that is already in range, is 1 below the range and `max` above it. |
| `Validation.WithinLength` | tools/src/aden_tools/tools/reddit_tool/reddit_tool.py:181 | An argument passes a length check exactly when it is non-empty and no longer than the bound, the negation of the `not s or len(s) > max` guard. |
| `Validation.ClampLimitIdempotent` | tools/src/aden_tools/tools/reddit_tool/reddit_tool.py:387 | Clamping a clamped limit changes nothing. |
| `Validation.ClampLimitMonotone` | tools/src/aden_tools/tools/reddit_tool/reddit_tool.py:270 | Clamping keeps the order of two requested limits. |
| `Strings.Take` | tools/src/aden_tools/tools/reddit_tool/reddit_tool.py:116 | `s[:n]` is a prefix of `s` of length `min(n, len(s))`, and is `s` itself when `s` is short enough. |
| `Strings.JoinInjective` | tools/src/aden_tools/tools/reddit_tool/reddit_tool.py:84 | `sep.join` of non-empty part lists is injective when no part contains the separator's first character. |
| `Strings.JoinThree` | tools/src/aden_tools/tools/reddit_tool/reddit_tool.py:84 | Joining three parts puts the separator once between each pair of neighbours and nowhere else. |
| `Strings.NatToString` | tools/src/aden_tools/tools/reddit_tool/reddit_tool.py:884 | `str(n)` of a natural number is non-empty and all decimal digits. It starts with `0` only for 0. |
| `Strings.NatToStringRoundTrip` | tools/src/aden_tools/tools/reddit_tool/reddit_tool.py:884 | Reading the digits of `str(n)` gives back `n`. |
| `Strings.IntToStringRoundTrip` | tools/src/aden_tools/tools/reddit_tool/reddit_tool.py:884 | `str(n)` of any integer, sign included, parses back to `n`. |
| `Strings.ParseIntCanonical` | tools/src/aden_tools/tools/reddit_tool/reddit_tool.py:884 | Any text the reader accepts is exactly `str` of the number it reads: no empty text, leading zero or "-0" is accepted. |
| `Credentials.MissingFields` | tools/src/aden_tools/tools/reddit_tool/reddit_tool.py:80-81 | The missing list holds exactly the required fields that are not keys of the credentials. It keeps the fixed order `client_id, client_secret, refresh_token, user_agent`. |
| `Credentials.Present` | tools/src/aden_tools/tools/reddit_tool/reddit_tool.py:73 | Credentials count as present when they exist and hold at least one key: `None` and `{}` both fail the `not creds` test. |
| `Credentials.MissingFieldsMessage` | tools/src/aden_tools/tools/reddit_tool/reddit_tool.py:84 | The message is "Missing required credential fields: " followed by the comma-joined list, which can be read back from it. |
| `Credentials.LookupCredentials` | tools/src/aden_tools/tools/reddit_tool/reddit_tool.py:52-71 | A registered store is used as is. Otherwise an unset or empty variable gives no credentials, and decodable text gives the decoded credentials. Text that does not decode as JSON, and only that, gives "Invalid REDDIT_CREDENTIALS format". |
| `Credentials.GetRedditClient` | tools/src/aden_tools/tools/reddit_tool/reddit_tool.py:37-100 | The checks run in this order: library missing, invalid JSON, "not configured" for absent or empty credentials, missing fields. With all four fields present, a constructor that raises gives "Failed to authenticate with Reddit: " followed by its message, and one that does not gives a client. A client is built only on that path, from exactly the four values. A missing-fields error carries the comma-joined missing list. |
| `Credentials.AdapterTakesPrecedence` | tools/src/aden_tools/tools/reddit_tool/reddit_tool.py:53-56 | With a credential store registered, neither the environment variable nor the JSON decoder affects the outcome. |
| `Credentials.MissingFieldsErrorIff` | tools/src/aden_tools/tools/reddit_tool/reddit_tool.py:81-89 | Once credentials are present, the missing-fields error is returned if and only if the missing list is non-empty. |
| `Credentials.MissingFieldsMessageDeterminesFields` | tools/src/aden_tools/tools/reddit_tool/reddit_tool.py:84 | Two credential sets with the same missing-fields message lack exactly the same fields. |
| `Credentials.OnlyClientIdMissing` | tools/tests/tools/test_reddit_tool.py:101-105 | Credentials with only `client_id` miss `client_secret, refresh_token, user_agent`, in that order. |
| `Credentials.OnlyClientIdExample` | tools/tests/tools/test_reddit_tool.py:98-111 | A store whose credentials hold only `client_id` is refused with the missing-fields error naming the other three fields, in their fixed order, and the fixed help text. |
| `Credentials.LastThreeFieldsMessage` | tools/src/aden_tools/tools/reddit_tool/reddit_tool.py:80-84 | With the last three fields missing, the error reads "Missing required credential fields: client_secret, refresh_token, user_agent". |
| `Serializers.AuthorName` | tools/src/aden_tools/tools/reddit_tool/reddit_tool.py:108 | A missing author becomes `"[deleted]"`. A present one is shown by name. |
| `Serializers.ShortText` | tools/src/aden_tools/tools/reddit_tool/reddit_tool.py:116 | The excerpt has at most 500 characters and is a prefix of the text. It is the whole text (so `""` for `""`) when the text fits. |
| `Serializers.AbsoluteLink` | tools/src/aden_tools/tools/reddit_tool/reddit_tool.py:115 | Stripping `https://reddit.com` from the absolute link gives back the relative permalink. |
| `Serializers.SerializeSubmission` | tools/src/aden_tools/tools/reddit_tool/reddit_tool.py:103-119 | Ten fields are copied unchanged. The author follows the `"[deleted]"` rule. The permalink is the relative one behind `https://reddit.com`. `selftext` is its own first 500 characters when longer, and the whole text when it fits. |
| `Serializers.SerializeComment` | tools/src/aden_tools/tools/reddit_tool/reddit_tool.py:122-133 | The same projection for comments: fields copied, author rule, absolute permalink, `body` cut to its first 500 characters. |
| `Serializers.SerializeRedditor` | tools/src/aden_tools/tools/reddit_tool/reddit_tool.py:136-147 | All eight account fields are copied unchanged. |
| `Serializers.RedditorRoundTrip` | tools/src/aden_tools/tools/reddit_tool/reddit_tool.py:136-147 | The user record loses nothing: the account can be read back from it. |
| `Serializers.SubmissionRoundTrip` | tools/src/aden_tools/tools/reddit_tool/reddit_tool.py:103-119 | A post with an author and at most 500 characters of text can be read back exactly from its record. |
| `Serializers.SerializeSubmissions` | tools/src/aden_tools/tools/reddit_tool/reddit_tool.py:193 | The list of post records has one record per post, in order. |
| `Serializers.SerializeComments` | tools/src/aden_tools/tools/reddit_tool/reddit_tool.py:399 | The list of comment records has one record per comment, in order. |
| `Handlers.Reject` | tools/src/aden_tools/tools/reddit_tool/reddit_tool.py:181-182 | A failed input check returns `{"error": message}`. It asks for no client and makes no library call. |
| `Handlers.Invoke` | tools/src/aden_tools/tools/reddit_tool/reddit_tool.py:186-204 | A client error is returned unchanged and nothing is sent. With a client, exactly the tool's request is sent. An exception becomes an error carrying its message behind the library prefix or the tool's prefix. Success requires a client and a returned value. |
| `Handlers.SearchPosts` | tools/src/aden_tools/tools/reddit_tool/reddit_tool.py:158-204 | An empty or over-512 query is refused before any client is requested. Otherwise the search is sent with a limit in [1, 100]. The result holds `count == len(posts)` and the projected posts. |
| `Handlers.SearchComments` | tools/src/aden_tools/tools/reddit_tool/reddit_tool.py:206-248 | The query is checked, then the client error or the fixed "not supported" error is returned. The tool never succeeds and never calls the library. |
| `Handlers.GetSubredditNew` | tools/src/aden_tools/tools/reddit_tool/reddit_tool.py:250-290 | The subreddit name must have 1-50 characters. The limit is clamped to [1, 100]. The feed is `"new"` with `count == len(posts)`. |
| `Handlers.GetSubredditHot` | tools/src/aden_tools/tools/reddit_tool/reddit_tool.py:292-332 | As for the new feed, with feed type `"hot"`. |
| `Handlers.GetPost` | tools/src/aden_tools/tools/reddit_tool/reddit_tool.py:334-363 | The post id must have 1-20 characters. The post is fetched by that id and projected. |
| `Handlers.GetComments` | tools/src/aden_tools/tools/reddit_tool/reddit_tool.py:365-409 | The post id must have 1-20 characters. The limit is clamped to [1, 500]. The result holds `count == len(comments)` and the projected comments. |
| `Handlers.SubmitPostError` | tools/src/aden_tools/tools/reddit_tool/reddit_tool.py:437-447 | The checks run in order: subreddit 1-50, title 1-300, neither content nor url, both content and url. All pass if and only if the lengths are in range and exactly one of content and url is non-empty. |
| `Handlers.FlairOf` | tools/src/aden_tools/tools/reddit_tool/reddit_tool.py:458 | An empty flair id is sent as `None`, any other as itself. |
| `Handlers.PostBodyOf` | tools/src/aden_tools/tools/reddit_tool/reddit_tool.py:453-465 | A non-empty url makes a link post carrying that url; otherwise the post is a text post carrying the content. |
| `Handlers.SubmitPost` | tools/src/aden_tools/tools/reddit_tool/reddit_tool.py:413-476 | A submission is sent only when exactly one of content and url is given. A url makes a link post, content a text post. The result carries the new id, its absolute permalink and the post record. |
| `Handlers.ReplyToPost` | tools/src/aden_tools/tools/reddit_tool/reddit_tool.py:478-514 | The post id (1-20) is checked, then the text (1-10000). The reply's id and absolute permalink are returned. |
| `Handlers.ReplyToComment` | tools/src/aden_tools/tools/reddit_tool/reddit_tool.py:516-552 | The comment id (1-20) is checked, then the text (1-10000). The reply's id and absolute permalink are returned. |
| `Handlers.EditComment` | tools/src/aden_tools/tools/reddit_tool/reddit_tool.py:554-590 | The comment id (1-20) is checked, then the new text (1-10000). Success acknowledges the comment id. |
| `Handlers.DeleteComment` | tools/src/aden_tools/tools/reddit_tool/reddit_tool.py:592-624 | The comment id must have 1-20 characters. Success acknowledges the deletion. |
| `Handlers.GetUserProfile` | tools/src/aden_tools/tools/reddit_tool/reddit_tool.py:628-657 | The username must have 1-50 characters. The account is fetched and projected. |
| `Handlers.Upvote` | tools/src/aden_tools/tools/reddit_tool/reddit_tool.py:659-696 | The item id must have 1-20 characters. The vote goes to the post, or to the comment when the post lookup raised. |
| `Handlers.VoteTargetOf` | tools/src/aden_tools/tools/reddit_tool/reddit_tool.py:680-684 | The vote targets the comment exactly when looking the id up as a post raised. |
| `Handlers.Downvote` | tools/src/aden_tools/tools/reddit_tool/reddit_tool.py:698-735 | As for upvotes, in the other direction. |
| `Handlers.SavePost` | tools/src/aden_tools/tools/reddit_tool/reddit_tool.py:737-769 | The post id must have 1-20 characters. Success acknowledges the save. |
| `Handlers.RemovalMessage` | tools/src/aden_tools/tools/reddit_tool/reddit_tool.py:801 | The removal confirmation starts with "Post marked as spam and " if and only if the post was removed as spam. It is "Post marked as spam and removed successfully" or "Post removed successfully". |
| `Handlers.RemovePost` | tools/src/aden_tools/tools/reddit_tool/reddit_tool.py:773-806 | The post id must have 1-20 characters. The removal is sent with the spam flag. Library errors carry the moderator-permissions prefix. |
| `Handlers.ApprovePost` | tools/src/aden_tools/tools/reddit_tool/reddit_tool.py:808-840 | The post id must have 1-20 characters. Library errors carry the moderator-permissions prefix. |
| `Handlers.BanDuration` | tools/src/aden_tools/tools/reddit_tool/reddit_tool.py:879 | The library receives `None` if and only if the duration is `<= 0`, and the duration itself otherwise. |
| `Handlers.BanSpan` | tools/src/aden_tools/tools/reddit_tool/reddit_tool.py:884 | The message says "permanently" if and only if the duration is 0. |
| `Handlers.BanMessage` | tools/src/aden_tools/tools/reddit_tool/reddit_tool.py:889 | The confirmation is "User <name> banned " followed by the ban span and " from r/<subreddit>". |
| `Handlers.BanSpanRoundTrip` | tools/src/aden_tools/tools/reddit_tool/reddit_tool.py:884 | Any non-zero duration can be read back from "for N days". "permanently" names no number. |
| `Handlers.SpanOfDays` | tools/src/aden_tools/tools/reddit_tool/reddit_tool.py:884 | A span that names a number of days is written exactly as `f"for {duration} days"` writes that number. |
| `Handlers.NegativeBanDurationIsPermanent` | tools/src/aden_tools/tools/reddit_tool/reddit_tool.py:879-884 | A negative duration sends a permanent ban while the message reports that negative number of days. |
| `Handlers.BanUser` | tools/src/aden_tools/tools/reddit_tool/reddit_tool.py:842-894 | The subreddit (1-50) is checked, then the username (1-50). The duration sent is `None` if and only if the duration is `<= 0`. The confirmation names the user, the span and the subreddit. |
| `Handlers.RejectedQueryIgnoresEnvironment` | tools/src/aden_tools/tools/reddit_tool/reddit_tool.py:181-188 | For a rejected query, the result does not depend on the configuration or on the library. No client is requested. |
| `Handlers.QueryBoundsExample` | tools/tests/tools/test_reddit_tool.py:149-159 | The empty query and a 513-character query are both refused. |
| `Handlers.DefaultSearchArguments` | tools/src/aden_tools/tools/reddit_tool/reddit_tool.py:159-164 | A search given only its query asks for subreddit "all", time filter "all", sort "relevance" and 10 posts. |
| `Handlers.DefaultFeedLimit` | tools/src/aden_tools/tools/reddit_tool/reddit_tool.py:251-254 | Both feeds given only the subreddit ask for 25 posts. |
| `Handlers.DefaultCommentArguments` | tools/src/aden_tools/tools/reddit_tool/reddit_tool.py:366-370 | Comments fetched with only a post id are asked for in "best" order, 50 of them. |
| `Handlers.DefaultSubmissionHasNoBody` | tools/src/aden_tools/tools/reddit_tool/reddit_tool.py:414-445 | A post submitted with neither content nor url is refused with "Must provide either content (text post) or url (link post)" once subreddit and title pass. |
| `Handlers.DefaultRemovalIsNotSpam` | tools/src/aden_tools/tools/reddit_tool/reddit_tool.py:774-801 | A removal without the spam flag is sent with `spam=False` and confirmed as "Post removed successfully". |
| `Handlers.DefaultBanIsPermanent` | tools/src/aden_tools/tools/reddit_tool/reddit_tool.py:843-889 | A ban with no duration asks for no duration, empty reason and note, and is confirmed as "User <name> banned permanently from r/<subreddit>". |

## Left out

- The client library's behaviour (PRAW: `subreddit`, `search`, `new`, `hot`, `submission`, `comment`, `reply`, `edit`, `delete`, `upvote`, `downvote`, `save`, `mod.remove`, `mod.approve`, `banned.add`, `replace_more`, `redditor`). It is third-party code. Each call is a request the tool records plus an outcome given as a parameter. Lazy loading is not modelled, nor which call inside a `try` block raised.
- The library's exception classes. They are reduced to the choice of error prefix: library API exception versus any other exception.
- The comment sort and comment limit that `reddit_get_comments` assigns to the post object (lines 395-396). They appear as fields of the `FetchComments` request, not as updates of a library object.
- The upvote and downvote fallback from post lookup to comment lookup. It is a flag saying whether the post lookup raised. Which object the library then finds is not modelled.
- `os.getenv` and `json.loads`. The variable's value is an input, and the decoder is a function parameter that returns a string-to-string map or fails. JSON that decodes to something other than an object is not modelled. Such input can make the membership test on line 81 behave differently or raise. Credential values that are not strings are not modelled either.
- The credential store's lookup. It is reduced to what `get("reddit")` returns.
- The `help` text of the library-missing error is kept, but the import of the library is a boolean input.
- `upvote_ratio` and `created_utc` are floating-point values. They are copied as `real` and nothing numeric is stated about them.
- `str(author)` is modelled as the author's name. An author object whose string form differs from its name is not modelled.
- The clamped `limit` of `reddit_search_comments` is computed but never used by the code, so the model does not compute it.
- Tool registration with the tool server framework (`register_tools`, the `@mcp.tool()` decorators), and the static credential table in `tools/src/aden_tools/credentials/reddit.py`. Both are configuration with no behaviour.
