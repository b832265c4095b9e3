/** The input checks every tool runs before it asks for a client: string
    lengths against fixed bounds, and `limit` clamped into range. */
module Validation {

  const MaxQueryLength: nat := 512
  const MaxSubredditLength: nat := 50
  const MaxIdLength: nat := 20
  const MaxTitleLength: nat := 300
  const MaxTextLength: nat := 10000
  const MaxUsernameLength: nat := 50

  /** Upper bound of `limit` for post listings and searches. */
  const MaxPostLimit: int := 100
  /** Upper bound of `limit` when fetching the comments of a post. */
  const MaxCommentLimit: int := 500

  /** The negation of Python's `not s or len(s) > max`. */
  predicate WithinLength(s: string, max: nat): (b: bool)
    ensures s == "" ==> !b
    ensures max < |s| ==> !b
    ensures s != "" && |s| <= max ==> b
  {
    0 < |s| <= max
  }

  /** Python's `max(1, min(max, limit))`. */
  function ClampLimit(limit: int, max: int): (r: int)
    requires 1 <= max
    ensures 1 <= r <= max
    ensures 1 <= limit <= max ==> r == limit
    ensures limit < 1 ==> r == 1
    ensures max < limit ==> r == max
  {
    var smaller := if max <= limit then max else limit;
    if smaller <= 1 then 1 else smaller
  }

  lemma ClampLimitIdempotent(limit: int, max: int)
    requires 1 <= max
    ensures ClampLimit(ClampLimit(limit, max), max) == ClampLimit(limit, max)
  {
  }

  /** Clamping never reorders two requested limits. */
  lemma ClampLimitMonotone(a: int, b: int, max: int)
    requires 1 <= max && a <= b
    ensures ClampLimit(a, max) <= ClampLimit(b, max)
  {
  }
}
