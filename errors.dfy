/**
 * The store's error formatting: what it shows in its single error slot when a
 * gateway call fails.
 */
module Errors {

  /** A value caught by an error handler: an `Error` instance, which carries a message, or anything else. */
  datatype Thrown = ErrorInstance(message: string) | OtherValue

  /** The text that marks a server "not found" error. */
  const NotFoundMarker := "Resource not found"
  /** What replaces a "not found" message, after the operation's fallback text. */
  const NotFoundSuffix := ": Not found"

  /** `part` occurs in `s` starting at index `i`. */
  ghost predicate OccursAt(s: string, part: string, i: nat) {
    i + |part| <= |s| && s[i..i + |part|] == part
  }

  /** `part` occurs somewhere in `s` (the meaning of `s.includes(part)`). */
  ghost predicate Mentions(s: string, part: string) {
    exists i: nat :: OccursAt(s, part, i)
  }

  /** `s.includes(part)`, by scanning each start position in turn. */
  function Includes(s: string, part: string): bool
    decreases |s|
  {
    if |part| > |s| then false
    else if s[..|part|] == part then true
    else Includes(s[1..], part)
  }

  lemma {:induction false} IncludesMeansMentions(s: string, part: string)
    ensures Includes(s, part) <==> Mentions(s, part)
    decreases |s|
  {
    if |part| > |s| {
      assert forall i: nat :: !OccursAt(s, part, i);
    } else if s[..|part|] == part {
      assert OccursAt(s, part, 0);
    } else {
      IncludesMeansMentions(s[1..], part);
      forall i: nat | OccursAt(s[1..], part, i) ensures OccursAt(s, part, i + 1) {
        assert s[i + 1..i + 1 + |part|] == s[1..][i..i + |part|];
      }
      forall i: nat | OccursAt(s, part, i) ensures i > 0 && OccursAt(s[1..], part, i - 1) {
        assert s[1..][i - 1..i - 1 + |part|] == s[i..i + |part|];
      }
    }
  }

  /**
   * `formatError(error, fallback)`: a "not found" error becomes "<fallback>: Not found",
   * any other `Error` shows its own message, and a thrown non-`Error` shows the fallback.
   */
  function FormatError(error: Thrown, fallback: string): (msg: string)
    ensures error.ErrorInstance? && Mentions(error.message, NotFoundMarker) ==> msg == fallback + NotFoundSuffix
    ensures error.ErrorInstance? && !Mentions(error.message, NotFoundMarker) ==> msg == error.message
    ensures error.OtherValue? ==> msg == fallback
  {
    match error
    case ErrorInstance(message) =>
      IncludesMeansMentions(message, NotFoundMarker);
      if Includes(message, NotFoundMarker) then fallback + NotFoundSuffix else message
    case OtherValue => fallback
  }

  /**
   * The fallback text reaches the user whenever the error is not an `Error`
   * or is a "not found" one; otherwise the error's own message is shown.
   */
  lemma FallbackShownUnlessOwnMessage(error: Thrown, fallback: string)
    ensures var msg := FormatError(error, fallback);
      (error.OtherValue? || Mentions(error.message, NotFoundMarker)) ==> msg[..|fallback|] == fallback
  {
  }
}
