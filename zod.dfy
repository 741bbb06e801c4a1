/**
 * The parts of zod's behaviour the schemas use. A schema reports a list of
 * issues; string checks (`min`, `max`, `regex`, `email`, `refine`) do not stop
 * at the first failure, so every failing check of every field is reported, in
 * the order the schema declares them, and the value is accepted exactly when
 * the list is empty.
 */
module Zod {
  import opened Wrappers
  import opened Text

  datatype PathSegment = Key(name: string) | Index(position: nat)

  datatype Issue = Issue(path: seq<PathSegment>, message: string)

  /** One issue with `message` when `ok` fails. */
  function Check(ok: bool, path: seq<PathSegment>, message: string): (r: seq<Issue>)
    ensures r == [] <==> ok
  {
    if ok then [] else [Issue(path, message)]
  }

  predicate IsAsciiUpper(c: char) { 'A' <= c <= 'Z' }
  predicate IsAsciiLower(c: char) { 'a' <= c <= 'z' }
  predicate IsAsciiDigit(c: char) { '0' <= c <= '9' }

  /** A character `/[\W_]/` matches: anything outside `[A-Za-z0-9]`. */
  predicate IsSpecial(c: char) {
    !IsAsciiUpper(c) && !IsAsciiLower(c) && !IsAsciiDigit(c)
  }

  predicate HasUpper(s: string) { exists i :: 0 <= i < |s| && IsAsciiUpper(s[i]) }
  predicate HasLower(s: string) { exists i :: 0 <= i < |s| && IsAsciiLower(s[i]) }
  predicate HasDigit(s: string) { exists i :: 0 <= i < |s| && IsAsciiDigit(s[i]) }
  predicate HasSpecial(s: string) { exists i :: 0 <= i < |s| && IsSpecial(s[i]) }

  /** The path as `issue.path.join(".")` writes it. */
  function PathText(path: seq<PathSegment>): string {
    Join(seq(|path|, i requires 0 <= i < |path| => SegmentText(path[i])), ".")
  }

  function SegmentText(p: PathSegment): string {
    match p
    case Key(name) => name
    case Index(n) => DecimalString(n)
  }

  /** The default message when a required field is absent. */
  const RequiredMessage := "Required"

  /** The default message when no member of a union accepts the value's type. */
  const InvalidInputMessage := "Invalid input"

  /** The default message of `z.string().date()`. */
  const InvalidDateMessage := "Invalid date"

  /** The default message when a number schema receives `NaN`. */
  const NotANumberMessage := "Expected number, received nan"

  /** The default messages of `positive()` and `nonnegative()`. */
  const NotPositiveMessage := "Number must be greater than 0"
  const NegativeMessage := "Number must be greater than or equal to 0"

  /** The default message of a failed `min(n)` on a string. */
  function TooShort(n: nat): string {
    "String must contain at least " + DecimalString(n) + " character(s)"
  }
}
