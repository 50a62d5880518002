/**
 * Shared vocabulary of the model: optional values, results of calls that can
 * throw, the exceptions the core raises, identifiers, time, and the few .NET
 * string operations the core relies on (whitespace tests, trimming,
 * lower-casing, joining).
 */
module Common {

  datatype Option<+T> = None | Some(value: T)

  /** The exceptions that cross the core's call boundaries. */
  datatype Exn =
    | InvalidOperation(message: string)   // System.InvalidOperationException
    | ValidationFailed(message: string)   // the handler's own ValidationException
    | Argument(message: string)           // System.ArgumentException
    | Fault(origin: Call)                 // an exception thrown by a collaborator (database driver, publisher, ...)

  /** One entry of a validation notification: an error code and its message. */
  datatype Error = Error(code: string, message: string)

  /** Result of a call that either returns a value or throws. */
  datatype Result<+T> = Success(value: T) | Failure(error: Exn)

  /** Result of a call that returns nothing or throws. */
  datatype Outcome = Pass | Fail(error: Exn)

  /** The calls a handler makes on its collaborators, recorded in order. */
  datatype Call =
    | OpenConnection | BeginTransaction | CommitTransaction | RollbackTransaction
    | GetUserByEmail | GetUserById | InsertUser | UpdateUser | DeleteUser
    | GetConfirmation | MarkConfirmationUsed | InsertConfirmation
    | HashPassword | IssueAccessToken | IssueRefreshToken | PublishEvent

  /** A 128-bit GUID; `EmptyGuid` is Guid.Empty. */
  newtype Guid = n: int | 0 <= n < 0x1_0000_0000_0000_0000_0000_0000_0000_0000
  const EmptyGuid: Guid := 0

  /** A UTC instant, in seconds. */
  type Time = int

  function AddMinutes(t: Time, minutes: int): (r: Time)
    ensures r - t == 60 * minutes
  {
    t + 60 * minutes
  }

  function AddHours(t: Time, hours: int): (r: Time)
    ensures r - t == 3600 * hours
  {
    t + 3600 * hours
  }

  /** char.IsWhiteSpace: the Unicode White_Space characters. */
  predicate IsWhiteSpace(c: char) {
    || '\t' <= c <= '\r'
    || c == ' ' || c == '\U{0085}' || c == '\U{00A0}' || c == '\U{1680}'
    || '\U{2000}' <= c <= '\U{200A}'
    || c == '\U{2028}' || c == '\U{2029}' || c == '\U{202F}' || c == '\U{205F}' || c == '\U{3000}'
  }

  /** string.IsNullOrWhiteSpace for a non-null string. */
  predicate IsBlank(s: string) {
    forall i :: 0 <= i < |s| ==> IsWhiteSpace(s[i])
  }

  /** string.IsNullOrWhiteSpace for a nullable string. */
  predicate IsNullOrBlank(s: Option<string>) {
    s.None? || IsBlank(s.value)
  }

  /** Leading characters of `s` that `TrimStart` removes. */
  function LeadingSpace(s: string): (n: nat)
    ensures n <= |s|
    ensures forall i :: 0 <= i < n ==> IsWhiteSpace(s[i])
    ensures n < |s| ==> !IsWhiteSpace(s[n])
  {
    if s == [] || !IsWhiteSpace(s[0]) then 0 else 1 + LeadingSpace(s[1..])
  }

  /** Trailing characters of `s` that `TrimEnd` removes. */
  function TrailingSpace(s: string): (n: nat)
    ensures n <= |s|
    ensures forall i :: |s| - n <= i < |s| ==> IsWhiteSpace(s[i])
    ensures n < |s| ==> !IsWhiteSpace(s[|s| - 1 - n])
  {
    if s == [] || !IsWhiteSpace(s[|s| - 1]) then 0 else 1 + TrailingSpace(s[..|s| - 1])
  }

  /** string.Trim(): removes leading and trailing white space. */
  function Trim(s: string): (r: string)
    ensures |r| <= |s|
    ensures r != [] ==> !IsWhiteSpace(r[0]) && !IsWhiteSpace(r[|r| - 1])
    ensures r == [] <==> IsBlank(s)
  {
    var t := s[LeadingSpace(s)..];
    var r := t[..|t| - TrailingSpace(t)];
    r
  }

  /** Trim keeps a contiguous piece of its input. */
  lemma TrimIsInfix(s: string)
    ensures exists a, b :: 0 <= a <= b <= |s| && Trim(s) == s[a..b]
  {
    var a := LeadingSpace(s);
    var t := s[a..];
    var b := a + |t| - TrailingSpace(t);
    assert Trim(s) == s[a..b];
  }

  /** A string with no white space at either end is its own trim. */
  lemma TrimKeepsTrimmed(s: string)
    requires s != [] ==> !IsWhiteSpace(s[0]) && !IsWhiteSpace(s[|s| - 1])
    ensures Trim(s) == s
  {
    if s != [] {
      assert LeadingSpace(s) == 0;
      assert s[0..] == s;
      assert TrailingSpace(s) == 0;
    }
  }

  /** Trimming a trimmed string changes nothing. */
  lemma TrimIdempotent(s: string)
    ensures Trim(Trim(s)) == Trim(s)
  {
    TrimKeepsTrimmed(Trim(s));
  }

  /** ToLowerInvariant restricted to ASCII letters, which is all the core lower-cases. */
  function ToLowerAscii(s: string): (r: string)
    ensures |r| == |s|
    ensures forall i :: 0 <= i < |s| ==> !('A' <= r[i] <= 'Z')
    ensures forall i :: 0 <= i < |s| && !('A' <= s[i] <= 'Z') ==> r[i] == s[i]
  {
    seq(|s|, i requires 0 <= i < |s| => LowerChar(s[i]))
  }

  function LowerChar(c: char): char {
    if 'A' <= c <= 'Z' then (c as int + 32) as char else c
  }

  /** string.Join(separator, parts). */
  function Join(sep: string, parts: seq<string>): (r: string)
    ensures parts == [] ==> r == ""
    ensures |parts| == 1 ==> r == parts[0]
  {
    if parts == [] then ""
    else if |parts| == 1 then parts[0]
    else parts[0] + sep + Join(sep, parts[1..])
  }
}
