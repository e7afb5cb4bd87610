/** The error model of the tRPC procedures: a procedure either returns a value or throws a
    `TRPCError`, which carries a code and a message, and an input its schema rejects never
    reaches the procedure. */
module Trpc {
  import opened Common

  /** The error codes the procedures use. An error that is not a `TRPCError` surfaces as
      `InternalServerError`. */
  datatype Code = BadRequest | NotFound | InternalServerError

  /** One step of the path of a failed check: an object key or an array index. */
  datatype PathKey = Key(name: string) | Index(i: nat)

  /** A failed check of an input schema: where it failed, and the message written on the check,
      or `None` when the check has none and zod's default text for it applies. */
  datatype Issue = Issue(path: seq<PathKey>, message: Option<string>)

  /** A `TRPCError` thrown by a procedure, or the rejection of its input by zod: every check that
      failed, in the order the schema checks them. tRPC sends a rejection as a BAD_REQUEST whose
      message is zod's rendering of those issues. */
  datatype TrpcError =
    | TrpcError(code: Code, message: string)
    | InputRejected(issues: seq<Issue>)
  {
    /** The code the client sees. */
    function ErrorCode(): Code {
      if InputRejected? then BadRequest else code
    }
  }

  /** What a procedure returns or throws. */
  datatype Result<+T> = Ok(value: T) | Err(error: TrpcError)

  /** The rejection of an input whose one failed check is on the top-level field `field`. */
  function Rejected(field: string, message: Option<string>): (e: TrpcError)
    ensures e.InputRejected? && e.ErrorCode() == BadRequest && |e.issues| == 1
    ensures e.issues[0].path == [Key(field)] && e.issues[0].message == message
  {
    InputRejected([Issue([Key(field)], message)])
  }

  /** The issue a check on the top-level field `field` reports when `failed`, or none. */
  function IssueIf(failed: bool, field: string, message: Option<string>): (r: seq<Issue>)
    ensures failed <==> r != []
    ensures failed ==> r == [Issue([Key(field)], message)]
  {
    if failed then [Issue([Key(field)], message)] else []
  }

  /** `z.string().min(n)`: at least `n` UTF-16 code units. */
  predicate MinLength(s: string, n: nat) {
    Utf16Length(s) >= n
  }

  /** `z.string().max(n)`: at most `n` UTF-16 code units. */
  predicate MaxLength(s: string, n: nat) {
    Utf16Length(s) <= n
  }

  /** `min(1)` holds exactly for the non-empty strings. */
  lemma MinOneIffNonEmpty(s: string)
    ensures MinLength(s, 1) <==> s != []
  {
  }

  /** `z.string().trim().min(1)`: the trimmed string, or `None` when nothing is left. */
  function TrimmedNonEmpty(s: string): (r: Option<string>)
    ensures r.Some? <==> exists i :: 0 <= i < |s| && !IsJsWhitespace(s[i])
    ensures r.Some? ==> r.value == Trim(s) && r.value != []
  {
    TrimEmptyIffBlank(s);
    MinOneIffNonEmpty(Trim(s));
    if MinLength(Trim(s), 1) then Some(Trim(s)) else None
  }
}
