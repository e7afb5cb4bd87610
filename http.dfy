/** How the HTTP layer (Axios) reports a failed request to the carrier clients. */
module Http {
  import opened Common

  /** A failure as Axios reports it: an Axios error, with the status and the body's `msgs`
      when a response arrived, or any other thrown value. */
  datatype Failure =
    | AxiosFailure(status: Option<int>, msgs: Option<seq<string>>, message: string)
    | OtherFailure(message: string)

  /** `errorData?.msgs?.[0] ?? error.message`: the carrier's first message, else the error's own. */
  function CarrierMessage(msgs: Option<seq<string>>, fallback: string): (m: string)
    ensures msgs.Some? && msgs.value != [] ==> m == msgs.value[0]
    ensures msgs.None? || msgs.value == [] ==> m == fallback
  {
    if msgs.Some? && msgs.value != [] then msgs.value[0] else fallback
  }

  /** `${status}` for an optional status: the number, or "undefined" when no response arrived. */
  function StatusText(status: Option<int>): (s: string)
    ensures status.Some? ==> s == IntToString(status.value)
    ensures status.None? ==> s == "undefined"
  {
    match status
    case Some(n) => IntToString(n)
    case None => "undefined"
  }

  /** One `name=value` pair of a `URLSearchParams`. */
  datatype QueryParam = QueryParam(name: string, value: string)

  /** A `URLSearchParams`: an append-only list of pairs. */
  class SearchParams {
    var entries: seq<QueryParam>

    constructor()
      ensures entries == []
    {
      entries := [];
    }

    /** `params.append(name, value)` */
    method Append(name: string, value: string)
      modifies this
      ensures entries == old(entries) + [QueryParam(name, value)]
    {
      entries := entries + [QueryParam(name, value)];
    }
  }
}
