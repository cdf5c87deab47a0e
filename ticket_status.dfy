/**
 * The status codes a ticket carries (TicketStatus.java). The source keeps them as
 * `static final int` constants; here they are a datatype with an int encoding.
 */
module TicketStatus {
  import opened Wrappers

  datatype Status =
    | OnCaching   // CACHE_STATUS_ON_CACHING: initial, and while the ticket is moving to disk
    | OnNative    // CACHE_STATUS_ON_NATIVE: held by the memory tier
    | OnDisk      // CACHE_STATUS_ONDISK: its bytes were written to disk
    | IsResumed   // CACHE_STATUS_IS_RESUMED: read back from disk
    | WasLost     // CACHE_STATUS_WAS_LOST: the disk write failed

  /** The int constant the source uses for a status. */
  function Code(s: Status): (c: int)
    ensures -1 <= c <= 3
    ensures c < 0 <==> s == WasLost
    ensures c == 0 <==> s == OnCaching
  {
    match s
    case OnCaching => 0
    case OnNative => 1
    case OnDisk => 2
    case IsResumed => 3
    case WasLost => -1
  }

  /** The status an int constant stands for, if any. */
  function Decode(c: int): (r: Option<Status>)
    ensures r.Some? <==> -1 <= c <= 3
    ensures forall s :: r == Some(s) <==> Code(s) == c
  {
    if c == 0 then Some(OnCaching)
    else if c == 1 then Some(OnNative)
    else if c == 2 then Some(OnDisk)
    else if c == 3 then Some(IsResumed)
    else if c == -1 then Some(WasLost)
    else None
  }

  /** The five codes are pairwise distinct. */
  lemma CodeInjective(s: Status, t: Status)
    ensures Code(s) == Code(t) ==> s == t
  {
  }

  /** Encoding and then decoding gives the status back. */
  lemma DecodeCode(s: Status)
    ensures Decode(Code(s)) == Some(s)
  {
  }

  /** Decoding and then encoding gives the code back. */
  lemma CodeDecode(c: int)
    requires -1 <= c <= 3
    ensures Decode(c).Some? && Code(Decode(c).value) == c
  {
  }
}
