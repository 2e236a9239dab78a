/**
 * The join-request store (frontend/src/store/useJoinRequestStore.ts): the
 * pending requests of one club.  Neither action rethrows.
 */
module JoinRequestStore {
  import opened Wrappers
  import opened Values
  import opened JsArray

  datatype PendingRequest = PendingRequest(requestId: int, data: Value)

  datatype Decision = Aprobar | Rechazar

  function NotRequestId(id: int): PendingRequest -> bool { (r: PendingRequest) => r.requestId != id }

  class JoinRequestStore {
    var pending: seq<PendingRequest>
    var loading: bool
    var error: Option<string>

    constructor()
      ensures pending == [] && !loading && error.None?
    {
      pending := [];
      loading := false;
      error := None;
    }

    /** `fetchPending`: a success replaces the list, a failure keeps it. */
    method FetchPending(clubId: int, dao: Result<seq<PendingRequest>, string>)
      modifies this
      ensures !loading
      ensures dao.Ok? ==> pending == dao.value && error.None?
      ensures dao.Err? ==> pending == old(pending) && error == Some(dao.error)
    {
      loading := true;
      error := None;
      match dao {
        case Ok(requests) => pending := requests;
        case Err(message) => error := Some(message);
      }
      loading := false;
    }

    /** `process`: once the DAO call succeeds, every request with the id leaves the list. */
    method Process(requestId: int, action: Decision, dao: Outcome<string>)
      modifies this
      ensures !loading
      ensures dao.Pass? ==> pending == Filter(old(pending), NotRequestId(requestId)) && error.None?
      ensures dao.Fail? ==> pending == old(pending) && error == Some(dao.error)
    {
      loading := true;
      error := None;
      match dao {
        case Pass => pending := Filter(pending, NotRequestId(requestId));
        case Fail(message) => error := Some(message);
      }
      loading := false;
    }
  }

  /** Processing the same request twice leaves the list as one processing does. */
  lemma ProcessTwice(s: seq<PendingRequest>, id: int)
    ensures Filter(Filter(s, NotRequestId(id)), NotRequestId(id)) == Filter(s, NotRequestId(id))
    ensures forall r :: r in Filter(s, NotRequestId(id)) ==> r.requestId != id
  {
    FilterIdempotent(s, NotRequestId(id));
  }

  /** Processing keeps the other requests in their order: it commutes with concatenation. */
  lemma ProcessKeepsOrder(s: seq<PendingRequest>, t: seq<PendingRequest>, id: int)
    ensures Filter(s + t, NotRequestId(id)) == Filter(s, NotRequestId(id)) + Filter(t, NotRequestId(id))
  {
    FilterAppend(s, t, NotRequestId(id));
  }
}
