/**
 * The club store (frontend/src/store/useClubStore.ts): the club lists, the
 * open club's details, its members and join requests, one busy flag per
 * kind of action, and the last error.  Each action is given what its DAO
 * call settles with; an action that rethrows returns the error instead.
 */
module ClubStore {
  import opened Wrappers
  import opened Values
  import opened ApiErrors
  import opened JsArray

  /** A `ClubDTO`: its `club_id` and the rest of its fields. */
  datatype Club = Club(clubId: int, data: Value)

  /** A `JoinRequestDTO`: its id, status, processing date and the rest of its fields. */
  datatype JoinRequest = JoinRequest(requestId: int, status: string, processedDate: Option<string>, data: Value)

  datatype JoinAction = Approve | Reject

  /** The nine busy flags of the store's state; the store holds the set of those that are on. */
  datatype Flag =
    | Loading | LoadingClubs | LoadingMyClubs | LoadingDetails | LoadingMembers
    | LoadingJoinRequests | CreatingClub | UpdatingClub | JoiningClub

  const FetchAllFallback := "Error al cargar clubs"
  const FetchMineFallback := "Error al cargar mis clubs"
  const FetchDetailsFallback := "Error al cargar detalles del club"
  const CreateFallback := "Error al crear club"
  const UpdateFallback := "Error al actualizar club"
  const JoinFallback := "Error al solicitar unión al club"
  const MembersFallback := "Error al cargar miembros del club"
  const JoinRequestsFallback := "Error al cargar solicitudes de unión"
  const ProcessFallback := "Error al procesar solicitud"
  const DeleteFallback := "Error al eliminar club"
  const SettingsFallback := "Error al actualizar ajustes del club"
  const InviteFallback := "Error al invitar miembros"
  const MemberFallback := "Error al actualizar miembro del club"

  function HasClubId(id: int): Club -> bool { (c: Club) => c.clubId == id }
  function NotClubId(id: int): Club -> bool { (c: Club) => c.clubId != id }
  function Replace(u: Club): Club -> Club { _ => u }
  function HasRequestId(id: int): JoinRequest -> bool { (r: JoinRequest) => r.requestId == id }
  function IsPending(): JoinRequest -> bool { (r: JoinRequest) => r.status == "pending" }

  /** The list after `const i = list.findIndex(c => c.club_id === id); if (i > -1) list[i] = u`. */
  function ReplaceClub(s: seq<Club>, id: int, u: Club): seq<Club> {
    UpdateFirst(s, HasClubId(id), Replace(u))
  }

  /** `list.filter(c => c.club_id !== id)` */
  function WithoutClub(s: seq<Club>, id: int): (r: seq<Club>)
    ensures forall j :: 0 <= j < |r| ==> r[j].clubId != id
  {
    Filter(s, NotClubId(id))
  }

  /** The requests after the one with the id is marked processed. */
  function MarkRequest(s: seq<JoinRequest>, id: int, action: JoinAction, now: string): seq<JoinRequest> {
    UpdateFirst(s, HasRequestId(id), MarkProcessed(action, now))
  }

  /** The status a processed request takes. */
  function StatusFor(action: JoinAction): string {
    if action == Approve then "approved" else "rejected"
  }

  function MarkProcessed(action: JoinAction, now: string): JoinRequest -> JoinRequest {
    (r: JoinRequest) => r.(status := StatusFor(action), processedDate := Some(now))
  }

  class ClubStore {
    var clubs: seq<Club>
    var myClubs: seq<Club>
    var details: Option<Club>
    var clubMembers: seq<Value>
    var joinRequests: seq<JoinRequest>
    var busy: set<Flag>
    var error: Option<string>

    constructor()
      ensures clubs == [] && myClubs == [] && details.None? && clubMembers == [] && joinRequests == []
      ensures busy == {} && error.None?
    {
      clubs := [];
      myClubs := [];
      details := None;
      clubMembers := [];
      joinRequests := [];
      busy := {};
      error := None;
    }

    /** `getPendingJoinRequests`: the pending requests, in order. */
    function PendingJoinRequests(): (r: seq<JoinRequest>)
      reads this
      ensures forall j :: 0 <= j < |r| ==> r[j] in joinRequests && r[j].status == "pending"
      ensures forall j :: 0 <= j < |joinRequests| && joinRequests[j].status == "pending" ==> joinRequests[j] in r
    {
      Filter(joinRequests, IsPending())
    }

    /** `getClubById`: the first club in `clubs` with the id. */
    function ClubById(id: int): (r: Option<Club>)
      reads this
      ensures r.None? <==> forall j :: 0 <= j < |clubs| ==> clubs[j].clubId != id
      ensures r.Some? ==> r.value.clubId == id && r.value in clubs
      ensures r.Some? ==> exists j :: (0 <= j < |clubs| && clubs[j] == r.value
        && forall i :: 0 <= i < j ==> clubs[i].clubId != id)
    {
      var i := FindIndex(clubs, HasClubId(id));
      if i == -1 then None else Some(clubs[i])
    }

    /** `clearError` */
    method ClearError()
      modifies this
      ensures error.None?
      ensures clubs == old(clubs) && myClubs == old(myClubs) && details == old(details)
      ensures clubMembers == old(clubMembers) && joinRequests == old(joinRequests) && busy == old(busy)
    {
      error := None;
    }

    /** `fetchAllClubs` */
    method FetchAllClubs(dao: Result<seq<Club>, ApiError>) returns (thrown: Option<ApiError>)
      modifies this
      ensures busy == old(busy) - {LoadingClubs}
      ensures dao.Ok? ==> clubs == dao.value && error.None? && thrown.None?
      ensures dao.Err? ==> (clubs == old(clubs) && error == Some(ErrorText(dao.error, FetchAllFallback))
        && thrown == Some(dao.error))
      ensures myClubs == old(myClubs) && details == old(details)
      ensures clubMembers == old(clubMembers) && joinRequests == old(joinRequests)
    {
      busy := busy + {LoadingClubs};
      error := None;
      match dao {
        case Ok(list) =>
          clubs := list;
          thrown := None;
        case Err(e) =>
          error := Some(ErrorText(e, FetchAllFallback));
          thrown := Some(e);
      }
      busy := busy - {LoadingClubs};
    }

    /** `fetchMyClubs` */
    method FetchMyClubs(dao: Result<seq<Club>, ApiError>) returns (thrown: Option<ApiError>)
      modifies this
      ensures busy == old(busy) - {LoadingMyClubs}
      ensures dao.Ok? ==> myClubs == dao.value && error.None? && thrown.None?
      ensures dao.Err? ==> (myClubs == old(myClubs) && error == Some(ErrorText(dao.error, FetchMineFallback))
        && thrown == Some(dao.error))
      ensures clubs == old(clubs) && details == old(details)
      ensures clubMembers == old(clubMembers) && joinRequests == old(joinRequests)
    {
      busy := busy + {LoadingMyClubs};
      error := None;
      match dao {
        case Ok(list) =>
          myClubs := list;
          thrown := None;
        case Err(e) =>
          error := Some(ErrorText(e, FetchMineFallback));
          thrown := Some(e);
      }
      busy := busy - {LoadingMyClubs};
    }

    /** `fetchDetails`: the old details are dropped first, so a failure leaves none. */
    method FetchDetails(clubId: int, dao: Result<Club, ApiError>) returns (thrown: Option<ApiError>)
      modifies this
      ensures busy == old(busy) - {LoadingDetails}
      ensures dao.Ok? ==> details == Some(dao.value) && error.None? && thrown.None?
      ensures dao.Err? ==> (details.None? && error == Some(ErrorText(dao.error, FetchDetailsFallback))
        && thrown == Some(dao.error))
      ensures clubs == old(clubs) && myClubs == old(myClubs)
      ensures clubMembers == old(clubMembers) && joinRequests == old(joinRequests)
    {
      busy := busy + {LoadingDetails};
      details := None;
      error := None;
      match dao {
        case Ok(club) =>
          details := Some(club);
          thrown := None;
        case Err(e) =>
          error := Some(ErrorText(e, FetchDetailsFallback));
          thrown := Some(e);
      }
      busy := busy - {LoadingDetails};
    }

    /** `createClub`: the new club goes to the front of both lists. */
    method CreateClub(dao: Result<Club, ApiError>) returns (r: Result<Club, ApiError>)
      modifies this
      ensures r == dao
      ensures busy == old(busy) - {CreatingClub}
      ensures dao.Ok? ==> (clubs == [dao.value] + old(clubs) && myClubs == [dao.value] + old(myClubs)
        && error.None?)
      ensures dao.Ok? ==> ClubById(dao.value.clubId) == Some(dao.value)
      ensures dao.Err? ==> (clubs == old(clubs) && myClubs == old(myClubs)
        && error == Some(ErrorText(dao.error, CreateFallback)))
      ensures details == old(details) && clubMembers == old(clubMembers) && joinRequests == old(joinRequests)
    {
      busy := busy + {CreatingClub};
      error := None;
      match dao {
        case Ok(newClub) =>
          clubs := [newClub] + clubs;
          myClubs := [newClub] + myClubs;
          assert FindIndex(clubs, HasClubId(newClub.clubId)) == 0;
        case Err(e) =>
          error := Some(ErrorText(e, CreateFallback));
      }
      r := dao;
      busy := busy - {CreatingClub};
    }

    /**
     * `updateClub`: the first club with the id in each list is replaced by
     * the server's copy, and so are the details when they are that club's.
     */
    method UpdateClub(clubId: int, dao: Result<Club, ApiError>) returns (r: Result<Club, ApiError>)
      modifies this
      ensures r == dao
      ensures busy == old(busy) - {UpdatingClub}
      ensures dao.Ok? ==>
        && clubs == ReplaceClub(old(clubs), clubId, dao.value)
        && myClubs == ReplaceClub(old(myClubs), clubId, dao.value)
        && details == (if old(details).Some? && old(details).value.clubId == clubId then Some(dao.value) else old(details))
        && error.None?
      ensures dao.Err? ==> (clubs == old(clubs) && myClubs == old(myClubs) && details == old(details)
        && error == Some(ErrorText(dao.error, UpdateFallback)))
      ensures clubMembers == old(clubMembers) && joinRequests == old(joinRequests)
    {
      busy := busy + {UpdatingClub};
      error := None;
      match dao {
        case Ok(updated) =>
          clubs := ReplaceClub(clubs, clubId, updated);
          myClubs := ReplaceClub(myClubs, clubId, updated);
          if details.Some? && details.value.clubId == clubId {
            details := Some(updated);
          }
        case Err(e) =>
          error := Some(ErrorText(e, UpdateFallback));
      }
      r := dao;
      busy := busy - {UpdatingClub};
    }

    /** `requestJoinClub`: no list changes either way. */
    method RequestJoinClub(clubId: int, dao: Outcome<ApiError>) returns (thrown: Option<ApiError>)
      modifies this
      ensures busy == old(busy) - {JoiningClub}
      ensures dao.Pass? ==> error.None? && thrown.None?
      ensures dao.Fail? ==> error == Some(ErrorText(dao.error, JoinFallback)) && thrown == Some(dao.error)
      ensures clubs == old(clubs) && myClubs == old(myClubs) && details == old(details)
      ensures clubMembers == old(clubMembers) && joinRequests == old(joinRequests)
    {
      busy := busy + {JoiningClub};
      error := None;
      match dao {
        case Pass => thrown := None;
        case Fail(e) =>
          error := Some(ErrorText(e, JoinFallback));
          thrown := Some(e);
      }
      busy := busy - {JoiningClub};
    }

    /** `fetchClubMembers` */
    method FetchClubMembers(clubId: int, dao: Result<seq<Value>, ApiError>) returns (thrown: Option<ApiError>)
      modifies this
      ensures busy == old(busy) - {LoadingMembers}
      ensures dao.Ok? ==> clubMembers == dao.value && error.None? && thrown.None?
      ensures dao.Err? ==> (clubMembers == old(clubMembers) && error == Some(ErrorText(dao.error, MembersFallback))
        && thrown == Some(dao.error))
      ensures clubs == old(clubs) && myClubs == old(myClubs) && details == old(details)
      ensures joinRequests == old(joinRequests)
    {
      busy := busy + {LoadingMembers};
      error := None;
      match dao {
        case Ok(list) =>
          clubMembers := list;
          thrown := None;
        case Err(e) =>
          error := Some(ErrorText(e, MembersFallback));
          thrown := Some(e);
      }
      busy := busy - {LoadingMembers};
    }

    /** `fetchJoinRequests` */
    method FetchJoinRequests(clubId: int, dao: Result<seq<JoinRequest>, ApiError>) returns (thrown: Option<ApiError>)
      modifies this
      ensures busy == old(busy) - {LoadingJoinRequests}
      ensures dao.Ok? ==> joinRequests == dao.value && error.None? && thrown.None?
      ensures dao.Err? ==> (joinRequests == old(joinRequests)
        && error == Some(ErrorText(dao.error, JoinRequestsFallback)) && thrown == Some(dao.error))
      ensures clubs == old(clubs) && myClubs == old(myClubs) && details == old(details)
      ensures clubMembers == old(clubMembers)
    {
      busy := busy + {LoadingJoinRequests};
      error := None;
      match dao {
        case Ok(list) =>
          joinRequests := list;
          thrown := None;
        case Err(e) =>
          error := Some(ErrorText(e, JoinRequestsFallback));
          thrown := Some(e);
      }
      busy := busy - {LoadingJoinRequests};
    }

    /**
     * `processJoinRequest`: after the DAO call, the first request with the
     * id is marked approved or rejected at `now`; an approval then reloads
     * the members (`members` is what that second call settles with).  An
     * error from either call ends with this action's error text.
     */
    method ProcessJoinRequest(clubId: int, requestId: int, action: JoinAction, dao: Outcome<ApiError>,
                              now: string, members: Result<seq<Value>, ApiError>) returns (thrown: Option<ApiError>)
      modifies this
      ensures busy == old(busy) - {Loading} - (if dao.Pass? && action == Approve then {LoadingMembers} else {})
      ensures dao.Fail? ==> (joinRequests == old(joinRequests) && clubMembers == old(clubMembers)
        && error == Some(ErrorText(dao.error, ProcessFallback)) && thrown == Some(dao.error))
      ensures dao.Pass? ==> joinRequests == MarkRequest(old(joinRequests), requestId, action, now)
      ensures dao.Pass? && action == Reject ==> clubMembers == old(clubMembers) && error.None? && thrown.None?
      ensures dao.Pass? && action == Approve && members.Ok? ==> clubMembers == members.value && error.None? && thrown.None?
      ensures dao.Pass? && action == Approve && members.Err? ==> (clubMembers == old(clubMembers)
        && error == Some(ErrorText(members.error, ProcessFallback)) && thrown == Some(members.error))
      ensures clubs == old(clubs) && myClubs == old(myClubs) && details == old(details)
    {
      busy := busy + {Loading};
      error := None;
      thrown := None;
      match dao {
        case Fail(e) =>
          error := Some(ErrorText(e, ProcessFallback));
          thrown := Some(e);
        case Pass =>
          joinRequests := MarkRequest(joinRequests, requestId, action, now);
          if action == Approve {
            thrown := FetchClubMembers(clubId, members);
            if thrown.Some? {
              error := Some(ErrorText(thrown.value, ProcessFallback));
            }
          }
      }
      busy := busy - {Loading};
    }

    /** `deleteClub`: every club with the id leaves both lists; matching details are cleared. */
    method DeleteClub(clubId: int, dao: Outcome<ApiError>) returns (thrown: Option<ApiError>)
      modifies this
      ensures busy == old(busy) - {Loading}
      ensures dao.Pass? ==>
        && clubs == WithoutClub(old(clubs), clubId)
        && myClubs == WithoutClub(old(myClubs), clubId)
        && details == (if old(details).Some? && old(details).value.clubId == clubId then None else old(details))
        && error.None? && thrown.None?
      ensures dao.Pass? ==> ClubById(clubId).None?
      ensures dao.Fail? ==> (clubs == old(clubs) && myClubs == old(myClubs) && details == old(details)
        && error == Some(ErrorText(dao.error, DeleteFallback)) && thrown == Some(dao.error))
      ensures clubMembers == old(clubMembers) && joinRequests == old(joinRequests)
    {
      busy := busy + {Loading};
      error := None;
      match dao {
        case Pass =>
          clubs := WithoutClub(clubs, clubId);
          myClubs := WithoutClub(myClubs, clubId);
          if details.Some? && details.value.clubId == clubId {
            details := None;
          }
          thrown := None;
        case Fail(e) =>
          error := Some(ErrorText(e, DeleteFallback));
          thrown := Some(e);
      }
      busy := busy - {Loading};
    }

    /** `resetState`: three of the busy flags are not reset. */
    method ResetState()
      modifies this
      ensures clubs == [] && myClubs == [] && details.None? && clubMembers == [] && joinRequests == []
      ensures error.None?
      ensures busy == old(busy) - {Loading, LoadingClubs, LoadingMyClubs, LoadingDetails, CreatingClub, JoiningClub}
      ensures busy * {LoadingMembers, LoadingJoinRequests, UpdatingClub} == old(busy) * {LoadingMembers, LoadingJoinRequests, UpdatingClub}
    {
      clubs := [];
      myClubs := [];
      details := None;
      clubMembers := [];
      joinRequests := [];
      error := None;
      busy := busy - {Loading, LoadingClubs, LoadingMyClubs, LoadingDetails, CreatingClub, JoiningClub};
    }

    /** `updateSettings`: only the flag and the error change. */
    method UpdateSettings(clubId: int, dao: Outcome<ApiError>) returns (thrown: Option<ApiError>)
      modifies this
      ensures busy == old(busy) - {Loading}
      ensures dao.Pass? ==> error.None? && thrown.None?
      ensures dao.Fail? ==> error == Some(ErrorText(dao.error, SettingsFallback)) && thrown == Some(dao.error)
      ensures clubs == old(clubs) && myClubs == old(myClubs) && details == old(details)
      ensures clubMembers == old(clubMembers) && joinRequests == old(joinRequests)
    {
      busy := busy + {Loading};
      error := None;
      match dao {
        case Pass => thrown := None;
        case Fail(e) =>
          error := Some(ErrorText(e, SettingsFallback));
          thrown := Some(e);
      }
      busy := busy - {Loading};
    }

    /** `inviteMembers`: only the flag and the error change. */
    method InviteMembers(clubId: int, dao: Outcome<ApiError>) returns (thrown: Option<ApiError>)
      modifies this
      ensures busy == old(busy) - {Loading}
      ensures dao.Pass? ==> error.None? && thrown.None?
      ensures dao.Fail? ==> error == Some(ErrorText(dao.error, InviteFallback)) && thrown == Some(dao.error)
      ensures clubs == old(clubs) && myClubs == old(myClubs) && details == old(details)
      ensures clubMembers == old(clubMembers) && joinRequests == old(joinRequests)
    {
      busy := busy + {Loading};
      error := None;
      match dao {
        case Pass => thrown := None;
        case Fail(e) =>
          error := Some(ErrorText(e, InviteFallback));
          thrown := Some(e);
      }
      busy := busy - {Loading};
    }

    /** `updateClubMember`: after the DAO call the members are reloaded. */
    method UpdateClubMember(clubId: int, userId: int, dao: Outcome<ApiError>,
                            members: Result<seq<Value>, ApiError>) returns (thrown: Option<ApiError>)
      modifies this
      ensures busy == old(busy) - {Loading} - (if dao.Pass? then {LoadingMembers} else {})
      ensures dao.Fail? ==> (clubMembers == old(clubMembers)
        && error == Some(ErrorText(dao.error, MemberFallback)) && thrown == Some(dao.error))
      ensures dao.Pass? && members.Ok? ==> clubMembers == members.value && error.None? && thrown.None?
      ensures dao.Pass? && members.Err? ==> (clubMembers == old(clubMembers)
        && error == Some(ErrorText(members.error, MemberFallback)) && thrown == Some(members.error))
      ensures clubs == old(clubs) && myClubs == old(myClubs) && details == old(details)
      ensures joinRequests == old(joinRequests)
    {
      busy := busy + {Loading};
      error := None;
      match dao {
        case Fail(e) =>
          error := Some(ErrorText(e, MemberFallback));
          thrown := Some(e);
        case Pass =>
          thrown := FetchClubMembers(clubId, members);
          if thrown.Some? {
            error := Some(ErrorText(thrown.value, MemberFallback));
          }
      }
      busy := busy - {Loading};
    }
  }

  /** Replacing a club by the server copy with the same id twice is replacing it once. */
  lemma UpdateClubIdempotent(s: seq<Club>, clubId: int, u: Club)
    requires u.clubId == clubId
    ensures ReplaceClub(ReplaceClub(s, clubId, u), clubId, u) == ReplaceClub(s, clubId, u)
  {
    UpdateFirstIdempotent(s, HasClubId(clubId), Replace(u));
  }

  /** Deleting keeps every other club, in order, and removes every copy of the deleted one. */
  lemma DeleteKeepsOthers(s: seq<Club>, clubId: int, t: seq<Club>)
    ensures WithoutClub(s + t, clubId) == WithoutClub(s, clubId) + WithoutClub(t, clubId)
    ensures forall c :: c in s && c.clubId != clubId ==> c in WithoutClub(s, clubId)
    ensures forall c :: c in WithoutClub(s, clubId) ==> c in s && c.clubId != clubId
  {
    FilterAppend(s, t, NotClubId(clubId));
  }

  /** A processed request is no longer pending. */
  lemma ProcessedLeavesPending(s: seq<JoinRequest>, requestId: int, action: JoinAction, now: string)
    requires FindIndex(s, HasRequestId(requestId)) >= 0
    ensures var i := FindIndex(s, HasRequestId(requestId));
      var t := MarkRequest(s, requestId, action, now);
      t[i].requestId == requestId && t[i].status == StatusFor(action) && !IsPending()(t[i])
  {
  }
}
