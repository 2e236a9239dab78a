/**
 * The participant store (frontend/src/store/useParticipantStore.ts): the
 * participants of one activity.  Each action is given what its DAO call
 * settles with; a failure carries the error's `message`.
 */
module ParticipantStore {
  import opened Wrappers
  import opened Values
  import opened JsArray

  datatype Participant = Participant(participantId: int, attendanceStatus: string, data: Value)

  function HasParticipantId(id: int): Participant -> bool { (p: Participant) => p.participantId == id }
  function NotParticipantId(id: int): Participant -> bool { (p: Participant) => p.participantId != id }
  function SetAttendance(status: string): Participant -> Participant {
    (p: Participant) => p.(attendanceStatus := status)
  }

  class ParticipantStore {
    var list: seq<Participant>
    var loading: bool
    var error: Option<string>

    constructor()
      ensures list == [] && !loading && error.None?
    {
      list := [];
      loading := false;
      error := None;
    }

    /** `fetchByActivity`: a failure keeps the old list and is not rethrown. */
    method FetchByActivity(activityId: int, dao: Result<seq<Participant>, string>)
      modifies this
      ensures !loading
      ensures dao.Ok? ==> list == dao.value && error.None?
      ensures dao.Err? ==> list == old(list) && error == Some(dao.error)
    {
      loading := true;
      error := None;
      match dao {
        case Ok(participants) => list := participants;
        case Err(message) => error := Some(message);
      }
      loading := false;
    }

    /**
     * `register`: the list is reloaded (`reload` is how that second call
     * settles) only after the registration itself succeeds.
     */
    method Register(activityId: int, userId: int, dao: Outcome<string>, reload: Result<seq<Participant>, string>)
      modifies this
      ensures !loading
      ensures dao.Fail? ==> list == old(list) && error == Some(dao.error)
      ensures dao.Pass? && reload.Ok? ==> list == reload.value && error.None?
      ensures dao.Pass? && reload.Err? ==> list == old(list) && error == Some(reload.error)
    {
      loading := true;
      error := None;
      match dao {
        case Pass => FetchByActivity(activityId, reload);
        case Fail(message) => error := Some(message);
      }
      loading := false;
    }

    /**
     * `updateAttendance`: the DAO call comes first and its failure
     * propagates; only then does the first participant with the id take
     * the new status.
     */
    method UpdateAttendance(participantId: int, status: string, dao: Outcome<string>) returns (thrown: Option<string>)
      modifies this
      ensures dao.Fail? ==> list == old(list) && thrown == Some(dao.error)
      ensures dao.Pass? ==> (list == UpdateFirst(old(list), HasParticipantId(participantId), SetAttendance(status))
        && thrown.None?)
      ensures loading == old(loading) && error == old(error)
    {
      match dao {
        case Fail(message) =>
          thrown := Some(message);
        case Pass =>
          var i := FindIndex(list, HasParticipantId(participantId));
          if i > -1 {
            list := list[i := list[i].(attendanceStatus := status)];
          }
          thrown := None;
      }
    }

    /** `remove`: after the DAO call, every participant with the id is dropped. */
    method Remove(participantId: int, dao: Outcome<string>) returns (thrown: Option<string>)
      modifies this
      ensures dao.Fail? ==> list == old(list) && thrown == Some(dao.error)
      ensures dao.Pass? ==> list == Filter(old(list), NotParticipantId(participantId)) && thrown.None?
      ensures loading == old(loading) && error == old(error)
    {
      match dao {
        case Fail(message) =>
          thrown := Some(message);
        case Pass =>
          list := Filter(list, NotParticipantId(participantId));
          thrown := None;
      }
    }
  }

  /** The attendance update touches only the first match, and only its status. */
  lemma AttendanceTouchesOneEntry(s: seq<Participant>, id: int, status: string)
    ensures var t := UpdateFirst(s, HasParticipantId(id), SetAttendance(status));
      var i := FindIndex(s, HasParticipantId(id));
      && |t| == |s|
      && (i == -1 ==> t == s)
      && (i >= 0 ==> t[i] == s[i].(attendanceStatus := status) && t[i].participantId == id)
      && (forall j :: 0 <= j < |s| && j != i ==> t[j] == s[j])
  {
  }

  /** After a removal no participant with the id is left, and every other one is. */
  lemma RemoveDropsAll(s: seq<Participant>, id: int)
    ensures forall p :: p in Filter(s, NotParticipantId(id)) ==> p.participantId != id && p in s
    ensures forall p :: p in s && p.participantId != id ==> p in Filter(s, NotParticipantId(id))
  {
  }
}
