/**
 * The schedule store (frontend/src/store/useScheduleStore.ts): the time
 * slots of one activity, each a record keyed by `schedule_id`.
 */
module ScheduleStore {
  import opened Wrappers
  import opened Values
  import opened JsArray

  /** A `ScheduleDTO` as its fields. */
  type Schedule = map<string, Value>

  const IdKey := "schedule_id"

  function IdValue(id: int): Value { Num(id as real) }

  function HasScheduleId(id: int): Schedule -> bool { (s: Schedule) => Get(s, IdKey) == IdValue(id) }
  function NotScheduleId(id: int): Schedule -> bool { (s: Schedule) => Get(s, IdKey) != IdValue(id) }
  /** `Object.assign(entry, payload)`: the payload's keys win. */
  function Merge(payload: map<string, Value>): Schedule -> Schedule { (s: Schedule) => s + payload }

  class ScheduleStore {
    var list: seq<Schedule>
    var loading: bool
    var error: Option<string>

    constructor()
      ensures list == [] && !loading && error.None?
    {
      list := [];
      loading := false;
      error := None;
    }

    /** `fetchByActivity`: a failure keeps the old list and is not rethrown. */
    method FetchByActivity(activityId: int, dao: Result<seq<Schedule>, string>)
      modifies this
      ensures !loading
      ensures dao.Ok? ==> list == dao.value && error.None?
      ensures dao.Err? ==> list == old(list) && error == Some(dao.error)
    {
      loading := true;
      error := None;
      match dao {
        case Ok(slots) => list := slots;
        case Err(message) => error := Some(message);
      }
      loading := false;
    }

    /** `create`: the payload with the returned id is appended. */
    method Create(activityId: int, payload: map<string, Value>, dao: Result<int, string>) returns (thrown: Option<string>)
      modifies this
      ensures dao.Err? ==> list == old(list) && thrown == Some(dao.error)
      ensures dao.Ok? ==> (
        && |list| == |old(list)| + 1 && list[..|old(list)|] == old(list)
        && list[|old(list)|] == payload[IdKey := IdValue(dao.value)]
        && HasScheduleId(dao.value)(list[|old(list)|])
        && thrown.None?)
      ensures loading == old(loading) && error == old(error)
    {
      match dao {
        case Err(message) =>
          thrown := Some(message);
        case Ok(id) =>
          list := list + [payload[IdKey := IdValue(id)]];
          thrown := None;
      }
    }

    /** `update`: the payload is merged into the first entry with the id. */
    method Update(id: int, payload: map<string, Value>, dao: Outcome<string>) returns (thrown: Option<string>)
      modifies this
      ensures dao.Fail? ==> list == old(list) && thrown == Some(dao.error)
      ensures dao.Pass? ==> list == UpdateFirst(old(list), HasScheduleId(id), Merge(payload)) && thrown.None?
      ensures loading == old(loading) && error == old(error)
    {
      match dao {
        case Fail(message) =>
          thrown := Some(message);
        case Pass =>
          var i := FindIndex(list, HasScheduleId(id));
          if i > -1 {
            list := list[i := list[i] + payload];
          }
          thrown := None;
      }
    }

    /** `remove`: after the DAO call, every entry with the id is dropped. */
    method Remove(id: int, dao: Outcome<string>) returns (thrown: Option<string>)
      modifies this
      ensures dao.Fail? ==> list == old(list) && thrown == Some(dao.error)
      ensures dao.Pass? ==> list == Filter(old(list), NotScheduleId(id)) && thrown.None?
      ensures loading == old(loading) && error == old(error)
    {
      match dao {
        case Fail(message) =>
          thrown := Some(message);
        case Pass =>
          list := Filter(list, NotScheduleId(id));
          thrown := None;
      }
    }
  }

  /** The merged entry holds every payload field and keeps every other field of the entry. */
  lemma MergeKeepsOthers(s: Schedule, payload: map<string, Value>, k: string)
    ensures k in payload ==> Get(Merge(payload)(s), k) == payload[k]
    ensures k !in payload ==> Get(Merge(payload)(s), k) == Get(s, k)
  {
  }

  /** An update whose payload has no entry with the id leaves the list as it was. */
  lemma UpdateUnknownId(s: seq<Schedule>, id: int, payload: map<string, Value>)
    requires forall j :: 0 <= j < |s| ==> Get(s[j], IdKey) != IdValue(id)
    ensures UpdateFirst(s, HasScheduleId(id), Merge(payload)) == s
  {
    UpdateFirstNoMatch(s, HasScheduleId(id), Merge(payload));
  }

  /** Removing an id that was just created takes the new entry out again. */
  lemma RemoveAfterCreate(s: seq<Schedule>, payload: map<string, Value>, id: int)
    requires forall j :: 0 <= j < |s| ==> Get(s[j], IdKey) != IdValue(id)
    ensures Filter(s + [payload[IdKey := IdValue(id)]], NotScheduleId(id)) == s
  {
    FilterAppend(s, [payload[IdKey := IdValue(id)]], NotScheduleId(id));
    FilterKeepsAll(s, NotScheduleId(id));
  }
}
