/**
 * `ActivityService` (backend/services/activity_service.py): the dynamic
 * UPDATE builder of `update_activity`, the parameters of `create_activity`,
 * the statement order of `delete_activity` and the row mapping shared by
 * the listing queries.  The database is an oracle: a statement either runs
 * or raises.
 */
module ActivityService {
  import opened Wrappers
  import opened Values
  import opened PyStr
  import SqlText

  /** The only columns `update_activity` may write, in the order the loop visits them. */
  const UpdatableColumns: seq<string> :=
    ["activity_name", "activity_description", "max_participants",
     "activity_type_id", "activity_status_id", "group_id",
     "activity_datetime", "location"]

  const UpdatePrefix := "UPDATE activities SET "
  const UpdateSuffix := SqlText.Fragment(" WHERE activity_id")

  /**
   * The loop of `update_activity`: one `col = %s` fragment and one value per
   * whitelisted column present in the data, in whitelist order.
   */
  method BuildSetClause(data: map<string, Value>) returns (fields: seq<string>, values: seq<Value>)
    ensures var cols := KeysPresent(UpdatableColumns, data);
      && |fields| == |cols| && |values| == |cols|
      && (forall k :: 0 <= k < |cols| ==> fields[k] == SqlText.Fragment(cols[k]) && values[k] == data[cols[k]])
  {
    fields, values := SetClauseOver(UpdatableColumns, data);
  }

  /** The same loop over any whitelist. */
  method SetClauseOver(whitelist: seq<string>, data: map<string, Value>) returns (fields: seq<string>, values: seq<Value>)
    ensures var cols := KeysPresent(whitelist, data);
      && |fields| == |cols| && |values| == |cols|
      && (forall k :: 0 <= k < |cols| ==> fields[k] == SqlText.Fragment(cols[k]) && values[k] == data[cols[k]])
  {
    fields, values := [], [];
    ghost var cols: seq<string> := [];
    for i := 0 to |whitelist|
      invariant cols == KeysPresent(whitelist[..i], data)
      invariant |fields| == |cols| && |values| == |cols|
      invariant forall k :: 0 <= k < |cols| ==> cols[k] in data
      invariant forall k :: 0 <= k < |cols| ==> fields[k] == SqlText.Fragment(cols[k]) && values[k] == data[cols[k]]
    {
      var field := whitelist[i];
      KeysPresentStep(whitelist, i, data);
      if field in data {
        fields := fields + [SqlText.Fragment(field)];
        values := values + [data[field]];
        cols := cols + [field];
      }
    }
    assert whitelist[..|whitelist|] == whitelist;
  }

  /** What `update_activity` does with the database. */
  datatype UpdatePlan =
    | ReturnCurrent                                  // no recognised field: re-read the record, no UPDATE
    | Execute(query: string, params: seq<Value>)     // run this UPDATE, then re-read the record

  /** The values of the given columns (all present in `data`), in order. */
  function ColumnValues(cols: seq<string>, data: map<string, Value>): (vs: seq<Value>)
    requires forall k :: 0 <= k < |cols| ==> cols[k] in data
    ensures |vs| == |cols| && forall k :: 0 <= k < |cols| ==> vs[k] == data[cols[k]]
  {
    seq(|cols|, k requires 0 <= k < |cols| => data[cols[k]])
  }

  /** The plan for the recognised columns `cols` of one request. */
  function PlanFor(activityId: int, cols: seq<string>, data: map<string, Value>): UpdatePlan
    requires forall k :: 0 <= k < |cols| ==> cols[k] in data
  {
    if cols == [] then ReturnCurrent
    else Execute(UpdatePrefix + Join(SqlText.Fragments(cols), ", ") + UpdateSuffix,
                 ColumnValues(cols, data) + [Num(activityId as real)])
  }

  /** What `update_activity` decides for one request. */
  function UpdatePlanOf(activityId: int, data: map<string, Value>): (plan: UpdatePlan)
    ensures plan.Execute? <==> KeysPresent(UpdatableColumns, data) != []
    ensures plan.Execute? ==>
      && |plan.params| == |KeysPresent(UpdatableColumns, data)| + 1
      && plan.params[|plan.params| - 1] == Num(activityId as real)
  {
    PlanFor(activityId, KeysPresent(UpdatableColumns, data), data)
  }

  /** `update_activity` up to the point where it hands the statement to the cursor. */
  method PlanUpdate(activityId: int, data: map<string, Value>) returns (plan: UpdatePlan)
    ensures plan == UpdatePlanOf(activityId, data)
  {
    var fields, values := BuildSetClause(data);
    if fields == [] {
      return ReturnCurrent;
    }
    values := values + [Num(activityId as real)];
    var query := UpdatePrefix + Join(fields, ", ") + UpdateSuffix;
    ghost var cols := KeysPresent(UpdatableColumns, data);
    assert fields == SqlText.Fragments(cols);
    plan := Execute(query, values);
  }

  /** No UPDATE is sent exactly when the data names no whitelisted column. */
  lemma PlanReturnsCurrent(activityId: int, data: map<string, Value>)
    ensures UpdatePlanOf(activityId, data).ReturnCurrent?
        <==> forall k :: 0 <= k < |UpdatableColumns| ==> UpdatableColumns[k] !in data
  {
  }

  /**
   * An UPDATE that is sent binds one value per recognised column, in
   * whitelist order, and the activity id last, for the WHERE clause.
   */
  lemma PlanParams(activityId: int, data: map<string, Value>)
    ensures var plan := UpdatePlanOf(activityId, data);
      var cols := KeysPresent(UpdatableColumns, data);
      plan.Execute? ==>
        && |plan.params| == |cols| + 1
        && plan.params[|cols|] == Num(activityId as real)
        && (forall k :: 0 <= k < |cols| ==> plan.params[k] == data[cols[k]])
  {
  }

  /** The statement of an UPDATE that is sent holds exactly one placeholder per bound value. */
  lemma PlanPlaceholders(activityId: int, data: map<string, Value>)
    ensures var plan := UpdatePlanOf(activityId, data);
      plan.Execute? ==> SqlText.Placeholders(plan.query) == |plan.params|
  {
    ColumnsHaveNoPercent();
    KeysPresentMembers(UpdatableColumns, data);
    PlanForPlaceholders(activityId, KeysPresent(UpdatableColumns, data), data);
  }

  /** The same, for any recognised columns without `%`. */
  lemma PlanForPlaceholders(activityId: int, cols: seq<string>, data: map<string, Value>)
    requires forall k :: 0 <= k < |cols| ==> cols[k] in data && '%' !in cols[k]
    ensures var plan := PlanFor(activityId, cols, data);
      plan.Execute? ==> SqlText.Placeholders(plan.query) == |plan.params|
  {
    if cols != [] {
      SqlText.FragmentsPlaceholders(cols);
      PrefixPlaceholders();
      SuffixPlaceholders();
      SqlText.SetListPlaceholders(UpdatePrefix, cols, UpdateSuffix);
    }
  }

  /** No whitelisted column name holds a `%`, so each fragment holds exactly one placeholder. */
  lemma ColumnsHaveNoPercent()
    ensures forall c :: c in UpdatableColumns ==> '%' !in c
  {
    assert '%' !in UpdatableColumns[0] && '%' !in UpdatableColumns[1];
    assert '%' !in UpdatableColumns[2] && '%' !in UpdatableColumns[3];
    assert '%' !in UpdatableColumns[4] && '%' !in UpdatableColumns[5];
    assert '%' !in UpdatableColumns[6] && '%' !in UpdatableColumns[7];
  }

  /** The text before the SET list holds no placeholder and does not end in `%`. */
  lemma PrefixPlaceholders()
    ensures SqlText.Placeholders(UpdatePrefix) == 0 && !SqlText.EndsWithPercent(UpdatePrefix)
  {
    assert '%' !in UpdatePrefix;
    SqlText.NoPercentNoPlaceholders(UpdatePrefix);
  }

  /** The WHERE clause holds exactly one placeholder, the id's, and does not start with `s`. */
  lemma SuffixPlaceholders()
    ensures SqlText.Placeholders(UpdateSuffix) == 1 && !SqlText.StartsWithS(UpdateSuffix)
  {
    var name := " WHERE activity_id";
    assert '%' !in name;
    SqlText.FragmentPlaceholders(name);
  }

  /**
   * Only whitelisted columns reach the SET clause: `creator_id` and
   * `activity_id` never do, whatever the data holds.
   */
  lemma SetClauseWhitelistOnly(data: map<string, Value>)
    ensures forall k :: 0 <= k < |KeysPresent(UpdatableColumns, data)| ==>
      var c := KeysPresent(UpdatableColumns, data)[k];
      c in UpdatableColumns && c != "creator_id" && c != "activity_id"
  {
    KeysPresentMembers(UpdatableColumns, data);
  }

  /** The SET clause follows the whitelist: with every whitelisted field given, it is the whole whitelist. */
  lemma SetClauseWhitelistOrder(data: map<string, Value>)
    requires forall k :: 0 <= k < |UpdatableColumns| ==> UpdatableColumns[k] in data
    ensures KeysPresent(UpdatableColumns, data) == UpdatableColumns
  {
    KeysPresentAll(UpdatableColumns, data);
  }

  /** Keys outside the whitelist never change the plan. */
  lemma SetClauseIgnoresOtherKeys(data: map<string, Value>, key: string, v: Value)
    requires key !in UpdatableColumns
    ensures KeysPresent(UpdatableColumns, data[key := v]) == KeysPresent(UpdatableColumns, data)
  {
    KeysPresentIgnoresOthers(UpdatableColumns, data[key := v], data);
  }

  /**
   * The nine parameters of the INSERT in `create_activity`, in column order.
   * The status defaults to 1 (active) only when the key is absent, and the
   * creator always comes from the argument.
   */
  function InsertParams(data: map<string, Value>, creatorId: int): (params: seq<Value>)
    ensures |params| == 9
    ensures params[4] == (if "activity_status_id" in data then data["activity_status_id"] else Num(1.0))
    ensures params[6] == Num(creatorId as real)
    ensures forall k :: 0 <= k < 9 && k != 4 && k != 6 ==> params[k] == Get(data, InsertColumns[k])
  {
    [Get(data, "activity_name"), Get(data, "activity_description"), Get(data, "max_participants"),
     Get(data, "activity_type_id"),
     if "activity_status_id" in data then data["activity_status_id"] else Num(1.0),
     Get(data, "group_id"), Num(creatorId as real), Get(data, "activity_datetime"), Get(data, "location")]
  }

  const InsertColumns: seq<string> :=
    ["activity_name", "activity_description", "max_participants", "activity_type_id",
     "activity_status_id", "group_id", "creator_id", "activity_datetime", "location"]

  /** A `creator_id` in the request body never reaches the INSERT. */
  lemma InsertIgnoresBodyCreator(data: map<string, Value>, creatorId: int, forged: Value)
    ensures InsertParams(data["creator_id" := forged], creatorId) == InsertParams(data, creatorId)
  {
  }

  /** A statement `delete_activity` sends, or the final commit. */
  datatype Statement = Sql(text: string, params: seq<Value>) | Commit

  /** `DELETE FROM <table> WHERE activity_id = %s` with the id as its one parameter. */
  function DeleteFrom(table: string, activityId: int): (st: Statement)
    requires '%' !in table
    ensures st.Sql? && st.params == [Num(activityId as real)] && SqlText.Placeholders(st.text) == 1
  {
    var head := "DELETE FROM " + table + " WHERE activity_id";
    assert '%' !in "DELETE FROM " && '%' !in " WHERE activity_id";
    SqlText.FragmentPlaceholders(head);
    Sql(SqlText.Fragment(head), [Num(activityId as real)])
  }

  /** The statements of `delete_activity`, in order: participants first, then the activity. */
  function DeletePlan(activityId: int): (plan: seq<Statement>)
    ensures |plan| == 3 && plan[2] == Commit
    ensures plan[0] == DeleteFrom("activity_participants", activityId) && plan[1] == DeleteFrom("activities", activityId)
    ensures forall k :: 0 <= k < 2 ==>
      plan[k].Sql? && plan[k].params == [Num(activityId as real)] && SqlText.Placeholders(plan[k].text) == 1
  {
    assert '%' !in "activity_participants" && '%' !in "activities";
    [DeleteFrom("activity_participants", activityId), DeleteFrom("activities", activityId), Commit]
  }

  /**
   * `delete_activity`: `connected` says whether `get_connection` succeeded,
   * `runs(s)` whether statement `s` runs without raising.  `attempted` is
   * what reached the database; any exception makes the result False.
   */
  method DeleteActivity(activityId: int, connected: bool, runs: Statement -> bool)
    returns (ok: bool, attempted: seq<Statement>)
    ensures attempted <= DeletePlan(activityId)
    ensures ok <==> connected && attempted == DeletePlan(activityId) && forall k :: 0 <= k < 3 ==> runs(DeletePlan(activityId)[k])
    ensures !connected ==> attempted == []
    ensures connected && !ok ==> attempted != [] && !runs(attempted[|attempted| - 1])
    ensures forall k :: 0 <= k < |attempted| - 1 ==> runs(attempted[k])
  {
    attempted := [];
    if !connected {
      return false, attempted;
    }
    var plan := DeletePlan(activityId);
    attempted := attempted + [plan[0]];
    if !runs(plan[0]) {
      return false, attempted;
    }
    attempted := attempted + [plan[1]];
    if !runs(plan[1]) {
      return false, attempted;
    }
    attempted := attempted + [plan[2]];
    if !runs(plan[2]) {
      return false, attempted;
    }
    assert attempted == plan;
    ok := true;
  }

  /**
   * The dict the listing queries build per row, one field per key, in
   * column order; `activityDatetime` is the converted cell.
   */
  datatype ActivityRecord = ActivityRecord(
    activityId: Value, activityName: Value, activityDescription: Value, maxParticipants: Value,
    activityTypeId: Value, activityStatusId: Value, groupId: Value, creatorId: Value,
    activityDatetime: Value, location: Value, participantsCount: Value, activityTypeName: Value,
    activityStatusName: Value, groupName: Value)

  /** The record's cells in column order, so that it can be compared with the row. */
  function Cells(a: ActivityRecord): seq<Value> {
    [a.activityId, a.activityName, a.activityDescription, a.maxParticipants, a.activityTypeId,
     a.activityStatusId, a.groupId, a.creatorId, a.activityDatetime, a.location,
     a.participantsCount, a.activityTypeName, a.activityStatusName, a.groupName]
  }

  /** The dict built for one row, or None when building it raises (short row, bad datetime). */
  function MapActivityRow(row: seq<Value>): (r: Option<ActivityRecord>)
    ensures r.Some? <==> |row| >= 14 && IsoFormat(row[8]).Some?
    ensures r.Some? ==> |Cells(r.value)| == 14
    ensures r.Some? ==> forall k :: 0 <= k < 14 && k != 8 ==> Cells(r.value)[k] == row[k]
    ensures r.Some? ==> r.value.activityDatetime == IsoFormat(row[8]).value
  {
    if |row| < 14 then None
    else match IsoFormat(row[8])
      case None => None
      case Some(when) =>
        Some(ActivityRecord(row[0], row[1], row[2], row[3], row[4], row[5], row[6], row[7],
                            when, row[9], row[10], row[11], row[12], row[13]))
  }

  /** Mapping every row, or None as soon as one row raises. */
  function MapAllRows(rows: seq<seq<Value>>): (r: Option<seq<ActivityRecord>>)
    ensures r.Some? <==> forall i :: 0 <= i < |rows| ==> MapActivityRow(rows[i]).Some?
    ensures r.Some? ==> |r.value| == |rows| && forall i :: 0 <= i < |rows| ==> MapActivityRow(rows[i]) == Some(r.value[i])
  {
    if rows == [] then Some([])
    else
      var init := rows[..|rows| - 1];
      assert forall i :: 0 <= i < |init| ==> init[i] == rows[i];
      match MapAllRows(init)
      case None => None
      case Some(done) =>
        match MapActivityRow(rows[|rows| - 1])
        case None => None
        case Some(d) => Some(done + [d])
  }

  /**
   * The row loop of the listing queries: a short row or a bad datetime
   * anywhere sends the whole call to its `except`, which returns [].
   */
  method MapActivityRows(rows: seq<seq<Value>>) returns (result: seq<ActivityRecord>)
    ensures MapAllRows(rows).Some? ==> result == MapAllRows(rows).value
    ensures MapAllRows(rows).None? ==> result == []
  {
    result := [];
    for i := 0 to |rows|
      invariant MapAllRows(rows[..i]) == Some(result)
    {
      assert rows[..i + 1][..i] == rows[..i];
      var d := MapActivityRow(rows[i]);
      if d.None? {
        assert MapActivityRow(rows[..i + 1][i]).None?;
        assert MapAllRows(rows).None?;
        return [];
      }
      result := result + [d.value];
    }
    assert rows[..|rows|] == rows;
  }
}
