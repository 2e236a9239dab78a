/**
 * `ClubService` (backend/services/club_service.py): the dynamic UPDATE
 * builder of `update_club_settings` and the field normalisation of
 * `get_club_details`.  `json.dumps` and `json.loads` are oracles; the
 * database is reduced to whether the connection opens, the fetched row,
 * and whether the UPDATE runs.
 */
module ClubService {
  import opened Wrappers
  import opened Values
  import opened PyStr
  import SqlText

  /** The plain settings keys, in the order the loop visits them. */
  const SimpleFields: seq<string> := ["logo_url", "description", "has_funds"]

  /** Every settings key that is honoured: the plain ones, then `social_links`. */
  const SettingsFields: seq<string> := SimpleFields + ["social_links"]

  const SettingsPrefix := "UPDATE groups SET "
  const SettingsSuffix := " WHERE group_id = %s"

  /** The column a settings key writes: `description` is stored as `group_description`. */
  function ColumnFor(key: string): (column: string)
    ensures key == "description" ==> column == "group_description"
    ensures key != "description" ==> column == key
  {
    if key == "description" then "group_description"
    else if key == "has_funds" then "has_funds"
    else key
  }

  /** The plain keys a request carries, in loop order. */
  function SimpleKeys(data: map<string, Value>): (keys: seq<string>)
    ensures forall k :: 0 <= k < |keys| ==> keys[k] in SimpleFields && keys[k] in data
  {
    KeysPresentMembers(SimpleFields, data);
    KeysPresent(SimpleFields, data)
  }

  /** The columns the UPDATE writes, in order: the plain ones, then `social_links`. */
  function SettingsColumns(data: map<string, Value>): seq<string> {
    var keys := SimpleKeys(data);
    seq(|keys|, k requires 0 <= k < |keys| => ColumnFor(keys[k]))
      + (if "social_links" in data then ["social_links"] else [])
  }

  /** The values bound to the SET list, in the same order; `social_links` goes through `json.dumps`. */
  function SettingsValues(data: map<string, Value>, dumps: Value -> string): seq<Value> {
    var keys := SimpleKeys(data);
    seq(|keys|, k requires 0 <= k < |keys| => data[keys[k]])
      + (if "social_links" in data then [Str(dumps(data["social_links"]))] else [])
  }

  /** What `update_club_settings` does with the database once it is connected. */
  datatype SettingsPlan =
    | NothingToUpdate                                // return True without a query
    | Execute(query: string, params: seq<Value>)     // run this UPDATE and commit

  /** The plan for one request. */
  function SettingsPlanOf(clubId: int, data: map<string, Value>, dumps: Value -> string): (plan: SettingsPlan)
    ensures plan.Execute? <==> SettingsColumns(data) != []
    ensures plan.Execute? ==>
      && |plan.params| == |SettingsColumns(data)| + 1
      && plan.params[|plan.params| - 1] == Num(clubId as real)
  {
    var cols := SettingsColumns(data);
    if cols == [] then NothingToUpdate
    else Execute(SettingsPrefix + Join(SqlText.Fragments(cols), ", ") + SettingsSuffix,
                 SettingsValues(data, dumps) + [Num(clubId as real)])
  }

  /**
   * The field loop of `update_club_settings` and its `social_links` step:
   * the SET fragments and their values.
   */
  method BuildSettingsUpdate(data: map<string, Value>, dumps: Value -> string)
    returns (fields: seq<string>, values: seq<Value>)
    ensures fields == SqlText.Fragments(SettingsColumns(data))
    ensures values == SettingsValues(data, dumps)
  {
    fields, values := SettingsLoop(SimpleFields, ColumnFor, data);
    AssignmentsFromLoop(fields, values, data, dumps);
    if "social_links" in data {
      fields := fields + [SqlText.Fragment("social_links")];
      values := values + [Str(dumps(data["social_links"]))];
    }
  }

  /** The field loop of `update_club_settings`, over any list of plain keys and any key-to-column map. */
  method SettingsLoop(keysToVisit: seq<string>, column: string -> string, data: map<string, Value>)
    returns (fields: seq<string>, values: seq<Value>)
    ensures var keys := KeysPresent(keysToVisit, data);
      && |fields| == |keys| && |values| == |keys|
      && forall k :: 0 <= k < |keys| ==> fields[k] == SqlText.Fragment(column(keys[k])) && values[k] == data[keys[k]]
  {
    fields, values := [], [];
    ghost var keys: seq<string> := [];
    for i := 0 to |keysToVisit|
      invariant keys == KeysPresent(keysToVisit[..i], data)
      invariant |fields| == |keys| && |values| == |keys|
      invariant forall k :: 0 <= k < |keys| ==> keys[k] in data
      invariant forall k :: 0 <= k < |keys| ==> fields[k] == SqlText.Fragment(column(keys[k])) && values[k] == data[keys[k]]
    {
      var field := keysToVisit[i];
      KeysPresentStep(keysToVisit, i, data);
      if field in data {
        fields := fields + [SqlText.Fragment(column(field))];
        values := values + [data[field]];
        keys := keys + [field];
      }
    }
    assert keysToVisit[..|keysToVisit|] == keysToVisit;
  }

  /** What the field loop has built, followed by the `social_links` step, is the specified SET list. */
  lemma AssignmentsFromLoop(fields: seq<string>, values: seq<Value>, data: map<string, Value>, dumps: Value -> string)
    requires |fields| == |SimpleKeys(data)| && |values| == |SimpleKeys(data)|
    requires forall k :: 0 <= k < |SimpleKeys(data)| ==>
      fields[k] == SqlText.Fragment(ColumnFor(SimpleKeys(data)[k])) && values[k] == data[SimpleKeys(data)[k]]
    ensures var social := "social_links" in data;
      && fields + (if social then [SqlText.Fragment("social_links")] else []) == SqlText.Fragments(SettingsColumns(data))
      && values + (if social then [Str(dumps(data["social_links"]))] else []) == SettingsValues(data, dumps)
  {
  }

  /**
   * `update_club_settings`: `connected` says whether `get_connection`
   * succeeded, `runs` whether the UPDATE and its commit go through.
   * `issued` says whether an UPDATE reached the database.
   */
  method UpdateClubSettings(clubId: int, data: map<string, Value>, dumps: Value -> string,
                            connected: bool, runs: (string, seq<Value>) -> bool)
    returns (ok: bool, issued: bool)
    ensures issued <==> connected && SettingsPlanOf(clubId, data, dumps).Execute?
    ensures ok <==> connected && (SettingsPlanOf(clubId, data, dumps).Execute? ==>
      runs(SettingsPlanOf(clubId, data, dumps).query, SettingsPlanOf(clubId, data, dumps).params))
  {
    if !connected {
      return false, false;
    }
    var fields, values := BuildSettingsUpdate(data, dumps);
    if fields == [] {
      return true, false;
    }
    values := values + [Num(clubId as real)];
    var query := SettingsPrefix + Join(fields, ", ") + SettingsSuffix;
    issued := true;
    ok := runs(query, values);
  }

  /**
   * The columns are those of the honoured keys the request carries, in the
   * order of the four: `KeysPresent` over all four keys gives the same keys.
   */
  lemma SettingsKeysSplit(data: map<string, Value>)
    ensures KeysPresent(SettingsFields, data)
         == SimpleKeys(data) + (if "social_links" in data then ["social_links"] else [])
    ensures forall k :: 0 <= k < |SimpleKeys(data)| ==> SimpleKeys(data)[k] != "social_links"
  {
    KeysPresentAppend(SimpleFields, ["social_links"], data);
    var simple := SimpleKeys(data);
    forall k | 0 <= k < |simple| ensures simple[k] != "social_links" {
      assert simple[k] in SimpleFields;
      assert |simple[k]| != |"social_links"|;
    }
  }

  /** Of the plain keys, only `description` is renamed, to `group_description`, and no column is called `description`. */
  lemma ColumnNames(key: string)
    requires key in SimpleFields
    ensures ColumnFor(key) == "group_description" <==> key == "description"
    ensures ColumnFor(key) != "description" && ColumnFor(key) != "social_links"
  {
    assert key == "logo_url" || key == "description" || key == "has_funds";
  }

  /** `description` is written to `group_description`, and no column is called `description`. */
  lemma DescriptionColumn(data: map<string, Value>)
    ensures "description" in data <==> "group_description" in SettingsColumns(data)
    ensures "description" !in SettingsColumns(data)
  {
    var keys := SimpleKeys(data);
    var cols := SettingsColumns(data);
    forall k | 0 <= k < |keys|
      ensures cols[k] == ColumnFor(keys[k])
      ensures cols[k] == "group_description" <==> keys[k] == "description"
      ensures cols[k] != "description"
    {
      ColumnNames(keys[k]);
    }
    assert forall k :: |keys| <= k < |cols| ==> cols[k] == "social_links";
    if "description" in data {
      assert SimpleFields[1] == "description";
      KeysPresentMembers(SimpleFields, data);
      var k :| 0 <= k < |keys| && keys[k] == "description";
      assert cols[k] == "group_description";
    }
  }

  /** Keys outside the four honoured ones, such as `name`, never change the plan. */
  lemma SettingsIgnoreOtherKeys(clubId: int, data: map<string, Value>, dumps: Value -> string, key: string, v: Value)
    requires key !in SettingsFields
    ensures SettingsPlanOf(clubId, data[key := v], dumps) == SettingsPlanOf(clubId, data, dumps)
  {
    KeysPresentIgnoresOthers(SimpleFields, data[key := v], data);
    assert SettingsColumns(data[key := v]) == SettingsColumns(data);
    assert SettingsValues(data[key := v], dumps) == SettingsValues(data, dumps);
  }

  /** With every honoured key given, the columns come in loop order. */
  lemma SettingsOrder(data: map<string, Value>)
    requires "logo_url" in data && "description" in data && "has_funds" in data && "social_links" in data
    ensures SettingsColumns(data) == ["logo_url", "group_description", "has_funds", "social_links"]
  {
    assert forall k :: 0 <= k < |SimpleFields| ==> SimpleFields[k] in data;
    KeysPresentAll(SimpleFields, data);
    var keys := SimpleKeys(data);
    assert keys == SimpleFields;
    var simple := seq(|keys|, k requires 0 <= k < |keys| => ColumnFor(keys[k]));
    assert simple == ["logo_url", "group_description", "has_funds"];
  }

  /** No query is planned exactly when the request carries none of the honoured keys. */
  lemma SettingsNothingToUpdate(clubId: int, data: map<string, Value>, dumps: Value -> string)
    ensures SettingsPlanOf(clubId, data, dumps).NothingToUpdate?
        <==> forall k :: 0 <= k < |SettingsFields| ==> SettingsFields[k] !in data
  {
    SettingsKeysSplit(data);
  }

  /**
   * A planned UPDATE binds one value per column, in order, and the club id
   * last; its text holds exactly one placeholder per bound value.
   */
  lemma SettingsPlanParams(clubId: int, data: map<string, Value>, dumps: Value -> string)
    ensures var plan := SettingsPlanOf(clubId, data, dumps);
      var cols := SettingsColumns(data);
      plan.Execute? ==>
        && |plan.params| == |cols| + 1
        && plan.params[|cols|] == Num(clubId as real)
        && SqlText.Placeholders(plan.query) == |plan.params|
  {
    var cols := SettingsColumns(data);
    if cols != [] {
      ColumnsHaveNoPercent(data);
      SettingsPrefixPlaceholders();
      SettingsSuffixPlaceholders();
      SqlText.SetListPlaceholders(SettingsPrefix, cols, SettingsSuffix);
    }
  }

  /** No settings column holds a `%`. */
  lemma ColumnsHaveNoPercent(data: map<string, Value>)
    ensures forall k :: 0 <= k < |SettingsColumns(data)| ==> '%' !in SettingsColumns(data)[k]
  {
    assert '%' !in "group_description" && '%' !in "social_links";
    assert forall c :: c in SimpleFields ==> '%' !in c by {
      assert '%' !in SimpleFields[0] && '%' !in SimpleFields[1] && '%' !in SimpleFields[2];
    }
  }

  lemma SettingsPrefixPlaceholders()
    ensures SqlText.Placeholders(SettingsPrefix) == 0 && !SqlText.EndsWithPercent(SettingsPrefix)
  {
    assert '%' !in SettingsPrefix;
    SqlText.NoPercentNoPlaceholders(SettingsPrefix);
  }

  lemma SettingsSuffixPlaceholders()
    ensures SqlText.Placeholders(SettingsSuffix) == 1 && !SqlText.StartsWithS(SettingsSuffix)
  {
    var name := " WHERE group_id";
    assert '%' !in name;
    assert SettingsSuffix == name + " = %s";
    SqlText.FragmentPlaceholders(name);
  }


  /** The normalised record `get_club_details` returns. */
  datatype ClubDetails = ClubDetails(
    groupId: Value, groupName: Value, groupDescription: Value, groupTypeId: Value,
    groupStatusId: Value, creatorId: Value, creationDate: Value, logoUrl: Value,
    hasFunds: bool, socialLinks: Value, groupTypeName: Value, groupStatusName: Value,
    membersCount: Value)

  /**
   * The `social_links` cell: parsed with `json.loads` when truthy; an empty
   * cell, or one that does not parse (`loads` gives None, or the cell is
   * not text), becomes `{}`.
   */
  function SocialLinks(cell: Value, loads: string -> Option<Value>): (links: Value)
    ensures !Truthy(cell) ==> links == Dict(map[])
    ensures Truthy(cell) && cell.Str? && loads(cell.s).Some? ==> links == loads(cell.s).value
    ensures Truthy(cell) && !(cell.Str? && loads(cell.s).Some?) ==> links == Dict(map[])
  {
    if !Truthy(cell) then Dict(map[])
    else if cell.Str? then
      match loads(cell.s)
      case Some(v) => v
      case None => Dict(map[])
    else Dict(map[])
  }

  /** `bool(c) if c is not None else False`. */
  function HasFunds(cell: Value): (b: bool)
    ensures cell == Null ==> !b
    ensures b <==> Truthy(cell)
  {
    if cell != Null then Truthy(cell) else false
  }

  /**
   * `get_club_details` after the query: `row` is what `fetchone` gives
   * (None for no row or a failed query).  A short row or a creation date
   * that is neither empty nor a datetime raises, and the caller sees None.
   */
  function GetClubDetails(row: Option<seq<Value>>, loads: string -> Option<Value>): (r: Option<ClubDetails>)
    ensures row.None? ==> r.None?
    ensures r.Some? <==> row.Some? && |row.value| >= 13 && IsoFormat(row.value[6]).Some?
    ensures r.Some? ==>
      && r.value.hasFunds == Truthy(row.value[8])
      && r.value.socialLinks == SocialLinks(row.value[9], loads)
      && r.value.creationDate == IsoFormat(row.value[6]).value
      && r.value.groupId == row.value[0] && r.value.groupName == row.value[1]
      && r.value.groupDescription == row.value[2] && r.value.groupTypeId == row.value[3]
      && r.value.groupStatusId == row.value[4] && r.value.creatorId == row.value[5]
      && r.value.logoUrl == row.value[7] && r.value.groupTypeName == row.value[10]
      && r.value.groupStatusName == row.value[11] && r.value.membersCount == row.value[12]
  {
    match row
    case None => None
    case Some(c) =>
      if |c| < 13 then None
      else match IsoFormat(c[6])
        case None => None
        case Some(created) =>
          Some(ClubDetails(c[0], c[1], c[2], c[3], c[4], c[5], created, c[7],
                           HasFunds(c[8]), SocialLinks(c[9], loads), c[10], c[11], c[12]))
  }
}
