/**
 * The category store (frontend/src/store/useCategoryStore.ts): the
 * activity categories, seeded with the local fallback list
 * (`ACTIVITY_CATEGORIES`, frontend/src/constants/index.ts) and replaced
 * at most once per session by the API's list.
 */
module CategoryStore {
  import opened Wrappers
  import opened Values

  const ActivityCategories: seq<Value> :=
    [Str("Taller"), Str("Conferencia"), Str("Cultural"), Str("Deportivo"), Str("Hackatón"), Str("Social")]

  /** `Array.isArray(data) && data.length > 0` */
  predicate NonEmptyArray(data: Value) {
    data.List? && |data.items| > 0
  }

  class CategoryStore {
    var items: seq<Value>
    var loading: bool
    var error: Option<string>
    var fetched: bool

    constructor()
      ensures items == ActivityCategories && !loading && error.None? && !fetched
    {
      items := ActivityCategories;
      loading := false;
      error := None;
      fetched := false;
    }

    /**
     * `fetchAll`, given what `GET /activity-categories` settles with (its
     * `data`, or an error).  A failure is swallowed and leaves the store
     * ready to try again.
     */
    method FetchAll(response: Result<Value, string>)
      modifies this
      ensures old(fetched) ==> items == old(items) && loading == old(loading) && fetched
      ensures !old(fetched) ==> !loading
      ensures !old(fetched) ==> (fetched <==> response.Ok?)
      ensures !old(fetched) ==> items == (if response.Ok? && NonEmptyArray(response.value) then response.value.items else old(items))
      ensures error == old(error)
    {
      if fetched {
        return;
      }
      loading := true;
      match response {
        case Ok(data) =>
          if data.List? && |data.items| > 0 {
            items := data.items;
          }
          fetched := true;
        case Err(_) =>
      }
      loading := false;
    }
  }

  /** Once a fetch has succeeded, later fetches change nothing, whatever they would return. */
  method FetchOnce(store: CategoryStore, first: Result<Value, string>, second: Result<Value, string>)
    requires !store.fetched && first.Ok?
    modifies store
    ensures store.fetched
    ensures store.items == (if NonEmptyArray(first.value) then first.value.items else old(store.items))
  {
    store.FetchAll(first);
    store.FetchAll(second);
  }

  /** A failed fetch keeps the fallback, and the next one is still attempted. */
  method RetryAfterFailure(store: CategoryStore, message: string, second: Result<Value, string>)
    requires !store.fetched && store.items == ActivityCategories
    modifies store
    ensures store.fetched <==> second.Ok?
    ensures second.Ok? && NonEmptyArray(second.value) ==> store.items == second.value.items
    ensures !(second.Ok? && NonEmptyArray(second.value)) ==> store.items == ActivityCategories
  {
    store.FetchAll(Err(message));
    store.FetchAll(second);
  }
}
