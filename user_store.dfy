/**
 * The user-profile store (frontend/src/store/useUserStore.ts): the profile
 * shown on the dashboard, the six mutually exclusive modals, the
 * notification panel, the toast and the profile update.
 */
module UserStore {
  import opened Wrappers
  import opened Values

  /** The profile: its own fields, and the groups it lists. */
  datatype Profile = Profile(fields: map<string, Value>, groups: Option<seq<Value>>)

  datatype ToastType = Success | Error | Warning
  datatype Toast = Toast(show: bool, message: string, kind: ToastType)

  /** The modal names of `initialModalsState`. */
  const ModalNames: set<string> :=
    {"viewProfile", "editProfile", "security", "createActivity", "joinGroup", "searchEvents"}
  const CollapsedGroups := 3
  const UpdatedMessage := "Perfil actualizado exitosamente."

  function Min(a: int, b: int): int { if a <= b then a else b }

  class UserStore {
    var user: Option<Profile>
    var modals: map<string, bool>
    var toast: Toast
    var showAllGroups: bool
    var loading: bool
    var error: Option<string>
    var showNotificationPanel: bool

    /** The store starts with the given profile, every modal closed and no toast. */
    constructor(initial: Option<Profile>)
      ensures user == initial && modals.Keys == ModalNames && !IsAnyModalOpen()
      ensures toast == Toast(false, "", Success) && !showAllGroups && !loading && error.None?
      ensures !showNotificationPanel
    {
      user := initial;
      modals := map["viewProfile" := false, "editProfile" := false, "security" := false,
                    "createActivity" := false, "joinGroup" := false, "searchEvents" := false];
      toast := Toast(false, "", Success);
      showAllGroups := false;
      loading := false;
      error := None;
      showNotificationPanel := false;
    }

    /** `filteredGroups`: all groups, or only the first three while collapsed. */
    function FilteredGroups(): (r: seq<Value>)
      reads this
      ensures user.None? || user.value.groups.None? ==> r == []
      ensures user.Some? && user.value.groups.Some? ==>
        (r <= user.value.groups.value
         && |r| == (if showAllGroups then |user.value.groups.value| else Min(CollapsedGroups, |user.value.groups.value|)))
    {
      if user.None? || user.value.groups.None? then []
      else if showAllGroups then user.value.groups.value
      else user.value.groups.value[..Min(CollapsedGroups, |user.value.groups.value|)]
    }

    /** `isAnyModalOpen` */
    predicate IsAnyModalOpen()
      reads this
      ensures IsAnyModalOpen() ==> modals != map[] && true in modals.Values
    {
      exists k :: k in modals && modals[k]
    }

    /** `toggleGroupsView` */
    method ToggleGroupsView()
      modifies this
      ensures showAllGroups == !old(showAllGroups)
      ensures user == old(user) && modals == old(modals) && toast == old(toast) && loading == old(loading)
      ensures error == old(error) && showNotificationPanel == old(showNotificationPanel)
    {
      showAllGroups := !showAllGroups;
    }

    /** `closeAllModals`: every key set to false, then the panel closed. */
    method CloseAllModals()
      modifies this
      ensures modals.Keys == old(modals).Keys && !IsAnyModalOpen() && !showNotificationPanel
      ensures user == old(user) && toast == old(toast) && showAllGroups == old(showAllGroups)
      ensures loading == old(loading) && error == old(error)
    {
      var keys := modals.Keys;
      while keys != {}
        invariant keys <= modals.Keys && modals.Keys == old(modals).Keys
        invariant forall k :: k in modals && k !in keys ==> !modals[k]
        invariant user == old(user) && toast == old(toast) && showAllGroups == old(showAllGroups)
        invariant loading == old(loading) && error == old(error)
        decreases keys
      {
        var k :| k in keys;
        modals := modals[k := false];
        keys := keys - {k};
      }
      showNotificationPanel := false;
    }

    /**
     * `openModal`: close everything, then open the named modal if the
     * store has one by that name.
     */
    method OpenModal(name: string)
      modifies this
      ensures modals.Keys == old(modals).Keys && !showNotificationPanel
      ensures forall k :: k in modals ==> (modals[k] <==> k == name)
      ensures IsAnyModalOpen() <==> name in old(modals)
      ensures user == old(user) && toast == old(toast) && showAllGroups == old(showAllGroups)
      ensures loading == old(loading) && error == old(error)
    {
      CloseAllModals();
      if name in modals {
        modals := modals[name := true];
      }
    }

    /**
     * `toggleNotificationPanel` as written: flipping the flag on calls
     * `closeAllModals`, which clears it again, so the panel always ends closed.
     */
    method ToggleNotificationPanel()
      modifies this
      ensures !showNotificationPanel
      ensures !old(showNotificationPanel) ==> modals.Keys == old(modals).Keys && !IsAnyModalOpen()
      ensures old(showNotificationPanel) ==> modals == old(modals)
      ensures user == old(user) && toast == old(toast) && showAllGroups == old(showAllGroups)
      ensures loading == old(loading) && error == old(error)
    {
      showNotificationPanel := !showNotificationPanel;
      if showNotificationPanel {
        CloseAllModals();
      }
    }

    /**
     * What the toggle's documentation describes: the panel alternates, and
     * opening it closes every modal.
     */
    method ToggleNotificationPanelIntended()
      modifies this
      ensures showNotificationPanel == !old(showNotificationPanel)
      ensures showNotificationPanel ==> modals.Keys == old(modals).Keys && !IsAnyModalOpen()
      ensures !showNotificationPanel ==> modals == old(modals)
      ensures user == old(user) && toast == old(toast) && showAllGroups == old(showAllGroups)
      ensures loading == old(loading) && error == old(error)
    {
      var opening := !showNotificationPanel;
      if opening {
        CloseAllModals();
      }
      showNotificationPanel := opening;
    }

    /** `showToast`; the timer that later hides it is not modelled. */
    method ShowToast(message: string, kind: ToastType)
      modifies this
      ensures toast == Toast(true, message, kind)
      ensures user == old(user) && modals == old(modals) && showAllGroups == old(showAllGroups)
      ensures loading == old(loading) && error == old(error) && showNotificationPanel == old(showNotificationPanel)
    {
      toast := toast.(show := true, message := message, kind := kind);
    }

    /** `hideToast`: hidden and emptied; the type is kept. */
    method HideToast()
      modifies this
      ensures !toast.show && toast.message == "" && toast.kind == old(toast.kind)
      ensures user == old(user) && modals == old(modals) && showAllGroups == old(showAllGroups)
      ensures loading == old(loading) && error == old(error) && showNotificationPanel == old(showNotificationPanel)
    {
      toast := toast.(show := false, message := "");
    }

    /**
     * `updateProfile`, given how `UserDao.updateProfile` settles (Fail
     * carries the error's message).  On success the payload is merged into
     * the profile, its keys winning.
     */
    method UpdateProfile(payload: map<string, Value>, dao: Outcome<string>)
      modifies this
      ensures !loading
      ensures dao.Pass? ==>
        && error.None?
        && toast == Toast(true, UpdatedMessage, Success)
        && (old(user).None? ==> user.None?)
        && (old(user).Some? ==> user == Some(old(user).value.(fields := old(user).value.fields + payload)))
      ensures dao.Fail? ==>
        && error == Some(dao.error) && toast == Toast(true, dao.error, Error) && user == old(user)
      ensures modals == old(modals) && showAllGroups == old(showAllGroups)
      ensures showNotificationPanel == old(showNotificationPanel)
    {
      loading := true;
      error := None;
      match dao {
        case Pass =>
          if user.Some? {
            user := Some(user.value.(fields := user.value.fields + payload));
          }
          toast := Toast(true, UpdatedMessage, Success);
        case Fail(message) =>
          error := Some(message);
          toast := Toast(true, message, Error);
      }
      loading := false;
    }
  }

  /** After a successful update every payload key holds the payload's value, and every other key is kept. */
  lemma MergeWins(p: Profile, payload: map<string, Value>, k: string)
    ensures k in payload ==> k in (p.fields + payload) && (p.fields + payload)[k] == payload[k]
    ensures k !in payload && k in p.fields ==> k in (p.fields + payload) && (p.fields + payload)[k] == p.fields[k]
    ensures (p.fields + payload).Keys == p.fields.Keys + payload.Keys
  {
  }

  /** Opening one modal after another leaves only the second open. */
  method SwitchModal(store: UserStore, first: string, second: string)
    requires first in store.modals && second in store.modals
    modifies store
    ensures forall k :: k in store.modals ==> (store.modals[k] <==> k == second)
  {
    store.OpenModal(first);
    store.OpenModal(second);
  }

  /** Two toggles of the groups view restore it. */
  method ToggleGroupsTwice(store: UserStore)
    modifies store
    ensures store.showAllGroups == old(store.showAllGroups)
    ensures store.FilteredGroups() == old(store.FilteredGroups())
  {
    store.ToggleGroupsView();
    store.ToggleGroupsView();
  }

  /** As written, the notification panel can never be opened, however often it is toggled. */
  method PanelNeverOpens(store: UserStore, toggles: nat)
    modifies store
    ensures toggles > 0 ==> !store.showNotificationPanel
  {
    for i := 0 to toggles
      invariant i > 0 ==> !store.showNotificationPanel
    {
      store.ToggleNotificationPanel();
    }
  }
}
