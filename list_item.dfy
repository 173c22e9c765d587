/** A row of the presets list: the current user's share mode and what it permits, the sharing
    icon, and the select, delete and checkbox handlers. */
module ListItem {
  import opened Common
  import opened Redux
  import opened Sharing

  datatype PresetSharing = PresetSharing(username: string, shareMode: ShareMode)

  /** Index `i` holds the first sharing whose username is `user`. */
  predicate IsFirstMatch(sharings: seq<PresetSharing>, user: string, i: int) {
    && 0 <= i < |sharings| && sharings[i].username == user
    && forall j :: 0 <= j < i ==> sharings[j].username != user
  }

  /** `shareType`: the share mode of the first sharing for the current user, if there is one. */
  function FindShareMode(sharings: seq<PresetSharing>, user: string): (r: Option<ShareMode>)
    ensures r.None? <==> forall i :: 0 <= i < |sharings| ==> sharings[i].username != user
    ensures r.Some? ==> exists i :: IsFirstMatch(sharings, user, i) && sharings[i].shareMode == r.value
  {
    if sharings == [] then None
    else if sharings[0].username == user then Some(sharings[0].shareMode)
    else
      var r := FindShareMode(sharings[1..], user);
      assert forall i :: 1 <= i < |sharings| ==> sharings[i] == sharings[1..][i - 1];
      if r.Some? then
        assert exists i :: IsFirstMatch(sharings, user, i) && sharings[i].shareMode == r.value by {
          var k :| IsFirstMatch(sharings[1..], user, k) && sharings[1..][k].shareMode == r.value;
          assert IsFirstMatch(sharings, user, k + 1);
        }
        r
      else r
  }

  /** `canEdit` of a row: the user may edit unless their first sharing entry grants VIEW; a user
      without an entry, or with EDIT, may edit. */
  lemma ListCanEditUnlessViewShared(sharings: seq<PresetSharing>, user: string)
    ensures !CanEdit(FindShareMode(sharings, user)) <==>
      exists i :: IsFirstMatch(sharings, user, i) && sharings[i].shareMode == View
  {
    var r := FindShareMode(sharings, user);
    if exists i :: IsFirstMatch(sharings, user, i) && sharings[i].shareMode == View {
      var i :| IsFirstMatch(sharings, user, i) && sharings[i].shareMode == View;
      var k :| IsFirstMatch(sharings, user, k) && sharings[k].shareMode == r.value;
      assert i == k;
    }
  }

  // ---------------------------------------------------------------------------------------------
  // The actions menu and the sharing icon

  datatype MenuItem = ShareItem | AccessItem | DeleteItem

  /** The actions menu: share and access settings only with the edit permission, delete always. */
  function MenuItems(canEdit: bool): (r: seq<MenuItem>)
    ensures |r| == (if canEdit then 3 else 1)
    ensures r[|r| - 1] == DeleteItem
    ensures canEdit ==> r[0] == ShareItem && r[1] == AccessItem
    ensures DeleteItem in r
    ensures ShareItem in r <==> canEdit
    ensures AccessItem in r <==> canEdit
  {
    (if canEdit then [ShareItem, AccessItem] else []) + [DeleteItem]
  }

  /** What is rendered next to the camera count. `UndefinedElement` stands for a component
      looked up in the share-mode map with a missing key, which React refuses to render. */
  datatype SharingIcon = NoIcon | SharedIcon | ModeIcon(mode: ShareMode) | UndefinedElement

  /** The icon rule as written: a non-owner is shown `sharedModeMap[shareType]?.icon` whenever the
      preset has sharings, even when none of them is the current user's. */
  function SharingIconAsWritten(isOwner: bool, sharings: seq<PresetSharing>,
                                shareType: Option<ShareMode>): (r: SharingIcon) {
    if isOwner && |sharings| > 0 then SharedIcon
    else if !isOwner && |sharings| > 0 then
      (match shareType
       case Some(m) => ModeIcon(m)
       case None => UndefinedElement)
    else NoIcon
  }

  /** A preset owned by "alice" and shared only with "carol", listed for "bob": the row renders
      an undefined component. */
  lemma SharingIconUndefinedForUnlistedViewer()
    ensures var sharings := [PresetSharing("carol", View)];
      SharingIconAsWritten("bob" == "alice", sharings, FindShareMode(sharings, "bob"))
        == UndefinedElement
  {
    var sharings := [PresetSharing("carol", View)];
    assert FindShareMode(sharings, "bob") == FindShareMode(sharings[1..], "bob");
  }

  /** The icon rule with the missing mode rendering no icon: with sharings the owner sees the
      shared icon and a non-owner with an entry sees that entry's mode; with none, no icon. */
  function SharingIconShown(isOwner: bool, sharings: seq<PresetSharing>,
                            shareType: Option<ShareMode>): (r: SharingIcon)
    ensures r != UndefinedElement
    ensures |sharings| == 0 ==> r == NoIcon
    ensures |sharings| > 0 && isOwner ==> r == SharedIcon
    ensures |sharings| > 0 && !isOwner && shareType.Some? ==> r == ModeIcon(shareType.value)
    ensures |sharings| > 0 && !isOwner && shareType.None? ==> r == NoIcon
    ensures SharingIconAsWritten(isOwner, sharings, shareType) != UndefinedElement ==>
      r == SharingIconAsWritten(isOwner, sharings, shareType)
  {
    match SharingIconAsWritten(isOwner, sharings, shareType)
    case UndefinedElement => NoIcon
    case other => other
  }

  // ---------------------------------------------------------------------------------------------
  // Selection, checkbox and delete

  /** `checked`: the row's id is among the selected items. */
  predicate Checked(id: Option<string>, selectedItems: seq<string>) {
    id.Some? && id.value in selectedItems
  }

  /** A row is highlighted as selected when its id is the selected id. */
  predicate IsSelectedRow(id: Option<string>, selectedItemId: Option<string>) {
    id == selectedItemId
  }

  class PresetListItem {
    const id: Option<string>
    const name: string
    const owner: string
    const sharings: seq<PresetSharing>
    const store: Store

    constructor (id: Option<string>, name: string, owner: string, sharings: seq<PresetSharing>,
                 store: Store)
      ensures this.id == id && this.name == name && this.owner == owner
      ensures this.sharings == sharings && this.store == store
    {
      this.id := id;
      this.name := name;
      this.owner := owner;
      this.sharings := sharings;
      this.store := store;
    }

    /** `canEdit` of this row: false exactly when the user's first sharing entry grants VIEW. */
    function UserCanEdit(currentUser: string): (r: bool)
      ensures !r <==> exists i :: IsFirstMatch(sharings, currentUser, i) && sharings[i].shareMode == View
    {
      ListCanEditUnlessViewShared(sharings, currentUser);
      CanEdit(FindShareMode(sharings, currentUser))
    }

    /** The actions menu of this row for the signed-in user. */
    function Menu(currentUser: string): (r: seq<MenuItem>)
      ensures |r| == (if UserCanEdit(currentUser) then 3 else 1)
      ensures UserCanEdit(currentUser) ==> r[0] == ShareItem && r[1] == AccessItem
      ensures DeleteItem in r && r[|r| - 1] == DeleteItem
      ensures ShareItem in r <==> UserCanEdit(currentUser)
      ensures AccessItem in r <==> UserCanEdit(currentUser)
    {
      MenuItems(UserCanEdit(currentUser))
    }

    /** The sharing icon of this row (with the corrected rule), with `isOwnerCurrentPreset` being
        `currentUser == owner`: the owner of a shared preset sees the shared icon; another user
        sees the mode of their entry, and no icon when they have none. */
    function Icon(currentUser: string): (r: SharingIcon)
      ensures r != UndefinedElement
      ensures |sharings| == 0 ==> r == NoIcon
      ensures |sharings| > 0 && currentUser == owner ==> r == SharedIcon
      ensures |sharings| > 0 && currentUser != owner ==>
        (r == NoIcon <==> forall i :: 0 <= i < |sharings| ==> sharings[i].username != currentUser)
      ensures |sharings| > 0 && currentUser != owner && FindShareMode(sharings, currentUser).Some? ==>
        r == ModeIcon(FindShareMode(sharings, currentUser).value)
      ensures r.ModeIcon? ==> (currentUser != owner &&
        exists i :: IsFirstMatch(sharings, currentUser, i) && sharings[i].shareMode == r.mode)
    {
      SharingIconShown(currentUser == owner, sharings, FindShareMode(sharings, currentUser))
    }

    /** `onItemClick`: a select action only when the row is not already the selected one. */
    method OnItemClick(selectedItemId: Option<string>)
      modifies store
      ensures !IsSelectedRow(id, selectedItemId) ==> store.log == old(store.log) + [ListItemSelect(id)]
      ensures IsSelectedRow(id, selectedItemId) ==> store.log == old(store.log)
      ensures store.alerts == old(store.alerts)
    {
      if selectedItemId != id {
        store.Dispatch(ListItemSelect(id));
      }
    }

    /** `onDelete`, after the confirmation dialog answered `confirmed`: exactly one delete action
        when confirmed, nothing otherwise. */
    method OnDelete(confirmed: bool)
      modifies store
      ensures confirmed ==> store.log == old(store.log) + [ListItemDeleteClick(id, name)]
      ensures !confirmed ==> store.log == old(store.log)
      ensures store.alerts == old(store.alerts)
    {
      if confirmed {
        store.Dispatch(ListItemDeleteClick(id, name));
      }
    }

    /** The checkbox asks for the negation of the current `checked`. */
    method OnCheckboxChange(selectedItems: seq<string>)
      modifies store
      ensures store.log == old(store.log) + [ToggleChecked(id, !Checked(id, selectedItems))]
      ensures id.Some? && id.value in selectedItems ==> store.log[|store.log| - 1].checked == false
      ensures id.None? || id.value !in selectedItems ==> store.log[|store.log| - 1].checked == true
      ensures store.alerts == old(store.alerts)
    {
      store.Dispatch(ToggleChecked(id, !Checked(id, selectedItems)));
    }
  }
}
