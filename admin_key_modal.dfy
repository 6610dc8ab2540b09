/** The admin key dialog: a password field whose contents a submit forwards
    to `setAdminKey` before clearing the field and closing the dialog. */
module AdminKeyModal {
  import opened Common
  import opened AdminContext

  class KeyDialog {
    /** Whether the dialog is open (the top-level view's
        `isAdminModalOpen`); a closed dialog renders nothing. */
    var isOpen: bool
    /** The typed key. */
    var key: string

    constructor ()
      ensures !isOpen && key == ""
    {
      isOpen := false;
      key := "";
    }

    /** The shield button of the top-level view. */
    method Open()
      modifies this`isOpen
      ensures isOpen
    {
      isOpen := true;
    }

    /** Typing in the key field. */
    method ChangeKey(k: string)
      modifies this`key
      ensures key == k
    {
      key := k;
    }

    /** `handleSubmit`: forwards exactly the typed key, clears the field and
        closes the dialog, whether or not the key was right. A closed dialog
        has no form, so nothing can be submitted. Returns the key forwarded. */
    method Submit(admin: AdminState, update: Call) returns (forwarded: Option<string>)
      requires admin.Valid()
      modifies this, admin
      ensures admin.Valid()
      ensures !old(isOpen) ==> forwarded == None && unchanged(this) && unchanged(admin)
      ensures old(isOpen) ==> forwarded == Some(old(key)) && key == "" && !isOpen
      ensures old(isOpen) && old(key) != AdminKey ==> unchanged(admin)
      ensures old(isOpen) && old(key) == AdminKey && update == Fails ==>
                admin.isAdmin == old(admin.isAdmin) && admin.storage == old(admin.storage) &&
                admin.metadataUpdates == old(admin.metadataUpdates) + [true]
      ensures old(isOpen) && old(key) == AdminKey && update == Succeeds ==>
                admin.isAdmin && admin.storage == Mirror(old(admin.storage), true) &&
                admin.metadataUpdates == old(admin.metadataUpdates) + [true] + (if old(admin.isAdmin) then [] else [true])
    {
      if !isOpen {
        return None;
      }
      forwarded := Some(key);
      var _ := admin.SetAdminKey(key, update);
      key := "";
      isOpen := false;
    }

    /** The close button. */
    method Close()
      modifies this`isOpen
      ensures !isOpen
    {
      isOpen := false;
    }
  }
}
