/** Admin mode: a flag entered with the admin key and left again, mirrored
    into the browser's storage under "adminMode" and into the user's
    metadata. Storage is a map from keys to strings; each call that updates
    the user's metadata is recorded with the `is_admin` value it sends, and
    its outcome (for the awaited calls) is a parameter. */
module AdminContext {
  import opened Common

  /** The hard-coded admin key. */
  const AdminKey := "SuperBasedAdmin"
  const StorageKey := "adminMode"

  /** The `useState` initialiser: admin exactly when storage holds "true". */
  function InitialIsAdmin(storage: map<string, string>): (b: bool)
    ensures b <==> StorageKey in storage && storage[StorageKey] == "true"
  {
    StorageKey in storage && storage[StorageKey] == "true"
  }

  /** The storage write of the effect: set "adminMode" to "true" in admin
      mode, remove it otherwise; no other key is touched. */
  function Mirror(storage: map<string, string>, isAdmin: bool): (s: map<string, string>)
    ensures isAdmin ==> StorageKey in s && s[StorageKey] == "true"
    ensures !isAdmin ==> StorageKey !in s
    ensures forall k :: k != StorageKey ==> (k in s <==> k in storage)
    ensures forall k :: k != StorageKey && k in s ==> s[k] == storage[k]
  {
    if isAdmin then storage[StorageKey := "true"] else storage - {StorageKey}
  }

  /** What the effect stores is what the next session starts from. */
  lemma MirrorRoundTrip(storage: map<string, string>, isAdmin: bool)
    ensures InitialIsAdmin(Mirror(storage, isAdmin)) == isAdmin
  {
  }

  /** Storage agrees with the flag. */
  predicate Mirrors(storage: map<string, string>, isAdmin: bool)
  {
    (isAdmin ==> StorageKey in storage && storage[StorageKey] == "true") &&
    (!isAdmin ==> StorageKey !in storage)
  }

  /** How `setAdminKey` and `clearAdmin` end. */
  datatype AdminNotice = Done | InvalidKey | SetFailed | ClearFailed

  class AdminState {
    var isAdmin: bool
    var storage: map<string, string>
    /** The `is_admin` values sent to the user's metadata, oldest first. */
    var metadataUpdates: seq<bool>

    ghost predicate Valid()
      reads this
    {
      Mirrors(storage, isAdmin)
    }

    /** Mounting the provider: the initialiser reads storage, then the effect
        writes it back and updates the metadata. */
    constructor (stored: map<string, string>)
      ensures Valid()
      ensures isAdmin == InitialIsAdmin(stored)
      ensures storage == Mirror(stored, isAdmin)
      ensures metadataUpdates == [isAdmin]
    {
      isAdmin := InitialIsAdmin(stored);
      storage := stored;
      metadataUpdates := [];
      new;
      SyncEffect();
    }

    /** The effect on `isAdmin`. */
    method SyncEffect()
      modifies this`storage, this`metadataUpdates
      ensures Valid()
      ensures storage == Mirror(old(storage), isAdmin)
      ensures metadataUpdates == old(metadataUpdates) + [isAdmin]
    {
      storage := Mirror(storage, isAdmin);
      metadataUpdates := metadataUpdates + [isAdmin];
    }

    /** `setIsAdmin(b)`: React re-runs the effect only when the value
        changes. */
    method SetIsAdmin(b: bool)
      requires Valid()
      modifies this
      ensures Valid() && isAdmin == b
      ensures b == old(isAdmin) ==> storage == old(storage) && metadataUpdates == old(metadataUpdates)
      ensures b != old(isAdmin) ==>
                storage == Mirror(old(storage), b) && metadataUpdates == old(metadataUpdates) + [b]
    {
      if b != isAdmin {
        isAdmin := b;
        SyncEffect();
      }
    }

    /** `setAdminKey`: a wrong key is rejected without a metadata call; the
        right key enters admin mode once the metadata update succeeds. */
    method SetAdminKey(key: string, update: Call) returns (notice: AdminNotice)
      requires Valid()
      modifies this
      ensures Valid()
      ensures key != AdminKey ==> notice == InvalidKey && unchanged(this)
      ensures key == AdminKey && update == Fails ==>
                notice == SetFailed && isAdmin == old(isAdmin) && storage == old(storage) &&
                metadataUpdates == old(metadataUpdates) + [true]
      ensures key == AdminKey && update == Succeeds ==>
                notice == Done && isAdmin &&
                storage == Mirror(old(storage), true) &&
                metadataUpdates == old(metadataUpdates) + [true] + (if old(isAdmin) then [] else [true])
    {
      if key != AdminKey {
        return InvalidKey;
      }
      metadataUpdates := metadataUpdates + [true];
      if update == Fails {
        return SetFailed;
      }
      SetIsAdmin(true);
      notice := Done;
    }

    /** `clearAdmin`: leaves admin mode once the metadata update succeeds. */
    method ClearAdmin(update: Call) returns (notice: AdminNotice)
      requires Valid()
      modifies this
      ensures Valid()
      ensures update == Fails ==>
                notice == ClearFailed && isAdmin == old(isAdmin) && storage == old(storage) &&
                metadataUpdates == old(metadataUpdates) + [false]
      ensures update == Succeeds ==>
                notice == Done && !isAdmin &&
                storage == Mirror(old(storage), false) &&
                metadataUpdates == old(metadataUpdates) + [false] + (if old(isAdmin) then [false] else [])
    {
      metadataUpdates := metadataUpdates + [false];
      if update == Fails {
        return ClearFailed;
      }
      SetIsAdmin(false);
      notice := Done;
    }
  }
}
