/**
 * The group record that utils/helpers.py stores per group and that the
 * verification and force-subscribe handlers read and update.
 */
module Groups {
  import opened Common

  datatype Group = Group(
    ownerId: int,            // "user_id": the user who added the bot
    ownerName: string,       // "user_name"
    name: string,            // "name": the group title
    verified: bool,          // "verified"
    fSub: Option<int>,       // "f_sub": None, or the channel id (False and None are both stored as None here)
    groupNameKey: Option<string>  // the value under the key "group_name", which add_group never writes
  )

  /** Python's `group.get("f_sub")` is truthy: set and not 0. */
  predicate FsubConfigured(g: Group)
  {
    g.fSub.Some? && g.fSub.value != 0
  }

  /** The record add_group writes for a group the bot was just added to. */
  function NewGroup(ownerId: int, ownerName: string, name: string): (g: Group)
    ensures !g.verified && !FsubConfigured(g) && g.groupNameKey.None?
    ensures g.ownerId == ownerId && g.ownerName == ownerName && g.name == name
  {
    Group(ownerId, ownerName, name, false, None, None)
  }
}
