/**
 * The per-user metadata the plugin reads and writes through the host
 * platform (`get_user_meta`, `update_user_meta`), as a table from user id to
 * meta key to value.
 */
module UlsUserMeta {
  import opened PhpValues

  /** Per-user metadata: user id to (meta key to value). */
  type UserMetaTable = map<int, map<string, Value>>

  /** The value stored for a user under a key, if any. */
  function MetaAt(meta: UserMetaTable, uid: int, key: string): Option<Value> {
    if uid in meta && key in meta[uid] then Some(meta[uid][key]) else None
  }

  /** `get_user_meta($uid, $key, true)`: the stored value, or "" when there is none. */
  function UserMeta(meta: UserMetaTable, uid: int, key: string): Value {
    match MetaAt(meta, uid, key)
    case Some(v) => v
    case None => Str("")
  }

  /** `update_user_meta($uid, $key, $v)` on the table. */
  function UpdateUserMeta(meta: UserMetaTable, uid: int, key: string, v: Value): (r: UserMetaTable)
    ensures MetaAt(r, uid, key) == Some(v)
    ensures forall u, k :: (u != uid || k != key) ==> MetaAt(r, u, k) == MetaAt(meta, u, k)
  {
    meta[uid := (if uid in meta then meta[uid] else map[])[key := v]]
  }
}
