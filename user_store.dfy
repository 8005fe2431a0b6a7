/** The shopper's session store (`useUserStore`): the session code over the keys `token` and
    `userInfo`. */
module UserStore {
  import opened Json
  import opened Session
  import opened WebStorage

  /** The shopper's two `localStorage` keys. */
  const ShopperKeys: Keys := Keys("token", "userInfo")

  /** The store as the page creates it on first use. */
  method Open(codec: Codec, storage: LocalStorage) returns (s: SessionStore)
    modifies storage
    ensures fresh(s) && s.Valid()
    ensures s.keys == ShopperKeys && s.codec == codec && s.storage == storage
    ensures s.View() == Hydrate(ShopperKeys, codec, old(storage.items))
  {
    s := new SessionStore.Open(ShopperKeys, codec, storage);
  }
}
