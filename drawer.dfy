/**
 * The drawer shell's logout button: it clears the session flag, then removes
 * the stored identity.
 */
module Drawer {
  import opened Storage
  import opened Net
  import opened App

  /**
   * `handleLogout`: afterwards the session is unauthenticated and no `user_id`
   * is stored, whatever held before; the flag is cleared first, then the key is
   * removed, and no other stored entry is touched.
   */
  method HandleLogout(session: Session, store: KeyValueStore) returns (effects: seq<Effect>)
    requires session.Valid() && !session.loading
    modifies session, store
    ensures session.Valid() && !session.loading
    ensures !session.isAuthenticated
    ensures session.Screen() == AuthFlow
    ensures store.entries == old(store.entries) - {UserIdKey}
    ensures !HasToken(store.entries)
    ensures effects == [SetAuthenticated(false), StoreRemove(UserIdKey)]
  {
    session.SetAuthenticated(false);
    effects := [SetAuthenticated(false)];
    store.RemoveItem(UserIdKey);
    effects := effects + [StoreRemove(UserIdKey)];
  }

  /** Logging out twice leaves the same session and store as logging out once. */
  method LogoutTwice(session: Session, store: KeyValueStore)
    requires session.Valid() && !session.loading
    modifies session, store
    ensures session.Valid() && !session.loading && !session.isAuthenticated
    ensures store.entries == old(store.entries) - {UserIdKey}
  {
    var first := HandleLogout(session, store);
    var second := HandleLogout(session, store);
  }

  /** After a logout, a cold start shows the auth flow, whatever was stored before. */
  method LogoutThenColdStart(session: Session, store: KeyValueStore) returns (shown: Branch)
    requires session.Valid() && !session.loading
    modifies session, store
    ensures shown == AuthFlow
  {
    var effects := HandleLogout(session, store);
    var restarted;
    restarted, shown := ColdStart(store, false);
  }
}
