/** Scenarios that cross the two services: both keep their state in the one
    browser store, so what the session side does to it is seen by the
    reading-progress synchroniser. */
module SessionScenarios {
  import opened Wrappers
  import opened Types
  import opened Storage
  import opened Reading
  import opened Auth

  /** `logout` clears the whole store, so afterwards the synchroniser has no
      user and no cached progress for any book. */
  method LogoutForgetsProgress(auth: AuthService, svc: ReadingService, bookId: string, reply: RemoteRead)
    returns (r: Option<Progress>)
    requires auth.storage == svc.storage && svc.storage.Valid()
    modifies svc.storage
    ensures svc.SessionUser().None?
    ensures r.None?
  {
    var _ := auth.Logout();
    r := svc.GetProgress(bookId, reply);
  }

  /** Login and `getUser` store only users derived from a token, and those
      never carry an id: starting from a store whose cached user (if any) has
      no id, neither fills the `user_id` slot that turns on the remote branch
      of the synchroniser, and no user they return has an id to put there. */
  method LoginLeavesSyncLocal(auth: AuthService, svc: ReadingService, reply: Result<AuthResponse, string>)
    returns (u: Option<UserData>)
    requires auth.storage == svc.storage && svc.storage.Valid()
    requires svc.SessionUser().None?
    requires UserKey in svc.storage.items ==> svc.storage.items[UserKey].user.id.None?
    modifies svc.storage
    ensures svc.SessionUser().None?
    ensures u.Some? ==> u.value.id.None?
  {
    var _ := auth.Login(reply);
    u := auth.GetUser();
  }
}
