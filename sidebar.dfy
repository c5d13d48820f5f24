/** The sidebar: the user list without the current user, its split into
    online and offline users, the name search over each list, and the
    sidebar's own state (collapsed, the mobile menu, the storage it clears
    on logout). */
module Sidebar {
  import opened Js
  import opened Text
  import opened Wire
  import opened UserSearch

  /** `user.id !== (currentUser ? currentUser.id : null)`: ids are
      numbers, so with no current user nobody is excluded. */
  predicate NotCurrent(current: Option<UserInfo>, u: UserInfo)
  {
    match current
    case None => true
    case Some(c) => u.id != c.id
  }

  /** Every listed user except the current one. */
  function ExcludeCurrent(users: seq<UserInfo>, current: Option<UserInfo>): (r: seq<UserInfo>)
    ensures Subsequence(r, users)
    ensures current.Some? ==> forall u :: u in r ==> u.id != current.value.id
    ensures forall i :: 0 <= i < |users| && NotCurrent(current, users[i]) ==> users[i] in r
    ensures forall u :: multiset(r)[u] == if NotCurrent(current, u) then multiset(users)[u] else 0
  {
    Filter(users, (u: UserInfo) => NotCurrent(current, u))
  }

  /** Without a current user nobody is excluded. */
  lemma ExcludeNobody(users: seq<UserInfo>)
    ensures ExcludeCurrent(users, None) == users
  {
    FilterAll(users, (u: UserInfo) => NotCurrent(None, u));
  }

  function Online(users: seq<UserInfo>): (r: seq<UserInfo>)
    ensures Subsequence(r, users)
    ensures forall u :: u in r ==> u in users && u.status == "online"
    ensures forall i :: 0 <= i < |users| && users[i].status == "online" ==> users[i] in r
    ensures forall u :: multiset(r)[u] == if u.status == "online" then multiset(users)[u] else 0
  {
    Filter(users, (u: UserInfo) => u.status == "online")
  }

  function Offline(users: seq<UserInfo>): (r: seq<UserInfo>)
    ensures Subsequence(r, users)
    ensures forall u :: u in r ==> u in users && u.status == "offline"
    ensures forall i :: 0 <= i < |users| && users[i].status == "offline" ==> users[i] in r
    ensures forall u :: multiset(r)[u] == if u.status == "offline" then multiset(users)[u] else 0
  {
    Filter(users, (u: UserInfo) => u.status == "offline")
  }

  /** The two lists never share a user, and a user whose status is
      neither `'online'` nor `'offline'` is in neither list. */
  lemma PartitionDisjoint(users: seq<UserInfo>)
    ensures forall u :: u in Online(users) ==> u !in Offline(users)
    ensures forall u :: u in users && u.status != "online" && u.status != "offline" ==>
      u !in Online(users) && u !in Offline(users)
  {
  }

  /** The account table only ever holds `'active'` and `'banned'`
      (`'active'` being the column's default), so both lists stay empty. */
  lemma StoredStatusesShowNobody(users: seq<UserInfo>)
    requires forall i :: 0 <= i < |users| ==> users[i].status in {"active", "banned"}
    ensures Online(users) == [] && Offline(users) == []
  {
  }

  /** A shown online entry is an online user other than the current one
      whose name matches the search, whatever the case of the term. */
  lemma ShownOnlineUsers(all: seq<UserInfo>, current: Option<UserInfo>, term: string)
    ensures forall u :: u in FilterUsers(Online(ExcludeCurrent(all, current)), term) ==>
      && u in all && u.status == "online" && MatchesTerm(u.username, term)
      && (current.Some? ==> u.id != current.value.id)
    ensures FilterUsers(Online(ExcludeCurrent(all, current)), "") == Online(ExcludeCurrent(all, current))
  {
    FilterUsersTerm(Online(ExcludeCurrent(all, current)), term);
  }

  /** The add-friend button: shown on an expanded entry that was not
      rendered from the friends list. */
  function ShowsAddFriend(collapsed: bool, renderedAsFriend: bool): bool
  {
    !collapsed && !renderedAsFriend
  }

  /** Which list an entry was rendered from. */
  datatype Section = OnlineSection | OfflineSection | FriendsSection

  /** Only the friends list passes `isFriend = true`: an entry of the
      online or offline list offers the button even for a friend, an
      entry of the friends list never does. */
  lemma AddFriendBySection(section: Section, collapsed: bool)
    ensures ShowsAddFriend(collapsed, section == FriendsSection) <==> !collapsed && section != FriendsSection
  {
  }

  /** How `GET /api/users/all` ends. */
  datatype UsersReply = UsersLoaded(users: seq<UserInfo>) | UsersFailed(status: int)

  class SidebarView {
    var collapsed: bool
    var showMobileMenu: bool
    var users: seq<UserInfo>
    var onlineUsers: seq<UserInfo>
    var offlineUsers: seq<UserInfo>
    var storage: BrowserStorage
    /** Every user forwarded to `onUserSelect`, oldest first. */
    var selections: seq<UserInfo>

    ghost predicate Valid()
      reads this
    {
      onlineUsers == Online(users) && offlineUsers == Offline(users)
    }

    constructor (storage: BrowserStorage)
      ensures Valid()
      ensures !collapsed && !showMobileMenu && users == [] && selections == []
      ensures this.storage == storage
    {
      collapsed := false;
      showMobileMenu := false;
      users := [];
      onlineUsers := [];
      offlineUsers := [];
      this.storage := storage;
      selections := [];
    }

    /** `fetchUsers`: without a token, go to `/login`; on a reply, keep
        everyone but the current user and split them; on a 401, drop the
        token and go to `/login`; on any other failure, change nothing. */
    method FetchUsers(current: Option<UserInfo>, reply: UsersReply) returns (toLogin: bool)
      requires Valid()
      modifies this`users, this`onlineUsers, this`offlineUsers, this`storage
      ensures Valid()
      ensures !HasToken(old(storage)) ==> toLogin && users == old(users) && storage == old(storage)
      ensures HasToken(old(storage)) && reply.UsersLoaded? ==>
        !toLogin && users == ExcludeCurrent(reply.users, current) && storage == old(storage)
      ensures HasToken(old(storage)) && reply.UsersFailed? ==>
        && users == old(users)
        && toLogin == (reply.status == 401)
        && storage == (if reply.status == 401 then old(storage).(token := None) else old(storage))
    {
      if !HasToken(storage) {
        return true;
      }
      toLogin := false;
      match reply
      case UsersLoaded(all) =>
        var filtered := ExcludeCurrent(all, current);
        users := filtered;
        onlineUsers := Online(filtered);
        offlineUsers := Offline(filtered);
      case UsersFailed(status) =>
        if status == 401 {
          storage := storage.(token := None);
          toLogin := true;
        }
    }

    /** `handleUserSelect`: always forwards the user; closes the mobile
        menu only on a window narrower than 768 pixels. */
    method HandleUserSelect(user: UserInfo, windowWidth: int)
      modifies this`selections, this`showMobileMenu
      ensures selections == old(selections) + [user]
      ensures showMobileMenu == (if windowWidth < 768 then false else old(showMobileMenu))
    {
      selections := selections + [user];
      if windowWidth < 768 {
        showMobileMenu := false;
      }
    }

    /** `handleLogout`: both keys removed, then `/login`. */
    method HandleLogout() returns (path: string)
      modifies this`storage
      ensures storage == BrowserStorage(None, None) && !HasToken(storage)
      ensures path == "/login"
    {
      storage := storage.(token := None);
      storage := storage.(user := None);
      path := "/login";
    }

    /** `toggleCollapse`: flips the flag, so two toggles restore it. */
    method ToggleCollapse()
      modifies this`collapsed
      ensures collapsed == !old(collapsed)
    {
      collapsed := !collapsed;
    }
  }
}
