/** The administration panel: the three search filters, the labels of
    the message table, the status toggle, the user form and its reset,
    and which resource a tab loads. */
module AdminPanel {
  import opened Js
  import opened Text
  import opened Wire
  import opened UserUpdate
  import opened UserSearch
  import SocketServer

  // ---------------------------------------------------------------------
  // Search filters

  /** A row of the admin message list: the stored message and its
      `sender` object's `username` (`None` when there is no sender). */
  datatype ListedMessage = ListedMessage(row: MessageRow, senderName: Option<string>)

  /** `message.sender && message.sender.username`, as a string that is
      empty when falsy. */
  function SenderName(m: ListedMessage): string
  {
    if m.senderName.Some? then m.senderName.value else ""
  }

  /** The message filter: truthy content that matches, or a truthy sender
      name that matches. */
  predicate MessageMatches(m: ListedMessage, term: string)
  {
    (m.row.content != "" && MatchesTerm(m.row.content, term))
    || (SenderName(m) != "" && MatchesTerm(SenderName(m), term))
  }

  function FilterMessages(messages: seq<ListedMessage>, term: string): (r: seq<ListedMessage>)
    ensures Subsequence(r, messages)
    ensures forall m :: m in r ==> m in messages && MessageMatches(m, term)
    ensures forall i :: 0 <= i < |messages| && MessageMatches(messages[i], term) ==> messages[i] in r
    ensures forall m :: multiset(r)[m] == if MessageMatches(m, term) then multiset(messages)[m] else 0
  {
    Filter(messages, (m: ListedMessage) => MessageMatches(m, term))
  }

  /** With an empty term a message is listed exactly when it has content
      or a named sender: a message with neither is hidden whatever the
      term. */
  lemma FilterMessagesEmptyTerm(messages: seq<ListedMessage>, term: string)
    ensures forall m :: m in messages ==>
      (m in FilterMessages(messages, "") <==> m.row.content != "" || SenderName(m) != "")
    ensures forall m :: m in FilterMessages(messages, term) ==> m.row.content != "" || SenderName(m) != ""
  {
    forall m | m in messages && (m.row.content != "" || SenderName(m) != "")
      ensures m in FilterMessages(messages, "")
    {
      IncludesEmpty(ToLower(m.row.content));
      IncludesEmpty(ToLower(SenderName(m)));
      var i :| 0 <= i < |messages| && messages[i] == m;
    }
  }

  /** A chat group as the group list shows it. */
  datatype Group = Group(id: int, name: string, inviteCode: string)

  function FilterGroups(groups: seq<Group>, term: string): (r: seq<Group>)
    ensures Subsequence(r, groups)
    ensures forall g :: g in r ==> g in groups && MatchesTerm(g.name, term)
    ensures forall i :: 0 <= i < |groups| && MatchesTerm(groups[i].name, term) ==> groups[i] in r
    ensures forall g :: multiset(r)[g] == if MatchesTerm(g.name, term) then multiset(groups)[g] else 0
  {
    Filter(groups, (g: Group) => MatchesTerm(g.name, term))
  }

  /** An empty search lists every group. */
  lemma FilterGroupsEmptyTerm(groups: seq<Group>)
    ensures FilterGroups(groups, "") == groups
  {
    forall i | 0 <= i < |groups| ensures MatchesTerm(groups[i].name, "") {
      IncludesEmpty(ToLower(groups[i].name));
    }
    FilterAll(groups, (g: Group) => MatchesTerm(g.name, ""));
  }

  // ---------------------------------------------------------------------
  // Labels of the message table

  /** The room the target column describes: a truthy `receiver_id` is
      checked first, then a truthy `group_id`, else the public room. */
  function TargetRoom(receiverId: JsVal, groupId: JsVal): (r: SocketServer.Room)
    ensures r.UserRoom? ==> r.receiverId == receiverId
    ensures r.GroupRoom? ==> r.groupId == groupId
  {
    if Truthy(receiverId) then SocketServer.UserRoom(receiverId)
    else if Truthy(groupId) then SocketServer.GroupRoom(groupId)
    else SocketServer.PublicRoom
  }

  /** The target column's text. */
  function TargetLabel(m: MessageRow): string
  {
    match TargetRoom(m.receiverId, m.groupId)
    case UserRoom(u) => "私聊(ID: " + JsValToString(u) + ")"
    case GroupRoom(g) => "群聊(ID: " + JsValToString(g) + ")"
    case PublicRoom => "公共聊天"
  }

  /** The label names the room the server delivered to exactly when the
      message does not carry both ids; with both, the label says direct
      while the server sent it to the group. */
  lemma TargetLabelAgreesWithRoute(m: MessageRow)
    ensures var e := Envelope(m.receiverId, m.groupId, m.contentType, m.content);
      TargetRoom(m.receiverId, m.groupId) == SocketServer.Route(e) <==> !(Truthy(m.receiverId) && Truthy(m.groupId))
    ensures Truthy(m.receiverId) && Truthy(m.groupId) ==>
      && TargetRoom(m.receiverId, m.groupId).UserRoom?
      && SocketServer.Route(Envelope(m.receiverId, m.groupId, m.contentType, m.content)).GroupRoom?
  {
  }

  /** `message.sender?.username || '系统'`. */
  function SenderLabel(m: ListedMessage): (r: string)
    ensures r != ""
    ensures SenderName(m) != "" ==> r == SenderName(m)
  {
    if SenderName(m) != "" then SenderName(m) else "系统"
  }

  /** The content types the table knows. */
  const KnownTypes: set<string> := {"text", "image", "video", "file"}

  /** The type column: a Chinese name for the four known types, the raw
      `content_type` for any other. */
  function TypeLabel(contentType: string): string
  {
    if contentType == "text" then "文本"
    else if contentType == "image" then "图片"
    else if contentType == "video" then "视频"
    else if contentType == "file" then "文件"
    else contentType
  }

  /** The content column: the text itself for text, a fixed placeholder
      for everything else. */
  function ContentPreview(contentType: string, content: string): string
  {
    if contentType == "text" then content
    else if contentType == "image" then "[图片]"
    else if contentType == "video" then "[视频]"
    else if contentType == "file" then "[文件]"
    else "[其他内容]"
  }

  /** Only text content is ever shown; an unknown type is shown by its
      raw name and previewed as other content; the four known types get
      four different names. */
  lemma LabelsOfContent(contentType: string, c1: string, c2: string)
    ensures contentType == "text" ==> ContentPreview(contentType, c1) == c1
    ensures contentType != "text" ==> ContentPreview(contentType, c1) == ContentPreview(contentType, c2)
    ensures contentType !in KnownTypes ==>
      TypeLabel(contentType) == contentType && ContentPreview(contentType, c1) == "[其他内容]"
    ensures forall a, b :: a in KnownTypes && b in KnownTypes && TypeLabel(a) == TypeLabel(b) ==> a == b
  {
  }

  // ---------------------------------------------------------------------
  // Status toggle, tabs and the user form

  /** `user.status === 'active' ? 'banned' : 'active'`. */
  function ToggleStatus(status: string): (r: string)
    ensures r == "active" || r == "banned"
    ensures r == "banned" <==> status == "active"
  {
    if status == "active" then "banned" else "active"
  }

  /** Toggling twice restores `'active'` and `'banned'`; any other status
      is normalised to `'active'` first. */
  lemma ToggleTwice(status: string)
    ensures ToggleStatus(ToggleStatus(status)) == status <==> status == "active" || status == "banned"
  {
  }

  /** The body `{ status: newStatus }` of the toggle makes the update
      builder assign the status column and nothing else. */
  lemma ToggleUpdatesStatusOnly(status: string, hash: string -> string)
    ensures Assignments(UpdateBody("", "", "", ToggleStatus(status)), hash) ==
      [Assignment("status", ToggleStatus(status))]
  {
  }

  /** The resources a tab can load. */
  datatype Resource = UsersList | MessagesList | GroupsList | Stats | InviteCodes

  /** The notice each fetch shows when its request fails. */
  function LoadFailureText(r: Resource): string
  {
    match r
    case UsersList => "获取用户数据失败"
    case MessagesList => "获取消息数据失败"
    case GroupsList => "获取群聊数据失败"
    case Stats => "获取统计数据失败"
    case InviteCodes => "获取邀请码数据失败"
  }

  /** The tab effect's `switch`: one resource per known tab, nothing for
      any other. */
  function TabResource(tab: string): (r: Option<Resource>)
    ensures r.Some? <==> tab in {"users", "messages", "groups", "stats", "settings"}
  {
    if tab == "users" then Some(UsersList)
    else if tab == "messages" then Some(MessagesList)
    else if tab == "groups" then Some(GroupsList)
    else if tab == "stats" then Some(Stats)
    else if tab == "settings" then Some(InviteCodes)
    else None
  }

  /** Different tabs never load the same resource. */
  lemma TabResourceInjective(a: string, b: string)
    requires TabResource(a).Some? && TabResource(a) == TabResource(b)
    ensures a == b
  {
  }

  /** The form after a successful submit and at start. */
  const BlankForm := UpdateBody("", "", "user", "active")

  /** The form `handleEditUser` fills from a user. */
  function EditForm(user: UserInfo): (r: UpdateBody)
    ensures r.username == user.username && r.role == user.role && r.status == user.status
    ensures r.password == ""
  {
    UpdateBody(user.username, "", user.role, user.status)
  }

  /** Saving an edit form whose password was left blank never touches
      the password hash. */
  lemma EditKeepsPassword(user: UserInfo, hash: string -> string)
    ensures forall a :: a in Assignments(EditForm(user), hash) ==> a.column != "password_hash"
  {
  }

  /** The request `handleUserSubmit` makes: a PUT for the selected user,
      a POST when none is selected; both send the whole form. */
  datatype UserRequest = PutUser(id: int, body: UpdateBody) | PostUser(body: UpdateBody)

  /** How an axios call in a handler ends; a failure carries the server's
      `error` text, `""` when there is none. */
  datatype Reply = Succeeded | Failed(serverError: string)

  datatype Notification = Notification(show: bool, message: string, kind: string)

  class AdminView {
    var activeTab: string
    var searchTerm: string
    var selectedUser: Option<UserInfo>
    var userForm: UpdateBody
    var loading: bool
    var notification: Notification
    /** The resources loaded so far, oldest first. */
    var loads: seq<Resource>

    /** The panel as mounted: the users tab is open and the first run of
        the tab effect has requested the user list. */
    constructor ()
      ensures activeTab == "users" && searchTerm == "" && selectedUser == None
      ensures userForm == BlankForm && loading && loads == [UsersList]
      ensures notification == Notification(false, "", "")
    {
      activeTab := "users";
      searchTerm := "";
      selectedUser := None;
      userForm := BlankForm;
      loading := true;
      notification := Notification(false, "", "");
      loads := [UsersList];
    }

    /** `showNotification` without its three-second hide timer. */
    method ShowNotification(message: string, kind: string)
      modifies this`notification
      ensures notification == Notification(true, message, kind)
    {
      notification := Notification(true, message, kind);
    }

    /** A click on a tab and the `[activeTab]` effect: the effect runs
        only when the tab actually changes, so clicking the open tab
        loads nothing; each fetch it starts first sets `loading`. */
    method SwitchTab(tab: string)
      modifies this`activeTab, this`loads, this`loading
      ensures activeTab == tab
      ensures tab == old(activeTab) ==> loads == old(loads) && loading == old(loading)
      ensures tab != old(activeTab) ==>
        loads == old(loads) + (if TabResource(tab).Some? then [TabResource(tab).value] else [])
      ensures tab != old(activeTab) && TabResource(tab).Some? ==> loading
      ensures tab != old(activeTab) && TabResource(tab).None? ==> loading == old(loading)
    {
      if tab != activeTab {
        activeTab := tab;
        var r := TabResource(tab);
        if r.Some? {
          loading := true;
          loads := loads + [r.value];
        }
      }
    }

    /** The end of one of the five fetches: `loading` is cleared either
        way, and a failed fetch shows that resource's error notice. */
    method FetchSettled(resource: Resource, ok: bool)
      modifies this`loading, this`notification
      ensures !loading
      ensures ok ==> notification == old(notification)
      ensures !ok ==> notification == Notification(true, LoadFailureText(resource), "error")
    {
      loading := false;
      if !ok {
        ShowNotification(LoadFailureText(resource), "error");
      }
    }

    /** `handleEditUser`. */
    method HandleEditUser(user: UserInfo)
      modifies this`selectedUser, this`userForm
      ensures selectedUser == Some(user) && userForm == EditForm(user)
    {
      selectedUser := Some(user);
      userForm := EditForm(user);
    }

    /** `handleUserSubmit`: the request it makes, then on success a
        notification, a reload of the users, the form reset and the
        selection cleared; on failure the server's error or `'操作失败'`,
        with form and selection kept. */
    method HandleUserSubmit(reply: Reply) returns (request: UserRequest)
      modifies this`loading, this`notification, this`loads, this`userForm, this`selectedUser
      ensures request == if old(selectedUser).Some? then PutUser(old(selectedUser).value.id, old(userForm))
                         else PostUser(old(userForm))
      ensures reply.Succeeded? ==>
        && notification == Notification(true, if request.PutUser? then "用户更新成功" else "用户添加成功", "success")
        && loads == old(loads) + [UsersList]
        && userForm == BlankForm && selectedUser == None
      ensures reply.Failed? ==>
        && notification == Notification(true, if reply.serverError != "" then reply.serverError else "操作失败", "error")
        && loads == old(loads) && userForm == old(userForm) && selectedUser == old(selectedUser)
      ensures !loading
    {
      loading := true;
      if selectedUser.Some? {
        request := PutUser(selectedUser.value.id, userForm);
      } else {
        request := PostUser(userForm);
      }
      if reply.Succeeded? {
        ShowNotification(if request.PutUser? then "用户更新成功" else "用户添加成功", "success");
        loads := loads + [UsersList];
        userForm := BlankForm;
        selectedUser := None;
      } else {
        ShowNotification(if reply.serverError != "" then reply.serverError else "操作失败", "error");
      }
      loading := false;
    }

    /** `handleToggleUserStatus`: a PUT of the toggled status alone. */
    method HandleToggleUserStatus(user: UserInfo, reply: Reply) returns (request: UserRequest)
      modifies this`loading, this`notification, this`loads
      ensures request == PutUser(user.id, UpdateBody("", "", "", ToggleStatus(user.status)))
      ensures reply.Succeeded? ==>
        && notification == Notification(true, if ToggleStatus(user.status) == "active" then "用户已解封" else "用户已封禁", "success")
        && loads == old(loads) + [UsersList]
      ensures reply.Failed? ==> notification == Notification(true, "操作失败", "error") && loads == old(loads)
      ensures !loading
    {
      loading := true;
      var newStatus := if user.status == "active" then "banned" else "active";
      request := PutUser(user.id, UpdateBody("", "", "", newStatus));
      if reply.Succeeded? {
        ShowNotification("用户已" + (if newStatus == "active" then "解封" else "封禁"), "success");
        loads := loads + [UsersList];
      } else {
        ShowNotification("操作失败", "error");
      }
      loading := false;
    }
  }
}
