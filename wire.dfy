/** Records that travel between the server, the database and the
    browser: token claims, the `send_message` payload, a stored message
    row, the account record, and the browser's `localStorage`. */
module Wire {
  import opened Js

  /** The payload a login token is signed over, and what verifying a
      token gives back: `{ id, username, role }`. */
  datatype Claims = Claims(id: int, username: string, role: string)

  /** The `send_message` payload a client emits. The ids are whatever the
      client put there: `null`, a number or a string. */
  datatype Envelope = Envelope(receiverId: JsVal, groupId: JsVal, contentType: string, content: string)

  /** A row of the `messages` table as `RETURNING *` gives it back; this
      row is also the `receive_message` payload. Timestamps are integers. */
  datatype MessageRow = MessageRow(
    id: int,
    senderId: int,
    receiverId: JsVal,
    groupId: JsVal,
    contentType: string,
    content: string,
    timestamp: int)

  /** The account record returned by `/api/users/me` and kept under the
      `'user'` key of `localStorage`. */
  datatype UserInfo = UserInfo(id: int, username: string, role: string, status: string)

  /** The two `localStorage` keys the client uses; `None` is a missing key. */
  datatype BrowserStorage = BrowserStorage(token: Option<string>, user: Option<UserInfo>)

  /** `localStorage.getItem('token')` is truthy: present and not empty. */
  predicate HasToken(st: BrowserStorage)
  {
    st.token.Some? && st.token.value != ""
  }
}
