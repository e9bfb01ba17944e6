/**
 * The chat panel: the list of the user's chats, the messages of the selected
 * chat with realtime appends, the send guard and the send handler.
 */
module ChatPanel {
  import opened Common
  import opened SrcSchema

  const SendFailed := "Failed to send message"

  /**
   * `data?.map(item => item.chat).filter(Boolean) || []` over the joined rows of
   * `chat_participants`: the chats in order, the rows without one dropped.
   */
  function ChatList(rows: seq<Option<Chat>>): (chats: seq<Chat>)
    ensures |chats| <= |rows|
    ensures forall c :: c in chats <==> Some(c) in rows
  {
    if rows == [] then []
    else
      var rest := ChatList(rows[1..]);
      assert forall c :: Some(c) in rows <==> rows[0] == Some(c) || Some(c) in rows[1..];
      if rows[0].Some? then [rows[0].value] + rest else rest
  }

  /** The extraction keeps the order of the rows: it distributes over concatenation. */
  lemma {:induction false} ChatListAppend(a: seq<Option<Chat>>, b: seq<Option<Chat>>)
    ensures ChatList(a + b) == ChatList(a) + ChatList(b)
    decreases |a|
  {
    if a == [] {
      assert a + b == b;
    } else {
      assert (a + b)[1..] == a[1..] + b;
      ChatListAppend(a[1..], b);
    }
  }

  /** Rows that all hold a chat are kept whole. */
  lemma {:induction false} ChatListKeepsPresent(rows: seq<Option<Chat>>)
    requires forall i :: 0 <= i < |rows| ==> rows[i].Some?
    ensures |ChatList(rows)| == |rows|
    ensures forall i :: 0 <= i < |rows| ==> ChatList(rows)[i] == rows[i].value
  {
    if rows != [] {
      ChatListKeepsPresent(rows[1..]);
    }
  }

  /** Index `i` holds the first chat whose id is `id`. */
  predicate FirstWithId(chats: seq<Chat>, id: string, i: int) {
    0 <= i < |chats| && chats[i].id == id && forall j :: 0 <= j < i ==> chats[j].id != id
  }

  /** `chats.find(chat => chat.id === selectedChatId)`; a null selection matches no chat. */
  function SelectedChat(chats: seq<Chat>, selectedId: Option<string>): (r: Option<Chat>)
    ensures r.None? <==> selectedId.None? || forall i :: 0 <= i < |chats| ==> chats[i].id != selectedId.value
    ensures r.Some? ==> exists i :: FirstWithId(chats, selectedId.value, i) && r.value == chats[i]
  {
    if selectedId.None? || chats == [] then None
    else if chats[0].id == selectedId.value then
      assert FirstWithId(chats, selectedId.value, 0);
      Some(chats[0])
    else
      var r := SelectedChat(chats[1..], selectedId);
      assert forall i :: 1 <= i < |chats| ==> chats[i] == chats[1..][i - 1];
      if r.Some? then
        var k :| FirstWithId(chats[1..], selectedId.value, k) && r.value == chats[1..][k];
        assert FirstWithId(chats, selectedId.value, k + 1);
        r
      else r
  }

  /** `getUnreadCount`: the count is not computed yet and is 0 for every chat. */
  function UnreadCount(chat: Chat): (n: nat)
    ensures n == 0
  {
    0
  }

  /** No chat of a list ever gets an unread badge. */
  lemma NoUnreadBadges(chats: seq<Chat>)
    ensures forall i :: 0 <= i < |chats| ==> !(UnreadCount(chats[i]) > 0)
  {
  }

  /** `disabled` of the send button. */
  predicate SendDisabled(sending: bool, newMessage: string) {
    sending || IsBlank(newMessage)
  }

  /** `!newMessage.trim() || !selectedChatId`: a blank text, or no (or an empty) chat id. */
  predicate SendRefused(newMessage: string, selectedChatId: Option<string>) {
    IsBlank(newMessage) || selectedChatId.None? || selectedChatId.value == ""
  }

  /** With a chat selected, an enabled button always gets past the guard. */
  lemma EnabledSendIsAccepted(sending: bool, newMessage: string, chatId: string)
    requires chatId != "" && !SendDisabled(sending, newMessage)
    ensures !SendRefused(newMessage, Some(chatId))
  {
  }

  /** The row `sendMessage` inserts into `messages`. */
  datatype MessageInsert = MessageInsert(chatId: string, senderId: string, content: string)

  /** The reply of a query: rows (`data` may be null) or an error. */
  datatype Fetched<T> = Data(rows: Option<seq<T>>) | FetchError

  class Panel {
    const userId: string
    var chats: seq<Chat>
    var messages: seq<Message>
    var newMessage: string
    var loading: bool
    var sending: bool

    constructor (userId: string)
      ensures this.userId == userId && chats == [] && messages == [] && newMessage == ""
      ensures loading && !sending
    {
      this.userId := userId;
      chats, messages, newMessage, loading, sending := [], [], "", true, false;
    }

    /** `fetchChats`: the extracted list replaces the chats; loading ends whatever the reply. */
    method FetchChats(reply: Fetched<Option<Chat>>)
      modifies this`chats, this`loading
      ensures chats == if reply.Data? then ChatList(reply.rows.GetOr([])) else old(chats)
      ensures !loading
    {
      if reply.Data? {
        chats := ChatList(reply.rows.GetOr([]));
      }
      loading := false;
    }

    /** `fetchMessages`: the rows (`data || []`) replace the messages; an error keeps them. */
    method FetchMessages(reply: Fetched<Message>)
      modifies this`messages
      ensures messages == if reply.Data? then reply.rows.GetOr([]) else old(messages)
    {
      if reply.Data? {
        messages := reply.rows.GetOr([]);
      }
    }

    /** A realtime INSERT: the new message goes last, earlier ones stay in order. */
    method OnInsert(m: Message)
      modifies this`messages
      ensures messages == old(messages) + [m]
      ensures |messages| == |old(messages)| + 1 && messages[..|old(messages)|] == old(messages)
    {
      messages := messages + [m];
    }

    method EnterText(text: string)
      modifies this`newMessage
      ensures newMessage == text
    {
      newMessage := text;
    }

    /**
     * `sendMessage`, with the insert's reply as a parameter. A refused send
     * changes nothing. Otherwise the trimmed text is sent (see `SentContent`);
     * the input is cleared only on success,
     * a failure alerts, and `sending` ends false.
     */
    method SendMessage(selectedChatId: Option<string>, reply: Reply)
      returns (sent: Option<MessageInsert>, alert: Option<string>)
      modifies this`newMessage, this`sending
      ensures SendRefused(old(newMessage), selectedChatId) ==>
                sent == None && alert == None && newMessage == old(newMessage) && sending == old(sending)
      ensures !SendRefused(old(newMessage), selectedChatId) ==>
                && sent == Some(MessageInsert(selectedChatId.value, userId, Trim(old(newMessage))))
                && !sending
                && (reply == Done ==> newMessage == "" && alert == None)
                && (reply != Done ==> newMessage == old(newMessage) && alert == Some(SendFailed))
    {
      if IsBlank(newMessage) || selectedChatId.None? || selectedChatId.value == "" {
        return None, None;
      }
      sending := true;
      sent := Some(MessageInsert(selectedChatId.value, userId, Trim(newMessage)));
      if reply == Done {
        newMessage := "";
        alert := None;
      } else {
        alert := Some(SendFailed);
      }
      sending := false;
    }
  }

  /**
   * A text that gets past the guard is sent non-empty, and its first and last
   * characters are not whitespace.
   */
  lemma SentContent(s: string)
    requires !IsBlank(s)
    ensures var t := Trim(s); t != "" && !IsWhitespace(t[0]) && !IsWhitespace(t[|t| - 1])
  {
    StartKeepsNonBlank(s);
    EndKeepsFirst(TrimStart(s));
  }
}
