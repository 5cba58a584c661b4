/** The in-memory chat page: a list of conversations and one selected copy. */
module ChatPage {
  import opened Wrappers
  import opened Seqs
  import Text

  datatype Sender = Me | Other
  datatype Message = Message(text: string, sender: Sender)
  datatype Chat = Chat(username: string, email: string, messages: seq<Message>)

  function UsernameOf(c: Chat): string
  {
    c.username
  }

  /** `{ ...chat, messages: [...chat.messages, m] }`. */
  function WithMessage(c: Chat, m: Message): Chat
  {
    c.(messages := c.messages + [m])
  }

  /**
   * `chats.map(chat => chat.username === u ? WithMessage(chat, m) : chat)`:
   * every chat with that username gets the message at its end; the others,
   * and the order, are untouched.
   */
  function AppendToUser(chats: seq<Chat>, u: string, m: Message): (r: seq<Chat>)
    ensures |r| == |chats|
    ensures forall i :: 0 <= i < |chats| ==>
              r[i].username == chats[i].username && r[i].email == chats[i].email
    ensures forall i :: 0 <= i < |chats| ==>
              r[i].messages == if chats[i].username == u then chats[i].messages + [m] else chats[i].messages
  {
    if chats == [] then []
    else [if chats[0].username == u then WithMessage(chats[0], m) else chats[0]] + AppendToUser(chats[1..], u, m)
  }

  /** Sending to a username no chat has changes nothing. */
  lemma AppendToAbsentUser(chats: seq<Chat>, u: string, m: Message)
    requires forall i :: 0 <= i < |chats| ==> chats[i].username != u
    ensures AppendToUser(chats, u, m) == chats
  {
    var r := AppendToUser(chats, u, m);
    forall i | 0 <= i < |chats| ensures r[i] == chats[i] {
      assert r[i].messages == chats[i].messages;
    }
  }

  class ChatPage {
    var chats: seq<Chat>
    var selectedChat: Option<Chat>
    var newMessage: string
    var newChatUsername: string
    var newChatEmail: string

    constructor ()
      ensures chats == [] && selectedChat.None?
      ensures newMessage == "" && newChatUsername == "" && newChatEmail == ""
    {
      chats, selectedChat := [], None;
      newMessage, newChatUsername, newChatEmail := "", "", "";
    }

    /** Clicking a chat in the list selects (a copy of) it. */
    method SelectChat(c: Chat)
      modifies this
      ensures selectedChat == Some(c)
      ensures chats == old(chats) && newMessage == old(newMessage)
      ensures newChatUsername == old(newChatUsername) && newChatEmail == old(newChatEmail)
    {
      selectedChat := Some(c);
    }

    /** `handleAddChat`: appends an empty chat when both inputs are filled, then clears them. */
    method HandleAddChat()
      modifies this
      ensures selectedChat == old(selectedChat) && newMessage == old(newMessage)
      ensures old(newChatUsername) != "" && old(newChatEmail) != "" ==>
              && chats == old(chats) + [Chat(old(newChatUsername), old(newChatEmail), [])]
              && newChatUsername == "" && newChatEmail == ""
      ensures old(newChatUsername) == "" || old(newChatEmail) == "" ==>
              chats == old(chats) && newChatUsername == old(newChatUsername) && newChatEmail == old(newChatEmail)
    {
      if newChatUsername != "" && newChatEmail != "" {
        chats := chats + [Chat(newChatUsername, newChatEmail, [])];
        newChatUsername, newChatEmail := "", "";
      }
    }

    /** `handleDeleteChat`: drops every chat with that username and clears a matching selection. */
    method HandleDeleteChat(username: string)
      modifies this
      ensures chats == RemoveWhere(old(chats), UsernameOf, username)
      ensures forall i :: 0 <= i < |chats| ==> chats[i].username != username
      ensures IsSubsequence(chats, old(chats))
      ensures |chats| + CountWhere(old(chats), UsernameOf, username) == |old(chats)|
      ensures selectedChat == if old(selectedChat).Some? && old(selectedChat).value.username == username
                              then None else old(selectedChat)
      ensures newMessage == old(newMessage)
      ensures newChatUsername == old(newChatUsername) && newChatEmail == old(newChatEmail)
    {
      RemoveWhereSpec(chats, UsernameOf, username);
      chats := RemoveWhere(chats, UsernameOf, username);
      if selectedChat.Some? && selectedChat.value.username == username {
        selectedChat := None;
      }
    }

    /**
     * `handleSendMessage`: with a chat selected and a message that is not
     * blank, appends it as sent by "me" to the matching chats and to the
     * selected copy, then clears the input.
     */
    method HandleSendMessage()
      modifies this
      ensures newChatUsername == old(newChatUsername) && newChatEmail == old(newChatEmail)
      ensures old(selectedChat).None? || Text.IsBlank(old(newMessage)) ==>
              chats == old(chats) && selectedChat == old(selectedChat) && newMessage == old(newMessage)
      ensures old(selectedChat).Some? && !Text.IsBlank(old(newMessage)) ==>
              && chats == AppendToUser(old(chats), old(selectedChat).value.username, Message(old(newMessage), Me))
              && selectedChat == Some(WithMessage(old(selectedChat).value, Message(old(newMessage), Me)))
              && newMessage == ""
    {
      Text.TrimSpec(newMessage);
      if selectedChat.Some? && Text.Trim(newMessage) != "" {
        var m := Message(newMessage, Me);
        chats := AppendToUser(chats, selectedChat.value.username, m);
        selectedChat := Some(WithMessage(selectedChat.value, m));
        newMessage := "";
      }
    }
  }
}
