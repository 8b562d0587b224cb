// The chat-history bookkeeping of src/pages/ChatBot.jsx: saving, starting,
// loading and deleting chats, the title a saved chat gets, the sidebar search,
// and the guard and message append that run before the answer is requested.

module ChatBot {
  import opened JsArray
  import opened JsString

  /** A message's `type`. */
  datatype Sender = User | Ai | Error

  /** `time` is the locale time string taken when the message was made. */
  datatype Message = Message(id: int, kind: Sender, content: string, time: string)

  datatype Chat = Chat(id: int, title: string, messages: seq<Message>)

  const TitleLength: nat := 50

  function IsUserMessage(): Message -> bool
  {
    (m: Message) => m.kind == User
  }

  function ChatLacksId(id: int): Chat -> bool
  {
    (c: Chat) => c.id != id
  }

  /** The title used when no user message gives one: `Chat <milliseconds>`. */
  function FallbackTitle(now: int): (r: string)
    ensures |r| > 5 && "Chat " <= r
  {
    "Chat " + IntToString(now)
  }

  /** The fallback title carries the save time, which `parseInt` reads back from after the prefix. */
  lemma FallbackTitleCarriesTime(now: int)
    ensures ParseInt(FallbackTitle(now)[5..]) == Some(now)
  {
    assert FallbackTitle(now)[5..] == IntToString(now);
    ParseIntOfIntToString(now);
  }

  /**
   * The title `saveChat` gives a chat: the first 50 characters of the first
   * user message, or the fallback when there is no user message or it is empty.
   * A saved chat never has an empty title.
   */
  function ChatTitle(messages: seq<Message>, now: int): (r: string)
    ensures r != []
    ensures var first := Find(messages, IsUserMessage());
      if first.Some? && first.value.content != []
      then r <= first.value.content && |r| == if |first.value.content| < TitleLength then |first.value.content| else TitleLength
      else r == FallbackTitle(now)
  {
    var cut := match Find(messages, IsUserMessage())
      case Some(m) => Take(m.content, TitleLength)
      case None => [];
    if cut != [] then cut else FallbackTitle(now)
  }

  /** A user message at the front of the conversation names the chat. */
  lemma TitleFromOpeningQuestion(m: Message, rest: seq<Message>, now: int)
    requires m.kind == User && m.content != []
    ensures ChatTitle([m] + rest, now) <= m.content
    ensures |m.content| <= TitleLength ==> ChatTitle([m] + rest, now) == m.content
  {
    assert ([m] + rest)[0] == m;
  }

  /** The sidebar keeps a chat when its title contains the search text, ignoring case. */
  function TitleMatches(search: string): Chat -> bool
  {
    (c: Chat) => Includes(ToLower(c.title), ToLower(search))
  }

  /** The chats listed in the sidebar. */
  function VisibleChats(history: seq<Chat>, search: string): (r: seq<Chat>)
    ensures forall i :: 0 <= i < |r| ==> r[i] in history && TitleMatches(search)(r[i])
    ensures forall j :: 0 <= j < |history| && TitleMatches(search)(history[j]) ==> history[j] in r
  {
    Filter(history, TitleMatches(search))
  }

  /** The sidebar lists matching chats in history order, and all of them when the search is empty. */
  lemma VisibleChatsSpec(history: seq<Chat>, search: string)
    ensures IsSubsequence(VisibleChats(history, search), history)
    ensures search == [] ==> VisibleChats(history, search) == history
  {
    FilterIsSubsequence(history, TitleMatches(search));
    if search == [] {
      forall i | 0 <= i < |history| ensures TitleMatches(search)(history[i]) {
        assert ToLower(search) == [];
        assert Includes(ToLower(history[i].title), search);
      }
      FilterKeepsAll(history, TitleMatches(search));
    }
  }

  /** `deleteChat` removes every chat with the id, keeps the rest in order, and a second delete changes nothing. */
  lemma DeleteChatSpec(history: seq<Chat>, id: int)
    ensures var r := Filter(history, ChatLacksId(id));
      && (forall i :: 0 <= i < |r| ==> r[i].id != id)
      && (forall j :: 0 <= j < |history| && history[j].id != id ==> history[j] in r)
      && (forall j :: 0 <= j < |history| && history[j].id != id ==> multiset(r)[history[j]] == multiset(history)[history[j]])
      && IsSubsequence(r, history)
      && Filter(r, ChatLacksId(id)) == r
  {
    FilterIsSubsequence(history, ChatLacksId(id));
    FilterIdempotent(history, ChatLacksId(id));
  }

  class ChatbotWithSidebar {
    var messages: seq<Message>
    var question: string
    var loading: bool
    var chatHistory: seq<Chat>
    var activeChat: Option<int>
    var searchHistory: string

    constructor ()
      ensures messages == [] && question == [] && !loading
      ensures chatHistory == [] && activeChat == None && searchHistory == []
    {
      messages, question, loading := [], [], false;
      chatHistory, activeChat, searchHistory := [], None, [];
    }

    /**
     * The steps of `generateAnswer` before the request: a question that is only
     * whitespace is ignored; otherwise it is appended as a user message, the
     * input is cleared, loading starts, and the text to send is returned.
     */
    method GenerateAnswer(id: int, time: string) returns (request: Option<string>)
      modifies this
      ensures Trim(old(question)) == [] ==> request == None && unchanged(this)
      ensures Trim(old(question)) != [] ==>
        && request == Some(old(question))
        && messages == old(messages) + [Message(id, User, old(question), time)]
        && question == [] && loading
        && chatHistory == old(chatHistory) && activeChat == old(activeChat)
        && searchHistory == old(searchHistory)
    {
      if Trim(question) == [] {
        return None;
      }
      messages := messages + [Message(id, User, question, time)];
      request := Some(question);
      question := [];
      loading := true;
    }

    /**
     * `saveChat`: with messages, puts one chat holding a copy of them at the
     * front of the history and makes it the active chat; without, nothing.
     */
    method SaveChat(id: int, now: int)
      modifies this
      ensures |old(messages)| == 0 ==> unchanged(this)
      ensures |old(messages)| > 0 ==>
        && chatHistory == [Chat(id, ChatTitle(old(messages), now), old(messages))] + old(chatHistory)
        && activeChat == Some(id)
      ensures messages == old(messages) && question == old(question) && loading == old(loading)
      ensures searchHistory == old(searchHistory)
    {
      if |messages| > 0 {
        var chat := Chat(id, ChatTitle(messages, now), messages);
        chatHistory := [chat] + chatHistory;
        activeChat := Some(chat.id);
      }
    }

    /** `startNewChat`: saves a non-empty conversation, then empties it and clears the active chat. */
    method StartNewChat(id: int, now: int)
      modifies this
      ensures messages == [] && activeChat == None
      ensures chatHistory ==
        if |old(messages)| > 0 then [Chat(id, ChatTitle(old(messages), now), old(messages))] + old(chatHistory)
        else old(chatHistory)
      ensures |chatHistory| == |old(chatHistory)| + if |old(messages)| > 0 then 1 else 0
      ensures question == old(question) && loading == old(loading) && searchHistory == old(searchHistory)
    {
      if |messages| > 0 {
        SaveChat(id, now);
      }
      messages := [];
      activeChat := None;
    }

    /** `loadChat`: shows the chat's messages and makes it the active chat. */
    method LoadChat(chat: Chat)
      modifies this
      ensures messages == chat.messages && activeChat == Some(chat.id)
      ensures chatHistory == old(chatHistory) && question == old(question)
      ensures loading == old(loading) && searchHistory == old(searchHistory)
    {
      messages := chat.messages;
      activeChat := Some(chat.id);
    }

    /**
     * `deleteChat`: removes the chats with the id from the history (see
     * DeleteChatSpec); only when that chat was active is the conversation cleared.
     */
    method DeleteChat(chatId: int)
      modifies this
      ensures chatHistory == Filter(old(chatHistory), ChatLacksId(chatId))
      ensures old(activeChat) == Some(chatId) ==> messages == [] && activeChat == None
      ensures old(activeChat) != Some(chatId) ==> messages == old(messages) && activeChat == old(activeChat)
      ensures question == old(question) && loading == old(loading) && searchHistory == old(searchHistory)
    {
      chatHistory := Filter(chatHistory, ChatLacksId(chatId));
      if activeChat == Some(chatId) {
        messages := [];
        activeChat := None;
      }
    }
  }
}
