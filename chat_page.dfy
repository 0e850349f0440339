/** The chat page (app/page.tsx): the active chat, the saved chats, the
    page's key status and whether the settings dialog is open, updated by one
    handler at a time. */
module ChatPage {
  import opened Base
  import opened Strings
  import opened ChatTypes
  import opened ApiKeyUtils
  import ChatRoute

  /** The id of the chat that has not been saved yet. */
  const NewChat := "new"
  const TitleLength := 30
  const Ellipsis := "..."

  /** A saved chat's title: the first thirty characters of the first
      message (all of it when shorter), always followed by "...". */
  function ChatTitle(content: string): (title: string)
    ensures |title| == (if |content| < TitleLength then |content| else TitleLength) + |Ellipsis|
    ensures title[..|title| - |Ellipsis|] == content[..|title| - |Ellipsis|]
    ensures title[|title| - |Ellipsis|..] == Ellipsis
  {
    var n := if |content| < TitleLength then |content| else TitleLength;
    content[..n] + Ellipsis
  }

  /** A saved chat's id, `Date.now().toString()`, is never the marker of the
      unsaved chat, since it is made of digits only. */
  lemma SavedIdIsNotNewChat(now: nat)
    ensures NatToDecimal(now) != NewChat
  {
    var id := NatToDecimal(now);
    assert IsDigit(id[0]);
    assert !IsDigit(NewChat[0]);
  }

  /** The test `onError` applies to the error message. */
  predicate MentionsKeyProblem(message: string) {
    Contains(ToLower(message), "api key") || Contains(ToLower(message), "authentication")
  }

  /** The relay's missing-key text starts with "API key", which lower-cases
      to the phrase `onError` looks for. */
  lemma LowerKeyPhrase()
    ensures ChatRoute.KeyRequiredError[..7] == "API key"
    ensures ToLower("API key") == "api key"
  {
    var l := ToLower("API key");
    assert l[0] == 'a' && l[1] == 'p' && l[2] == 'i' && l[3] == ' ';
    assert l[4] == 'k' && l[5] == 'e' && l[6] == 'y';
  }

  /** Any error message that quotes the relay's missing-key reply is
      recognised as a key problem. */
  lemma {:induction false} KeyRequiredReplyIsRecognized(message: string)
    requires Contains(message, ChatRoute.KeyRequiredError)
    ensures MentionsKeyProblem(message)
  {
    var e := ChatRoute.KeyRequiredError;
    var i :| 0 <= i <= |message| && StartsWith(message[i..], e);
    LowerKeyPhrase();
    var w := message[i..][..7];
    assert w == e[..7] == "API key" by {
      assert message[i..][..|e|] == e;
    }
    var lw := ToLower(message)[i..][..7];
    forall j | 0 <= j < 7 ensures lw[j] == ToLower(w)[j] {
      assert lw[j] == ToLower(message)[i + j] && w[j] == message[i + j];
    }
    assert lw == ToLower(w) == "api key";
    assert StartsWith(ToLower(message)[i..], "api key");
  }

  class Page {
    var activeChat: string
    var savedChats: map<string, SavedChat>
    var apiKeyStatus: KeyStatus
    var showApiDialog: bool
    /** The conversation on screen and the input box, held by the chat hook. */
    var messages: seq<Message>
    var input: string

    /** The active chat is the unsaved one or a saved one. */
    ghost predicate Valid()
      reads this
    {
      activeChat == NewChat || activeChat in savedChats
    }

    constructor ()
      ensures Valid()
      ensures activeChat == NewChat && savedChats == map[] && apiKeyStatus == Missing && !showApiDialog
      ensures messages == [] && input == ""
    {
      activeChat := NewChat;
      savedChats := map[];
      apiKeyStatus := Missing;
      showApiDialog := false;
      messages := [];
      input := "";
    }

    /** The mount effect: load the saved chats when storage holds some, derive
      the key status from storage, and open the dialog only when the key is
      missing, not when it is invalid. */
    method Mount(storedChats: Option<map<string, SavedChat>>, store: LocalStore)
      requires activeChat == NewChat
      modifies this`savedChats, this`apiKeyStatus, this`showApiDialog
      ensures Valid()
      ensures savedChats == if storedChats.Some? then storedChats.value else old(savedChats)
      ensures apiKeyStatus == ApiKeyStatus(store.entries)
      ensures showApiDialog <==> old(showApiDialog) || ApiKeyStatus(store.entries) == Missing
      ensures ApiKeyStatus(store.entries) == Invalid ==> showApiDialog == old(showApiDialog)
    {
      if storedChats.Some? {
        savedChats := storedChats.value;
      }
      var status := store.Status();
      apiKeyStatus := status;
      if status == Missing {
        showApiDialog := true;
      }
    }

    /** `onError`: a message about the key marks the key invalid and opens the
      dialog; any other error changes nothing here. */
    method OnError(message: string)
      modifies this`apiKeyStatus, this`showApiDialog
      ensures MentionsKeyProblem(message) ==> apiKeyStatus == Invalid && showApiDialog
      ensures !MentionsKeyProblem(message) ==>
        apiKeyStatus == old(apiKeyStatus) && showApiDialog == old(showApiDialog)
    {
      var lower := ToLower(message);
      if Contains(lower, "api key") || Contains(lower, "authentication") {
        apiKeyStatus := Invalid;
        showApiDialog := true;
      }
    }

    /** `onFinish`: a finished reply in the unsaved chat with at least one
      message saves a new chat under the id `now` renders to and makes it
      active; in a saved chat it replaces only that chat's messages; in an
      empty unsaved chat it does nothing. The clock reading is `now`. */
    method OnFinish(message: Message, now: nat)
      requires Valid()
      modifies this`savedChats, this`activeChat
      ensures Valid()
      ensures old(activeChat) == NewChat && |messages| > 0 ==>
        var id := NatToDecimal(now);
        activeChat == id && id != NewChat &&
        savedChats == old(savedChats)[id := SavedChat(id, ChatTitle(messages[0].content), messages + [message], Some(now))]
      ensures old(activeChat) != NewChat ==>
        activeChat == old(activeChat) &&
        savedChats == old(savedChats)[activeChat := old(savedChats)[activeChat].(messages := messages + [message])]
      ensures old(activeChat) == NewChat && messages == [] ==>
        activeChat == old(activeChat) && savedChats == old(savedChats)
    {
      if activeChat == NewChat && |messages| > 0 {
        var id := NatToDecimal(now);
        SavedIdIsNotNewChat(now);
        var chat := SavedChat(id, ChatTitle(messages[0].content), messages + [message], Some(now));
        savedChats := savedChats[id := chat];
        activeChat := id;
      } else if activeChat != NewChat {
        var updated := savedChats[activeChat].(messages := messages + [message]);
        savedChats := savedChats[activeChat := updated];
      }
    }

    /** `startNewChat` */
    method StartNewChat()
      modifies this`activeChat, this`messages, this`input
      ensures Valid()
      ensures activeChat == NewChat && messages == [] && input == ""
    {
      activeChat := NewChat;
      messages := [];
      input := "";
    }

    /** `loadChat`, called with an id the history lists. */
    method LoadChat(chatId: string)
      requires chatId in savedChats
      modifies this`activeChat, this`messages
      ensures Valid()
      ensures activeChat == chatId && messages == savedChats[chatId].messages
    {
      activeChat := chatId;
      messages := savedChats[chatId].messages;
    }

    /** `deleteChat`: removes exactly that chat; deleting the active chat
      starts a new one, deleting another leaves the active chat alone. */
    method DeleteChat(chatId: string)
      requires Valid()
      modifies this`savedChats, this`activeChat, this`messages, this`input
      ensures Valid()
      ensures savedChats == old(savedChats) - {chatId}
      ensures old(activeChat) == chatId ==> activeChat == NewChat && messages == [] && input == ""
      ensures old(activeChat) != chatId ==>
        activeChat == old(activeChat) && messages == old(messages) && input == old(input)
    {
      savedChats := savedChats - {chatId};
      if activeChat == chatId {
        StartNewChat();
      }
    }

    /** The dialog's `onOpenChange`. */
    method SetShowApiDialog(open: bool)
      modifies this`showApiDialog
      ensures showApiDialog == open
    {
      showApiDialog := open;
    }

    /** Re-derives the page's key status from storage, as a reload after
      saving a key would. The page as written never does this after mount;
      see the findings in the README. */
    method RefreshKeyStatus(store: LocalStore)
      modifies this`apiKeyStatus
      ensures apiKeyStatus == ApiKeyStatus(store.entries)
    {
      apiKeyStatus := store.Status();
    }
  }
}
