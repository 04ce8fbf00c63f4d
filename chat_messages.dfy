/**
 * The assistant screen's message list. The list is an observable value that
 * starts out unset (null); messages are appended, or the last one is
 * replaced while a recognition result is still being revised. The screen
 * routes each recognition result by its status and lets the user send typed
 * text.
 *
 * The constructor calls in the screen pass no `status` for the message, which
 * the record requires; here the message status is a parameter of the screen's
 * operations rather than an invented value.
 */
module ChatMessages {
  import opened Wrappers
  import opened Text

  datatype ChatMessage = ChatMessage(content: string, isUser: bool, status: int)

  /** The list, an unset one being empty. */
  function Items(list: Option<seq<ChatMessage>>): seq<ChatMessage> {
    if list.Some? then list.value else []
  }

  /** `(value ?: emptyList()) + message`. */
  function Appended(list: Option<seq<ChatMessage>>, m: ChatMessage): (r: seq<ChatMessage>)
    ensures |r| == |Items(list)| + 1
    ensures r[..|Items(list)|] == Items(list) && r[|r| - 1] == m
  {
    Items(list) + [m]
  }

  /** `dropLast(1) + message` on a non-empty list; an unset or empty list is left as it is. */
  function WithLastReplaced(list: Option<seq<ChatMessage>>, m: ChatMessage): (r: Option<seq<ChatMessage>>)
    ensures Items(list) == [] ==> r == list
    ensures Items(list) != [] ==>
              && r.Some? && |r.value| == |Items(list)|
              && r.value[..|r.value| - 1] == Items(list)[..|Items(list)| - 1]
              && r.value[|r.value| - 1] == m
  {
    if list.Some? && list.value != [] then Some(list.value[..|list.value| - 1] + [m]) else list
  }

  /** `value?.lastOrNull()`. */
  function Last(list: Option<seq<ChatMessage>>): (r: Option<ChatMessage>)
    ensures r.None? <==> Items(list) == []
    ensures r.Some? ==> r.value == Items(list)[|Items(list)| - 1]
  {
    if list.Some? && list.value != [] then Some(list.value[|list.value| - 1]) else None
  }

  /** The last message after an append is the one appended. */
  lemma LastOfAppended(list: Option<seq<ChatMessage>>, m: ChatMessage)
    ensures Last(Some(Appended(list, m))) == Some(m)
  {
  }

  /** Replacing the last message twice is replacing it once, with the second message. */
  lemma ReplaceTwice(list: Option<seq<ChatMessage>>, m1: ChatMessage, m2: ChatMessage)
    ensures WithLastReplaced(WithLastReplaced(list, m1), m2) == WithLastReplaced(list, m2)
  {
  }

  /**
   * A result stream (status 0, then revisions) leaves one message, holding the
   * last revision, after the messages that were there before.
   */
  lemma {:induction false} RevisionsKeepOneMessage(list: Option<seq<ChatMessage>>, first: ChatMessage, revisions: seq<ChatMessage>)
    requires revisions != []
    ensures Revised(Some(Appended(list, first)), revisions) == Some(Items(list) + [revisions[|revisions| - 1]])
  {
    if |revisions| == 1 {
    } else {
      var init := revisions[..|revisions| - 1];
      RevisionsKeepOneMessage(list, first, init);
      assert init[|init| - 1] == revisions[|revisions| - 2];
      assert (Items(list) + [revisions[|revisions| - 2]])[..|Items(list)|] == Items(list);
    }
  }

  /** The list after each of `revisions` replaced the last message in turn. */
  function Revised(list: Option<seq<ChatMessage>>, revisions: seq<ChatMessage>): Option<seq<ChatMessage>> {
    if revisions == [] then list
    else WithLastReplaced(Revised(list, revisions[..|revisions| - 1]), revisions[|revisions| - 1])
  }

  /** `VoiceAssistantViewModel`: `messages` is `_messages.value`. */
  class ChatViewModel {
    var messages: Option<seq<ChatMessage>>

    constructor ()
      ensures messages == None
    {
      messages := None;
    }

    /** `addNewMessage`. */
    method AddNewMessage(m: ChatMessage)
      modifies this
      ensures messages == Some(Appended(old(messages), m))
    {
      messages := Some(Items(messages) + [m]);
    }

    /** `editLastMessage`. */
    method EditLastMessage(m: ChatMessage)
      modifies this
      ensures messages == WithLastReplaced(old(messages), m)
    {
      if messages.Some? {
        var current := messages.value;
        if current != [] {
          messages := Some(current[..|current| - 1] + [m]);
        }
      }
    }

    /** `getLastMessage`. */
    method LastMessage() returns (r: Option<ChatMessage>)
      ensures r == Last(messages)
    {
      if messages.Some? && messages.value != [] {
        r := Some(messages.value[|messages.value| - 1]);
      } else {
        r := None;
      }
    }
  }

  /** `VoiceAssistantActivity`: the text field and the view model behind the screen. */
  class ChatScreen {
    const viewModel: ChatViewModel
    var input: string

    constructor ()
      ensures fresh(viewModel) && viewModel.messages == None && input == ""
    {
      viewModel := new ChatViewModel();
      input := "";
    }

    /** `onResult`: a status-0 result starts a new user message; any other status revises the last one. */
    method OnResult(result: string, status: int, messageStatus: int)
      modifies viewModel
      ensures status == 0 ==> viewModel.messages == Some(Appended(old(viewModel.messages), ChatMessage(result, true, messageStatus)))
      ensures status != 0 ==> viewModel.messages == WithLastReplaced(old(viewModel.messages), ChatMessage(result, true, messageStatus))
    {
      var message := ChatMessage(result, true, messageStatus);
      if status == 0 {
        viewModel.AddNewMessage(message);
      } else {
        viewModel.EditLastMessage(message);
      }
    }

    /** The send button: blank input does nothing; other input becomes one user message and the field is cleared. */
    method Send(messageStatus: int)
      modifies this, viewModel
      ensures IsBlank(old(input)) ==> input == old(input) && viewModel.messages == old(viewModel.messages)
      ensures !IsBlank(old(input)) ==>
                input == "" && viewModel.messages == Some(Appended(old(viewModel.messages), ChatMessage(old(input), true, messageStatus)))
    {
      var text := input;
      if !IsBlank(text) {
        viewModel.AddNewMessage(ChatMessage(text, true, messageStatus));
        input := "";
      }
    }
  }

  /** A result revised before the screen has any message is lost; later ones land on one message. */
  method RecognitionOnScreen()
  {
    var screen := new ChatScreen();
    screen.OnResult("播", 1, 0);
    assert screen.viewModel.messages == None;
    screen.OnResult("播放", 0, 0);
    screen.OnResult("播放音乐", 1, 0);
    var last := screen.viewModel.LastMessage();
    assert last == Some(ChatMessage("播放音乐", true, 0));
    assert screen.viewModel.messages == Some([ChatMessage("播放音乐", true, 0)]);
    screen.input := "  ";
    assert IsWhitespace(' ');
    screen.Send(0);
    assert |Items(screen.viewModel.messages)| == 1;
  }
}
