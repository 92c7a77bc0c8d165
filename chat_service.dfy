/**
 * The chat service: the conversation history, bounded to the most recent
 * `max_history` messages. Loading and saving the encrypted history file
 * are outside the model; the constructor receives what was loaded.
 */
module ChatService {
  import opened Wrappers
  import opened DataModels
  import PyStr

  /** The position of the latest message of `h` whose role is `role`, or -1. */
  function LastIndexOfRole(h: seq<ChatMessage>, role: string): (r: int)
    ensures -1 <= r < |h|
    ensures r == -1 <==> forall i :: 0 <= i < |h| ==> h[i].role != role
    ensures r >= 0 ==> h[r].role == role && forall j :: r < j < |h| ==> h[j].role != role
  {
    if |h| == 0 then -1
    else if h[|h| - 1].role == role then |h| - 1
    else LastIndexOfRole(h[..|h| - 1], role)
  }

  /** The latest message of `h` whose role is `role`: no later message has that role. */
  function LastWithRole(h: seq<ChatMessage>, role: string): (r: Option<ChatMessage>)
    ensures r.None? <==> forall i :: 0 <= i < |h| ==> h[i].role != role
    ensures r.Some? ==> r.value.role == role && r == Some(h[LastIndexOfRole(h, role)])
  {
    var i := LastIndexOfRole(h, role);
    if i == -1 then None else Some(h[i])
  }

  class ChatService {
    var history: seq<ChatMessage>
    const maxHistory: int

    /** `ChatService(max_history=...)` with the history read from the file (`[]` without one). */
    constructor(maxHistory: int, loaded: seq<ChatMessage>)
      ensures this.maxHistory == maxHistory && history == loaded
    {
      this.maxHistory := maxHistory;
      history := loaded;
    }

    /**
     * `add_message`: the new message, stamped `now`, becomes the last one
     * and the history keeps the most recent `max_history` messages.
     */
    method AddMessage(role: string, content: string, now: string) returns (m: ChatMessage)
      modifies this
      ensures m == ChatMessage(role, content, now)
      ensures history == PyStr.KeepLast(old(history) + [m], maxHistory)
      ensures maxHistory > 0 ==> |history| <= maxHistory
      ensures maxHistory >= 0 ==> |history| > 0 && history[|history| - 1] == m
      ensures maxHistory == 0 ==> history == old(history) + [m]
    {
      m := ChatMessage(role, content, now);
      var h := history + [m];
      if |h| > maxHistory {
        h := PyStr.SliceFromEnd(h, maxHistory);
      }
      assert h == PyStr.KeepLast(old(history) + [m], maxHistory);
      if maxHistory >= 0 {
        PyStr.KeepLastKeepsNewest(old(history) + [m], maxHistory);
      }
      history := h;
    }

    /** `clear_history`. */
    method ClearHistory()
      modifies this
      ensures history == []
    {
      history := [];
    }

    /** `get_message(index)`: the message at a valid index, else `None`. */
    function GetMessage(index: int): (r: Option<ChatMessage>)
      reads this
      ensures 0 <= index < |history| ==> r == Some(history[index])
      ensures !(0 <= index < |history|) ==> r.None?
    {
      if 0 <= index < |history| then Some(history[index]) else None
    }

    /** `get_last_message`. */
    function LastMessage(): (r: Option<ChatMessage>)
      reads this
      ensures r.None? <==> |history| == 0
      ensures r.Some? ==> r.value == history[|history| - 1]
    {
      if |history| > 0 then Some(history[|history| - 1]) else None
    }

    /** The `reversed(self.history)` scan shared by the two role lookups. */
    method LastByRole(role: string) returns (r: Option<ChatMessage>)
      ensures r == LastWithRole(history, role)
    {
      r := None;
      var i := |history|;
      assert history[..i] == history;
      while i > 0
        invariant 0 <= i <= |history|
        invariant LastWithRole(history, role) == LastWithRole(history[..i], role)
      {
        if history[i - 1].role == role {
          return Some(history[i - 1]);
        }
        assert history[..i - 1] == history[..i][..i - 1];
        i := i - 1;
      }
    }

    /** `get_last_user_message`. */
    method LastUserMessage() returns (r: Option<ChatMessage>)
      ensures r == LastWithRole(history, "user")
      ensures r.None? <==> forall i :: 0 <= i < |history| ==> history[i].role != "user"
    {
      r := LastByRole("user");
    }

    /** `get_last_assistant_message`. */
    method LastAssistantMessage() returns (r: Option<ChatMessage>)
      ensures r == LastWithRole(history, "assistant")
      ensures r.None? <==> forall i :: 0 <= i < |history| ==> history[i].role != "assistant"
    {
      r := LastByRole("assistant");
    }
  }
}
