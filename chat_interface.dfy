// components/chat-interface.tsx: the conversation with the companion. The
// history is loaded once when the component mounts; each send appends the
// user's message and the model's reply. Message ids and timestamps are
// parameters, and the store inserts made are returned in order.

module Chat {
  import opened Wrappers
  import opened Types
  import opened Text
  import opened Store
  import Ai

  const WelcomeId := "welcome"
  const WelcomeText := "Hi there! I'm Mindi, your mental health companion. How are you feeling today?"

  /** The query `fetchChatHistory` sends: the user's messages, oldest first, at most fifty. */
  function HistoryQuery(userId: string): Query
  {
    Select("chat_messages", [Eq("user_id", userId)], Ascending, Some(50))
  }

  /** The greeting shown, and stored, when the history is empty. */
  function WelcomeMessage(userId: string, now: Timestamp): ChatMessage
  {
    ChatMessage(WelcomeId, userId, false, WelcomeText, now)
  }

  /** `!input.trim() || loading` is false: the send button is enabled and a submit goes ahead. */
  predicate CanSend(input: string, loading: bool)
  {
    Trim(input) != "" && !loading
  }

  /** A submit goes ahead exactly when the input holds more than whitespace and no send is running. */
  lemma CanSendIff(input: string, loading: bool)
    ensures CanSend(input, loading) <==> !AllWhitespace(input) && !loading
  {
    TrimEmptyIff(input);
  }

  /** Every message shown belongs to `userId`. */
  predicate OwnedBy(messages: seq<ChatMessage>, userId: string)
  {
    forall m :: m in messages ==> m.user_id == userId
  }

  /** The `ChatInterface` component's state. */
  class ChatInterface {
    var messages: seq<ChatMessage>
    var input: string
    var loading: bool
    var initialLoad: bool

    constructor()
      ensures messages == [] && input == "" && !loading && initialLoad
    {
      messages := [];
      input := "";
      loading := false;
      initialLoad := true;
    }

    /** The input's `onChange`. */
    method SetInput(value: string)
      modifies this`input
      ensures input == value
    {
      input := value;
    }

    /**
     * `fetchChatHistory`: `auth` is what `getUser()` yields, `rows` the
     * table's rows in the query's order and `dbError` the query's error.
     * Returns the query sent and the rows inserted.
     */
    method FetchChatHistory(auth: AuthOutcome, rows: seq<ChatMessage>, dbError: Option<StoreError>, now: Timestamp)
      returns (sent: Option<Query>, inserted: seq<ChatMessage>)
      modifies this`messages, this`initialLoad
      ensures !initialLoad
      // only the user returned by the auth client is asked about; its error is not inspected
      ensures sent.Some? <==> auth.SignedIn?
      ensures auth.SignedIn? ==> sent == Some(HistoryQuery(auth.user.id))
      // no user, or a failed query, leaves the messages as they were
      ensures !auth.SignedIn? || dbError.Some? ==> messages == old(messages) && inserted == []
      // the user's oldest fifty messages, or the greeting (stored too) when there are none
      ensures auth.SignedIn? && dbError.None? ==>
        var history := Run(HistoryQuery(auth.user.id), rows, ChatRow);
        && (history != [] ==> messages == history && inserted == [])
        && (history == [] ==> messages == [WelcomeMessage(auth.user.id, now)] && inserted == messages)
      ensures auth.SignedIn? && dbError.None? ==> 1 <= |messages| <= 50 && OwnedBy(messages, auth.user.id)
    {
      sent := None;
      inserted := [];
      if auth.SignedIn? {
        var user := auth.user;
        var q := HistoryQuery(user.id);
        sent := Some(q);
        if dbError.None? {
          var data := Run(q, rows, ChatRow);
          messages := data;
          forall m | m in data ensures m.user_id == user.id {
            OwnerFilter(m.id, m.user_id, user.id);
          }
          if |data| == 0 {
            var welcome := WelcomeMessage(user.id, now);
            messages := [welcome];
            inserted := [welcome];
          }
        }
      }
      initialLoad := false;
    }

    /**
     * `handleSendMessage`: `auth` is what `getUser()` yields, `configured`
     * and `outcome` what the AI gateway sees, the ids and times those the
     * two new messages get. Returns the rows inserted and the model call made.
     */
    method HandleSendMessage(auth: AuthOutcome, configured: bool, outcome: Ai.Completion,
                             userMsgId: string, aiMsgId: string, sentAt: Timestamp, repliedAt: Timestamp)
      returns (inserted: seq<ChatMessage>, call: Option<Ai.ModelCall>)
      modifies this`messages, this`input, this`loading
      // a blank input, or a send already running, changes nothing
      ensures !CanSend(old(input), old(loading)) ==>
        messages == old(messages) && input == old(input) && loading == old(loading) && inserted == [] && call.None?
      // otherwise the send ends with the form enabled again
      ensures CanSend(old(input), old(loading)) ==> !loading
      // without a user the throw is caught: nothing is sent and the input is kept
      ensures CanSend(old(input), old(loading)) && !auth.SignedIn? ==>
        messages == old(messages) && input == old(input) && inserted == [] && call.None?
      // a send appends the user's text as typed, then the reply, stores both and clears the input
      ensures CanSend(old(input), old(loading)) && auth.SignedIn? ==>
        var run := Ai.GenerateAIResponse(configured, old(input), None, outcome);
        && inserted == [ChatMessage(userMsgId, auth.user.id, true, old(input), sentAt),
                        ChatMessage(aiMsgId, auth.user.id, false, run.result, repliedAt)]
        && messages == old(messages) + inserted
        && input == ""
        && call == run.call
      // the conversation stays the signed-in user's own
      ensures auth.SignedIn? && OwnedBy(old(messages), auth.user.id) ==> OwnedBy(messages, auth.user.id)
    {
      inserted := [];
      call := None;
      if !CanSend(input, loading) {
        return;
      }
      loading := true;
      if auth.SignedIn? {
        var user := auth.user;
        var text := input;
        var userMessage := ChatMessage(userMsgId, user.id, true, text, sentAt);
        messages := messages + [userMessage];
        input := "";
        var run := Ai.GenerateAIResponse(configured, text, None, outcome);
        call := run.call;
        var aiMessage := ChatMessage(aiMsgId, user.id, false, run.result, repliedAt);
        messages := messages + [aiMessage];
        inserted := [userMessage, aiMessage];
        assert messages == old(messages) + inserted;
      }
      loading := false;
    }
  }

  /** A loaded history is oldest first when the store delivers it so. */
  lemma HistoryOldestFirst(userId: string, rows: seq<ChatMessage>)
    requires SortedBy(rows, (m: ChatMessage) => m.created_at, Ascending)
    ensures SortedBy(Run(HistoryQuery(userId), rows, ChatRow), (m: ChatMessage) => m.created_at, Ascending)
  {
    RunKeepsOrder(HistoryQuery(userId), rows, ChatRow, (m: ChatMessage) => m.created_at);
  }

  /**
   * The limit keeps the first fifty rows of the ascending order: with more
   * than fifty messages, the newest ones are not loaded.
   */
  lemma {:induction false} HistoryKeepsOldest(userId: string, rows: seq<ChatMessage>)
    requires forall m :: m in rows ==> m.user_id == userId
    requires |rows| > 50
    ensures Run(HistoryQuery(userId), rows, ChatRow) == rows[..50]
  {
    var fs := [Eq("user_id", userId)];
    WhereAllPass(rows, fs, userId);
  }

  /** When every row is the user's, the owner filter keeps them all. */
  lemma {:induction false} WhereAllPass(rows: seq<ChatMessage>, fs: seq<Filter>, userId: string)
    requires fs == [Eq("user_id", userId)]
    requires forall m :: m in rows ==> m.user_id == userId
    ensures Where(rows, ChatRow, fs) == rows
  {
    if rows != [] {
      assert rows[0] in rows;
      OwnerFilter(rows[0].id, rows[0].user_id, userId);
      WhereAllPass(rows[1..], fs, userId);
    }
  }
}
