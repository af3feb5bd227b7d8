/**
 * Runs of the chat store in which the order of the steps matters: each
 * method builds a fresh store, performs one interleaving of begin, complete
 * and timer steps, and reports what a component would see along the way.
 */
module StoreScenarios {
  import opened Wrappers
  import opened ApiFailure
  import opened StoreErrors
  import opened ChatStore

  /**
   * Switching from `a` to `b`: `a`'s messages stay on screen until the
   * deferred step; a late answer for `a` is discarded but still turns the
   * loading flag off; `b`'s answer is shown.
   */
  method SwitchConversation(a: string, b: string, messagesOfA: seq<Message>, lateForA: seq<Message>, messagesOfB: seq<Message>)
    returns (afterSwitch: seq<Message>, loadingAfterSwitch: bool, afterLateAnswer: seq<Message>,
             loadingAfterLateAnswer: bool, afterDeferred: seq<Message>, shown: seq<Message>)
    requires a != "" && b != "" && a != b
    ensures afterSwitch == messagesOfA && loadingAfterSwitch
    ensures afterLateAnswer == messagesOfA && !loadingAfterLateAnswer
    ensures afterDeferred == []
    ensures shown == messagesOfB
  {
    var store := new Store();
    var toA := store.SetCurrentConversation(Some(a));
    var loadA := store.RunDeferredSwitch(toA);
    store.LoadMessagesSucceeded(loadA.value, messagesOfA);

    var toB := store.SetCurrentConversation(Some(b));
    afterSwitch, loadingAfterSwitch := store.messages, store.isLoading;

    store.LoadMessagesSucceeded(PendingLoad(a), lateForA);
    afterLateAnswer, loadingAfterLateAnswer := store.messages, store.isLoading;

    var loadB := store.RunDeferredSwitch(toB);
    afterDeferred := store.messages;
    store.LoadMessagesSucceeded(loadB.value, messagesOfB);
    shown := store.messages;
  }

  /**
   * A failed send leaves exactly the messages that were shown before it,
   * with loading off and the classified error on screen.
   */
  method FailedSendRestoresMessages(
    conversationId: string, shownBefore: seq<Message>, content: string, tempId: string, now: string,
    online: bool, e: Failure)
    returns (optimistic: seq<Message>, shownAfter: seq<Message>, loading: bool, error: Option<string>)
    requires conversationId != ""
    requires forall i :: 0 <= i < |shownBefore| ==> shownBefore[i].id != tempId
    ensures optimistic == shownBefore + [Message(tempId, conversationId, User, content, now, now)]
    ensures shownAfter == shownBefore && !loading
    ensures error == Some(DescribeFailure(SendingMessage, online, e))
    ensures online && !IsNetworkFailure(e) && e.response.Some? && e.response.value.status == 404 ==>
      error == Some(Wording(SendingMessage, NotFound))
  {
    var store := new Store();
    var switch := store.SetCurrentConversation(Some(conversationId));
    var load := store.RunDeferredSwitch(switch);
    store.LoadMessagesSucceeded(load.value, shownBefore);

    var p := store.BeginSendMessage(conversationId, content, None, tempId, now, now);
    optimistic := store.messages;
    store.SendMessageFailed(p, online, e);
    RemovingFreshEntryRestores(shownBefore, p.placeholder);
    shownAfter, loading, error := store.messages, store.isLoading, store.error;
  }

  /**
   * Creating a conversation and sending its first message: the reply is
   * appended, the entry's `updatedAt` is refreshed, and since the saved
   * message already carries the conversation's id the title stays
   * "New Conversation".
   */
  method CreateThenSend(created: Conversation, content: string, tempId: string, payload: SendPayload, now: string)
    returns (shown: seq<Message>, listed: seq<Conversation>)
    requires created.title == NewConversationTitle
    requires SavedUserMessage(payload).conversationId == created.id
    ensures shown == [SavedUserMessage(payload), payload.assistantMessage]
    ensures |listed| == 1 && listed[0] == created.(updatedAt := now)
  {
    var store := new Store();
    var pc := store.BeginCreateConversation(None);
    var c := store.CreateConversationSucceeded(pc, created);
    var p := store.BeginSendMessage(created.id, content, None, tempId, now, now);
    assert store.messages == [p.placeholder];
    store.SendMessageSucceeded(p, payload, now);
    SavedMessageBlocksRetitle([created], [p.placeholder], tempId, payload, created.id, content, now);
    assert WithoutId([p.placeholder], tempId) == [] by {
      RemovingFreshEntryRestores([], p.placeholder);
      assert [] + [p.placeholder] == [p.placeholder];
    }
    shown, listed := store.messages, store.conversations;
  }

  /**
   * A second error replaces the first and its timer: the first timer is no
   * longer pending, and when the second fires the error is gone.
   */
  method SecondErrorRestartsTimer(first: string, second: string)
    returns (firstTimer: nat, secondTimer: nat, shown: Option<string>, afterDismissal: Option<string>)
    requires first != "" && second != ""
    ensures firstTimer != secondTimer
    ensures shown == Some(second)
    ensures afterDismissal == None
  {
    var store := new Store();
    store.SetError(Some(first));
    firstTimer := store.errorTimeout.value;
    store.SetError(Some(second));
    secondTimer := store.errorTimeout.value;
    assert firstTimer !in store.scheduledDismissals;
    shown := store.error;
    store.DismissTimerFires(secondTimer);
    afterDismissal := store.error;
  }

  /**
   * A failed create sets its error without a timer of its own, so a timer
   * left pending by an earlier error dismisses it.
   */
  method EarlierTimerDismissesCreateError(earlier: string, e: Failure)
    returns (shown: Option<string>, afterDismissal: Option<string>)
    requires earlier != ""
    ensures shown == Some(ServerMessageOr(e, "Failed to create conversation"))
    ensures afterDismissal == None
  {
    var store := new Store();
    store.SetError(Some(earlier));
    var pending := store.errorTimeout.value;
    var p := store.BeginCreateConversation(None);
    store.CreateConversationFailed(p, e);
    shown := store.error;
    store.DismissTimerFires(pending);
    afterDismissal := store.error;
  }

  /** Deleting the current conversation clears the selection and the messages; deleting another keeps both. */
  method DeleteConversation(listed: seq<Conversation>, current: string, shownBefore: seq<Message>, deleted: string)
    returns (remaining: seq<Conversation>, selection: Option<string>, shown: seq<Message>)
    requires current != ""
    ensures forall i :: 0 <= i < |remaining| ==> remaining[i].id != deleted
    ensures forall i :: 0 <= i < |listed| && listed[i].id != deleted ==> listed[i] in remaining
    ensures deleted == current ==> selection == None && shown == []
    ensures deleted != current ==> selection == Some(current) && shown == shownBefore
  {
    var store := new Store();
    var pl := store.BeginLoadConversations();
    store.LoadConversationsSucceeded(pl, listed);
    var switch := store.SetCurrentConversation(Some(current));
    var load := store.RunDeferredSwitch(switch);
    store.LoadMessagesSucceeded(load.value, shownBefore);

    var p := store.BeginDeleteConversation(deleted);
    store.DeleteConversationSucceeded(p);
    remaining, selection, shown := store.conversations, store.currentConversation, store.messages;
  }
}
