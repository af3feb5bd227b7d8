/**
 * The chat session store of lib/store.ts (`useChatStore`): the conversation
 * list, the current conversation, its messages, a loading flag, one error
 * string and the module-level slot holding the error's dismissal timer.
 *
 * Every asynchronous action is split at its `await`: a begin step (what runs
 * before the request goes out) hands back a token, and exactly one complete
 * step (success or failure) later consumes it. Any other steps may run in
 * between, which is the only interleaving JavaScript's event loop allows.
 */
module ChatStore {
  import opened Wrappers
  import opened Seqs
  import opened ApiFailure
  import opened StoreErrors

  datatype Role = User | Assistant

  datatype Message = Message(
    id: string, conversationId: string, role: Role, content: string,
    timestamp: string, createdAt: string)

  datatype Conversation = Conversation(
    id: string, userId: string, title: string, createdAt: string, updatedAt: string)

  /** What the store exposes to components. */
  datatype Session = Session(
    conversations: seq<Conversation>,
    currentConversation: Option<string>,
    messages: seq<Message>,
    isLoading: bool,
    error: Option<string>)

  /** The body posted by `sendMessage`: `attachments` is `[fileUrl]` for a truthy `fileUrl`, else absent (`[]`). */
  datatype RequestBody = RequestBody(content: string, attachments: seq<string>)

  /**
   * `response.data.data || response.data` of a send: its `userMessage` and
   * `assistantMessage` fields, and the payload itself read as a message
   * (what lands in the list when `userMessage` is missing).
   */
  datatype SendPayload = SendPayload(userMessage: Option<Message>, assistantMessage: Message, itself: Message)

  // Tokens handed from a begin step to its complete step.
  datatype PendingCreate = PendingCreate(title: Option<string>)
  datatype PendingLoadConversations = PendingLoadConversations
  datatype PendingLoad = PendingLoad(conversationId: string)
  datatype PendingSend = PendingSend(conversationId: string, content: string, placeholder: Message, body: RequestBody)
  datatype PendingDelete = PendingDelete(conversationId: string)
  datatype PendingRename = PendingRename(conversationId: string, newTitle: string)
  /** The zero-delay callback scheduled by `setCurrentConversation`. */
  datatype DeferredSwitch = DeferredSwitch(conversationId: Option<string>)

  const NewConversationTitle := "New Conversation"

  function NotId(id: string): Message -> bool
  {
    (m: Message) => m.id != id
  }

  function InConversation(conversationId: string): Message -> bool
  {
    (m: Message) => m.conversationId == conversationId
  }

  function OtherConversation(id: string): Conversation -> bool
  {
    (c: Conversation) => c.id != id
  }

  /** `messages.filter((msg) => msg.id !== id)`. */
  function WithoutId(msgs: seq<Message>, id: string): (r: seq<Message>)
    ensures IsSubsequence(r, msgs)
    ensures forall i :: 0 <= i < |r| ==> r[i].id != id
    ensures forall i :: 0 <= i < |msgs| && msgs[i].id != id ==> msgs[i] in r
    ensures forall m {:trigger multiset(r)[m]} :: multiset(r)[m] == if m.id != id then multiset(msgs)[m] else 0
  {
    FilterIsSubsequence(msgs, NotId(id));
    FilterMembers(msgs, NotId(id));
    FilterCounts(msgs, NotId(id));
    Filter(msgs, NotId(id))
  }

  /** `conversations.filter((conv) => conv.id !== id)`. */
  function WithoutConversation(convs: seq<Conversation>, id: string): (r: seq<Conversation>)
    ensures IsSubsequence(r, convs)
    ensures forall i :: 0 <= i < |r| ==> r[i].id != id
    ensures forall i :: 0 <= i < |convs| && convs[i].id != id ==> convs[i] in r
    ensures forall c {:trigger multiset(r)[c]} :: multiset(r)[c] == if c.id != id then multiset(convs)[c] else 0
  {
    FilterIsSubsequence(convs, OtherConversation(id));
    FilterMembers(convs, OtherConversation(id));
    FilterCounts(convs, OtherConversation(id));
    Filter(convs, OtherConversation(id))
  }

  /** Removing by id an entry appended with an id nobody else has gives back the list as it was. */
  lemma RemovingFreshEntryRestores(msgs: seq<Message>, m: Message)
    requires forall i :: 0 <= i < |msgs| ==> msgs[i].id != m.id
    ensures WithoutId(msgs + [m], m.id) == msgs
  {
    FilterConcat(msgs, [m], NotId(m.id));
    FilterAll(msgs, NotId(m.id));
    assert Filter([m], NotId(m.id)) == [];
  }

  /** The index of the first conversation with this id, or `|convs|`. */
  function IndexOfConversation(convs: seq<Conversation>, id: string): (k: nat)
    ensures k <= |convs|
    ensures k < |convs| ==> convs[k].id == id
    ensures forall j :: 0 <= j < k ==> convs[j].id != id
  {
    if convs == [] then 0
    else if convs[0].id == id then 0
    else 1 + IndexOfConversation(convs[1..], id)
  }

  /** `conversations.find((conv) => conv.id === id)`. */
  function FindConversation(convs: seq<Conversation>, id: string): (r: Option<Conversation>)
    ensures r.None? <==> forall i :: 0 <= i < |convs| ==> convs[i].id != id
    ensures r.Some? ==> r.value in convs && r.value.id == id
    ensures r.Some? ==> r.value == convs[IndexOfConversation(convs, id)]
  {
    var k := IndexOfConversation(convs, id);
    if k < |convs| then Some(convs[k]) else None
  }

  /** The title taken from the first message: the content itself, or its first 47 characters and "..." when longer than 50. */
  function TitleFromContent(content: string): (t: string)
    ensures |t| <= 50
    ensures |content| <= 50 ==> t == content
    ensures |content| > 50 ==> |t| == 50 && t == content[..47] + "..."
  {
    if |content| > 50 then content[..47] + "..." else content
  }

  /** A 60-character message gives a 50-character title: 47 of its characters and the ellipsis. */
  lemma LongContentTitle(content: string)
    requires |content| == 60
    ensures |TitleFromContent(content)| == 50
    ensures TitleFromContent(content)[..47] == content[..47]
    ensures TitleFromContent(content)[47..] == "..."
  {
  }

  /** A 10-character message is the title as it is. */
  lemma ShortContentTitle(content: string)
    requires |content| == 10
    ensures TitleFromContent(content) == content
  {
  }

  /**
   * The rename condition, evaluated on the list as it is after the saved
   * messages were appended: no message of this conversation is shown and
   * the conversation found under this id is still called "New Conversation".
   */
  predicate ShouldRetitle(convs: seq<Conversation>, conversationId: string, msgs: seq<Message>)
  {
    var current := FindConversation(convs, conversationId);
    |Filter(msgs, InConversation(conversationId))| == 0
    && current.Some? && current.value.title == NewConversationTitle
  }

  /** `conversations.map(...)` after a reply: the matching entries get `updatedAt` and possibly a title. */
  function AfterReply(convs: seq<Conversation>, conversationId: string, content: string, now: string, msgs: seq<Message>): (r: seq<Conversation>)
    ensures |r| == |convs|
    ensures forall i :: 0 <= i < |convs| && convs[i].id != conversationId ==> r[i] == convs[i]
    ensures forall i :: 0 <= i < |convs| && convs[i].id == conversationId ==>
      r[i] == convs[i].(updatedAt := now,
                        title := if ShouldRetitle(convs, conversationId, msgs) then TitleFromContent(content) else convs[i].title)
  {
    var retitle := ShouldRetitle(convs, conversationId, msgs);
    Map(convs, (c: Conversation) =>
      if c.id == conversationId then c.(updatedAt := now, title := if retitle then TitleFromContent(content) else c.title)
      else c)
  }

  /** `conversations.map(...)` of a rename. */
  function Renamed(convs: seq<Conversation>, id: string, newTitle: string): (r: seq<Conversation>)
    ensures |r| == |convs|
    ensures forall i :: 0 <= i < |convs| && convs[i].id != id ==> r[i] == convs[i]
    ensures forall i :: 0 <= i < |convs| && convs[i].id == id ==> r[i] == convs[i].(title := newTitle)
  {
    Map(convs, (c: Conversation) => if c.id == id then c.(title := newTitle) else c)
  }

  /** `responseData.userMessage || responseData`. */
  function SavedUserMessage(payload: SendPayload): (m: Message)
    ensures payload.userMessage.Some? ==> m == payload.userMessage.value
    ensures payload.userMessage.None? ==> m == payload.itself
  {
    payload.userMessage.GetOr(payload.itself)
  }

  /** The message list after a successful send: the placeholder out, the saved pair at the end. */
  function Reconciled(msgs: seq<Message>, tempId: string, payload: SendPayload): (r: seq<Message>)
    ensures |r| >= 2 && r[|r| - 2] == SavedUserMessage(payload) && r[|r| - 1] == payload.assistantMessage
    ensures IsSubsequence(r[..|r| - 2], msgs)
    ensures forall i :: 0 <= i < |r| - 2 ==> r[i].id != tempId
    ensures forall i :: 0 <= i < |msgs| && msgs[i].id != tempId ==> msgs[i] in r[..|r| - 2]
    ensures forall m {:trigger multiset(r[..|r| - 2])[m]} :: multiset(r[..|r| - 2])[m] == if m.id != tempId then multiset(msgs)[m] else 0
  {
    var kept := WithoutId(msgs, tempId);
    var r := kept + [SavedUserMessage(payload), payload.assistantMessage];
    assert r[..|r| - 2] == kept;
    r
  }

  /** A send whose placeholder has a fresh id ends with exactly the old messages and the saved pair. */
  lemma SendAddsExactlyThePair(msgs: seq<Message>, placeholder: Message, payload: SendPayload)
    requires forall i :: 0 <= i < |msgs| ==> msgs[i].id != placeholder.id
    ensures Reconciled(msgs + [placeholder], placeholder.id, payload)
      == msgs + [SavedUserMessage(payload), payload.assistantMessage]
  {
    RemovingFreshEntryRestores(msgs, placeholder);
  }

  /**
   * The rename check runs on the reconciled list, so a saved user message
   * that carries the conversation id (as the server's does) means the title
   * is never taken from the first message.
   */
  lemma {:induction false} SavedMessageBlocksRetitle(
    convs: seq<Conversation>, msgs: seq<Message>, tempId: string, payload: SendPayload,
    conversationId: string, content: string, now: string)
    requires SavedUserMessage(payload).conversationId == conversationId
    ensures !ShouldRetitle(convs, conversationId, Reconciled(msgs, tempId, payload))
    ensures forall i :: 0 <= i < |convs| ==>
      AfterReply(convs, conversationId, content, now, Reconciled(msgs, tempId, payload))[i].title == convs[i].title
  {
    var r := Reconciled(msgs, tempId, payload);
    assert InConversation(conversationId)(r[|r| - 2]);
    FilterMembers(r, InConversation(conversationId));
    assert r[|r| - 2] in Filter(r, InConversation(conversationId));
  }

  /** With no message of the conversation left, a conversation still called "New Conversation" takes its title from the content. */
  lemma RetitleWhenFirst(convs: seq<Conversation>, conversationId: string, content: string, now: string, msgs: seq<Message>, k: nat)
    requires k < |convs| && convs[k].id == conversationId && convs[k].title == NewConversationTitle
    requires forall j :: 0 <= j < k ==> convs[j].id != conversationId
    requires forall i :: 0 <= i < |msgs| ==> msgs[i].conversationId != conversationId
    ensures AfterReply(convs, conversationId, content, now, msgs)[k].title == TitleFromContent(content)
  {
    FilterNone(msgs, InConversation(conversationId));
    assert IndexOfConversation(convs, conversationId) == k;
  }

  /**
   * The session after a successful send: the placeholder swapped for the
   * saved pair, loading off, then the conversation entry touched (and
   * retitled if the check on the reconciled list allows).
   */
  function ReplyApplied(s: Session, p: PendingSend, payload: SendPayload, now: string): (t: Session)
    ensures t.messages == Reconciled(s.messages, p.placeholder.id, payload)
    ensures t.conversations == AfterReply(s.conversations, p.conversationId, p.content, now, t.messages)
    ensures t == s.(conversations := t.conversations, messages := t.messages, isLoading := false)
  {
    var messages := Reconciled(s.messages, p.placeholder.id, payload);
    s.(messages := messages, isLoading := false,
       conversations := AfterReply(s.conversations, p.conversationId, p.content, now, messages))
  }

  function TimerSet(slot: Option<nat>): set<nat>
  {
    if slot.Some? then {slot.value} else {}
  }

  class Store {
    var conversations: seq<Conversation>
    var currentConversation: Option<string>
    var messages: seq<Message>
    var isLoading: bool
    var error: Option<string>
    /** The module-level `errorTimeout` slot: the id of the timer it holds. */
    var errorTimeout: Option<nat>
    /** The id the next `setTimeout` returns. */
    var nextTimer: nat
    /** The dismissal callbacks the runtime has scheduled and not yet run or cancelled. */
    ghost var scheduledDismissals: set<nat>

    /** The slot names exactly the scheduled dismissals, so at most one is ever pending. */
    ghost predicate Valid()
      reads this
    {
      && scheduledDismissals == TimerSet(errorTimeout)
      && (errorTimeout.Some? ==> errorTimeout.value < nextTimer)
    }

    function Snapshot(): Session
      reads this
    {
      Session(conversations, currentConversation, messages, isLoading, error)
    }

    constructor ()
      ensures Valid()
      ensures Snapshot() == Session([], None, [], false, None)
      ensures errorTimeout == None
    {
      conversations := [];
      currentConversation := None;
      messages := [];
      isLoading := false;
      error := None;
      errorTimeout := None;
      nextTimer := 0;
      scheduledDismissals := {};
    }

    /** `setErrorWithAutoDismiss`: cancel the pending dismissal, show the error, schedule a new dismissal. */
    method SetErrorWithAutoDismiss(message: string)
      requires Valid()
      modifies this
      ensures Valid()
      ensures Snapshot() == old(Snapshot()).(error := Some(message))
      ensures errorTimeout == Some(old(nextTimer)) && scheduledDismissals == {old(nextTimer)}
    {
      if errorTimeout.Some? {
        scheduledDismissals := scheduledDismissals - {errorTimeout.value};
      }
      error := Some(message);
      errorTimeout := Some(nextTimer);
      scheduledDismissals := scheduledDismissals + {nextTimer};
      nextTimer := nextTimer + 1;
    }

    /** The 7000 ms dismissal callback of timer `t` runs. */
    method DismissTimerFires(t: nat)
      requires Valid() && t in scheduledDismissals
      modifies this
      ensures Valid()
      ensures Snapshot() == old(Snapshot()).(error := None)
      ensures errorTimeout == None && scheduledDismissals == {}
    {
      error := None;
      errorTimeout := None;
      scheduledDismissals := scheduledDismissals - {t};
    }

    /** `setError`: a truthy message is shown with auto-dismiss; otherwise the error is nulled and any pending dismissal stays scheduled. */
    method SetError(message: Option<string>)
      requires Valid()
      modifies this
      ensures Valid()
      ensures Snapshot() == old(Snapshot()).(error := if Truthy(message) then message else None)
      ensures Truthy(message) ==> scheduledDismissals == {old(nextTimer)}
      ensures !Truthy(message) ==> errorTimeout == old(errorTimeout) && scheduledDismissals == old(scheduledDismissals)
    {
      if Truthy(message) {
        SetErrorWithAutoDismiss(message.value);
      } else {
        error := None;
      }
    }

    /** `clearError`: cancel the pending dismissal and null the error at once. */
    method ClearError()
      requires Valid()
      modifies this
      ensures Valid()
      ensures Snapshot() == old(Snapshot()).(error := None)
      ensures errorTimeout == None && scheduledDismissals == {}
    {
      if errorTimeout.Some? {
        scheduledDismissals := scheduledDismissals - {errorTimeout.value};
        errorTimeout := None;
      }
      error := None;
    }

    // createConversation

    method BeginCreateConversation(title: Option<string>) returns (p: PendingCreate)
      requires Valid()
      modifies this
      ensures Valid() && p == PendingCreate(title)
      ensures Snapshot() == old(Snapshot()).(error := None)
      ensures errorTimeout == old(errorTimeout) && scheduledDismissals == old(scheduledDismissals)
    {
      error := None;
      p := PendingCreate(title);
    }

    /** The new conversation goes first, becomes current, and the message list empties. */
    method CreateConversationSucceeded(p: PendingCreate, created: Conversation) returns (r: Conversation)
      requires Valid()
      modifies this
      ensures Valid() && r == created
      ensures Snapshot() == old(Snapshot()).(
        conversations := [created] + old(conversations),
        currentConversation := Some(created.id),
        messages := [],
        isLoading := false)
      ensures errorTimeout == old(errorTimeout) && scheduledDismissals == old(scheduledDismissals)
    {
      conversations := [created] + conversations;
      currentConversation := Some(created.id);
      messages := [];
      isLoading := false;
      r := created;
    }

    /** The error is set directly, without auto-dismiss; the list is unchanged. */
    method CreateConversationFailed(p: PendingCreate, e: Failure)
      requires Valid()
      modifies this
      ensures Valid()
      ensures Snapshot() == old(Snapshot()).(
        isLoading := false,
        error := Some(ServerMessageOr(e, "Failed to create conversation")))
      ensures errorTimeout == old(errorTimeout) && scheduledDismissals == old(scheduledDismissals)
    {
      isLoading := false;
      error := Some(ServerMessageOr(e, "Failed to create conversation"));
    }

    // loadConversations

    method BeginLoadConversations() returns (p: PendingLoadConversations)
      requires Valid()
      modifies this
      ensures Valid()
      ensures Snapshot() == old(Snapshot()).(isLoading := true, error := None)
      ensures errorTimeout == old(errorTimeout) && scheduledDismissals == old(scheduledDismissals)
    {
      isLoading := true;
      error := None;
      p := PendingLoadConversations;
    }

    method LoadConversationsSucceeded(p: PendingLoadConversations, loaded: seq<Conversation>)
      requires Valid()
      modifies this
      ensures Valid()
      ensures Snapshot() == old(Snapshot()).(conversations := loaded, isLoading := false)
      ensures errorTimeout == old(errorTimeout) && scheduledDismissals == old(scheduledDismissals)
    {
      conversations := loaded;
      isLoading := false;
    }

    method LoadConversationsFailed(p: PendingLoadConversations, e: Failure)
      requires Valid()
      modifies this
      ensures Valid()
      ensures Snapshot() == old(Snapshot()).(
        isLoading := false,
        error := Some(ServerMessageOr(e, "Failed to load conversations")))
      ensures scheduledDismissals == {old(nextTimer)}
    {
      SetErrorWithAutoDismiss(ServerMessageOr(e, "Failed to load conversations"));
      isLoading := false;
    }

    // loadMessages: nothing changes before its request goes out.

    /** The fetched messages are shown only if the requested conversation is still current. */
    method LoadMessagesSucceeded(p: PendingLoad, loaded: seq<Message>)
      requires Valid()
      modifies this
      ensures Valid()
      ensures old(currentConversation) == Some(p.conversationId) ==>
        Snapshot() == old(Snapshot()).(messages := loaded, isLoading := false)
      ensures old(currentConversation) != Some(p.conversationId) ==>
        Snapshot() == old(Snapshot()).(isLoading := false)
      ensures errorTimeout == old(errorTimeout) && scheduledDismissals == old(scheduledDismissals)
    {
      if currentConversation == Some(p.conversationId) {
        messages := loaded;
      }
      isLoading := false;
    }

    /** The classified message is shown with auto-dismiss, whatever conversation is current now. */
    method LoadMessagesFailed(p: PendingLoad, online: bool, e: Failure)
      requires Valid()
      modifies this
      ensures Valid()
      ensures Snapshot() == old(Snapshot()).(
        isLoading := false,
        error := Some(DescribeFailure(LoadingMessages, online, e)))
      ensures scheduledDismissals == {old(nextTimer)}
    {
      SetErrorWithAutoDismiss(DescribeFailure(LoadingMessages, online, e));
      isLoading := false;
    }

    // sendMessage

    /**
     * The optimistic step: loading on, error off, one USER message with the
     * temporary id appended. `tempId` stands for `temp-${Date.now()}`;
     * `timestamp` and `createdAt` for the two separate calls of
     * `new Date().toISOString()`, which may read different instants.
     */
    method BeginSendMessage(conversationId: string, content: string, fileUrl: Option<string>, tempId: string, timestamp: string, createdAt: string)
      returns (p: PendingSend)
      requires Valid()
      requires forall i :: 0 <= i < |messages| ==> messages[i].id != tempId
      modifies this
      ensures Valid()
      ensures p.conversationId == conversationId && p.content == content
      ensures p.placeholder == Message(tempId, conversationId, User, content, timestamp, createdAt)
      ensures p.body == RequestBody(content, if Truthy(fileUrl) then [fileUrl.value] else [])
      ensures Snapshot() == old(Snapshot()).(
        messages := old(messages) + [p.placeholder],
        isLoading := true,
        error := None)
      ensures errorTimeout == old(errorTimeout) && scheduledDismissals == old(scheduledDismissals)
    {
      var placeholder := Message(tempId, conversationId, User, content, timestamp, createdAt);
      isLoading := true;
      error := None;
      messages := messages + [placeholder];
      var attachments := if Truthy(fileUrl) then [fileUrl.value] else [];
      p := PendingSend(conversationId, content, placeholder, RequestBody(content, attachments));
    }

    /** The placeholder is swapped for the saved pair; then the conversation entry is touched and maybe retitled. */
    method SendMessageSucceeded(p: PendingSend, payload: SendPayload, now: string)
      requires Valid()
      modifies this
      ensures Valid()
      ensures Snapshot() == ReplyApplied(old(Snapshot()), p, payload, now)
      ensures errorTimeout == old(errorTimeout) && scheduledDismissals == old(scheduledDismissals)
    {
      var next := ReplyApplied(Snapshot(), p, payload, now);
      conversations, currentConversation, messages, isLoading, error :=
        next.conversations, next.currentConversation, next.messages, next.isLoading, next.error;
    }

    /** The classified message is shown with auto-dismiss and the placeholder is removed by id. */
    method SendMessageFailed(p: PendingSend, online: bool, e: Failure)
      requires Valid()
      modifies this
      ensures Valid()
      ensures Snapshot() == old(Snapshot()).(
        messages := WithoutId(old(messages), p.placeholder.id),
        isLoading := false,
        error := Some(DescribeFailure(SendingMessage, online, e)))
      ensures scheduledDismissals == {old(nextTimer)}
    {
      SetErrorWithAutoDismiss(DescribeFailure(SendingMessage, online, e));
      isLoading := false;
      messages := WithoutId(messages, p.placeholder.id);
    }

    // deleteConversation

    method BeginDeleteConversation(conversationId: string) returns (p: PendingDelete)
      requires Valid()
      modifies this
      ensures Valid() && p == PendingDelete(conversationId)
      ensures Snapshot() == old(Snapshot()).(isLoading := true, error := None)
      ensures errorTimeout == old(errorTimeout) && scheduledDismissals == old(scheduledDismissals)
    {
      isLoading := true;
      error := None;
      p := PendingDelete(conversationId);
    }

    /** Every entry with the id goes; the selection and the messages go only if it was current. */
    method DeleteConversationSucceeded(p: PendingDelete)
      requires Valid()
      modifies this
      ensures Valid()
      ensures var wasCurrent := old(currentConversation) == Some(p.conversationId);
        Snapshot() == old(Snapshot()).(
          conversations := WithoutConversation(old(conversations), p.conversationId),
          currentConversation := if wasCurrent then None else old(currentConversation),
          messages := if wasCurrent then [] else old(messages),
          isLoading := false)
      ensures errorTimeout == old(errorTimeout) && scheduledDismissals == old(scheduledDismissals)
    {
      var wasCurrent := currentConversation == Some(p.conversationId);
      conversations := WithoutConversation(conversations, p.conversationId);
      if wasCurrent {
        currentConversation := None;
        messages := [];
      }
      isLoading := false;
    }

    method DeleteConversationFailed(p: PendingDelete, e: Failure)
      requires Valid()
      modifies this
      ensures Valid()
      ensures Snapshot() == old(Snapshot()).(
        isLoading := false,
        error := Some(ServerMessageOr(e, "Failed to delete conversation")))
      ensures scheduledDismissals == {old(nextTimer)}
    {
      SetErrorWithAutoDismiss(ServerMessageOr(e, "Failed to delete conversation"));
      isLoading := false;
    }

    // renameConversation

    method BeginRenameConversation(conversationId: string, newTitle: string) returns (p: PendingRename)
      requires Valid()
      modifies this
      ensures Valid() && p == PendingRename(conversationId, newTitle)
      ensures Snapshot() == old(Snapshot()).(error := None)
      ensures errorTimeout == old(errorTimeout) && scheduledDismissals == old(scheduledDismissals)
    {
      error := None;
      p := PendingRename(conversationId, newTitle);
    }

    method RenameConversationSucceeded(p: PendingRename)
      requires Valid()
      modifies this
      ensures Valid()
      ensures Snapshot() == old(Snapshot()).(conversations := Renamed(old(conversations), p.conversationId, p.newTitle))
      ensures errorTimeout == old(errorTimeout) && scheduledDismissals == old(scheduledDismissals)
    {
      conversations := Renamed(conversations, p.conversationId, p.newTitle);
    }

    /** Only the error changes; `isLoading` is left as it was. */
    method RenameConversationFailed(p: PendingRename, e: Failure)
      requires Valid()
      modifies this
      ensures Valid()
      ensures Snapshot() == old(Snapshot()).(error := Some(ServerMessageOr(e, "Failed to rename conversation")))
      ensures scheduledDismissals == {old(nextTimer)}
    {
      SetErrorWithAutoDismiss(ServerMessageOr(e, "Failed to rename conversation"));
    }

    // setCurrentConversation

    /** The selection, loading flag and error change at once; the messages stay until the deferred step. */
    method SetCurrentConversation(conversationId: Option<string>) returns (d: DeferredSwitch)
      requires Valid()
      modifies this
      ensures Valid() && d == DeferredSwitch(conversationId)
      ensures Snapshot() == old(Snapshot()).(
        currentConversation := conversationId,
        isLoading := Truthy(conversationId),
        error := None)
      ensures errorTimeout == old(errorTimeout) && scheduledDismissals == old(scheduledDismissals)
    {
      currentConversation := conversationId;
      isLoading := Truthy(conversationId);
      error := None;
      d := DeferredSwitch(conversationId);
    }

    /** The deferred step: the messages empty, and a truthy id starts `loadMessages` for it. */
    method RunDeferredSwitch(d: DeferredSwitch) returns (load: Option<PendingLoad>)
      requires Valid()
      modifies this
      ensures Valid()
      ensures Snapshot() == old(Snapshot()).(messages := [])
      ensures load == if Truthy(d.conversationId) then Some(PendingLoad(d.conversationId.value)) else None
      ensures errorTimeout == old(errorTimeout) && scheduledDismissals == old(scheduledDismissals)
    {
      messages := [];
      load := if Truthy(d.conversationId) then Some(PendingLoad(d.conversationId.value)) else None;
    }
  }
}
