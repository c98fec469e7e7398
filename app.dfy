/**
 * The chat controller (App.tsx): the component state held by its hooks and
 * the handlers that change it. The asynchronous send handler is split at
 * its one suspension point into BeginSend (everything before the gateway
 * call) and FinishSend (the settled call, its success or failure branch and
 * the final clean-up). createNewSession(), crypto.randomUUID() and
 * Date.now() are supplied by the caller as `created`, `id` and `now`.
 */
module App {
  import opened Wrappers
  import opened Types
  import opened Conversation
  import opened Memory

  class ChatApp {
    /** The active session. */
    var session: ChatSession
    /** The sessions listed in the sidebar. */
    var sessions: seq<ChatSession>
    /** True while a gateway call is in flight. */
    var isLoading: bool
    var isSidebarOpen: bool
    /** The session the send in flight captured once its user message was appended. */
    var pending: Option<ChatSession>
    /** The session store the handlers save to, list from and clear. */
    const store: SessionStore

    /** A send is in flight exactly while loading, and its captured session ends with the user's message. */
    ghost predicate Valid()
      reads this
    {
      && (isLoading <==> pending.Some?)
      && (pending.Some? ==>
            |pending.value.messages| > 0 && pending.value.messages[|pending.value.messages| - 1].role == User)
    }

    /** The first render: the store's new session, an empty list, nothing loading, sidebar closed. */
    constructor (store: SessionStore, created: ChatSession)
      ensures Valid()
      ensures this.store == store
      ensures session == created && sessions == []
      ensures !isLoading && !isSidebarOpen
    {
      this.store := store;
      session := created;
      sessions := [];
      isLoading := false;
      isSidebarOpen := false;
      pending := None;
    }

    /**
     * The mount effect: list the stored sessions, then make the store's new
     * session, with the greeting of fixed id pushed at its end, the active one.
     * If listing throws, the effect stops before changing anything (`loaded` is false).
     */
    method Initialize(created: ChatSession, now: int) returns (loaded: bool)
      requires Valid()
      modifies this
      ensures Valid()
      ensures loaded ==>
        && sessions == store.records
        && session == WithGreeting(created, InitGreetingId, now)
      ensures !loaded ==> session == old(session) && sessions == old(sessions)
      ensures isLoading == old(isLoading) && pending == old(pending) && isSidebarOpen == old(isSidebarOpen)
    {
      var savedSessions := store.GetSessions();
      loaded := savedSessions.Some?;
      if loaded {
        sessions := savedSessions.value;
        session := WithGreeting(created, InitGreetingId, now);
      }
    }

    /**
     * The first half of the send handler: the user's message is appended to
     * a copy of the active session, loading starts, and the gateway is
     * handed the extended history. No new send starts while loading.
     */
    method BeginSend(text: string, imageInput: Option<ImageInput>, id: string, now: int)
      returns (request: GatewayRequest)
      requires Valid() && !isLoading
      modifies this
      ensures Valid() && isLoading
      ensures session == old(session).(messages := old(session).messages + [UserMessage(id, text, imageInput, now)])
      ensures pending == Some(session)
      ensures request.text == text && request.imageInput == imageInput
      ensures request.history == session.messages
      ensures request.history[|request.history| - 1] == UserMessage(id, text, imageInput, now)
      ensures sessions == old(sessions) && isSidebarOpen == old(isSidebarOpen)
    {
      var updatedSession := Append(session, UserMessage(id, text, imageInput, now));
      session := updatedSession;
      isLoading := true;
      pending := Some(updatedSession);
      request := GatewayRequest(text, updatedSession.messages, imageInput);
    }

    /**
     * The second half of the send handler. On success the reply is appended
     * to the captured session, which becomes active, is saved, and the list
     * is refreshed from the store. On failure the fixed notice is appended to
     * whatever session is active now, and nothing is saved or listed. Either
     * way loading ends.
     *
     * `id` and `now` belong to the assistant's message (the reply, or the
     * notice on failure). Saving and listing sit inside the same `try` as the
     * gateway call: when one of them throws (`storeFault`), the notice, with
     * `faultId` and `faultAt`, is appended after the reply and the list is
     * not refreshed.
     */
    method FinishSend(outcome: Outcome, id: string, now: int, faultId: string, faultAt: int)
      returns (storeFault: bool)
      requires Valid() && isLoading
      modifies this, store
      ensures Valid() && !isLoading
      ensures storeFault ==> outcome.Success?
      ensures outcome.Success? && !storeFault ==>
        && session == Append(old(pending).value, OutcomeMessage(outcome, id, now))
        && session in store.records
        && sessions == store.records
      ensures storeFault ==>
        && session == Append(Append(old(pending).value, OutcomeMessage(outcome, id, now)), NoticeMessage(faultId, faultAt))
        && sessions == old(sessions)
      ensures outcome.Success? ==>
        var n := |old(pending).value.messages|;
        && |session.messages| > n > 0
        && session.messages[n - 1].role == User
        && session.messages[n] == OutcomeMessage(outcome, id, now)
      ensures outcome.Failure? ==>
        && session == Append(old(session), NoticeMessage(id, now))
        && sessions == old(sessions)
        && store.records == old(store.records)
      ensures old(session) == old(pending).value && !storeFault ==>
        session == Append(old(session), OutcomeMessage(outcome, id, now))
      ensures isSidebarOpen == old(isSidebarOpen)
    {
      var updatedSession := pending.value;
      match outcome {
        case Success(_, _) =>
          var finalSession := Append(updatedSession, OutcomeMessage(outcome, id, now));
          session := finalSession;
          var saved := store.Save(finalSession);
          var listed: Option<seq<ChatSession>> := None;
          if saved {
            listed := store.GetSessions();
          }
          if listed.Some? {
            sessions := listed.value;
            storeFault := false;
          } else {
            session := Append(session, NoticeMessage(faultId, faultAt));
            storeFault := true;
          }
        case Failure =>
          session := Append(session, NoticeMessage(id, now));
          storeFault := false;
      }
      isLoading := false;
      pending := None;
    }

    /**
     * The whole send handler when no other handler runs while the gateway
     * call is in flight: the session gains the user's message and the
     * assistant's message, and loading is over. When saving or listing
     * throws after a reply, the notice follows the reply as well.
     */
    method SendMessage(text: string, imageInput: Option<ImageInput>, userId: string, sentAt: int,
                       outcome: Outcome, replyId: string, settledAt: int, faultId: string, faultAt: int)
      returns (request: GatewayRequest, storeFault: bool)
      requires Valid() && !isLoading
      modifies this, store
      ensures Valid() && !isLoading
      ensures request.history == old(session).messages + [UserMessage(userId, text, imageInput, sentAt)]
      ensures !storeFault ==>
        session == CompleteTurn(old(session), Turn(text, imageInput, userId, sentAt, outcome, replyId, settledAt))
      ensures storeFault ==>
        && outcome.Success?
        && session == Append(CompleteTurn(old(session), Turn(text, imageInput, userId, sentAt, outcome, replyId, settledAt)),
                             NoticeMessage(faultId, faultAt))
        && sessions == old(sessions)
      ensures outcome.Success? && !storeFault ==> session in store.records && sessions == store.records
      ensures outcome.Failure? ==> sessions == old(sessions) && store.records == old(store.records)
      ensures isSidebarOpen == old(isSidebarOpen)
    {
      request := BeginSend(text, imageInput, userId, sentAt);
      storeFault := FinishSend(outcome, replyId, settledAt, faultId, faultAt);
    }

    /**
     * Start a new conversation: the store's new session with a greeting
     * pushed at its end becomes active and the sidebar closes. The listed
     * sessions and any send in flight are left alone.
     */
    method NewChat(created: ChatSession, id: string, now: int)
      requires Valid()
      modifies this
      ensures Valid()
      ensures session == WithGreeting(created, id, now)
      ensures !isSidebarOpen
      ensures sessions == old(sessions) && isLoading == old(isLoading) && pending == old(pending)
    {
      session := WithGreeting(created, id, now);
      isSidebarOpen := false;
    }

    /** Resume a listed session as it is; the sidebar closes and nothing else changes. */
    method LoadSession(s: ChatSession)
      requires Valid()
      modifies this
      ensures Valid()
      ensures session == s && !isSidebarOpen
      ensures sessions == old(sessions) && isLoading == old(isLoading) && pending == old(pending)
    {
      session := s;
      isSidebarOpen := false;
    }

    /** Wipe the store, empty the list, then start a new conversation as NewChat does. */
    method ClearHistory(created: ChatSession, id: string, now: int)
      requires Valid()
      modifies this, store
      ensures Valid()
      ensures store.records == [] && sessions == []
      ensures session == WithGreeting(created, id, now)
      ensures !isSidebarOpen
      ensures isLoading == old(isLoading) && pending == old(pending)
    {
      store.Clear();
      sessions := [];
      NewChat(created, id, now);
    }
  }
}
