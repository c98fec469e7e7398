/**
 * Client runs of the controller built from its contracts alone: a fresh
 * start followed by a send that succeeds, one that fails, a wipe of the
 * history, and a session switch while a send is in flight. `loaded` says
 * whether the stored sessions could be listed at start; `storeFault` says
 * whether saving or listing threw after a reply.
 */
module Scenarios {
  import opened Wrappers
  import opened Types
  import opened Conversation
  import opened Memory
  import opened App

  /**
   * Start fresh, ask for a bot, get a reply with an image: three messages and
   * the session is listed; if the store throws, the notice follows the reply.
   */
  method ReplyScenario(payload: string)
    returns (final: ChatSession, listed: seq<ChatSession>, loaded: bool, storeFault: bool)
    ensures loaded ==>
      && |final.messages| >= 3
      && final.messages[0].id == InitGreetingId && final.messages[0].text == GreetingText
      && final.messages[1].role == User && final.messages[1].text == "make me a bot"
      && final.messages[1].image.None?
      && final.messages[2].role == Model && final.messages[2].text == "Here is your bot"
      && final.messages[2].image == Some(payload)
      && Label(final) == "make me a bot..."
    ensures loaded && !storeFault ==> |final.messages| == 3 && final in listed
    ensures loaded && storeFault ==>
      |final.messages| == 4 && final.messages[3].text == ErrorNotice && listed == []
  {
    var store := new SessionStore([]);
    var created := ChatSession("s-1", "New Session", [], 0);
    var app := new ChatApp(store, created);
    loaded := app.Initialize(created, 0);
    var request := app.BeginSend("make me a bot", None, "u-1", 1);
    storeFault := app.FinishSend(Success("Here is your bot", Some(payload)), "a-1", 2, "e-1", 2);
    final, listed := app.session, app.sessions;
  }

  /** Start fresh and send while the gateway faults: the request stays, the notice follows, loading ends. */
  method FailureScenario(text: string)
    returns (final: ChatSession, loading: bool, listed: seq<ChatSession>, loaded: bool)
    ensures loaded ==>
      && |final.messages| == 3
      && final.messages[0].text == GreetingText
      && final.messages[1].role == User && final.messages[1].text == text
      && final.messages[2].role == Model && final.messages[2].text == ErrorNotice
      && final.messages[2].image.None?
      && listed == []
    ensures !loading
  {
    var store := new SessionStore([]);
    var created := ChatSession("s-1", "New Session", [], 0);
    var app := new ChatApp(store, created);
    loaded := app.Initialize(created, 0);
    var request, storeFault := app.SendMessage(text, None, "u-1", 1, Failure, "a-1", 2, "e-1", 2);
    final, loading, listed := app.session, app.isLoading, app.sessions;
  }

  /** After a send, clearing leaves an empty store and list and a greeting-only session. */
  method ClearScenario(saved: seq<ChatSession>)
    returns (final: ChatSession, listed: seq<ChatSession>, stored: seq<ChatSession>)
    ensures listed == [] && stored == []
    ensures |final.messages| == 1 && final.messages[0].text == GreetingText
    ensures Label(final) == NewSessionLabel
  {
    var store := new SessionStore(saved);
    var created := ChatSession("s-1", "New Session", [], 0);
    var app := new ChatApp(store, created);
    var loaded := app.Initialize(created, 0);
    var request, storeFault := app.SendMessage("hello", None, "u-1", 1, Success("hi", None), "a-1", 2, "e-1", 2);
    var next := ChatSession("s-2", "New Session", [], 3);
    app.ClearHistory(next, "g-2", 3);
    final, listed, stored := app.session, app.sessions, store.records;
  }

  /**
   * A send that fails after the user opened another session: the notice is
   * appended to the session opened meanwhile, and the session holding the
   * user's request is no longer the active one.
   */
  method SwitchDuringFailedSend(other: ChatSession)
    returns (active: ChatSession, captured: ChatSession, loaded: bool)
    ensures active.messages == other.messages + [NoticeMessage("a-1", 2)]
    ensures loaded ==> |captured.messages| == 2
    ensures |captured.messages| > 0
    ensures captured.messages[|captured.messages| - 1].text == "hello"
    ensures captured.messages[|captured.messages| - 1].role == User
  {
    var store := new SessionStore([]);
    var created := ChatSession("s-1", "New Session", [], 0);
    var app := new ChatApp(store, created);
    loaded := app.Initialize(created, 0);
    var request := app.BeginSend("hello", None, "u-1", 1);
    captured := app.session;
    app.LoadSession(other);
    var storeFault := app.FinishSend(Failure, "a-1", 2, "e-1", 2);
    active := app.session;
  }

  /** A send that succeeds after the user opened another session brings the captured session back. */
  method SwitchDuringSuccessfulSend(other: ChatSession)
    returns (active: ChatSession, captured: ChatSession, storeFault: bool)
    ensures !storeFault ==> active.messages == captured.messages + [OutcomeMessage(Success("hi", None), "a-1", 2)]
    ensures storeFault ==>
      active.messages == captured.messages + [OutcomeMessage(Success("hi", None), "a-1", 2), NoticeMessage("e-1", 2)]
    ensures active.id == "s-1"
  {
    var store := new SessionStore([]);
    var created := ChatSession("s-1", "New Session", [], 0);
    var app := new ChatApp(store, created);
    var loaded := app.Initialize(created, 0);
    var request := app.BeginSend("hello", None, "u-1", 1);
    captured := app.session;
    app.LoadSession(other);
    storeFault := app.FinishSend(Success("hi", None), "a-1", 2, "e-1", 2);
    active := app.session;
  }
}
