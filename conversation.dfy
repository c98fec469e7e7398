/**
 * The pure part of the chat controller (App.tsx): how messages are built,
 * how a session is extended by non-mutating copies, the label the sidebar
 * shows for a session, and what a completed user turn does to a session.
 */
module Conversation {
  import opened Wrappers
  import opened Types

  /** The fixed assistant greeting that opens every new session. */
  const GreetingText: string := "Sou a DominusAI. Envie a imagem base do site ou descreva o bot que deseja criar."
  /** The fixed assistant notice recorded when the gateway call fails. */
  const ErrorNotice: string := "Erro crítico no sistema. Tente novamente."
  /** The id of the greeting added when the application starts. */
  const InitGreetingId: string := "init-greeting"
  /** The sidebar label of a session that holds no user turn yet. */
  const NewSessionLabel: string := "New Session"
  /** How many characters of the first request a sidebar label keeps. */
  const LabelLength: nat := 30
  const Ellipsis: string := "..."

  /** An image the user attaches to a turn: its payload and media type. */
  datatype ImageInput = ImageInput(data: string, mimeType: string)

  /** How the gateway call settles: a reply with text and perhaps an image, or any fault. */
  datatype Outcome = Success(text: string, image: Option<string>) | Failure

  /** What the controller hands the gateway: the request text, the whole history and the image. */
  datatype GatewayRequest = GatewayRequest(text: string, history: seq<Message>, imageInput: Option<ImageInput>)

  /** The greeting message; its id and time are supplied by the caller. */
  function GreetingMessage(id: string, now: int): (m: Message)
    ensures m.id == id && m.timestamp == now
    ensures m.role == Model && m.text == GreetingText
    ensures MessageKeys(m) == RequiredMessageKeys
  {
    Message(id, Model, GreetingText, None, now, None)
  }

  /** The user's message: of an attached image only the payload is kept, and no image means no `image` key. */
  function UserMessage(id: string, text: string, imageInput: Option<ImageInput>, now: int): (m: Message)
    ensures m.id == id && m.timestamp == now
    ensures m.role == User && m.text == text
    ensures m.image.Some? <==> imageInput.Some?
    ensures imageInput.Some? ==> m.image.value == imageInput.value.data
    ensures "isThinking" !in MessageKeys(m)
  {
    Message(id, User, text, if imageInput.Some? then Some(imageInput.value.data) else None, now, None)
  }

  /** The fixed notice recorded when a call in the send handler throws. */
  function NoticeMessage(id: string, now: int): (m: Message)
    ensures m.id == id && m.timestamp == now
    ensures m.role == Model && m.text == ErrorNotice
    ensures MessageKeys(m) == RequiredMessageKeys
  {
    Message(id, Model, ErrorNotice, None, now, None)
  }

  /** The assistant's message for a settled gateway call: the reply with its image, or the fixed notice without one. */
  function OutcomeMessage(outcome: Outcome, id: string, now: int): (m: Message)
    ensures m.id == id && m.timestamp == now && m.role == Model
    ensures outcome.Success? ==> m.text == outcome.text && m.image == outcome.image
    ensures outcome.Failure? ==> m == NoticeMessage(id, now)
    ensures "isThinking" !in MessageKeys(m)
  {
    match outcome
    case Success(text, image) => Message(id, Model, text, image, now, None)
    case Failure => NoticeMessage(id, now)
  }

  /** A copy of the session with one more message at the end; nothing else changes. */
  function Append(s: ChatSession, m: Message): (r: ChatSession)
    ensures r.id == s.id && r.title == s.title && r.createdAt == s.createdAt
    ensures |r.messages| == |s.messages| + 1
    ensures r.messages[..|s.messages|] == s.messages
    ensures r.messages[|s.messages|] == m
  {
    s.(messages := s.messages + [m])
  }

  /** A session handed out by the store with the greeting pushed onto its messages. */
  function WithGreeting(created: ChatSession, id: string, now: int): (r: ChatSession)
    ensures r.id == created.id && r.title == created.title && r.createdAt == created.createdAt
    ensures |r.messages| == |created.messages| + 1
    ensures r.messages[..|created.messages|] == created.messages
    ensures r.messages[|created.messages|] == GreetingMessage(id, now)
    ensures r.messages[|created.messages|].role == Model
    ensures r.messages[|created.messages|].text == GreetingText
    ensures r.messages[|created.messages|].image.None?
  {
    Append(created, GreetingMessage(id, now))
  }

  /** The first n characters of t, or all of t when it is shorter. */
  function Truncate(t: string, n: nat): (r: string)
    ensures |r| == if |t| < n then |t| else n
    ensures r <= t
  {
    if |t| <= n then t else t[..n]
  }

  /**
   * The sidebar label of a session: the start of its second message (the
   * first request after the greeting) followed by an ellipsis, or the
   * generic label while the session holds at most one message.
   */
  function Label(s: ChatSession): (r: string)
    ensures |s.messages| <= 1 ==> r == NewSessionLabel
    ensures |s.messages| > 1 ==>
      var t := s.messages[1].text;
      && |r| == (if |t| < LabelLength then |t| else LabelLength) + |Ellipsis|
      && r[..|r| - |Ellipsis|] <= t
      && r[|r| - |Ellipsis|..] == Ellipsis
    ensures r == NewSessionLabel <==> |s.messages| <= 1
  {
    if |s.messages| > 1 then
      var r := Truncate(s.messages[1].text, LabelLength) + Ellipsis;
      assert r[|r| - 3..] == Ellipsis;
      assert NewSessionLabel[|NewSessionLabel| - 3..] == "ion";
      r
    else NewSessionLabel
  }

  /** A session that holds only a greeting is listed under the generic label. */
  lemma FreshSessionLabel(created: ChatSession, id: string, now: int)
    requires created.messages == []
    ensures Label(WithGreeting(created, id, now)) == NewSessionLabel
  {
  }

  /** Everything one call of the send handler consumes: the request, the reply and the supplied ids and times. */
  datatype Turn = Turn(
    text: string,
    imageInput: Option<ImageInput>,
    userId: string,
    sentAt: int,
    outcome: Outcome,
    replyId: string,
    settledAt: int)

  function UserTurnMessage(t: Turn): Message
  {
    UserMessage(t.userId, t.text, t.imageInput, t.sentAt)
  }

  function ReplyTurnMessage(t: Turn): Message
  {
    OutcomeMessage(t.outcome, t.replyId, t.settledAt)
  }

  /**
   * A send that settles while the session stays active, when neither
   * saving nor listing the sessions throws: the session gains exactly the
   * user's message and then the assistant's message, whatever the gateway's
   * outcome, and every earlier message is kept.
   */
  function CompleteTurn(s: ChatSession, t: Turn): (r: ChatSession)
    ensures r.id == s.id && r.title == s.title && r.createdAt == s.createdAt
    ensures |r.messages| == |s.messages| + 2
    ensures r.messages[..|s.messages|] == s.messages
    ensures var u := r.messages[|s.messages|];
      && u.role == User && u.text == t.text
      && u.image == (if t.imageInput.Some? then Some(t.imageInput.value.data) else None)
    ensures var a := r.messages[|s.messages| + 1];
      && a.role == Model
      && (t.outcome.Success? ==> a.text == t.outcome.text && a.image == t.outcome.image)
      && (t.outcome.Failure? ==> a.text == ErrorNotice && a.image.None?)
  {
    Append(Append(s, UserTurnMessage(t)), ReplyTurnMessage(t))
  }

  /**
   * Several sends in a row, each settling before the next starts and none
   * meeting a throwing store call.
   */
  function Turns(s: ChatSession, ts: seq<Turn>): ChatSession
    decreases |ts|
  {
    if ts == [] then s else Turns(CompleteTurn(s, ts[0]), ts[1..])
  }

  /**
   * After n settled sends the session holds its old messages unchanged,
   * followed by n user/assistant pairs in the order of the sends.
   */
  lemma {:induction false} TurnsShape(s: ChatSession, ts: seq<Turn>)
    ensures Turns(s, ts).id == s.id && Turns(s, ts).title == s.title
    ensures Turns(s, ts).createdAt == s.createdAt
    ensures |Turns(s, ts).messages| == |s.messages| + 2 * |ts|
    ensures Turns(s, ts).messages[..|s.messages|] == s.messages
    ensures forall k :: 0 <= k < |ts| ==>
      && Turns(s, ts).messages[|s.messages| + 2 * k] == UserTurnMessage(ts[k])
      && Turns(s, ts).messages[|s.messages| + 2 * k + 1] == ReplyTurnMessage(ts[k])
    decreases |ts|
  {
    if ts != [] {
      var s1 := CompleteTurn(s, ts[0]);
      var rest := ts[1..];
      TurnsShape(s1, rest);
      var r := Turns(s, ts);
      assert r == Turns(s1, rest);
      var n := |s.messages|;
      assert r.messages[..n] == s1.messages[..n] == s.messages by {
        assert r.messages[..n] == r.messages[..n + 2][..n];
      }
      forall k | 0 <= k < |ts|
        ensures r.messages[n + 2 * k] == UserTurnMessage(ts[k])
        ensures r.messages[n + 2 * k + 1] == ReplyTurnMessage(ts[k])
      {
        if k == 0 {
          assert r.messages[n] == r.messages[..n + 2][n] == s1.messages[n];
          assert r.messages[n + 1] == r.messages[..n + 2][n + 1] == s1.messages[n + 1];
        } else {
          assert rest[k - 1] == ts[k];
          assert n + 2 * k == |s1.messages| + 2 * (k - 1);
        }
      }
    }
  }

  /** Once a session holds a request, later sends never change its label. */
  lemma LabelKeptByLaterTurns(s: ChatSession, ts: seq<Turn>)
    requires |s.messages| > 1
    ensures Label(Turns(s, ts)) == Label(s)
  {
    TurnsShape(s, ts);
    var r := Turns(s, ts);
    assert r.messages[1] == r.messages[..|s.messages|][1] == s.messages[1];
  }

  /** A greeting-only session that has had sends is labelled by the start of its first request. */
  lemma LabelNamesFirstRequest(s: ChatSession, ts: seq<Turn>)
    requires |s.messages| == 1 && ts != []
    ensures Label(Turns(s, ts)) == Truncate(ts[0].text, LabelLength) + Ellipsis
  {
    TurnsShape(s, ts);
  }

  /** A settled conversation: the greeting, then user and assistant messages in turn. */
  ghost predicate Alternating(msgs: seq<Message>)
  {
    && |msgs| % 2 == 1
    && forall i :: 0 <= i < |msgs| ==> msgs[i].role == (if i % 2 == 0 then Model else User)
  }

  /** A greeting on an empty store session starts a settled conversation. */
  lemma GreetingStartsAlternation(created: ChatSession, id: string, now: int)
    requires created.messages == []
    ensures Alternating(WithGreeting(created, id, now).messages)
  {
  }

  /** One settled send keeps a conversation settled. */
  lemma TurnKeepsAlternation(s: ChatSession, t: Turn)
    requires Alternating(s.messages)
    ensures Alternating(CompleteTurn(s, t).messages)
  {
  }

  /** Any number of settled sends keep a conversation settled. */
  lemma {:induction false} TurnsKeepAlternation(s: ChatSession, ts: seq<Turn>)
    requires Alternating(s.messages)
    ensures Alternating(Turns(s, ts).messages)
    decreases |ts|
  {
    if ts != [] {
      TurnKeepsAlternation(s, ts[0]);
      TurnsKeepAlternation(CompleteTurn(s, ts[0]), ts[1..]);
    }
  }

  /**
   * A send whose reply arrived but whose saving or listing threw: the notice
   * follows the reply, so two assistant messages stand side by side and the
   * conversation is no longer settled.
   */
  lemma StoreFaultBreaksAlternation(s: ChatSession, t: Turn, id: string, now: int)
    requires Alternating(s.messages) && t.outcome.Success?
    ensures var r := Append(CompleteTurn(s, t), NoticeMessage(id, now)).messages;
      && |r| == |s.messages| + 3
      && r[|s.messages| + 1].role == Model && r[|s.messages| + 2].role == Model
      && r[|s.messages| + 2].text == ErrorNotice
      && !Alternating(r)
  {
  }

  /** A send whose store call throws after the reply does not change the label of a session that holds a request. */
  lemma LabelKeptByStoreFault(s: ChatSession, t: Turn, id: string, now: int)
    requires |s.messages| > 1
    ensures Label(Append(CompleteTurn(s, t), NoticeMessage(id, now))) == Label(s)
  {
    var r := Append(CompleteTurn(s, t), NoticeMessage(id, now));
    assert r.messages[1] == r.messages[..|s.messages|][1] == s.messages[1];
  }
}
