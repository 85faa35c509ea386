/** The pure transforms behind the session store of `App.tsx`: building a
    fresh session, finding, removing and mapping sessions by id, deriving the
    title, and the edits `handleSendMessage` applies to the current session.
    The updater closures passed to `updateCurrentSession` are represented by
    the `SessionEdit` values below, one per closure in the source. */
module SessionOps {
  import opened Types
  import opened JsString
  import opened AiConnect

  const NewSessionTitle: string := "New Investigation"
  const SystemGreeting: string := "System initialized. Welcome to Veritas."
  const WelcomeText: string :=
    "I am Veritas, your bias-aware news analyst. Enter a topic, and I will search mainstream and alternative sources to provide a unified truth-line."
  const ErrorText: string := "Error: Unable to analyze sources. Please try again."
  /** Number of input characters kept in a derived title. */
  const TitleLength: nat := 30

  predicate HasSession(ss: seq<ChatSession>, id: Id)
  {
    exists i :: 0 <= i < |ss| && ss[i].id == id
  }

  /** `filter(m => m.role === USER).length === 0`: no user message yet. */
  predicate IsFirstUserMessage(ms: seq<Message>)
  {
    forall i :: 0 <= i < |ms| ==> ms[i].role != User
  }

  // ---------------------------------------------------------------------
  // Creating a session

  /** The session `createNewSession` builds: the fixed title and exactly the
      system greeting followed by the assistant's welcome, nothing loading. */
  function NewSession(id: Id, systemMsgId: Id, welcomeMsgId: Id, model: GeminiModel, now: int): (s: ChatSession)
    ensures s.id == id && s.model == model && s.title == NewSessionTitle
    ensures |s.messages| == 2 && s.messages[0].role == System && s.messages[1].role == Model
    ensures IsFirstUserMessage(s.messages)
    ensures forall i :: 0 <= i < |s.messages| ==> s.messages[i].isLoading == None
  {
    ChatSession(
      id, NewSessionTitle, model,
      [ Message(systemMsgId, System, SystemGreeting, now, None, None, None),
        Message(welcomeMsgId, Model, WelcomeText, now, None, None, None) ],
      now, now)
  }

  // ---------------------------------------------------------------------
  // Finding, removing and mapping sessions by id

  /** `sessions.find(s => s.id === currentSessionId)`: a session with that id,
      `None` when the id is null or unknown (which one: `FindSessionFirst`). */
  function FindSession(ss: seq<ChatSession>, id: Option<Id>): (r: Option<ChatSession>)
    ensures r.Some? <==> id.Some? && HasSession(ss, id.value)
    ensures r.Some? ==> r.value.id == id.value
  {
    if ss == [] || id.None? then None
    else if ss[0].id == id.value then Some(ss[0])
    else
      var r := FindSession(ss[1..], id);
      assert HasSession(ss, id.value) <==> HasSession(ss[1..], id.value) by {
        if HasSession(ss, id.value) {
          var i :| 0 <= i < |ss| && ss[i].id == id.value;
          assert ss[1..][i - 1] == ss[i];
        }
        if HasSession(ss[1..], id.value) {
          var i :| 0 <= i < |ss[1..]| && ss[1..][i].id == id.value;
          assert ss[i + 1] == ss[1..][i];
        }
      }
      r
  }

  /** The session found is the first one with the id. */
  lemma {:induction false} FindSessionFirst(ss: seq<ChatSession>, id: Id)
    requires HasSession(ss, id)
    ensures exists i :: 0 <= i < |ss| && FindSession(ss, Some(id)) == Some(ss[i])
                        && forall j :: 0 <= j < i ==> ss[j].id != id
  {
    if ss[0].id != id {
      assert HasSession(ss[1..], id) by {
        var i :| 0 <= i < |ss| && ss[i].id == id;
        assert ss[1..][i - 1] == ss[i];
      }
      FindSessionFirst(ss[1..], id);
      var i :| 0 <= i < |ss[1..]| && FindSession(ss[1..], Some(id)) == Some(ss[1..][i])
               && forall j :: 0 <= j < i ==> ss[1..][j].id != id;
      assert ss[i + 1] == ss[1..][i];
      forall j | 0 <= j < i + 1 ensures ss[j].id != id {
        if j > 0 { assert ss[j] == ss[1..][j - 1]; }
      }
    } else {
      assert FindSession(ss, Some(id)) == Some(ss[0]);
    }
  }

  /** `sessions.filter(s => s.id !== id)`: exactly the sessions with another
      id stay. */
  function RemoveById(ss: seq<ChatSession>, id: Id): (r: seq<ChatSession>)
    ensures |r| <= |ss|
    ensures forall s :: s in r <==> s in ss && s.id != id
  {
    if ss == [] then []
    else
      var rest := RemoveById(ss[1..], id);
      assert ss == [ss[0]] + ss[1..];
      (if ss[0].id != id then [ss[0]] else []) + rest
  }

  /** With no session carrying the id, the list is unchanged. */
  lemma {:induction false} RemoveByIdAbsent(ss: seq<ChatSession>, id: Id)
    requires !HasSession(ss, id)
    ensures RemoveById(ss, id) == ss
  {
    if ss != [] {
      forall i | 0 <= i < |ss[1..]| ensures ss[1..][i].id != id {
        assert ss[1..][i] == ss[i + 1];
      }
      RemoveByIdAbsent(ss[1..], id);
      assert ss[0].id != id;
      assert RemoveById(ss, id) == [ss[0]] + RemoveById(ss[1..], id);
      assert ss == [ss[0]] + ss[1..];
    }
  }

  /** When every session carries the id, nothing is left. */
  lemma {:induction false} RemoveByIdAll(ss: seq<ChatSession>, id: Id)
    requires forall i :: 0 <= i < |ss| ==> ss[i].id == id
    ensures RemoveById(ss, id) == []
  {
    if ss != [] {
      assert forall i :: 0 <= i < |ss[1..]| ==> ss[1..][i].id == ss[i + 1].id;
      RemoveByIdAll(ss[1..], id);
    }
  }

  /** Removing distributes over concatenation: the survivors keep their order. */
  lemma {:induction false} RemoveByIdAppend(a: seq<ChatSession>, b: seq<ChatSession>, id: Id)
    ensures RemoveById(a + b, id) == RemoveById(a, id) + RemoveById(b, id)
  {
    if a == [] {
      assert a + b == b;
    } else {
      assert (a + b)[1..] == a[1..] + b && (a + b)[0] == a[0];
      RemoveByIdAppend(a[1..], b, id);
      assert RemoveById(a + b, id) == (if a[0].id != id then [a[0]] else []) + RemoveById(a[1..] + b, id);
    }
  }

  // ---------------------------------------------------------------------
  // Editing messages and sessions

  /** How one message is patched: by a streaming update, by finalisation after
      the producer resolved, or by the error text after it rejected. */
  datatype MessagePatch = Streamed(update: StreamUpdate) | Finished | Failed

  /** The object spreads of the three message updaters: only content, sources,
      metrics and the loading flag can change. */
  function PatchOf(m: Message, p: MessagePatch): (r: Message)
    ensures r.id == m.id && r.role == m.role && r.timestamp == m.timestamp
    ensures r.isLoading == Some(p.Streamed?)
    ensures p.Finished? ==> r == m.(isLoading := Some(false))
    ensures p.Failed? ==> r.content == ErrorText && r.groundingSources == m.groundingSources && r.metrics == m.metrics
    ensures p.Streamed? ==> r.content == p.update.text && r.groundingSources == p.update.sources
                            && r.metrics == p.update.metrics
  {
    match p
    case Streamed(u) => m.(content := u.text, groundingSources := u.sources, metrics := u.metrics, isLoading := Some(true))
    case Finished => m.(isLoading := Some(false))
    case Failed => m.(content := ErrorText, isLoading := Some(false))
  }

  /** `messages.map(m => m.id === target ? patch(m) : m)`. */
  function PatchWhere(ms: seq<Message>, target: Id, p: MessagePatch): (r: seq<Message>)
    ensures |r| == |ms|
    ensures forall i :: 0 <= i < |ms| ==> r[i] == if ms[i].id == target then PatchOf(ms[i], p) else ms[i]
  {
    if ms == [] then []
    else [if ms[0].id == target then PatchOf(ms[0], p) else ms[0]] + PatchWhere(ms[1..], target, p)
  }

  /** The updaters `handleSendMessage` passes to `updateCurrentSession`. */
  datatype SessionEdit =
    | AppendUserMessage(title: string, msg: Message, at: int)
    | AppendMessage(msg: Message)
    | PatchMessage(target: Id, patch: MessagePatch)

  /** One updater applied to one session: messages are only ever appended or
      patched in place; id, model and creation time never change. */
  function ApplyEdit(s: ChatSession, e: SessionEdit): (r: ChatSession)
    ensures r.id == s.id && r.model == s.model && r.createdAt == s.createdAt
    ensures !e.PatchMessage? ==> r.messages == s.messages + [e.msg]
    ensures e.PatchMessage? ==> r.title == s.title && r.updatedAt == s.updatedAt && |r.messages| == |s.messages|
    ensures e.AppendMessage? ==> r.title == s.title && r.updatedAt == s.updatedAt
  {
    match e
    case AppendUserMessage(t, m, at) => s.(title := t, messages := s.messages + [m], updatedAt := at)
    case AppendMessage(m) => s.(messages := s.messages + [m])
    case PatchMessage(target, p) => s.(messages := PatchWhere(s.messages, target, p))
  }

  /** Several updaters applied in order. */
  function ApplyEdits(s: ChatSession, es: seq<SessionEdit>): (r: ChatSession)
    ensures r.id == s.id && r.model == s.model && r.createdAt == s.createdAt
  {
    if es == [] then s else ApplyEdit(ApplyEdits(s, es[..|es| - 1]), es[|es| - 1])
  }

  lemma {:induction false} ApplyEditsAppend(s: ChatSession, a: seq<SessionEdit>, b: seq<SessionEdit>)
    ensures ApplyEdits(s, a + b) == ApplyEdits(ApplyEdits(s, a), b)
    decreases |b|
  {
    if b == [] {
      assert a + b == a;
    } else {
      assert (a + b)[..|a + b| - 1] == a + b[..|b| - 1];
      ApplyEditsAppend(s, a, b[..|b| - 1]);
    }
  }

  /** `prev.map(s => s.id === currentSessionId ? updater(s) : s)`: the list
      keeps its length and order, sessions with another id (every session,
      when the id is null) are untouched, and ids never change. */
  function UpdateWhere(ss: seq<ChatSession>, id: Option<Id>, e: SessionEdit): (r: seq<ChatSession>)
    ensures |r| == |ss|
    ensures forall i :: 0 <= i < |ss| ==> r[i].id == ss[i].id
    ensures forall i :: 0 <= i < |ss| ==> r[i] == if Some(ss[i].id) == id then ApplyEdit(ss[i], e) else ss[i]
    ensures id.None? || !HasSession(ss, id.value) ==> r == ss
  {
    if ss == [] then []
    else [if Some(ss[0].id) == id then ApplyEdit(ss[0], e) else ss[0]] + UpdateWhere(ss[1..], id, e)
  }

  /** Several `updateCurrentSession` calls in a row with the same current
      id, in order: the list keeps its length and its ids. */
  function UpdateAll(ss: seq<ChatSession>, id: Option<Id>, es: seq<SessionEdit>): (r: seq<ChatSession>)
    ensures |r| == |ss|
    ensures forall i :: 0 <= i < |ss| ==> r[i].id == ss[i].id
  {
    if es == [] then ss else UpdateWhere(UpdateAll(ss, id, es[..|es| - 1]), id, es[|es| - 1])
  }

  /** Each targeted session receives the edits in order; every other session
      (all of them, when the id is null) is untouched. */
  lemma {:induction false} UpdateAllPointwise(ss: seq<ChatSession>, id: Option<Id>, es: seq<SessionEdit>)
    ensures forall i :: 0 <= i < |ss| ==>
              UpdateAll(ss, id, es)[i] == if Some(ss[i].id) == id then ApplyEdits(ss[i], es) else ss[i]
    decreases |es|
  {
    if es != [] {
      UpdateAllPointwise(ss, id, es[..|es| - 1]);
    }
  }

  /** One more `updateCurrentSession` call extends the run by its edit. */
  lemma UpdateAllSnoc(ss: seq<ChatSession>, id: Option<Id>, es: seq<SessionEdit>, e: SessionEdit)
    ensures UpdateAll(ss, id, es + [e]) == UpdateWhere(UpdateAll(ss, id, es), id, e)
  {
    assert (es + [e])[..|es|] == es;
  }

  /** Two calls in a row are the run of their two edits. */
  lemma UpdateAllPair(ss: seq<ChatSession>, id: Option<Id>, e1: SessionEdit, e2: SessionEdit)
    ensures UpdateAll(ss, id, [e1, e2]) == UpdateWhere(UpdateWhere(ss, id, e1), id, e2)
  {
    assert [e1, e2] == [e1] + [e2];
    assert [e1] == [] + [e1];
    UpdateAllSnoc(ss, id, [e1], e2);
    UpdateAllSnoc(ss, id, [], e1);
  }

  // ---------------------------------------------------------------------
  // Sending a message

  /** `input.slice(0, 30) + (input.length > 30 ? "..." : "")`. */
  function Title(input: string): (r: string)
    ensures |r| <= TitleLength + 3
    ensures |input| <= TitleLength ==> r == input
    ensures |input| > TitleLength ==> |r| == TitleLength + 3 && r[..TitleLength] == input[..TitleLength]
                                       && r[TitleLength..] == "..."
  {
    SlicePrefix(input, TitleLength) + (if |input| > TitleLength then "..." else "")
  }

  /** The title a send gives the session: derived from the input for the first
      user message, otherwise the current title. */
  function NextTitle(s: ChatSession, input: string): string
  {
    if IsFirstUserMessage(s.messages) then Title(input) else s.title
  }

  function UserMessage(id: Id, input: string, now: int): Message
  {
    Message(id, User, input, now, None, None, None)
  }

  /** The empty assistant message shown while the reply is produced. */
  function Placeholder(id: Id, now: int): Message
  {
    Message(id, Model, "", now, Some(true), None, None)
  }

  /** What the awaited producer call did: resolved after passing `emitted` to
      `onUpdate`, or rejected after passing `emitted`. */
  datatype ProducerOutcome = Completed(emitted: seq<StreamUpdate>) | Rejected(emitted: seq<StreamUpdate>)

  /** The updater run by the `onUpdate` callback for each update, in order. */
  function StreamEdits(botMsgId: Id, us: seq<StreamUpdate>): (r: seq<SessionEdit>)
    ensures |r| == |us|
    ensures forall i :: 0 <= i < |us| ==> r[i] == PatchMessage(botMsgId, Streamed(us[i]))
  {
    seq(|us|, i requires 0 <= i < |us| => PatchMessage(botMsgId, Streamed(us[i])))
  }

  /** The two updaters run before the producer is awaited. */
  function OpeningEdits(title: string, userMsgId: Id, botMsgId: Id, input: string, now: int): seq<SessionEdit>
  {
    [AppendUserMessage(title, UserMessage(userMsgId, input, now), now), AppendMessage(Placeholder(botMsgId, now))]
  }

  /** Every updater a send runs, in order: the two appends, one patch per
      streaming update, then finalisation or the error patch. */
  function SendEdits(title: string, userMsgId: Id, botMsgId: Id, input: string, now: int, outcome: ProducerOutcome): seq<SessionEdit>
  {
    OpeningEdits(title, userMsgId, botMsgId, input, now)
    + StreamEdits(botMsgId, outcome.emitted)
    + [PatchMessage(botMsgId, if outcome.Completed? then Finished else Failed)]
  }

  /** The assistant message a send leaves behind, stated directly from the
      outcome: the last update's text and attachments, or the error text with
      the last attachments; never loading. */
  function FinalBotMessage(botMsgId: Id, now: int, outcome: ProducerOutcome): Message
  {
    var us := outcome.emitted;
    Message(botMsgId, Model,
      if outcome.Rejected? then ErrorText else if us == [] then "" else us[|us| - 1].text,
      now, Some(false),
      if us == [] then None else us[|us| - 1].sources,
      if us == [] then None else us[|us| - 1].metrics)
  }

  /** The session after a send, stated directly: new title and update time,
      and exactly the user message and the final assistant message appended. */
  function SentSession(s: ChatSession, title: string, userMsgId: Id, botMsgId: Id, input: string, now: int,
                       outcome: ProducerOutcome): ChatSession
  {
    s.(title := title,
       messages := s.messages + [UserMessage(userMsgId, input, now), FinalBotMessage(botMsgId, now, outcome)],
       updatedAt := now)
  }

  /** Fresh message ids: the assistant's id is used by no earlier message and
      differs from the user message's id. */
  predicate FreshIds(s: ChatSession, userMsgId: Id, botMsgId: Id)
  {
    botMsgId != userMsgId && forall i :: 0 <= i < |s.messages| ==> s.messages[i].id != botMsgId
  }

  /** The assistant message after the first `k` streaming updates. */
  function BotAfter(botMsgId: Id, now: int, us: seq<StreamUpdate>): Message
  {
    if us == [] then Placeholder(botMsgId, now)
    else Placeholder(botMsgId, now).(content := us[|us| - 1].text, groundingSources := us[|us| - 1].sources,
                                     metrics := us[|us| - 1].metrics)
  }

  /** Patching the last message of `ms + [u, b]` by the id only `b` carries
      touches `b` alone. */
  lemma PatchOnlyLast(ms: seq<Message>, u: Message, b: Message, p: MessagePatch)
    requires u.id != b.id && forall i :: 0 <= i < |ms| ==> ms[i].id != b.id
    ensures PatchWhere(ms + [u, b], b.id, p) == ms + [u, PatchOf(b, p)]
  {
    var xs := ms + [u, b];
    var r := PatchWhere(xs, b.id, p);
    var expected := ms + [u, PatchOf(b, p)];
    forall i | 0 <= i < |xs| ensures r[i] == expected[i] {
      if i < |ms| {
        assert xs[i] == ms[i] == expected[i];
      } else if i == |ms| {
        assert xs[i] == u == expected[i];
      } else {
        assert xs[i] == b;
      }
    }
  }

  /** Streaming updates rewrite the placeholder and nothing else. */
  lemma {:induction false} StreamingTouchesOnlyBot(x: ChatSession, ms: seq<Message>, u: Message, botMsgId: Id,
                                                   now: int, us: seq<StreamUpdate>)
    requires x.messages == ms + [u, Placeholder(botMsgId, now)]
    requires u.id != botMsgId && forall i :: 0 <= i < |ms| ==> ms[i].id != botMsgId
    ensures ApplyEdits(x, StreamEdits(botMsgId, us)) == x.(messages := ms + [u, BotAfter(botMsgId, now, us)])
    decreases |us|
  {
    var es := StreamEdits(botMsgId, us);
    if us != [] {
      var front := us[..|us| - 1];
      assert es[..|es| - 1] == StreamEdits(botMsgId, front);
      StreamingTouchesOnlyBot(x, ms, u, botMsgId, now, front);
      PatchOnlyLast(ms, u, BotAfter(botMsgId, now, front), Streamed(us[|us| - 1]));
    }
  }

  /** The two appends before the producer is awaited. */
  lemma OpeningResult(s: ChatSession, title: string, userMsgId: Id, botMsgId: Id, input: string, now: int)
    ensures ApplyEdits(s, OpeningEdits(title, userMsgId, botMsgId, input, now))
            == s.(title := title, messages := s.messages + [UserMessage(userMsgId, input, now), Placeholder(botMsgId, now)],
                  updatedAt := now)
  {
    var opening := OpeningEdits(title, userMsgId, botMsgId, input, now);
    assert opening[..1] == [opening[0]] && opening[..1][..0] == [];
    assert ApplyEdits(s, opening[..1]) == ApplyEdit(s, opening[0]);
  }

  /** A send with fresh message ids changes the session exactly as
      `SentSession` says: earlier messages stay as they were, in order. */
  lemma SendResult(s: ChatSession, title: string, userMsgId: Id, botMsgId: Id, input: string, now: int,
                   outcome: ProducerOutcome)
    requires FreshIds(s, userMsgId, botMsgId)
    ensures ApplyEdits(s, SendEdits(title, userMsgId, botMsgId, input, now, outcome))
            == SentSession(s, title, userMsgId, botMsgId, input, now, outcome)
  {
    var opening := OpeningEdits(title, userMsgId, botMsgId, input, now);
    var stream := StreamEdits(botMsgId, outcome.emitted);
    var last := [PatchMessage(botMsgId, if outcome.Completed? then Finished else Failed)];
    var u := UserMessage(userMsgId, input, now);
    ApplyEditsAppend(s, opening + stream, last);
    ApplyEditsAppend(s, opening, stream);
    OpeningResult(s, title, userMsgId, botMsgId, input, now);
    var x := ApplyEdits(s, opening);
    StreamingTouchesOnlyBot(x, s.messages, u, botMsgId, now, outcome.emitted);
    var b := BotAfter(botMsgId, now, outcome.emitted);
    PatchOnlyLast(s.messages, u, b, last[0].patch);
    assert [last[0]][..0] == [];
    assert ApplyEdits(ApplyEdits(s, opening + stream), last) == ApplyEdit(ApplyEdits(s, opening + stream), last[0]);
  }

  /** A run split in two is the second part applied after the first. */
  lemma {:induction false} UpdateAllAppend(ss: seq<ChatSession>, id: Option<Id>, a: seq<SessionEdit>, b: seq<SessionEdit>)
    ensures UpdateAll(ss, id, a + b) == UpdateAll(UpdateAll(ss, id, a), id, b)
    decreases |b|
  {
    if b == [] {
      assert a + b == a;
    } else {
      assert (a + b)[..|a + b| - 1] == a + b[..|b| - 1];
      UpdateAllAppend(ss, id, a, b[..|b| - 1]);
    }
  }

  /** The streaming part of a run grows by one patch per update. */
  lemma UpdateAllStreamStep(ss: seq<ChatSession>, id: Option<Id>, botMsgId: Id, us: seq<StreamUpdate>, i: nat)
    requires i < |us|
    ensures UpdateAll(ss, id, StreamEdits(botMsgId, us[..i + 1]))
            == UpdateWhere(UpdateAll(ss, id, StreamEdits(botMsgId, us[..i])), id, PatchMessage(botMsgId, Streamed(us[i])))
  {
    assert StreamEdits(botMsgId, us[..i + 1]) == StreamEdits(botMsgId, us[..i]) + [PatchMessage(botMsgId, Streamed(us[i]))];
    UpdateAllSnoc(ss, id, StreamEdits(botMsgId, us[..i]), PatchMessage(botMsgId, Streamed(us[i])));
  }

  /** A whole send as a run: the two appends, the streaming patches, then the
      finalisation or the error patch. */
  lemma UpdateAllSend(ss: seq<ChatSession>, id: Option<Id>, title: string, userMsgId: Id, botMsgId: Id,
                      input: string, now: int, outcome: ProducerOutcome)
    ensures var opening := OpeningEdits(title, userMsgId, botMsgId, input, now);
      UpdateAll(ss, id, SendEdits(title, userMsgId, botMsgId, input, now, outcome))
      == UpdateWhere(UpdateAll(UpdateWhere(UpdateWhere(ss, id, opening[0]), id, opening[1]), id, StreamEdits(botMsgId, outcome.emitted)),
                     id, PatchMessage(botMsgId, if outcome.Completed? then Finished else Failed))
  {
    var opening := OpeningEdits(title, userMsgId, botMsgId, input, now);
    var stream := StreamEdits(botMsgId, outcome.emitted);
    UpdateAllSnoc(ss, id, opening + stream, PatchMessage(botMsgId, if outcome.Completed? then Finished else Failed));
    UpdateAllAppend(ss, id, opening, stream);
    assert opening == [opening[0], opening[1]];
    UpdateAllPair(ss, id, opening[0], opening[1]);
  }

  /** A whole send on the list: every session with the current id ends as
      `SentSession` says, and every other session is untouched. */
  lemma SendOnList(ss: seq<ChatSession>, id: Id, title: string, userMsgId: Id, botMsgId: Id,
                   input: string, now: int, outcome: ProducerOutcome)
    requires forall i :: 0 <= i < |ss| && ss[i].id == id ==> FreshIds(ss[i], userMsgId, botMsgId)
    ensures forall i :: 0 <= i < |ss| ==>
              UpdateAll(ss, Some(id), SendEdits(title, userMsgId, botMsgId, input, now, outcome))[i]
              == if ss[i].id == id then SentSession(ss[i], title, userMsgId, botMsgId, input, now, outcome) else ss[i]
  {
    var es := SendEdits(title, userMsgId, botMsgId, input, now, outcome);
    UpdateAllPointwise(ss, Some(id), es);
    forall i | 0 <= i < |ss| && ss[i].id == id
      ensures ApplyEdits(ss[i], es) == SentSession(ss[i], title, userMsgId, botMsgId, input, now, outcome)
    {
      SendResult(ss[i], title, userMsgId, botMsgId, input, now, outcome);
    }
  }

  /** After a send the session has a user message, so no later send changes
      its title; the title itself is the input-derived one only for the first
      user message. */
  lemma TitleFrozen(s: ChatSession, userMsgId: Id, botMsgId: Id, input: string, now: int,
                    outcome: ProducerOutcome, laterInput: string)
    requires FreshIds(s, userMsgId, botMsgId)
    ensures var r := ApplyEdits(s, SendEdits(NextTitle(s, input), userMsgId, botMsgId, input, now, outcome));
      && r.title == (if IsFirstUserMessage(s.messages) then Title(input) else s.title)
      && NextTitle(r, laterInput) == r.title
  {
    var title := NextTitle(s, input);
    SendResult(s, title, userMsgId, botMsgId, input, now, outcome);
    var r := SentSession(s, title, userMsgId, botMsgId, input, now, outcome);
    assert r.messages[|s.messages|].role == User;
  }

  /** With the producer of `aiConnect.ts` resolving, the assistant message ends
      holding the whole canned reply, the two sources and the metrics. */
  lemma CompletedWithMockProducer(botMsgId: Id, now: int, input: string)
    ensures FinalBotMessage(botMsgId, now, Completed(Emissions(input)))
            == Message(botMsgId, Model, MockResponse(input), now, Some(false), Some(FinalSources()), Some(FinalMetrics()))
  {
    FinalUpdate(input);
  }

  /** When the producer rejects, the assistant message ends with the error text
      and is no longer loading, whatever was streamed before. */
  lemma RejectedEndsInError(botMsgId: Id, now: int, us: seq<StreamUpdate>)
    ensures FinalBotMessage(botMsgId, now, Rejected(us)).content == ErrorText
    ensures FinalBotMessage(botMsgId, now, Rejected(us)).isLoading == Some(false)
    ensures FinalBotMessage(botMsgId, now, Rejected(us)).role == Model
  {
  }

  // ---------------------------------------------------------------------
  // Restoring and persisting

  /** The stored entry as read at startup: absent (or the empty string), not
      valid JSON, or a parsed session list. */
  datatype Stored = Missing | Unparseable | Parsed(list: seq<ChatSession>)

  /** The save effect: the list is written only when it is non-empty. */
  function Persisted(ss: seq<ChatSession>, stored: Stored): Stored
  {
    if |ss| > 0 then Parsed(ss) else stored
  }

  /** The session list after the mount effect, given the list before it and
      the session `createNewSession` would build. */
  function RestoredSessions(stored: Stored, before: seq<ChatSession>, created: ChatSession): (r: seq<ChatSession>)
    ensures |r| > 0
    ensures stored.Parsed? && |stored.list| > 0 ==> r == stored.list
    ensures !(stored.Parsed? && |stored.list| > 0) ==> r[0] == created
    ensures !(stored.Parsed? && |stored.list| > 0) ==> r[1..] == (if stored.Parsed? then [] else before)
  {
    match stored
    case Parsed(list) => if |list| > 0 then list else [created]
    case _ => [created] + before
  }

  /** The current id after the mount effect: always the head of the restored list. */
  function RestoredCurrent(stored: Stored, before: seq<ChatSession>, created: ChatSession): (r: Option<Id>)
    ensures r == Some(RestoredSessions(stored, before, created)[0].id)
  {
    match stored
    case Parsed(list) => if |list| > 0 then Some(list[0].id) else Some(created.id)
    case _ => Some(created.id)
  }

  /** Saving a non-empty list and restoring it gives the same list back, with
      its first session current; an empty list is never written. */
  lemma PersistRestore(ss: seq<ChatSession>, stored: Stored, before: seq<ChatSession>, created: ChatSession)
    ensures |ss| > 0 ==> (RestoredSessions(Persisted(ss, stored), before, created) == ss
                          && RestoredCurrent(Persisted(ss, stored), before, created) == Some(ss[0].id))
    ensures |ss| == 0 ==> Persisted(ss, stored) == stored
  {
  }
}
