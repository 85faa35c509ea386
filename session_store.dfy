/** The state of the `App` component and the handlers that change it:
    creating, selecting and deleting sessions, sending a message and applying
    the producer's updates, and the mount and save effects. Each React setter
    becomes an assignment to a field; a functional setter reads the latest
    value of the field. */
module SessionStore {
  import opened Types
  import opened JsString
  import opened AiConnect
  import opened SessionOps

  class Store {
    var sessions: seq<ChatSession>
    var currentSessionId: Option<Id>
    var input: string
    var isProcessing: bool
    var selectedModel: GeminiModel
    /** The local-storage entry under the key "veritas_chat_sessions_v1". */
    var storage: Stored

    /** The initial hook values, with whatever the browser has stored. */
    constructor (stored: Stored)
      ensures sessions == [] && currentSessionId == None && input == "" && !isProcessing
      ensures selectedModel == Flash && storage == stored
    {
      sessions := [];
      currentSessionId := None;
      input := "";
      isProcessing := false;
      selectedModel := Flash;
      storage := stored;
    }

    /** The current id names a listed session, and a non-empty list has a
        current session. */
    predicate CurrentIsListed()
      reads this
    {
      (currentSessionId.Some? ==> HasSession(sessions, currentSessionId.value))
      && (|sessions| > 0 ==> currentSessionId.Some?)
    }

    /** `getCurrentSession()`. */
    function CurrentSession(): Option<ChatSession>
      reads this
    {
      FindSession(sessions, currentSessionId)
    }

    /** The early returns of `handleSendMessage`: blank input, no current id
        (null or empty), a send in progress, or no session with that id. */
    predicate SendBlocked()
      reads this
    {
      Trim(input) == "" || currentSessionId.None? || currentSessionId.value == "" || isProcessing
      || CurrentSession().None?
    }

    /** The text field's `onChange`. */
    method SetInput(text: string)
      modifies this`input
      ensures input == text
    {
      input := text;
    }

    /** The model selector's `onChange`: later sessions are created with it. */
    method SetSelectedModel(model: GeminiModel)
      modifies this`selectedModel
      ensures selectedModel == model
    {
      selectedModel := model;
    }

    /** `createNewSession`: the new session goes in front of the others, which
        keep their order, and becomes current. */
    method CreateNewSession(id: Id, systemMsgId: Id, welcomeMsgId: Id, now: int)
      modifies this`sessions, this`currentSessionId
      ensures sessions == [NewSession(id, systemMsgId, welcomeMsgId, selectedModel, now)] + old(sessions)
      ensures currentSessionId == Some(id)
      ensures CurrentIsListed()
    {
      var newSession := NewSession(id, systemMsgId, welcomeMsgId, selectedModel, now);
      sessions := [newSession] + sessions;
      currentSessionId := Some(newSession.id);
      assert sessions[0].id == id;
    }

    /** The sidebar's `onSelectSession`: the id is taken as given. */
    method SelectSession(id: Id)
      modifies this`currentSessionId
      ensures currentSessionId == Some(id)
      ensures HasSession(sessions, id) ==> CurrentIsListed()
    {
      currentSessionId := Some(id);
    }

    /** `deleteSession`: every session with the id goes, the rest keep their
        order. Deleting the current session makes the head of the rest
        current, or no session, in which case a fresh session is scheduled
        (`createScheduled`) to be created afterwards. */
    method DeleteSession(id: Id) returns (createScheduled: bool)
      modifies this`sessions, this`currentSessionId
      ensures sessions == RemoveById(old(sessions), id)
      ensures old(currentSessionId) != Some(id) ==> currentSessionId == old(currentSessionId)
      ensures old(currentSessionId) == Some(id) ==>
                currentSessionId == if sessions == [] then None else Some(sessions[0].id)
      ensures createScheduled <==> old(currentSessionId) == Some(id) && sessions == []
      ensures old(CurrentIsListed()) ==> CurrentIsListed()
    {
      var newSessions := RemoveById(sessions, id);
      ghost var before := sessions;
      sessions := newSessions;
      createScheduled := false;
      if currentSessionId == Some(id) {
        currentSessionId := if |newSessions| > 0 then Some(newSessions[0].id) else None;
        createScheduled := |newSessions| == 0;
      } else if currentSessionId.Some? && HasSession(before, currentSessionId.value) {
        var i :| 0 <= i < |before| && before[i].id == currentSessionId.value;
        assert before[i] in newSessions;
        var j :| 0 <= j < |newSessions| && newSessions[j] == before[i];
      }
    }

    /** A deletion followed by the scheduled creation, if any: a non-empty
        list with a listed current session stays so, and deleting the only
        session leaves exactly one fresh session, current. */
    method DeleteAndRunScheduled(id: Id, newId: Id, systemMsgId: Id, welcomeMsgId: Id, now: int)
      modifies this`sessions, this`currentSessionId
      ensures var rest := RemoveById(old(sessions), id);
        sessions == if old(currentSessionId) == Some(id) && rest == []
                    then [NewSession(newId, systemMsgId, welcomeMsgId, selectedModel, now)]
                    else rest
      ensures var rest := RemoveById(old(sessions), id);
        currentSessionId == if old(currentSessionId) != Some(id) then old(currentSessionId)
                            else if rest == [] then Some(newId)
                            else Some(rest[0].id)
      ensures old(CurrentIsListed()) ==> CurrentIsListed()
      ensures old(CurrentIsListed()) && |old(sessions)| > 0 ==> |sessions| > 0
      ensures old(currentSessionId) == Some(id) && (forall i :: 0 <= i < |old(sessions)| ==> old(sessions)[i].id == id) ==>
                sessions == [NewSession(newId, systemMsgId, welcomeMsgId, selectedModel, now)]
                && currentSessionId == Some(newId)
    {
      var createScheduled := DeleteSession(id);
      if createScheduled {
        CreateNewSession(newId, systemMsgId, welcomeMsgId, now);
      }
    }

    /** `updateCurrentSession(updater)`: the updater is applied to the
        sessions whose id is the current id; no other session changes. */
    method UpdateCurrentSession(e: SessionEdit)
      modifies this`sessions
      ensures sessions == UpdateWhere(old(sessions), currentSessionId, e)
      ensures input == old(input) && isProcessing == old(isProcessing) && currentSessionId == old(currentSessionId)
    {
      sessions := UpdateWhere(sessions, currentSessionId, e);
    }

    /** `handleSendMessage` up to the awaited producer call: the guard, the
        title, the user message, the cleared input, the processing flag and the
        loading placeholder. A blocked send changes nothing. */
    method BeginSend(userMsgId: Id, botMsgId: Id, now: int) returns (started: bool)
      modifies this`sessions, this`input, this`isProcessing
      ensures started == !old(SendBlocked())
      ensures !started ==> sessions == old(sessions) && input == old(input) && isProcessing == old(isProcessing)
      ensures started ==> isProcessing && input == ""
      ensures started ==>
                var opening := OpeningEdits(NextTitle(old(CurrentSession()).value, old(input)), userMsgId, botMsgId, old(input), now);
                sessions == UpdateWhere(UpdateWhere(old(sessions), currentSessionId, opening[0]), currentSessionId, opening[1])
    {
      if SendBlocked() {
        return false;
      }
      var currentSession := CurrentSession().value;
      var text := input;
      var newTitle := NextTitle(currentSession, text);
      UpdateCurrentSession(AppendUserMessage(newTitle, UserMessage(userMsgId, text, now), now));
      input := "";
      isProcessing := true;
      UpdateCurrentSession(AppendMessage(Placeholder(botMsgId, now)));
      started := true;
    }

    /** The `onUpdate` callback: the streaming update is written into the
        assistant message with id `botMsgId`. */
    method ApplyStreamUpdate(botMsgId: Id, u: StreamUpdate)
      modifies this`sessions
      ensures sessions == UpdateWhere(old(sessions), currentSessionId, PatchMessage(botMsgId, Streamed(u)))
    {
      UpdateCurrentSession(PatchMessage(botMsgId, Streamed(u)));
    }

    /** After the awaited call: finalisation when it resolved, the error text
        when it rejected, and in both cases the processing flag cleared. */
    method FinishSend(botMsgId: Id, resolved: bool)
      modifies this`sessions, this`isProcessing
      ensures sessions == UpdateWhere(old(sessions), currentSessionId, PatchMessage(botMsgId, if resolved then Finished else Failed))
      ensures !isProcessing && input == old(input) && currentSessionId == old(currentSessionId)
    {
      if resolved {
        UpdateCurrentSession(PatchMessage(botMsgId, Finished));
      } else {
        UpdateCurrentSession(PatchMessage(botMsgId, Failed));
      }
      isProcessing := false;
    }

    /** Every `onUpdate` call of the producer, in order. */
    method StreamAll(botMsgId: Id, us: seq<StreamUpdate>)
      modifies this`sessions
      ensures sessions == UpdateAll(old(sessions), currentSessionId, StreamEdits(botMsgId, us))
      ensures input == old(input) && isProcessing == old(isProcessing) && currentSessionId == old(currentSessionId)
    {
      ghost var before := sessions;
      for i := 0 to |us|
        invariant sessions == UpdateAll(before, currentSessionId, StreamEdits(botMsgId, us[..i]))
      {
        ApplyStreamUpdate(botMsgId, us[i]);
        UpdateAllStreamStep(before, currentSessionId, botMsgId, us, i);
      }
      assert us[..|us|] == us;
    }

    /** `handleSendMessage` with the producer's behaviour given as `outcome`:
        a blocked send changes nothing; otherwise the current session receives
        every edit of the send in order, the input is cleared, the processing
        flag ends false and the current session stays current. */
    method HandleSendMessage(userMsgId: Id, botMsgId: Id, now: int, outcome: ProducerOutcome) returns (sent: bool)
      modifies this`sessions, this`input, this`isProcessing
      ensures sent == !old(SendBlocked())
      ensures !sent ==> sessions == old(sessions) && input == old(input) && isProcessing == old(isProcessing)
      ensures sent ==> sessions == UpdateAll(old(sessions), currentSessionId,
                SendEdits(NextTitle(old(CurrentSession()).value, old(input)), userMsgId, botMsgId, old(input), now, outcome))
      ensures sent ==> !isProcessing && input == ""
      ensures old(CurrentIsListed()) ==> CurrentIsListed()
    {
      ghost var title := if CurrentSession().Some? then NextTitle(CurrentSession().value, input) else "";
      ghost var text := input;
      ghost var before := sessions;
      sent := BeginSend(userMsgId, botMsgId, now);
      if !sent {
        return;
      }
      StreamAll(botMsgId, outcome.emitted);
      FinishSend(botMsgId, outcome.Completed?);
      assert input == "";
      UpdateAllSend(before, currentSessionId, title, userMsgId, botMsgId, text, now, outcome);
      if old(CurrentIsListed()) {
        var k :| 0 <= k < |before| && before[k].id == currentSessionId.value;
        assert sessions[k].id == currentSessionId.value;
      }
    }

    /** The mount effect: a stored non-empty list is taken as it is, with its
        head current; otherwise a fresh session is created. */
    method Restore(id: Id, systemMsgId: Id, welcomeMsgId: Id, now: int)
      modifies this`sessions, this`currentSessionId
      ensures sessions == RestoredSessions(storage, old(sessions), NewSession(id, systemMsgId, welcomeMsgId, selectedModel, now))
      ensures currentSessionId == RestoredCurrent(storage, old(sessions), NewSession(id, systemMsgId, welcomeMsgId, selectedModel, now))
      ensures CurrentIsListed()
    {
      match storage
      case Parsed(list) =>
        sessions := list;
        if |list| > 0 {
          currentSessionId := Some(list[0].id);
          assert sessions[0].id == list[0].id;
        } else {
          CreateNewSession(id, systemMsgId, welcomeMsgId, now);
        }
      case _ =>
        CreateNewSession(id, systemMsgId, welcomeMsgId, now);
    }

    /** The save effect: the list is written whenever it is non-empty. */
    method SaveSessions()
      modifies this`storage
      ensures storage == Persisted(sessions, old(storage))
    {
      if |sessions| > 0 {
        storage := Parsed(sessions);
      }
    }
  }
}
