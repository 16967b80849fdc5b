/** The conversation state of DiagnosticSystem (ai_doctor/src/App.tsx):
    the transcript, the busy flag, the conversation id, the final report,
    the chat-open flag and the active tab, moved by handleStartConversation
    and handleContinueConversation. Each handler is one atomic step whose
    awaited fetch and `response.json()` are given as an Outcome. */
module Conversation {
  import opened Wrappers
  import opened Json
  import opened Text
  import opened Intake
  import opened Chat

  datatype Sender = Ai | User

  datatype Message = Message(sender: Sender, text: string)

  datatype Tab = PatientTab | ResultsTab

  /** The fields of a reply body the client reads. None and JNull stand for
      a field that is absent or null. */
  datatype Reply = Reply(conversationId: Option<string>, pendingQuestion: Option<string>, finalAnalysis: Json)

  /** What awaiting `fetch` and `response.json()` produced: a body, or a
      thrown network or JSON error. */
  datatype Outcome = Received(reply: Reply) | Thrown

  /** The continue request sent: `?conversation_id=` and the `answer` body. */
  datatype ContinueRequest = ContinueRequest(conversationId: string, answer: string)

  /** `if (result.pending_question)`: a present, non-empty question. */
  predicate AsksQuestion(r: Reply) {
    r.pendingQuestion.Some? && r.pendingQuestion.value != ""
  }

  /** `!conversationId` is false: an id is held and it is not "". */
  predicate HasHandle(id: Option<string>) {
    id.Some? && id.value != ""
  }

  /** The conversation fields of DiagnosticSystem, as a value. */
  datatype Display = Display(
    messages: seq<Message>, isChatOpen: bool, isLoading: bool,
    conversationId: Option<string>, finalReport: Json, activeTab: Tab)

  /** The state after handleStartConversation with the given outcome. */
  function AfterStart(d: Display, o: Outcome): Display {
    match o
    case Thrown => d.(isLoading := false)
    case Received(r) =>
      var withId := d.(conversationId := r.conversationId);
      var shown :=
        if AsksQuestion(r) then withId.(messages := [Message(Ai, r.pendingQuestion.value)], isChatOpen := true)
        else withId.(finalReport := r.finalAnalysis, activeTab := ResultsTab);
      shown.(isLoading := false)
  }

  /** The request handleContinueConversation sends, if any. */
  function RequestFor(d: Display, answer: string): Option<ContinueRequest> {
    if HasHandle(d.conversationId) then Some(ContinueRequest(d.conversationId.value, answer)) else None
  }

  /** The state after handleContinueConversation(answer) with the given outcome. */
  function AfterContinue(d: Display, answer: string, o: Outcome): Display {
    if !HasHandle(d.conversationId) then d
    else
      var sent := d.(messages := d.messages + [Message(User, answer)], isLoading := true);
      var answered :=
        match o
        case Thrown => sent
        case Received(r) =>
          if AsksQuestion(r) then sent.(messages := sent.messages + [Message(Ai, r.pendingQuestion.value)])
          else if JsTruthy(r.finalAnalysis) then sent.(finalReport := r.finalAnalysis, activeTab := ResultsTab, isChatOpen := false)
          else sent;
      answered.(isLoading := false)
  }

  class DiagnosticSystem {
    var activeTab: Tab
    var symptoms: seq<Symptom>
    var vitals: VitalFields
    var patientData: PatientFields
    var messages: seq<Message>
    var isChatOpen: bool
    var isLoading: bool
    var conversationId: Option<string>
    var finalReport: Json

    /** The conversation fields together. */
    function Shown(): Display
      reads this
    {
      Display(messages, isChatOpen, isLoading, conversationId, finalReport, activeTab)
    }

    /** The initial useState values; note that the busy flag starts true. */
    constructor ()
      ensures activeTab == PatientTab && symptoms == []
      ensures vitals == VitalFields("", "", "", "", "", "")
      ensures patientData == PatientFields("", "", "", "", "", "")
      ensures messages == [] && !isChatOpen && isLoading
      ensures conversationId == None && finalReport == JNull
    {
      activeTab := PatientTab;
      symptoms := [];
      vitals := VitalFields("", "", "", "", "", "");
      patientData := PatientFields("", "", "", "", "", "");
      messages := [];
      isChatOpen := false;
      isLoading := true;
      conversationId := None;
      finalReport := JNull;
    }

    /** The tab buttons: setActiveTab('patient') or setActiveTab('results'). */
    method SetActiveTab(tab: Tab)
      modifies this
      ensures Shown() == old(Shown()).(activeTab := tab)
      ensures symptoms == old(symptoms) && vitals == old(vitals) && patientData == old(patientData)
    {
      activeTab := tab;
    }

    /** The form's setters (setPatientData, setSymptoms, setVitals). */
    method SetForm(p: PatientFields, s: seq<Symptom>, v: VitalFields)
      modifies this
      ensures Shown() == old(Shown())
      ensures patientData == p && symptoms == s && vitals == v
    {
      patientData, symptoms, vitals := p, s, v;
    }

    /** handleStartConversation: posts the payload built from the form, then
        applies the outcome. */
    method HandleStartConversation(o: Outcome) returns (payload: PatientPayload)
      modifies this
      ensures payload == BuildPayload(old(patientData), old(symptoms), old(vitals))
      ensures Shown() == AfterStart(old(Shown()), o)
      ensures symptoms == old(symptoms) && vitals == old(vitals) && patientData == old(patientData)
    {
      isLoading := true;
      payload := BuildPayload(patientData, symptoms, vitals);
      ReceiveStart(o);
    }

    /** The try/finally of handleStartConversation once the request is made. */
    method ReceiveStart(o: Outcome)
      modifies this
      ensures Shown() == AfterStart(old(Shown()), o)
      ensures symptoms == old(symptoms) && vitals == old(vitals) && patientData == old(patientData)
    {
      match o {
        case Thrown =>
        case Received(r) =>
          conversationId := r.conversationId;
          if AsksQuestion(r) {
            messages := [Message(Ai, r.pendingQuestion.value)];
            isChatOpen := true;
          } else {
            finalReport := r.finalAnalysis;
            activeTab := ResultsTab;
          }
      }
      isLoading := false;
    }

    /** handleContinueConversation(answer): without an id nothing happens and
        nothing is sent; otherwise the answer is appended, the request sent
        and the outcome applied. */
    method HandleContinueConversation(answer: string, o: Outcome) returns (request: Option<ContinueRequest>)
      modifies this
      ensures request == RequestFor(old(Shown()), answer)
      ensures Shown() == AfterContinue(old(Shown()), answer, o)
      ensures symptoms == old(symptoms) && vitals == old(vitals) && patientData == old(patientData)
    {
      if !HasHandle(conversationId) {
        return None;
      }
      messages := messages + [Message(User, answer)];
      isLoading := true;
      request := Some(ContinueRequest(conversationId.value, answer));
      match o {
        case Thrown =>
        case Received(r) =>
          if AsksQuestion(r) {
            messages := messages + [Message(Ai, r.pendingQuestion.value)];
          } else if JsTruthy(r.finalAnalysis) {
            finalReport := r.finalAnalysis;
            activeTab := ResultsTab;
            isChatOpen := false;
          }
      }
      isLoading := false;
    }

    /** The chat panel rendered while the chat is open, wired to
        handleContinueConversation and the busy flag: clicking Send. */
    method SendFromChatPanel(panel: ChatPanel, o: Outcome) returns (request: Option<ContinueRequest>)
      modifies this, panel
      ensures var sent := if old(isChatOpen) then SendGate(old(panel.input), old(isLoading)) else None;
        && (sent.None? ==> request == None && Shown() == old(Shown()) && panel.input == old(panel.input))
        && (sent.Some? ==> request == RequestFor(old(Shown()), sent.value)
                           && Shown() == AfterContinue(old(Shown()), sent.value, o)
                           && panel.input == "")
      ensures symptoms == old(symptoms) && vitals == old(vitals) && patientData == old(patientData)
    {
      request := None;
      if isChatOpen {
        var sent := panel.ClickSend(isLoading);
        if sent.Some? {
          request := HandleContinueConversation(sent.value, o);
        }
      }
    }
  }

  /** A start either opens the chat on exactly the server's question or
      shows the results with the server's report; the id is always taken
      from the reply and the busy flag always ends false. */
  lemma StartOutcomes(d: Display, r: Reply)
    ensures var e := AfterStart(d, Received(r));
      && e.conversationId == r.conversationId && !e.isLoading
      && (AsksQuestion(r) ==> e.messages == [Message(Ai, r.pendingQuestion.value)] && e.isChatOpen
                              && e.finalReport == d.finalReport && e.activeTab == d.activeTab)
      && (!AsksQuestion(r) ==> e.finalReport == r.finalAnalysis && e.activeTab == ResultsTab
                               && e.messages == d.messages && e.isChatOpen == d.isChatOpen)
  {
  }

  /** A thrown start only clears the busy flag. */
  lemma FailedStartOnlyClearsBusy(d: Display)
    ensures AfterStart(d, Thrown) == d.(isLoading := false)
  {
  }

  /** The user's answer is kept whatever the outcome, right after the
      transcript it was given to; without an id nothing at all changes. */
  lemma AnswerIsNeverRolledBack(d: Display, answer: string, o: Outcome)
    ensures !HasHandle(d.conversationId) ==> AfterContinue(d, answer, o) == d
    ensures HasHandle(d.conversationId) ==>
      var e := AfterContinue(d, answer, o);
      && |e.messages| >= |d.messages| + 1
      && e.messages[..|d.messages| + 1] == d.messages + [Message(User, answer)]
      && !e.isLoading
  {
  }

  /** What a continue outcome does beyond recording the answer. */
  lemma ContinueOutcomes(d: Display, answer: string, r: Reply)
    requires HasHandle(d.conversationId)
    ensures var e := AfterContinue(d, answer, Received(r));
      && e.conversationId == d.conversationId
      && (AsksQuestion(r) ==>
            e == d.(messages := d.messages + [Message(User, answer), Message(Ai, r.pendingQuestion.value)],
                    isLoading := false))
      && (!AsksQuestion(r) && JsTruthy(r.finalAnalysis) ==>
            e == d.(messages := d.messages + [Message(User, answer)], finalReport := r.finalAnalysis,
                    activeTab := ResultsTab, isChatOpen := false, isLoading := false))
      && (!AsksQuestion(r) && !JsTruthy(r.finalAnalysis) ==>
            e == d.(messages := d.messages + [Message(User, answer)], isLoading := false))
  {
  }

  /** A thrown continue keeps the answer and only clears the busy flag. */
  lemma FailedContinueKeepsAnswer(d: Display, answer: string)
    requires HasHandle(d.conversationId)
    ensures AfterContinue(d, answer, Thrown) == d.(messages := d.messages + [Message(User, answer)], isLoading := false)
  {
  }

  /** A sequence of answers, each with the outcome of its request. */
  function Continues(d: Display, turns: seq<(string, Outcome)>): Display
    decreases |turns|
  {
    if turns == [] then d else Continues(AfterContinue(d, turns[0].0, turns[0].1), turns[1..])
  }

  /** The user's messages, in order. */
  function UserTexts(ms: seq<Message>): (r: seq<string>)
    ensures |r| <= |ms|
  {
    if ms == [] then []
    else (if ms[0].sender == User then [ms[0].text] else []) + UserTexts(ms[1..])
  }

  function Answers(turns: seq<(string, Outcome)>): (r: seq<string>)
    ensures |r| == |turns|
  {
    if turns == [] then [] else [turns[0].0] + Answers(turns[1..])
  }

  lemma {:induction false} UserTextsAppend(a: seq<Message>, b: seq<Message>)
    ensures UserTexts(a + b) == UserTexts(a) + UserTexts(b)
  {
    if a != [] {
      assert (a + b)[1..] == a[1..] + b;
      UserTextsAppend(a[1..], b);
    } else {
      assert a + b == b;
    }
  }

  /** One continue with an id held records exactly the answer among the
      user's messages and keeps the transcript as a prefix. */
  lemma ContinueRecordsAnswer(d: Display, answer: string, o: Outcome)
    requires HasHandle(d.conversationId)
    ensures var e := AfterContinue(d, answer, o);
      && |d.messages| <= |e.messages| && e.messages[..|d.messages|] == d.messages
      && UserTexts(e.messages) == UserTexts(d.messages) + [answer]
  {
    var e := AfterContinue(d, answer, o);
    var user := [Message(User, answer)];
    assert UserTexts(user) == [answer];
    if e.messages == d.messages + user {
      UserTextsAppend(d.messages, user);
    } else {
      var ai := [e.messages[|e.messages| - 1]];
      assert ai[0].sender == Ai;
      assert UserTexts(ai) == [];
      assert e.messages == d.messages + (user + ai);
      UserTextsAppend(user, ai);
      UserTextsAppend(d.messages, user + ai);
    }
  }

  /** Over any run of continues the transcript only grows, the id never
      changes, and when an id is held every answer is recorded in order,
      whatever the server answered or failed to answer. */
  lemma {:induction false} TranscriptOnlyGrows(d: Display, turns: seq<(string, Outcome)>)
    ensures var e := Continues(d, turns);
      && |d.messages| <= |e.messages| && e.messages[..|d.messages|] == d.messages
      && e.conversationId == d.conversationId
      && (HasHandle(d.conversationId) ==> UserTexts(e.messages) == UserTexts(d.messages) + Answers(turns))
      && (!HasHandle(d.conversationId) ==> e == d)
    decreases |turns|
  {
    if turns != [] {
      var d1 := AfterContinue(d, turns[0].0, turns[0].1);
      TranscriptOnlyGrows(d1, turns[1..]);
      if HasHandle(d.conversationId) {
        ContinueRecordsAnswer(d, turns[0].0, turns[0].1);
        var e := Continues(d1, turns[1..]);
        assert e.messages[..|d.messages|] == e.messages[..|d1.messages|][..|d.messages|];
        assert Answers(turns) == [turns[0].0] + Answers(turns[1..]);
      }
    }
  }
}
