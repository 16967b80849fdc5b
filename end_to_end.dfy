/** The client of ai_doctor/src/App.tsx talking to the session store of
    backend/main.py: the reply bodies the backend returns, as the client
    reads them, and what the client shows over a whole conversation. */
module EndToEnd {
  import opened Wrappers
  import opened Json
  import opened Sessions
  import opened Conversation

  /** The body `start` returns, as the client reads it. It carries no
      final_analysis, which the client reads as absent. */
  function StartBody(r: StartReply): Reply {
    Reply(Some(r.conversationId), r.pendingQuestion, JNull)
  }

  /** The report `continue_chat` returns once every question is answered. */
  function Report(answers: seq<string>): Json {
    JObj(map["answers" := Strings(answers)])
  }

  /** The body `continue_chat` returns, as the client reads it. */
  function ContinueBody(r: ContinueReply): Reply {
    match r
    case InvalidConversation => Reply(None, None, JNull)
    case Finished(answers) => Reply(None, None, Report(answers))
    case Asked(id, question, _) => Reply(Some(id), Some(question), JNull)
  }

  /** Questions the client can show: `if (result.pending_question)` skips
      an empty one. */
  predicate Showable(questions: seq<string>) {
    forall i :: 0 <= i < |questions| ==> questions[i] != ""
  }

  /** The transcript of a conversation whose answers so far are `answers`:
      the first question, then each answer followed by the next question
      while one remains. */
  function Transcript(questions: seq<string>, answers: seq<string>): (r: seq<Message>)
    ensures |r| == |answers| + Min(|answers| + 1, |questions|)
    decreases |answers|
  {
    if answers == [] then (if questions != [] then [Message(Ai, questions[0])] else [])
    else
      var k := |answers|;
      Transcript(questions, answers[..k - 1]) + [Message(User, answers[k - 1])]
      + (if k < |questions| then [Message(Ai, questions[k])] else [])
  }

  /** The client's display agrees with the backend's row for session `id`:
      it holds the id, shows the transcript of the answers recorded, keeps
      the chat open while questions remain and, once they are all answered,
      shows the report of every recorded answer. */
  predicate InSync(d: Display, s: Session, id: string) {
    && id != "" && d.conversationId == Some(id)
    && Consistent(s) && Showable(s.questions) && s.questions != []
    && d.messages == Transcript(s.questions, s.answers)
    && !d.isLoading
    && (|s.answers| < |s.questions| ==> d.isChatOpen)
    && (|s.answers| >= |s.questions| ==>
          d.finalReport == Report(s.answers) && d.activeTab == ResultsTab && !d.isChatOpen)
  }

  /** A start with questions opens the chat on the first one, in step with
      the new session. */
  lemma StartIsInSync(d: Display, id: string, questions: seq<string>)
    requires id != "" && questions != [] && Showable(questions)
    ensures InSync(AfterStart(d, Received(StartBody(StartReply(id, FirstQuestion(questions), |questions|)))),
                   Opened(questions), id)
  {
    OpenedIsConsistent(questions);
  }

  /** A start without questions switches to the results tab with no report
      at all: the backend's start reply never carries final_analysis. */
  lemma StartWithoutQuestionsShowsNoReport(d: Display, id: string)
    ensures var e := AfterStart(d, Received(StartBody(StartReply(id, FirstQuestion([]), 0))));
      && e.activeTab == ResultsTab && e.finalReport == JNull
      && e.messages == d.messages && e.isChatOpen == d.isChatOpen
      && e.conversationId == Some(id)
  {
  }

  /** An unknown id: the client keeps the answer it showed, clears the busy
      flag and changes nothing else. */
  lemma UnknownConversationKeepsAnswerOnly(d: Display, answer: string)
    requires HasHandle(d.conversationId)
    ensures AfterContinue(d, answer, Received(ContinueBody(InvalidConversation)))
         == d.(messages := d.messages + [Message(User, answer)], isLoading := false)
  {
  }

  /** Each continue keeps the client and the backend in step. */
  lemma ContinueStaysInSync(d: Display, s: Session, id: string, answer: string)
    requires InSync(d, s, id)
    ensures var (t, r) := Continue(id, s, answer);
      InSync(AfterContinue(d, answer, Received(ContinueBody(r))), t, id)
  {
    var (t, r) := Continue(id, s, answer);
    ContinueKeepsConsistent(id, s, answer);
    var e := AfterContinue(d, answer, Received(ContinueBody(r)));
    var k := |t.answers|;
    assert t.answers[..k - 1] == s.answers;
    if r.Asked? {
      assert r.question == s.questions[k];
      assert e.messages == d.messages + [Message(User, answer), Message(Ai, s.questions[k])];
    } else {
      assert k >= |s.questions|;
      assert e.messages == d.messages + [Message(User, answer)];
    }
  }

  /** The client's turns for a run of answers and the backend's replies. */
  function Turns(answers: seq<string>, replies: seq<ContinueReply>): (r: seq<(string, Outcome)>)
    requires |answers| == |replies|
    ensures |r| == |answers|
    ensures forall i :: 0 <= i < |r| ==> r[i] == (answers[i], Received(ContinueBody(replies[i])))
  {
    if answers == [] then [] else [(answers[0], Received(ContinueBody(replies[0])))] + Turns(answers[1..], replies[1..])
  }

  /** A run of continues keeps the client and the backend in step. */
  lemma {:induction false} ReplayStaysInSync(d: Display, s: Session, id: string, answers: seq<string>)
    requires InSync(d, s, id)
    ensures var (t, replies) := Replay(id, s, answers);
      InSync(Continues(d, Turns(answers, replies)), t, id)
    decreases |answers|
  {
    if answers != [] {
      var (t, r) := Continue(id, s, answers[0]);
      ContinueStaysInSync(d, s, id, answers[0]);
      var d1 := AfterContinue(d, answers[0], Received(ContinueBody(r)));
      ReplayStaysInSync(d1, t, id, answers[1..]);
      var replies := Replay(id, s, answers).1;
      var turns := Turns(answers, replies);
      assert turns[0] == (answers[0], Received(ContinueBody(r)));
      assert turns[1..] == Turns(answers[1..], Replay(id, t, answers[1..]).1);
    }
  }

  /** A whole conversation: after the start and one answer per question,
      the client shows every question followed by its answer, and the
      report holding exactly those answers on the results tab. */
  lemma WholeConversation(d: Display, id: string, questions: seq<string>, answers: seq<string>)
    requires id != "" && questions != [] && Showable(questions)
    requires |answers| == |questions|
    ensures var started := AfterStart(d, Received(StartBody(StartReply(id, FirstQuestion(questions), |questions|))));
      var e := Continues(started, Turns(answers, Replay(id, Opened(questions), answers).1));
      && e.messages == Transcript(questions, answers)
      && e.finalReport == Report(answers) && e.activeTab == ResultsTab && !e.isChatOpen
      && (forall i :: 0 <= i < |questions| ==>
            e.messages[2 * i] == Message(Ai, questions[i]) && e.messages[2 * i + 1] == Message(User, answers[i]))
  {
    var started := AfterStart(d, Received(StartBody(StartReply(id, FirstQuestion(questions), |questions|))));
    var s := Opened(questions);
    StartIsInSync(d, id, questions);
    ReplayStaysInSync(started, s, id, answers);
    ReplayAdvances(id, s, answers);
    var (t, replies) := Replay(id, s, answers);
    assert t.answers == answers && t.questions == questions;
    var e := Continues(started, Turns(answers, replies));
    assert InSync(e, t, id);
    TranscriptAlternates(questions, answers);
  }

  /** Up to the last question, the transcript alternates question and answer. */
  lemma {:induction false} TranscriptAlternates(questions: seq<string>, answers: seq<string>)
    requires |answers| <= |questions|
    ensures var m := Transcript(questions, answers);
      forall i :: 0 <= i < |answers| ==>
        m[2 * i] == Message(Ai, questions[i]) && m[2 * i + 1] == Message(User, answers[i])
    decreases |answers|
  {
    if answers != [] {
      var k := |answers|;
      TranscriptAlternates(questions, answers[..k - 1]);
      var m := Transcript(questions, answers);
      var prefix := Transcript(questions, answers[..k - 1]);
      assert |prefix| == 2 * k - 1;
      assert m[..|prefix|] == prefix;
      assert m[2 * k - 1] == Message(User, answers[k - 1]);
    }
  }
}
