/** The backend's session store (backend/main.py): four module-level
    dictionaries keyed by conversation id that hold, per session, the graph
    state, the question list, a cursor into it and the answers so far. */
module Sessions {
  import opened Wrappers
  import opened Json
  import opened Numerals

  /** One session's row of the question, index and answer tables. */
  datatype Session = Session(questions: seq<string>, index: int, answers: seq<string>)

  /** The body of a /diagnose/start reply. */
  datatype StartReply = StartReply(conversationId: string, pendingQuestion: Option<string>, totalQuestions: nat)

  /** The bodies /diagnose/continue can return. */
  datatype ContinueReply =
    | InvalidConversation
    | Finished(answers: seq<string>)
    | Asked(conversationId: string, question: string, remaining: int)

  /** What `start` stores for a new session: no answers, and the cursor past
      the first question when there is one. */
  function Opened(questions: seq<string>): Session {
    Session(questions, if questions != [] then 1 else 0, [])
  }

  function FirstQuestion(questions: seq<string>): Option<string> {
    if questions != [] then Some(questions[0]) else None
  }

  /** The cursor stays within the list, a non-empty list has had its first
      question sent, and while questions remain every sent question but the
      last has been answered. */
  predicate Consistent(s: Session) {
    && 0 <= s.index <= |s.questions|
    && (s.questions != [] ==> 1 <= s.index)
    && s.index <= |s.answers| + 1
    && (s.index < |s.questions| ==> |s.answers| + 1 == s.index)
  }

  /** `continue_chat` on a known session: record the answer, then either send
      the question under the cursor and advance it, or return every answer. */
  function Continue(id: string, s: Session, answer: string): (r: (Session, ContinueReply))
    requires 0 <= s.index
  {
    var recorded := s.answers + [answer];
    if s.index >= |s.questions| then (s.(answers := recorded), Finished(recorded))
    else (s.(index := s.index + 1, answers := recorded), Asked(id, s.questions[s.index], |s.questions| - s.index))
  }

  lemma OpenedIsConsistent(questions: seq<string>)
    ensures Consistent(Opened(questions))
  {
  }

  /** Every continue records exactly the answer, keeps the cursor in range
      and moves it by one exactly when a question is sent. */
  lemma ContinueKeepsConsistent(id: string, s: Session, answer: string)
    requires Consistent(s)
    ensures var (t, r) := Continue(id, s, answer);
      && Consistent(t)
      && t.questions == s.questions && t.answers == s.answers + [answer]
      && (r.Finished? <==> s.index == |s.questions|)
      && (r.Finished? ==> t.index == s.index && r.answers == t.answers)
      && (r.Asked? ==> t.index == s.index + 1 && r.question == s.questions[s.index]
                       && r.remaining == |s.questions| - s.index && r.conversationId == id)
  {
  }

  /** A run of continues on one session, with every reply. */
  function Replay(id: string, s: Session, answers: seq<string>): (r: (Session, seq<ContinueReply>))
    requires 0 <= s.index
    ensures |r.1| == |answers| && r.0.questions == s.questions
    ensures s.index <= r.0.index && (s.index <= |s.questions| ==> r.0.index <= |s.questions|)
    decreases |answers|
  {
    if answers == [] then (s, [])
    else
      var (t, reply) := Continue(id, s, answers[0]);
      var (u, replies) := Replay(id, t, answers[1..]);
      (u, [reply] + replies)
  }

  /** The questions sent by a sequence of continue replies, in order. */
  function AskedQuestions(replies: seq<ContinueReply>): seq<string> {
    if replies == [] then []
    else (if replies[0].Asked? then [replies[0].question] else []) + AskedQuestions(replies[1..])
  }

  function Min(a: int, b: int): int { if a <= b then a else b }

  /** A run of continues records every answer and moves the cursor to the
      end of the list at most, one step per question sent. */
  lemma {:induction false} ReplayAdvances(id: string, s: Session, answers: seq<string>)
    requires Consistent(s)
    ensures var t := Replay(id, s, answers).0;
      && Consistent(t)
      && t.questions == s.questions
      && t.answers == s.answers + answers
      && t.index == Min(s.index + |answers|, |s.questions|)
    decreases |answers|
  {
    if answers != [] {
      var t := Continue(id, s, answers[0]).0;
      ContinueKeepsConsistent(id, s, answers[0]);
      ReplayAdvances(id, t, answers[1..]);
      assert s.answers + answers == t.answers + answers[1..];
    }
  }

  /** Continues send the questions after the cursor, in order and each once. */
  lemma {:induction false} ReplaySendsRemainingQuestions(id: string, s: Session, answers: seq<string>)
    requires Consistent(s)
    ensures AskedQuestions(Replay(id, s, answers).1) == s.questions[s.index..Replay(id, s, answers).0.index]
    decreases |answers|
  {
    if answers != [] {
      var (t, reply) := Continue(id, s, answers[0]);
      ContinueKeepsConsistent(id, s, answers[0]);
      ReplaySendsRemainingQuestions(id, t, answers[1..]);
      ReplayAdvances(id, t, answers[1..]);
      var (u, replies) := Replay(id, t, answers[1..]);
      assert ([reply] + replies)[1..] == replies;
      if reply.Asked? {
        assert s.questions[s.index..u.index] == [s.questions[s.index]] + s.questions[t.index..u.index];
      }
    }
  }

  /** Every "finished" reply of a run carries all answers recorded up to it. */
  lemma {:induction false} ReplayFinishedCarriesAnswers(id: string, s: Session, answers: seq<string>)
    requires Consistent(s)
    ensures var replies := Replay(id, s, answers).1;
      forall i :: 0 <= i < |replies| && replies[i].Finished? ==> replies[i].answers == s.answers + answers[..i + 1]
    decreases |answers|
  {
    if answers != [] {
      var (t, reply) := Continue(id, s, answers[0]);
      ContinueKeepsConsistent(id, s, answers[0]);
      ReplayFinishedCarriesAnswers(id, t, answers[1..]);
      var replies := Replay(id, s, answers).1;
      forall i | 0 <= i < |replies| && replies[i].Finished?
        ensures replies[i].answers == s.answers + answers[..i + 1]
      {
        if i > 0 {
          assert replies[i] == Replay(id, t, answers[1..]).1[i - 1];
          assert answers[1..][..i] == answers[1..i + 1];
          assert s.answers + answers[..i + 1] == t.answers + answers[1..][..i];
        }
      }
    }
  }

  /** Over a session's whole life the questions sent (the first by start,
      the rest by continue) are exactly its question list, in order; once
      every question is answered the reply carries all the answers. */
  lemma SessionLifetime(id: string, questions: seq<string>, answers: seq<string>)
    ensures var (t, replies) := Replay(id, Opened(questions), answers);
      && (match FirstQuestion(questions) case None => [] case Some(q) => [q]) + AskedQuestions(replies)
         == questions[..Min(|answers| + 1, |questions|)]
      && (answers != [] && |answers| >= |questions| ==> replies[|replies| - 1] == Finished(answers))
  {
    var s := Opened(questions);
    ReplayAdvances(id, s, answers);
    ReplaySendsRemainingQuestions(id, s, answers);
    ReplayFinishedCarriesAnswers(id, s, answers);
    var (t, replies) := Replay(id, s, answers);
    if questions != [] {
      assert questions[..t.index] == [questions[0]] + questions[1..t.index];
    }
    if answers != [] && |answers| >= |questions| {
      var k := |replies| - 1;
      assert s.index + k >= |questions|;
      ReplayLastIsFinished(id, s, answers);
      assert answers[..k + 1] == answers;
    }
  }

  /** With as many answers as questions still owed, the last reply finishes. */
  lemma {:induction false} ReplayLastIsFinished(id: string, s: Session, answers: seq<string>)
    requires Consistent(s)
    requires answers != [] && s.index + |answers| - 1 >= |s.questions|
    ensures Replay(id, s, answers).1[|answers| - 1].Finished?
    decreases |answers|
  {
    var (t, reply) := Continue(id, s, answers[0]);
    ContinueKeepsConsistent(id, s, answers[0]);
    if |answers| > 1 {
      ReplayLastIsFinished(id, t, answers[1..]);
    }
  }

  /** The ids `start` has issued after n sessions: "1" … "n". */
  ghost function IssuedIds(n: nat): set<string> {
    if n == 0 then {} else IssuedIds(n - 1) + {Decimal(n)}
  }

  /** The issued ids are exactly the decimal texts of 1 … n. */
  lemma {:induction false} IssuedIdsAreOneToN(n: nat, id: string)
    ensures id in IssuedIds(n) <==> exists k :: 1 <= k <= n && Decimal(k) == id
  {
    if n > 0 {
      IssuedIdsAreOneToN(n - 1, id);
      assert IssuedIds(n) == IssuedIds(n - 1) + {Decimal(n)};
      if id == Decimal(n) {
        assert id in IssuedIds(n);
        assert 1 <= n <= n && Decimal(n) == id;
      } else {
        assert id in IssuedIds(n) <==> id in IssuedIds(n - 1);
        IssuedBeforeLast(n, id);
      }
    }
  }

  /** Apart from "n" itself, an id among "1".."n" is among "1".."n-1". */
  lemma IssuedBeforeLast(n: nat, id: string)
    requires n > 0 && id != Decimal(n)
    ensures (exists k :: 1 <= k <= n && Decimal(k) == id) <==> (exists k :: 1 <= k <= n - 1 && Decimal(k) == id)
  {
    if k :| 1 <= k <= n && Decimal(k) == id {
      assert 1 <= k <= n - 1;
    }
  }

  /** An id not yet reached, `str(m)` for m > n, has not been issued. */
  lemma {:induction false} LaterIdsAreFresh(n: nat, m: nat)
    requires n < m
    ensures Decimal(m) !in IssuedIds(n)
  {
    if n > 0 {
      LaterIdsAreFresh(n - 1, m);
      DecimalInjective(n, m);
    }
  }

  /** The four module-level dictionaries, as values. */
  datatype Tables = Tables(
    sessions: map<string, Json>,
    questions: map<string, seq<string>>,
    index: map<string, int>,
    answers: map<string, seq<string>>)

  /** The four dictionaries share their keys. */
  ghost predicate KeysAgree(t: Tables) {
    forall id ::
      && (id in t.questions <==> id in t.sessions)
      && (id in t.index <==> id in t.sessions)
      && (id in t.answers <==> id in t.sessions)
  }

  /** After n sessions the keys are exactly "1" … "n". */
  ghost predicate KeysIssued(t: Tables, n: nat) {
    |t.sessions| == n && t.sessions.Keys == IssuedIds(n)
  }

  ghost predicate RowsConsistent(t: Tables) {
    forall id :: id in t.sessions ==>
      && id in t.questions && id in t.index && id in t.answers
      && Consistent(Session(t.questions[id], t.index[id], t.answers[id]))
  }

  ghost predicate TablesValid(t: Tables, n: nat) {
    KeysAgree(t) && KeysIssued(t, n) && RowsConsistent(t)
  }

  /** One session's row across the dictionaries. */
  function Row(t: Tables, id: string): Session
    requires id in t.questions && id in t.index && id in t.answers
  {
    Session(t.questions[id], t.index[id], t.answers[id])
  }

  /** What `start` writes: the new session's row under `id`. */
  function StartTables(t: Tables, id: string, state: Json, questions: seq<string>): Tables {
    var s := Opened(questions);
    Tables(t.sessions[id := state], t.questions[id := s.questions],
           t.index[id := s.index], t.answers[id := s.answers])
  }

  /** What `continue_chat` writes for a known session: its cursor and answers. */
  function ContinueTables(t: Tables, id: string, s: Session): Tables {
    Tables(t.sessions, t.questions, t.index[id := s.index], t.answers[id := s.answers])
  }

  /** The id `start` hands out after n sessions, `str(n + 1)`, is new, and
      opening the session under it keeps the dictionaries valid. */
  lemma StartKeepsValid(t: Tables, n: nat, state: Json, questions: seq<string>)
    requires TablesValid(t, n)
    ensures Decimal(n + 1) !in t.sessions
    ensures TablesValid(StartTables(t, Decimal(n + 1), state, questions), n + 1)
  {
    StartIssuesNextId(t, n, state, questions);
    StartKeepsKeysAgree(t, Decimal(n + 1), state, questions);
    StartKeepsRowsConsistent(t, Decimal(n + 1), state, questions);
  }

  lemma StartIssuesNextId(t: Tables, n: nat, state: Json, questions: seq<string>)
    requires KeysIssued(t, n)
    ensures Decimal(n + 1) !in t.sessions
    ensures KeysIssued(StartTables(t, Decimal(n + 1), state, questions), n + 1)
  {
    LaterIdsAreFresh(n, n + 1);
    var u := StartTables(t, Decimal(n + 1), state, questions);
    assert u.sessions.Keys == t.sessions.Keys + {Decimal(n + 1)};
  }

  lemma StartKeepsKeysAgree(t: Tables, id: string, state: Json, questions: seq<string>)
    requires KeysAgree(t)
    ensures KeysAgree(StartTables(t, id, state, questions))
  {
  }

  lemma StartKeepsRowsConsistent(t: Tables, id: string, state: Json, questions: seq<string>)
    requires RowsConsistent(t)
    ensures RowsConsistent(StartTables(t, id, state, questions))
  {
    OpenedIsConsistent(questions);
  }

  /** Advancing a known session by Continue keeps the dictionaries valid. */
  lemma ContinueKeepsValid(t: Tables, n: nat, id: string, answer: string)
    requires TablesValid(t, n) && id in t.sessions
    ensures TablesValid(ContinueTables(t, id, Continue(id, Row(t, id), answer).0), n)
  {
    ContinueKeepsConsistent(id, Row(t, id), answer);
  }

  class Store {
    var sessions: map<string, Json>
    var sessionQuestions: map<string, seq<string>>
    var sessionIndex: map<string, int>
    var sessionAnswers: map<string, seq<string>>

    function Snapshot(): Tables
      reads this
    {
      Tables(sessions, sessionQuestions, sessionIndex, sessionAnswers)
    }

    /** What the dictionaries keep between requests (StartKeepsValid and
        ContinueKeepsValid show both endpoints preserve it). */
    ghost predicate Valid()
      reads this
    {
      TablesValid(Snapshot(), |sessions|)
    }

    /** The row of a known id is complete and its cursor is not negative,
        so continue_chat's lookups and its indexing succeed. */
    predicate RowReady(id: string)
      reads this
    {
      id in sessions ==>
        && id in sessionQuestions && id in sessionIndex && id in sessionAnswers
        && sessionIndex[id] >= 0
    }

    /** The empty module-level dictionaries. */
    constructor ()
      ensures Valid()
      ensures Snapshot() == Tables(map[], map[], map[], map[])
    {
      sessions, sessionQuestions, sessionIndex, sessionAnswers := map[], map[], map[], map[];
    }

    /** `start`: `state` is what graph.invoke returned and `questions` its
        structured_input.missing_information (or []). The new id is
        `str(len(sessions) + 1)`. */
    method Start(state: Json, questions: seq<string>) returns (reply: StartReply)
      modifies this
      ensures reply.conversationId == Decimal(|old(sessions)| + 1)
      ensures Snapshot() == StartTables(old(Snapshot()), reply.conversationId, state, questions)
      ensures reply.pendingQuestion == FirstQuestion(questions)
      ensures reply.totalQuestions == |questions|
    {
      var sessionId := Decimal(|sessions| + 1);

      sessions := sessions[sessionId := state];
      sessionQuestions := sessionQuestions[sessionId := questions];
      sessionIndex := sessionIndex[sessionId := 0];
      sessionAnswers := sessionAnswers[sessionId := []];

      var firstQuestion := None;
      if sessionQuestions[sessionId] != [] {
        firstQuestion := Some(sessionQuestions[sessionId][0]);
        sessionIndex := sessionIndex[sessionId := 1];
      }
      reply := StartReply(sessionId, firstQuestion, |sessionQuestions[sessionId]|);
      assert sessionIndex == old(sessionIndex)[sessionId := Opened(questions).index];
    }

    /** `continue_chat`: an unknown id changes nothing; a known one is
        advanced by Continue and no other session is touched. */
    method ContinueChat(answer: string, conversationId: string) returns (reply: ContinueReply)
      requires RowReady(conversationId)
      modifies this
      ensures conversationId !in old(sessions) ==>
        reply == InvalidConversation && Snapshot() == old(Snapshot())
      ensures conversationId in old(sessions) ==>
        var (s, r) := Continue(conversationId, old(Row(Snapshot(), conversationId)), answer);
        reply == r && Snapshot() == ContinueTables(old(Snapshot()), conversationId, s)
    {
      if conversationId !in sessions {
        return InvalidConversation;
      }
      var idx := sessionIndex[conversationId];
      var questions := sessionQuestions[conversationId];

      sessionAnswers := sessionAnswers[conversationId := sessionAnswers[conversationId] + [answer]];

      if idx >= |questions| {
        return Finished(sessionAnswers[conversationId]);
      }

      var question := questions[idx];
      sessionIndex := sessionIndex[conversationId := idx + 1];
      return Asked(conversationId, question, |questions| - idx);
    }
  }

  /** Every known row of a valid store is ready for continue_chat. */
  lemma ValidRowsAreReady(s: Store, id: string)
    requires s.Valid()
    ensures s.RowReady(id)
  {
  }
}
