/** The agent graph's state and the node and router logic of
    backend/langgraph_logic.py that does not call a model: the conditional
    routers, the question-queue pop, the chat initialiser, the code-fence
    stripper and the state updates the triage, specialist and refinement
    nodes make once the model has answered. The model's reply text and
    `json.loads` are parameters. */
module AgentNodes {
  import opened Wrappers
  import opened Json
  import opened Text

  /** The Python exceptions a node or router can let escape. */
  datatype Exception = AttributeError | KeyError | TypeError

  /** A Python computation: a value, or an exception that escapes. */
  datatype Py<+T> = Ok(value: T) | Raise(error: Exception)

  /** PatientState as LangGraph hands it to a node: key to value. A node's
      partial update has the same shape. */
  type State = map<string, Json>

  /** `json.loads`: the parsed value, or None where it raises. */
  type Loads = string -> Option<Json>

  /** `state.get(key, default)`. */
  function Get(s: State, key: string, default: Json): Json {
    if key in s then s[key] else default
  }

  /** `d.get(key, default)`, which raises AttributeError unless d is a dict. */
  function DictGet(d: Json, key: string, default: Json): Py<Json> {
    if d.JObj? then Ok(if key in d.fields then d.fields[key] else default) else Raise(AttributeError)
  }

  const EmptyDict: Json := JObj(map[])
  const EmptyList: Json := JArr([])

  /** LangGraph's merge of a node's partial update: every key it names is
      overwritten. */
  function Merge(s: State, update: State): (r: State)
    ensures r.Keys == s.Keys + update.Keys
    ensures forall k :: k in update ==> r[k] == update[k]
    ensures forall k :: k in s && k !in update ==> r[k] == s[k]
  {
    s + update
  }

  // ---------------------------------------------------------------------
  // Conditional routers

  /** The missing_information of structured_input (default {}), read with
      the given default. */
  function MissingInformation(s: State, default: Json): Py<Json> {
    DictGet(Get(s, "structured_input", EmptyDict), "missing_information", default)
  }

  /** decide_if_chat_needed: start a chat exactly when structured_input
      holds a non-empty missing_information. */
  function DecideIfChatNeeded(s: State): (r: Py<string>)
    ensures r.Raise? <==> !Get(s, "structured_input", EmptyDict).JObj?
    ensures r == Ok("start_chat") <==>
      && Get(s, "structured_input", EmptyDict).JObj?
      && PyTruthy(Get(Get(s, "structured_input", EmptyDict).fields, "missing_information", JNull))
    ensures r.Ok? ==> r.value in {"start_chat", "no_chat_needed"}
  {
    match MissingInformation(s, JNull)
    case Raise(e) => Raise(e)
    case Ok(missing) => Ok(if PyTruthy(missing) then "start_chat" else "no_chat_needed")
  }

  /** decide_to_continue_chat: keep asking exactly while the queue is
      non-empty. */
  function DecideToContinueChat(s: State): (r: string)
    ensures r == "continue_chat" <==> PyTruthy(Get(s, "question_queue", JNull))
    ensures r in {"continue_chat", "end_chat"}
  {
    if PyTruthy(Get(s, "question_queue", JNull)) then "continue_chat" else "end_chat"
  }

  /** route_to_specialist: diagnosis_path as stored (`cast` converts
      nothing), "general_medicine" when absent. */
  function RouteToSpecialist(s: State): (r: Json)
    ensures "diagnosis_path" in s ==> r == s["diagnosis_path"]
    ensures "diagnosis_path" !in s ==> r == JStr("general_medicine")
  {
    Get(s, "diagnosis_path", JStr("general_medicine"))
  }

  /** final_analysis's status, "complete" when absent. */
  function StatusOf(analysis: Json): Py<Json> {
    DictGet(analysis, "status", JStr("complete"))
  }

  /** decide_after_analysis: ask again exactly when the analysis says
      "incomplete" and lists missing information. */
  function DecideAfterAnalysis(s: State): (r: Py<string>)
    ensures r.Raise? <==> !Get(s, "final_analysis", EmptyDict).JObj?
    ensures r == Ok("ask_more_questions") <==>
      var a := Get(s, "final_analysis", EmptyDict);
      && a.JObj?
      && Get(a.fields, "status", JStr("complete")) == JStr("incomplete")
      && PyTruthy(Get(a.fields, "missing_information", JNull))
    ensures r.Ok? ==> r.value in {"ask_more_questions", "end_process"}
  {
    var analysis := Get(s, "final_analysis", EmptyDict);
    match StatusOf(analysis)
    case Raise(e) => Raise(e)
    case Ok(status) =>
      if status == JStr("incomplete") && PyTruthy(DictGet(analysis, "missing_information", JNull).value)
      then Ok("ask_more_questions")
      else Ok("end_process")
  }

  // ---------------------------------------------------------------------
  // Code-fence stripping

  const JsonFence := "```json"
  const Fence := "```"

  /** The cleaning before `json.loads`: strip, drop a leading "```json",
      drop a trailing "```", strip again. */
  function StripJsonFence(content: string): (r: string)
    ensures r == [] || (!IsPySpace(r[0]) && !IsPySpace(r[|r| - 1]))
  {
    var c := Trim(Py, content);
    var c := if StartsWith(c, JsonFence) then c[|JsonFence|..] else c;
    var c := if EndsWith(c, Fence) then c[..|c| - |Fence|] else c;
    Trim(Py, c)
  }

  /** Without either fence the text is only stripped. */
  lemma UnfencedIsOnlyStripped(content: string)
    requires !StartsWith(Trim(Py, content), JsonFence) && !EndsWith(Trim(Py, content), Fence)
    ensures StripJsonFence(content) == Trim(Py, content)
  {
    var t := Trim(Py, content);
    TrimOfPadded(Py, [], t, []);
    assert [] + t + [] == t;
  }

  /** Once stripped, a text that is fenced at both ends loses both fences. */
  lemma StripOfFenced(content: string, inner: string)
    requires Trim(Py, content) == JsonFence + inner + Fence
    ensures StripJsonFence(content) == Trim(Py, inner)
  {
    var c := JsonFence + inner + Fence;
    assert c[..|JsonFence|] == JsonFence;
    var c2 := c[|JsonFence|..];
    assert c2 == inner + Fence;
    assert c2[|c2| - |Fence|..] == Fence;
    assert c2[..|c2| - |Fence|] == inner;
  }

  /** A fenced body, with white space around the fences and inside them,
      comes out as the body alone. */
  lemma FencedBodyIsRecovered(before: string, pad1: string, body: string, pad2: string, after: string)
    requires IsBlank(Py, before) && IsBlank(Py, pad1) && IsBlank(Py, pad2) && IsBlank(Py, after)
    requires body == [] || (!IsPySpace(body[0]) && !IsPySpace(body[|body| - 1]))
    ensures StripJsonFence(before + JsonFence + pad1 + body + pad2 + Fence + after) == body
  {
    var inner := pad1 + body + pad2;
    var fenced := JsonFence + inner + Fence;
    var content := before + JsonFence + pad1 + body + pad2 + Fence + after;
    assert content == before + fenced + after;
    TrimOfPadded(Py, before, fenced, after);
    StripOfFenced(content, inner);
    TrimOfPadded(Py, pad1, body, pad2);
  }

  // ---------------------------------------------------------------------
  // initialize_chat_node

  /** `str.capitalize()` needs a string; only its exception matters here. */
  function SpecialistNameCheck(s: State): Option<Exception> {
    if "final_analysis" in s && !Get(s, "diagnosis_path", JStr("Specialist")).JStr? then Some(AttributeError)
    else None
  }

  /** initialize_chat_node: the queue is loaded with missing_information
      (default []). After a specialist analysis the diagnosis_path is
      capitalised for a log line, which raises unless it is a string. */
  function InitializeChat(s: State): (r: Py<State>)
    ensures r.Ok? <==>
      && !("final_analysis" in s && !Get(s, "diagnosis_path", JStr("Specialist")).JStr?)
      && Get(s, "structured_input", EmptyDict).JObj?
    ensures r.Ok? ==>
      r.value == map["question_queue" := Get(Get(s, "structured_input", EmptyDict).fields, "missing_information", EmptyList)]
  {
    if SpecialistNameCheck(s).Some? then Raise(SpecialistNameCheck(s).value)
    else match MissingInformation(s, EmptyList)
      case Raise(e) => Raise(e)
      case Ok(questions) => Ok(map["question_queue" := questions])
  }

  // ---------------------------------------------------------------------
  // ask_one_question_node

  /** The message the node appends for a question. */
  function AiMessage(question: Json): Json {
    JObj(map["role" := JStr("ai"), "content" := question])
  }

  /** ask_one_question_node on the whole state: an empty queue leaves the
      state as it is; otherwise the first question is popped, appended to
      messages as an ai message and stored as pending_question. A truthy
      queue that is a dict raises KeyError on `pop(0)`, any other non-list
      AttributeError; messages that are absent raise KeyError, that are no
      list AttributeError. */
  function AskOneQuestionStep(s: State): (r: Py<State>)
    ensures !PyTruthy(Get(s, "question_queue", JNull)) ==> r == Ok(s)
    ensures r.Ok? && PyTruthy(Get(s, "question_queue", JNull)) ==>
      && s["question_queue"].JArr? && "messages" in s && s["messages"].JArr?
      && var queue := s["question_queue"].items;
      var messages := s["messages"].items;
      && r.value.Keys == s.Keys + {"pending_question"}
      && r.value["question_queue"] == JArr(queue[1..])
      && r.value["messages"] == JArr(messages + [AiMessage(queue[0])])
      && r.value["pending_question"] == queue[0]
      && forall k :: k in s && k !in {"question_queue", "messages", "pending_question"} ==> r.value[k] == s[k]
    ensures r.Ok? <==>
      var queue := Get(s, "question_queue", JNull);
      !PyTruthy(queue) || (queue.JArr? && "messages" in s && s["messages"].JArr?)
    ensures r == Raise(KeyError) <==>
      var queue := Get(s, "question_queue", JNull);
      PyTruthy(queue) && (queue.JObj? || (queue.JArr? && "messages" !in s))
    ensures r == Raise(AttributeError) <==>
      var queue := Get(s, "question_queue", JNull);
      PyTruthy(queue) && !queue.JObj? && (!queue.JArr? || ("messages" in s && !s["messages"].JArr?))
  {
    var queue := Get(s, "question_queue", JNull);
    if !PyTruthy(queue) then Ok(s)
    else if queue.JObj? then Raise(KeyError)
    else if !queue.JArr? then Raise(AttributeError)
    else if "messages" !in s then Raise(KeyError)
    else if !s["messages"].JArr? then Raise(AttributeError)
    else
      var question := queue.items[0];
      Ok(s["question_queue" := JArr(queue.items[1..])]
          ["messages" := JArr(s["messages"].items + [AiMessage(question)])]
          ["pending_question" := question])
  }

  /** The ai messages for a run of questions. */
  function AiMessages(questions: seq<Json>): (r: seq<Json>)
    ensures |r| == |questions|
    ensures forall i :: 0 <= i < |questions| ==> r[i] == AiMessage(questions[i])
  {
    if questions == [] then [] else [AiMessage(questions[0])] + AiMessages(questions[1..])
  }

  /** The node run k times over, as the ask loop does. */
  function AskRepeatedly(s: State, k: nat): Py<State> {
    if k == 0 then Ok(s)
    else match AskRepeatedly(s, k - 1)
      case Raise(e) => Raise(e)
      case Ok(t) => AskOneQuestionStep(t)
  }

  /** One pass over a non-empty list queue with a list of messages. */
  lemma AskOnce(t: State, queue: seq<Json>, messages: seq<Json>)
    requires Get(t, "question_queue", JNull) == JArr(queue) && queue != []
    requires Get(t, "messages", JNull) == JArr(messages)
    ensures AskOneQuestionStep(t).Ok?
    ensures var u := AskOneQuestionStep(t).value;
      && Get(u, "question_queue", JNull) == JArr(queue[1..])
      && Get(u, "messages", JNull) == JArr(messages + [AiMessage(queue[0])])
      && Get(u, "pending_question", JNull) == queue[0]
  {
  }

  /** The ask loop puts a loaded queue's questions into the transcript one
      per pass, in order, each once: after k passes the first k are asked,
      the last of them is pending, and the router keeps asking exactly
      while some remain. */
  lemma {:induction false} AskLoopDrainsQueue(s: State, questions: seq<Json>, messages: seq<Json>, k: nat)
    requires Get(s, "question_queue", JNull) == JArr(questions)
    requires Get(s, "messages", JNull) == JArr(messages)
    requires k <= |questions|
    ensures AskRepeatedly(s, k).Ok?
    ensures var t := AskRepeatedly(s, k).value;
      && Get(t, "question_queue", JNull) == JArr(questions[k..])
      && Get(t, "messages", JNull) == JArr(messages + AiMessages(questions[..k]))
      && (k > 0 ==> Get(t, "pending_question", JNull) == questions[k - 1])
  {
    if k > 0 {
      AskLoopDrainsQueue(s, questions, messages, k - 1);
      var t := AskRepeatedly(s, k - 1).value;
      var asked := messages + AiMessages(questions[..k - 1]);
      AskOnce(t, questions[k - 1..], asked);
      assert questions[k - 1..][1..] == questions[k..];
      AiMessagesSnoc(questions, k);
    }
  }

  lemma AiMessagesSnoc(questions: seq<Json>, k: nat)
    requires 0 < k <= |questions|
    ensures AiMessages(questions[..k]) == AiMessages(questions[..k - 1]) + [AiMessage(questions[k - 1])]
  {
  }

  /** The loop stops exactly when every question has been asked. */
  lemma AskLoopStopsWhenDrained(s: State, questions: seq<Json>, messages: seq<Json>, k: nat)
    requires Get(s, "question_queue", JNull) == JArr(questions)
    requires Get(s, "messages", JNull) == JArr(messages)
    requires k <= |questions|
    ensures AskRepeatedly(s, k).Ok?
    ensures DecideToContinueChat(AskRepeatedly(s, k).value) == "continue_chat" <==> k < |questions|
  {
    AskLoopDrainsQueue(s, questions, messages, k);
  }

  /** The node mutates the state dict in place and returns it. */
  class GraphState {
    var values: State

    constructor (initial: State)
      ensures values == initial
    {
      values := initial;
    }

    /** ask_one_question_node. On an escaping exception, the pop that
        already happened stays done. */
    method AskOneQuestion() returns (error: Option<Exception>)
      modifies this
      ensures error.None? <==> AskOneQuestionStep(old(values)).Ok?
      ensures error.None? ==> values == AskOneQuestionStep(old(values)).value
      ensures error.Some? ==> AskOneQuestionStep(old(values)) == Raise(error.value)
    {
      var queue := Get(values, "question_queue", JNull);
      if !PyTruthy(queue) {
        return None;
      }
      if queue.JObj? {
        return Some(KeyError);
      }
      if !queue.JArr? {
        return Some(AttributeError);
      }
      var question := queue.items[0];
      values := values["question_queue" := JArr(queue.items[1..])];
      if "messages" !in values {
        return Some(KeyError);
      }
      var messages := values["messages"];
      if !messages.JArr? {
        return Some(AttributeError);
      }
      values := values["messages" := JArr(messages.items + [AiMessage(question)])];
      values := values["pending_question" := question];
      error := None;
    }
  }

  // ---------------------------------------------------------------------
  // triage_router_node

  /** The history entry triage starts every analysis with. */
  const PendingStatus: Json := JObj(map[
    "status" := JStr("pending"),
    "condition" := JStr("Waiting for AI Specialist Analysis..."),
    "confidence" := JNum(0),
    "reasoning" := JStr("The system is routing the case to the appropriate specialist."),
    "evidence" := JArr([]),
    "urgency" := JStr("low")])

  /** triage_router_node once the model has replied `content`: reading the
      complaint needs raw_input (default {}) to be a dict; the department is
      the parsed reply's "department" (default "general_medicine"), and
      "general_medicine" when the reply does not parse to a dict. The
      analysis history restarts from the single pending entry. */
  function TriageRouter(s: State, content: string, loads: Loads): (r: Py<State>)
    ensures r.Ok? <==> Get(s, "raw_input", EmptyDict).JObj?
    ensures r.Ok? ==>
      && r.value.Keys == {"diagnosis_path", "analysis_history"}
      && r.value["analysis_history"] == JArr([PendingStatus])
      && r.value["diagnosis_path"] ==
           var parsed := loads(content);
           if parsed.Some? && parsed.value.JObj?
           then Get(parsed.value.fields, "department", JStr("general_medicine"))
           else JStr("general_medicine")
  {
    match DictGet(Get(s, "raw_input", EmptyDict), "symptoms", JStr(""))
    case Raise(e) => Raise(e)
    case Ok(_) =>
      var department :=
        match loads(content)
        case Some(route) =>
          (match DictGet(route, "department", JStr("general_medicine"))
           case Ok(d) => d
           case Raise(_) => JStr("general_medicine"))
        case None => JStr("general_medicine");
      Ok(map["diagnosis_path" := department, "analysis_history" := JArr([PendingStatus])])
  }

  // ---------------------------------------------------------------------
  // run_specialist_analysis

  /** Building the conversation history reads msg['role'] and
      msg['content'] of every message in turn: the exception the first
      message that lacks them raises, if any. */
  function MessagesError(items: seq<Json>): Option<Exception> {
    if items == [] then None
    else if !items[0].JObj? then Some(TypeError)
    else if "role" !in items[0].fields || "content" !in items[0].fields then Some(KeyError)
    else MessagesError(items[1..])
  }

  /** The same over messages (default []): iterating a dict or a string
      yields keys or characters, which cannot be indexed by a string, and
      anything else is not iterable. */
  function HistoryError(messages: Json): Option<Exception> {
    match messages
    case JArr(items) => MessagesError(items)
    case JObj(m) => if m == map[] then None else Some(TypeError)
    case JStr(t) => if t == "" then None else Some(TypeError)
    case _ => Some(TypeError)
  }

  /** What the specialist stores when its reply does not parse. */
  function ErrorAnalysis(content: string): Json {
    JObj(map["error" := JStr("Failed to parse analysis."), "raw_output" := JStr(content)])
  }

  /** Whether the try block of run_specialist_analysis completes: the
      cleaned reply parses to a dict, and when it says "incomplete" the
      stored structured_input is a dict that can take the new list. */
  predicate AnalysisAccepted(s: State, content: string, loads: Loads) {
    var parsed := loads(StripJsonFence(content));
    && parsed.Some? && parsed.value.JObj?
    && (Get(parsed.value.fields, "status", JNull) == JStr("incomplete") ==> Get(s, "structured_input", EmptyDict).JObj?)
  }

  /** Whether an accepted reply asks for more information. */
  predicate AsksForMore(s: State, content: string, loads: Loads) {
    AnalysisAccepted(s, content, loads)
    && Get(loads(StripJsonFence(content)).value.fields, "status", JNull) == JStr("incomplete")
  }

  /** The entry the analysis appends: the parsed reply, or ErrorAnalysis
      when the try block fails. */
  function AnalysisEntry(s: State, content: string, loads: Loads): Json {
    if AnalysisAccepted(s, content, loads) then loads(StripJsonFence(content)).value else ErrorAnalysis(content)
  }

  /** The post-model part of run_specialist_analysis (shared by the three
      specialist nodes), with the model's reply `content`. It raises only
      where the transcript cannot be read or analysis_history is no list;
      otherwise exactly one entry is appended to a copy of
      analysis_history and becomes final_analysis. */
  function RunSpecialistAnalysis(s: State, content: string, loads: Loads): (r: Py<State>)
    ensures r.Ok? <==> HistoryError(Get(s, "messages", EmptyList)).None? && Get(s, "analysis_history", EmptyList).JArr?
    ensures r.Ok? ==>
      && "final_analysis" in r.value && "analysis_history" in r.value
      && r.value["final_analysis"] == AnalysisEntry(s, content, loads)
      && r.value["analysis_history"] == JArr(Get(s, "analysis_history", EmptyList).items + [AnalysisEntry(s, content, loads)])
  {
    var history := Get(s, "analysis_history", EmptyList);
    if HistoryError(Get(s, "messages", EmptyList)).Some? then Raise(HistoryError(Get(s, "messages", EmptyList)).value)
    else if !history.JArr? then Raise(AttributeError)
    else
      var entry := AnalysisEntry(s, content, loads);
      var updates := map["final_analysis" := entry, "analysis_history" := JArr(history.items + [entry])];
      if AsksForMore(s, content, loads) then
        var reply := loads(StripJsonFence(content)).value.fields;
        var structured := Get(s, "structured_input", EmptyDict).fields;
        Ok(updates["structured_input" := JObj(structured["missing_information" := Get(reply, "missing_information", EmptyList)])])
      else Ok(updates)
  }

  /** Only an accepted "incomplete" reply touches structured_input, and then
      only its missing_information, which becomes the reply's list
      (default []). */
  lemma SpecialistReplacesQuestionsOnlyWhenIncomplete(s: State, content: string, loads: Loads)
    requires RunSpecialistAnalysis(s, content, loads).Ok?
    ensures var u := RunSpecialistAnalysis(s, content, loads).value;
      && ("structured_input" in u <==> AsksForMore(s, content, loads))
      && u.Keys <= {"final_analysis", "analysis_history", "structured_input"}
      && (AsksForMore(s, content, loads) ==>
           var reply := loads(StripJsonFence(content)).value.fields;
           var before := Get(s, "structured_input", EmptyDict).fields;
           && u["structured_input"] == JObj(before["missing_information" := Get(reply, "missing_information", EmptyList)])
           && MissingInformation(Merge(s, u), JNull) == Ok(Get(reply, "missing_information", EmptyList)))
  {
  }

  // ---------------------------------------------------------------------
  // refine_questions_node

  /** refine_questions_node once the model has replied `content` (parsed
      without fence stripping). No update when lab_results or the initial
      questions are empty, when the reply is not a dict, or when the
      refined list has no length; otherwise missing_information becomes
      the reply's refined_questions, defaulting to the initial list. */
  function RefineQuestions(s: State, content: string, loads: Loads): (r: Py<State>)
    ensures r.Ok? <==> Get(s, "structured_input", EmptyDict).JObj?
    ensures r.Ok? ==>
      var structured := Get(s, "structured_input", EmptyDict).fields;
      var initial := Get(structured, "missing_information", EmptyList);
      (r.value != map[] <==>
        && PyTruthy(Get(structured, "lab_results", EmptyDict)) && PyTruthy(initial)
        && loads(content).Some? && loads(content).value.JObj?
        && HasLen(Get(loads(content).value.fields, "refined_questions", initial)))
    ensures r.Ok? && r.value != map[] ==>
      var structured := Get(s, "structured_input", EmptyDict).fields;
      var initial := Get(structured, "missing_information", EmptyList);
      r.value == map["structured_input" := JObj(structured["missing_information" :=
        Get(loads(content).value.fields, "refined_questions", initial)])]
  {
    var structuredJson := Get(s, "structured_input", EmptyDict);
    if !structuredJson.JObj? then Raise(AttributeError)
    else
      var structured := structuredJson.fields;
      var initial := Get(structured, "missing_information", EmptyList);
      var labs := Get(structured, "lab_results", EmptyDict);
      if !PyTruthy(labs) || !PyTruthy(initial) then Ok(map[])
      else match loads(content)
        case None => Ok(map[])
        case Some(reply) =>
          if !reply.JObj? then Ok(map[])
          else
            var refined := Get(reply.fields, "refined_questions", initial);
            if !HasLen(refined) then Ok(map[])
            else
              var update := map["structured_input" := JObj(structured["missing_information" := refined])];
              assert "structured_input" in update;
              Ok(update)
  }

  /** When refinement runs and the reply is a dict with a list, that list
      replaces the questions; refinement never touches another key. */
  lemma RefinementReplacesQuestions(s: State, content: string, loads: Loads, refined: seq<Json>)
    requires Get(s, "structured_input", EmptyDict).JObj?
    requires var structured := Get(s, "structured_input", EmptyDict).fields;
      PyTruthy(Get(structured, "lab_results", EmptyDict)) && PyTruthy(Get(structured, "missing_information", EmptyList))
    requires loads(content).Some? && loads(content).value.JObj?
    requires Get(loads(content).value.fields, "refined_questions", JNull) == JArr(refined)
    ensures RefineQuestions(s, content, loads).Ok?
    ensures var t := Merge(s, RefineQuestions(s, content, loads).value);
      && MissingInformation(t, JNull) == Ok(JArr(refined))
      && forall k :: k in s && k != "structured_input" ==> t[k] == s[k]
  {
  }

  /** A dict reply without refined_questions keeps the initial questions:
      the update writes the initial list back. */
  lemma RefinementDefaultsToInitial(s: State, content: string, loads: Loads)
    requires Get(s, "structured_input", EmptyDict).JObj?
    requires var structured := Get(s, "structured_input", EmptyDict).fields;
      PyTruthy(Get(structured, "lab_results", EmptyDict)) && PyTruthy(Get(structured, "missing_information", EmptyList))
      && HasLen(Get(structured, "missing_information", EmptyList))
    requires loads(content).Some? && loads(content).value.JObj?
    requires "refined_questions" !in loads(content).value.fields
    ensures RefineQuestions(s, content, loads).Ok?
    ensures var t := Merge(s, RefineQuestions(s, content, loads).value);
      && MissingInformation(t, JNull) == MissingInformation(s, JNull)
      && forall k :: k in s && k != "structured_input" ==> t[k] == s[k]
  {
  }
}
