/** The edge declarations of backend/langgraph_logic.py: the builder's
    plain and conditional edges as a transition table over node names, the
    step a run takes from a node given the state, and how the nodes'
    updates steer the routers that read them. */
module AgentEdges {
  import opened Wrappers
  import opened Json
  import opened AgentNodes

  /** The nodes added to the builder, and END. */
  datatype Node =
    | Preprocess | ProcessLabReports | Refine | InitChat | AskQuestion | Triage
    | GeneralMedicine | Cardiology | Dermatology | GenerateReport | End

  /** The name each node is registered under. */
  function Name(n: Node): string {
    match n
    case Preprocess => "preprocess"
    case ProcessLabReports => "process_lab_reports"
    case Refine => "refine_questions"
    case InitChat => "initialize_chat"
    case AskQuestion => "ask_one_question"
    case Triage => "triage_router"
    case GeneralMedicine => "general_medicine_analysis"
    case Cardiology => "cardiology_analysis"
    case Dermatology => "dermatology_analysis"
    case GenerateReport => "generate_report"
    case End => "__end__"
  }

  /** Distinct nodes are registered under distinct names. */
  lemma NamesAreDistinct(a: Node, b: Node)
    ensures Name(a) == Name(b) ==> a == b
  {
  }

  /** set_entry_point. */
  const Entry := Preprocess

  predicate IsSpecialist(n: Node) {
    n == GeneralMedicine || n == Cardiology || n == Dermatology
  }

  /** The add_edge declarations. */
  function FixedEdge(n: Node): Option<Node> {
    match n
    case Preprocess => Some(ProcessLabReports)
    case ProcessLabReports => Some(Refine)
    case InitChat => Some(AskQuestion)
    case GenerateReport => Some(End)
    case _ => None
  }

  /** The path maps given to add_conditional_edges. */
  function Branch(n: Node, key: string): Option<Node> {
    match n
    case Refine =>
      if key == "start_chat" then Some(InitChat)
      else if key == "no_chat_needed" then Some(Triage)
      else None
    case AskQuestion =>
      if key == "continue_chat" then Some(AskQuestion)
      else if key == "end_chat" then Some(Triage)
      else None
    case Triage =>
      if key == "general_medicine" then Some(GeneralMedicine)
      else if key == "cardiology" then Some(Cardiology)
      else if key == "dermatology" then Some(Dermatology)
      else None
    case GeneralMedicine | Cardiology | Dermatology =>
      if key == "end_process" then Some(GenerateReport)
      else if key == "ask_more_questions" then Some(InitChat)
      else None
    case _ => None
  }

  /** Every node but END has exactly one kind of outgoing declaration. */
  lemma EdgesAreFixedOrConditional(n: Node, key: string)
    ensures FixedEdge(n).Some? ==> Branch(n, key).None?
    ensures n != End <==> FixedEdge(n).Some? || n in {Refine, AskQuestion, Triage} || IsSpecialist(n)
  {
  }

  /** The targets the declarations allow from a node. */
  function Successors(n: Node): (r: set<Node>)
    ensures n == End <==> r == {}
  {
    match n
    case Preprocess => {ProcessLabReports}
    case ProcessLabReports => {Refine}
    case Refine => {InitChat, Triage}
    case InitChat => {AskQuestion}
    case AskQuestion => {AskQuestion, Triage}
    case Triage => {GeneralMedicine, Cardiology, Dermatology}
    case GeneralMedicine | Cardiology | Dermatology => {GenerateReport, InitChat}
    case GenerateReport => {End}
    case End => {}
  }

  /** Successors lists exactly the declared targets. */
  lemma SuccessorsAreDeclared(a: Node, b: Node)
    ensures b in Successors(a) <==>
      FixedEdge(a) == Some(b) || (exists key :: Branch(a, key) == Some(b))
  {
    if b in Successors(a) && FixedEdge(a) != Some(b) {
      assert Branch(a, KeyFor(a, b)) == Some(b);
    }
    if exists key :: Branch(a, key) == Some(b) {
      var key :| Branch(a, key) == Some(b);
      BranchTargetsAreSuccessors(a, key);
    }
  }

  /** The path-map key that leads from a to b. */
  function KeyFor(a: Node, b: Node): string {
    match a
    case Refine => if b == InitChat then "start_chat" else "no_chat_needed"
    case AskQuestion => if b == AskQuestion then "continue_chat" else "end_chat"
    case Triage => if b == GeneralMedicine then "general_medicine" else if b == Cardiology then "cardiology" else "dermatology"
    case _ => if b == GenerateReport then "end_process" else "ask_more_questions"
  }

  lemma BranchTargetsAreSuccessors(a: Node, key: string)
    ensures FixedEdge(a).Some? ==> FixedEdge(a).value in Successors(a)
    ensures Branch(a, key).Some? ==> Branch(a, key).value in Successors(a)
  {
  }

  /** Where a run goes after a node: on to a node, out with the router's
      exception, or out because the router's key has no entry in the path
      map. */
  datatype Transition = Goto(next: Node) | Raised(error: Exception) | UnknownBranch(key: Json)

  /** Following a router's key through the node's path map. */
  function Take(n: Node, key: Json): Transition {
    if key.JStr? && Branch(n, key.s).Some? then Goto(Branch(n, key.s).value) else UnknownBranch(key)
  }

  /** The step from node n, with the state after n's update. */
  function Next(n: Node, s: State): Transition
    requires n != End
  {
    match n
    case Refine =>
      (match DecideIfChatNeeded(s)
       case Raise(e) => Raised(e)
       case Ok(key) => Take(n, JStr(key)))
    case AskQuestion => Take(n, JStr(DecideToContinueChat(s)))
    case Triage => Take(n, RouteToSpecialist(s))
    case GeneralMedicine | Cardiology | Dermatology =>
      (match DecideAfterAnalysis(s)
       case Raise(e) => Raised(e)
       case Ok(key) => Take(n, JStr(key)))
    case Preprocess | ProcessLabReports | InitChat | GenerateReport => Goto(FixedEdge(n).value)
  }

  /** A step only follows declared edges, and the only key a path map can
      lack is a diagnosis_path other than the three specialities. */
  lemma NextFollowsDeclaredEdges(n: Node, s: State)
    requires n != End
    ensures Next(n, s).Goto? ==> Next(n, s).next in Successors(n)
    ensures Next(n, s).UnknownBranch? <==>
      n == Triage && RouteToSpecialist(s) !in {JStr("general_medicine"), JStr("cardiology"), JStr("dermatology")}
    ensures Next(n, s).Raised? ==> n == Refine || IsSpecialist(n)
  {
  }

  /** State that makes each router pick each of its branches. */
  function Witness(a: Node, b: Node): State {
    match a
    case Refine =>
      if b == InitChat then map["structured_input" := JObj(map["missing_information" := JArr([JStr("?")])])]
      else map[]
    case AskQuestion => if b == AskQuestion then map["question_queue" := JArr([JStr("?")])] else map[]
    case Triage => map["diagnosis_path" := JStr(if b == Cardiology then "cardiology" else if b == Dermatology then "dermatology" else "general_medicine")]
    case GeneralMedicine | Cardiology | Dermatology =>
      if b == InitChat then
        map["final_analysis" := JObj(map["status" := JStr("incomplete"), "missing_information" := JArr([JStr("?")])])]
      else map[]
    case _ => map[]
  }

  /** Every declared edge is taken from some state. */
  lemma DeclaredEdgesAreTaken(a: Node, b: Node)
    requires b in Successors(a)
    ensures a != End && Next(a, Witness(a, b)) == Goto(b)
  {
    match a {
      case Refine => RefineEdgesAreTaken(b);
      case AskQuestion => ChatEdgesAreTaken(b);
      case Triage => TriageEdgesAreTaken(b);
      case GeneralMedicine | Cardiology | Dermatology => SpecialistEdgesAreTaken(a, b);
      case Preprocess | ProcessLabReports | InitChat | GenerateReport =>
    }
  }

  lemma RefineEdgesAreTaken(b: Node)
    requires b in Successors(Refine)
    ensures Next(Refine, Witness(Refine, b)) == Goto(b)
  {
  }

  lemma ChatEdgesAreTaken(b: Node)
    requires b in Successors(AskQuestion)
    ensures Next(AskQuestion, Witness(AskQuestion, b)) == Goto(b)
  {
  }

  lemma TriageEdgesAreTaken(b: Node)
    requires b in Successors(Triage)
    ensures Next(Triage, Witness(Triage, b)) == Goto(b)
  {
  }

  lemma SpecialistEdgesAreTaken(a: Node, b: Node)
    requires IsSpecialist(a) && b in Successors(a)
    ensures Next(a, Witness(a, b)) == Goto(b)
  {
  }

  /** Consecutive nodes along declared edges. */
  predicate IsPath(p: seq<Node>) {
    forall i :: 0 <= i < |p| - 1 ==> p[i + 1] in Successors(p[i])
  }

  /** A declared route from a node to END. */
  function PathToEnd(n: Node): (p: seq<Node>)
    ensures p != [] && p[0] == n && p[|p| - 1] == End && IsPath(p)
  {
    match n
    case End => [End]
    case GenerateReport => [GenerateReport, End]
    case GeneralMedicine | Cardiology | Dermatology => [n, GenerateReport, End]
    case Triage => [Triage, GeneralMedicine, GenerateReport, End]
    case AskQuestion => [AskQuestion, Triage, GeneralMedicine, GenerateReport, End]
    case InitChat => [InitChat, AskQuestion, Triage, GeneralMedicine, GenerateReport, End]
    case Refine => [Refine, Triage, GeneralMedicine, GenerateReport, End]
    case ProcessLabReports => [ProcessLabReports, Refine, Triage, GeneralMedicine, GenerateReport, End]
    case Preprocess => [Preprocess, ProcessLabReports, Refine, Triage, GeneralMedicine, GenerateReport, End]
  }

  /** A declared route from the entry point to a node. */
  function PathFromEntry(n: Node): (p: seq<Node>)
    ensures p != [] && p[0] == Entry && p[|p| - 1] == n && IsPath(p)
  {
    var toTriage := [Preprocess, ProcessLabReports, Refine, Triage];
    match n
    case Preprocess => [Preprocess]
    case ProcessLabReports => [Preprocess, ProcessLabReports]
    case Refine => [Preprocess, ProcessLabReports, Refine]
    case InitChat => [Preprocess, ProcessLabReports, Refine, InitChat]
    case AskQuestion => [Preprocess, ProcessLabReports, Refine, InitChat, AskQuestion]
    case Triage => toTriage
    case GeneralMedicine | Cardiology | Dermatology => toTriage + [n]
    case GenerateReport => toTriage + [GeneralMedicine, GenerateReport]
    case End => toTriage + [GeneralMedicine, GenerateReport, End]
  }

  // ---------------------------------------------------------------------
  // How node updates steer the routers

  /** On the first pass (no analysis yet), refine_questions goes to the chat
      exactly when initialize_chat would load a non-empty queue. */
  lemma ChatStartsExactlyWhenQueueLoads(s: State)
    requires "final_analysis" !in s
    ensures Next(Refine, s) == Goto(InitChat) <==>
      InitializeChat(s).Ok? && PyTruthy(InitializeChat(s).value["question_queue"])
  {
  }

  /** After initialize_chat loads a non-empty list of questions, the first
      question is asked and becomes pending. */
  lemma LoadedQueueIsAsked(s: State, questions: seq<Json>, messages: seq<Json>)
    requires InitializeChat(s) == Ok(map["question_queue" := JArr(questions)]) && questions != []
    requires Get(s, "messages", JNull) == JArr(messages)
    ensures var t := Merge(s, InitializeChat(s).value);
      && Next(InitChat, t) == Goto(AskQuestion)
      && AskOneQuestionStep(t).Ok?
      && Get(AskOneQuestionStep(t).value, "pending_question", JNull) == questions[0]
  {
    var t := Merge(s, InitializeChat(s).value);
    AskOnce(t, questions, messages);
  }

  /** The entry a specialist stores asks for more questions exactly when the
      reply was accepted, says "incomplete" and lists missing information. */
  lemma EntryAsksForMore(s: State, content: string, loads: Loads)
    ensures var e := AnalysisEntry(s, content, loads);
      && e.JObj?
      && (Get(e.fields, "status", JStr("complete")) == JStr("incomplete") && PyTruthy(Get(e.fields, "missing_information", JNull))
          <==> AsksForMore(s, content, loads)
               && PyTruthy(Get(loads(StripJsonFence(content)).value.fields, "missing_information", JNull)))
  {
    if AnalysisAccepted(s, content, loads) {
      StatusDefaults(loads(StripJsonFence(content)).value.fields);
    } else {
      ErrorAnalysisIsComplete(content);
      assert !AsksForMore(s, content, loads);
    }
  }

  /** The error entry has no status, which the router reads as "complete". */
  lemma ErrorAnalysisIsComplete(content: string)
    ensures Get(ErrorAnalysis(content).fields, "status", JStr("complete")) == JStr("complete")
  {
    assert "status" != "error" && "status" != "raw_output" by {
      assert |"status"| != |"error"| && "status"[0] != "raw_output"[0];
    }
  }

  /** The status read with the router's default is "incomplete" exactly
      when it is with the analysis node's default. */
  lemma StatusDefaults(fields: map<string, Json>)
    ensures Get(fields, "status", JStr("complete")) == JStr("incomplete")
        <==> Get(fields, "status", JNull) == JStr("incomplete")
  {
    assert JStr("complete") != JStr("incomplete") by { assert |"complete"| != |"incomplete"|; }
  }

  /** A specialist's router, read off the analysis it stored. */
  lemma SpecialistRoutesOnAnalysis(n: Node, t: State)
    requires IsSpecialist(n) && Get(t, "final_analysis", EmptyDict).JObj?
    ensures var a := Get(t, "final_analysis", EmptyDict).fields;
      Next(n, t) == if Get(a, "status", JStr("complete")) == JStr("incomplete") && PyTruthy(Get(a, "missing_information", JNull))
                    then Goto(InitChat) else Goto(GenerateReport)
  {
  }

  /** After a specialist's analysis the run goes back to the chat exactly
      when the reply was accepted, says "incomplete" and lists missing
      information; otherwise, the error entry included, it goes on to the
      report. */
  lemma SpecialistRoutesOnItsReply(n: Node, s: State, content: string, loads: Loads)
    requires IsSpecialist(n)
    requires RunSpecialistAnalysis(s, content, loads).Ok?
    ensures var t := Merge(s, RunSpecialistAnalysis(s, content, loads).value);
      && (Next(n, t) == Goto(InitChat) <==>
           AsksForMore(s, content, loads)
           && PyTruthy(Get(loads(StripJsonFence(content)).value.fields, "missing_information", JNull)))
      && (Next(n, t) == Goto(InitChat) || Next(n, t) == Goto(GenerateReport))
  {
    var t := Merge(s, RunSpecialistAnalysis(s, content, loads).value);
    assert Get(t, "final_analysis", EmptyDict) == AnalysisEntry(s, content, loads);
    EntryAsksForMore(s, content, loads);
    SpecialistRoutesOnAnalysis(n, t);
  }

  /** When a specialist's accepted reply says "incomplete" and lists missing
      information, the run goes back to the chat and initialize_chat queues
      exactly the specialist's list. */
  lemma SpecialistQuestionsAreQueued(n: Node, s: State, content: string, loads: Loads)
    requires IsSpecialist(n)
    requires RunSpecialistAnalysis(s, content, loads).Ok?
    requires Get(s, "diagnosis_path", JStr("Specialist")).JStr?
    requires AsksForMore(s, content, loads)
    requires PyTruthy(Get(loads(StripJsonFence(content)).value.fields, "missing_information", JNull))
    ensures var t := Merge(s, RunSpecialistAnalysis(s, content, loads).value);
      && Next(n, t) == Goto(InitChat)
      && InitializeChat(t).Ok?
      && InitializeChat(t).value["question_queue"]
         == Get(loads(StripJsonFence(content)).value.fields, "missing_information", EmptyList)
      && PyTruthy(InitializeChat(t).value["question_queue"])
  {
    var u := RunSpecialistAnalysis(s, content, loads).value;
    SpecialistRoutesOnItsReply(n, s, content, loads);
    SpecialistReplacesQuestionsOnlyWhenIncomplete(s, content, loads);
    var listed := Get(loads(StripJsonFence(content)).value.fields, "missing_information", EmptyList);
    QueueAfterAnalysis(s, u, Get(s, "structured_input", EmptyDict).fields, listed);
  }

  /** initialize_chat after an analysis update that replaced the questions. */
  lemma QueueAfterAnalysis(s: State, u: State, before: map<string, Json>, listed: Json)
    requires u.Keys <= {"final_analysis", "analysis_history", "structured_input"}
    requires "final_analysis" in u && "structured_input" in u
    requires u["structured_input"] == JObj(before["missing_information" := listed])
    requires Get(s, "diagnosis_path", JStr("Specialist")).JStr?
    ensures InitializeChat(Merge(s, u)) == Ok(map["question_queue" := listed])
  {
    assert "diagnosis_path" != "final_analysis" by { assert "diagnosis_path"[0] != "final_analysis"[0]; }
    assert "diagnosis_path" !in u;
  }

  /** Triage always leaves a route: a reply that does not parse to a dict,
      or names no department, sends the case to general medicine. */
  lemma TriageFallsBackToGeneralMedicine(s: State, content: string, loads: Loads)
    requires TriageRouter(s, content, loads).Ok?
    requires loads(content).None? || !loads(content).value.JObj?
      || "department" !in loads(content).value.fields
    ensures Next(Triage, Merge(s, TriageRouter(s, content, loads).value)) == Goto(GeneralMedicine)
  {
  }
}
