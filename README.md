# AI doctor: intake, follow-up chat and agent routing

This project models the question-and-answer loop of the AI doctor application.

The React client (`DiagnosticSystem` in `ai_doctor/src/App.tsx`, `ChatPanel` in `ai_doctor/src/ChatPanel.tsx`) has three parts in the model:

- It builds an intake payload from the patient form.
- It starts a conversation with the FastAPI backend.
- It then forwards the patient's answers one at a time until the backend returns a final analysis.

The backend (`backend/main.py`) keeps one question cursor per conversation, in four module-level dictionaries.

The diagnostic agent (`backend/langgraph_logic.py`) is a LangGraph state machine. In the model:

- Each node's update is a function of the state and of the language model's reply.
- Each router is a function of the state.
- The declared edges form a finite transition table.

Modules, in dependency order:

- `Wrappers`, `Json`, `Text`, `Numerals`: the shared vocabulary.
  - Values: `Option`, and JSON values with JavaScript's and Python's truthiness.
  - Text: `trim`/`strip`, with each language's white-space set, plus join and replace.
  - Numbers: Python's `str` of a natural number and JavaScript's `parseInt(text) || 0`.
- `Intake`: the symptom-list editor and the start payload (`App.tsx`).
- `Chat`: the send gate and the text box of the chat panel (`ChatPanel.tsx`).
- `Conversation`: the conversation state of `DiagnosticSystem`.
  - The state is a class whose handlers are methods, each one atomic step.
  - The awaited `fetch` and `response.json()` are an `Outcome`: a reply body, or a thrown error.
  - Each method is proved equal to a pure transition (`AfterStart`, `AfterContinue`); the lemmas are stated about those transitions.
- `Sessions`: the backend session store (`main.py`).
  - `Store` is a class over the four dictionaries.
  - Its methods are proved against the value-level transitions `StartTables` and `ContinueTables`.
  - The table invariant and id freshness are lemmas over those transitions: the keys are exactly "1".."n", every row sits in all four tables, and each cursor lies within its question list.
  - A session's whole life is a replay of `Continue`.
- `AgentNodes`: the routers and the post-model update logic of the agent nodes.
  - The state is a `map<string, Json>`, and a node returns an update or a Python exception.
  - `json.loads` and the model's reply are parameters.
  - `ask_one_question_node` mutates the state in place, so it is also a method on a `GraphState` class.
- `AgentEdges`: the graph's node names, the plain and conditional edges, the step a run takes from each node, and the way one node's update steers the next router.
- `EndToEnd`: the client talking to the session store.
  - It maps each backend reply body to what the client reads.
  - It proves that a whole conversation leaves the client showing each question followed by its answer, then the report of all answers.

Two facts about the code shape the model:

- The start reply of `backend/main.py` never carries a `final_analysis`. So a start without questions switches the client to the results tab with no report (`EndToEnd.StartWithoutQuestionsShowsNoReport`).
- `langgraph_logic.py` only builds `builder` and never defines the `graph` that `main.py` invokes. So the model takes the declared edge relation as the graph, and the question list that `start` stores is a parameter of `Store.Start`.

## Model

| member | source | states |
|---|---|---|
| Intake.AddSymptom | ai_doctor/src/App.tsx:22-27 | a non-blank input (JavaScript trim) appends exactly one `{name: input, duration: "", severity: "mild"}` and clears the box; a blank input changes neither list nor box |
| Intake.RemoveSymptom | ai_doctor/src/App.tsx:29-31 | an index in range removes exactly that entry and keeps the others in order; any other index leaves the list unchanged |
| Intake.UpdateSymptom | ai_doctor/src/App.tsx:33-38 | same length; entry `index` gets the new field value; every other entry is unchanged |
| Intake.WithField | ai_doctor/src/App.tsx:35 | the spread update sets the named field and keeps the other two |
| Intake.EditsKeepNamesGiven | ai_doctor/src/App.tsx:22-38 | add, remove and the form's duration and severity updates keep every symptom name non-blank |
| Intake.SymptomNames | ai_doctor/src/App.tsx:462 | the names, entry by entry |
| Intake.SymptomsTextSentinel | ai_doctor/src/App.tsx:462 | an empty list sends "No symptoms reported"; a list built by the form sends its names joined by ", " |
| Intake.SymptomsText | ai_doctor/src/App.tsx:462 | the symptoms text sent is never empty, and an empty list sends "No symptoms reported" |
| Intake.DurationOfFirstSymptom | ai_doctor/src/App.tsx:463 | no symptom, or no chosen duration, sends "N/A"; otherwise the first symptom's duration with every "_" turned into " " |
| Intake.DurationText | ai_doctor/src/App.tsx:463 | the duration sent is never empty and holds no "_" |
| Intake.BloodPressure | ai_doctor/src/App.tsx:466 | the template `${systolic}/${diastolic}`; `Text.SplitAtFirstOfGlued` and `Intake.PayloadPressure` state what it keeps |
| Intake.BuildPayload | ai_doctor/src/App.tsx:455-471 | the `patient_data` object: name, gender, blood group, temperature, pulse and SpO2 as typed; age and weight through `parseInt(text) \|\| 0`; the symptoms, duration and blood-pressure texts above; the Payload lemmas state its properties |
| Intake.PayloadAge | ai_doctor/src/App.tsx:458 | the age sent is the number whose decimal text starts the age box, when what follows does not continue it |
| Intake.PayloadWeight | ai_doctor/src/App.tsx:459 | the weight sent is the number whose decimal text starts the weight box, when what follows does not continue it |
| Intake.PayloadUnparsedNumbersAreZero | ai_doctor/src/App.tsx:458-459 | a box holding no digit sends 0 (`NaN \|\| 0`) |
| Intake.PayloadPressure | ai_doctor/src/App.tsx:466 | the blood pressure sent splits back at its first "/" into the systolic and diastolic boxes |
| Numerals.Decimal | backend/main.py:58 | `str(n)`: non-empty decimal digits, with a leading zero only for 0 |
| Numerals.DecimalValue | backend/main.py:58 | reading the decimal text back gives n |
| Numerals.DecimalInjective | backend/main.py:58 | different session counts give different ids |
| Numerals.ParseIntOfDecimal | ai_doctor/src/App.tsx:458-459 | `parseInt(digits + tail) \|\| 0` is the number the digits denote when the tail does not continue them |
| Numerals.ParseIntOfNegativeDecimal | ai_doctor/src/App.tsx:458-459 | a leading minus negates the parsed value |
| Numerals.ParseIntSkipsLeadingSpace | ai_doctor/src/App.tsx:458-459 | leading white space does not change the parse |
| Numerals.ParseIntWithoutDigits | ai_doctor/src/App.tsx:458-459 | text with no decimal digit becomes 0 |
| Numerals.ParseInt | ai_doctor/src/App.tsx:458-459 | JavaScript `parseInt(text)` with no radix: leading white space skipped, one sign, "0x"/"0X" selects base 16, then the longest run of digits; None stands for NaN; the ParseInt lemmas state its properties |
| Numerals.ParseIntOrZero | ai_doctor/src/App.tsx:458-459 | `parseInt(text) \|\| 0`: NaN becomes 0, any parsed value is kept |
| Text.Trim | ai_doctor/src/ChatPanel.tsx:19 | the result has no white space at either end, and it is empty exactly when the text is all white space |
| Text.TrimOfPadded | backend/langgraph_logic.py:91-96 | trimming removes exactly the white-space padding around a text without white space at its ends |
| Text.JoinIsEmpty | ai_doctor/src/App.tsx:462 | with a non-empty separator, a join is empty only for no parts or one empty part |
| Text.ReplaceAll | ai_doctor/src/App.tsx:463 | same length; each "_" becomes " " and every other character stays |
| Text.SplitAtFirstOfGlued | ai_doctor/src/App.tsx:466 | splitting at the first "/" recovers the two halves when the left half has no "/" |
| Json.TruthinessDiffersOnEmptyContainers | backend/langgraph_logic.py:285 | JavaScript and Python truthiness differ exactly on an empty list and an empty dict |
| Json.Strings | backend/main.py:88-94 | the answers as a JSON list of strings, element by element |
| Chat.SendGate | ai_doctor/src/ChatPanel.tsx:18-23 | forwards iff the input is non-blank after trim and no request is in flight; the forwarded text is the raw, untrimmed input |
| Chat.ChatPanel.constructor | ai_doctor/src/ChatPanel.tsx:16 | the box starts empty |
| Chat.ChatPanel.HandleSend | ai_doctor/src/ChatPanel.tsx:18-23 | returns what the gate forwards; the box is cleared exactly after a forwarded send and is otherwise unchanged |
| Chat.ChatPanel.Type | ai_doctor/src/ChatPanel.tsx:49-53 | the box takes the typed text only while enabled (not loading) |
| Chat.ChatPanel.PressKey | ai_doctor/src/ChatPanel.tsx:50-53 | only Enter, while enabled, sends, and then exactly as the gate decides |
| Chat.ChatPanel.ClickSend | ai_doctor/src/ChatPanel.tsx:55 | the Send button sends exactly as the gate decides |
| Conversation.DiagnosticSystem.constructor | ai_doctor/src/App.tsx:433-446 | the initial state values, with the busy flag starting true |
| Conversation.DiagnosticSystem.SetActiveTab | ai_doctor/src/App.tsx:534-540 | only the active tab changes |
| Conversation.DiagnosticSystem.SetForm | ai_doctor/src/App.tsx:434-436 | only the form fields change; the conversation state is untouched |
| Conversation.DiagnosticSystem.HandleStartConversation | ai_doctor/src/App.tsx:452-495 | posts the payload built from the form; the new conversation state is `AfterStart` of the old one and the outcome |
| Conversation.DiagnosticSystem.ReceiveStart | ai_doctor/src/App.tsx:473-494 | applies the reply (or the thrown error) to the conversation state as `AfterStart` describes, clears the busy flag and leaves the form untouched |
| Conversation.DiagnosticSystem.HandleContinueConversation | ai_doctor/src/App.tsx:498-524 | sends the request only when an id is held; the new state is `AfterContinue` of the old one, the answer and the outcome |
| Conversation.DiagnosticSystem.SendFromChatPanel | ai_doctor/src/App.tsx:576-581 | while the chat is open, a send that passes the gate runs the continue handler on the raw input and clears the box; otherwise nothing changes |
| Conversation.AfterStart | ai_doctor/src/App.tsx:473-494 | the conversation state after a start: a thrown request only clears the busy flag; a reply sets the id, then opens the chat on its pending question or stores its final_analysis and shows the results tab; `Conversation.StartOutcomes` states each branch |
| Conversation.RequestFor | ai_doctor/src/App.tsx:499-507 | no request without a conversation id; otherwise the id (query) and the raw answer (body) |
| Conversation.AfterContinue | ai_doctor/src/App.tsx:498-523 | the conversation state after a continue: without an id nothing changes; otherwise the answer is appended, then a pending question is appended, or a truthy final_analysis is stored with the results tab shown and the chat closed; the busy flag clears; `Conversation.ContinueOutcomes` states each branch |
| Conversation.StartOutcomes | ai_doctor/src/App.tsx:482-488 | the id is always taken from the reply; a non-empty question replaces the transcript with exactly that question and opens the chat; otherwise the report is stored and the results tab shown with the chat untouched; busy ends false |
| Conversation.FailedStartOnlyClearsBusy | ai_doctor/src/App.tsx:489-494 | a thrown start changes nothing but the busy flag, which ends false |
| Conversation.AnswerIsNeverRolledBack | ai_doctor/src/App.tsx:498-500 | without an id nothing changes; otherwise the answer follows the old transcript whatever the outcome, and busy ends false |
| Conversation.ContinueOutcomes | ai_doctor/src/App.tsx:512-518 | a question appends one ai message after the answer; else a truthy final_analysis stores the report, shows results and closes the chat; else only the answer is kept; in every branch the busy flag clears and nothing else changes |
| Conversation.FailedContinueKeepsAnswer | ai_doctor/src/App.tsx:519-523 | a thrown continue keeps the answer and only clears the busy flag |
| Conversation.ContinueRecordsAnswer | ai_doctor/src/App.tsx:499-513 | one continue keeps the transcript as a prefix and adds exactly the answer to the user's messages |
| Conversation.TranscriptOnlyGrows | ai_doctor/src/App.tsx:498-524 | over any run of continues the transcript only grows, the id never changes, and every answer is recorded in order |
| Sessions.OpenedIsConsistent | backend/main.py:61-68 | a new session's cursor is within its list, past the first question when there is one |
| Sessions.Opened | backend/main.py:61-68 | the row `start` stores: the question list, no answers, cursor 1 when there is a first question and 0 otherwise |
| Sessions.Continue | backend/main.py:82-103 | `continue_chat` on a known row: the answer is recorded; past the last question the reply carries every answer, otherwise the question under the cursor is sent with `len(questions) - idx` remaining and the cursor advances; `Sessions.ContinueKeepsConsistent` states this |
| Sessions.Replay | backend/main.py:77-103 | one `continue_chat` per answer: as many replies as answers, the question list unchanged, the cursor never moving back and never passing the end of the list |
| Sessions.ContinueKeepsConsistent | backend/main.py:78-103 | a continue appends exactly the answer; at the end it returns all answers and keeps the cursor; otherwise it returns questions[idx], advances the cursor by one and reports len - idx remaining |
| Sessions.ReplayAdvances | backend/main.py:84-97 | a run of continues records every answer, and the cursor moves one step per answer up to the end of the list |
| Sessions.ReplaySendsRemainingQuestions | backend/main.py:96-97 | continues send exactly the questions from the cursor on, in order, each once |
| Sessions.ReplayFinishedCarriesAnswers | backend/main.py:86-94 | every final reply carries all answers recorded up to it |
| Sessions.ReplayLastIsFinished | backend/main.py:88-94 | once as many answers as remaining questions are given, the last reply is final |
| Sessions.SessionLifetime | backend/main.py:58-103 | over a session's life, for any number of answers (none included), the questions sent by start and then continue are the question list, in order; once there is at least one answer and as many as questions, the last reply returns exactly all of them |
| Sessions.IssuedIdsAreOneToN | backend/main.py:58 | after n starts the issued ids are exactly "1".."n" |
| Sessions.LaterIdsAreFresh | backend/main.py:58 | the id of a later start is not among the earlier ones |
| Sessions.StartIssuesNextId | backend/main.py:58-63 | the id `str(len(sessions) + 1)` is fresh and the keys become "1".."n+1" |
| Sessions.StartKeepsKeysAgree | backend/main.py:60-63 | all four tables gain exactly the new key |
| Sessions.StartKeepsRowsConsistent | backend/main.py:60-68 | the new row is consistent and the other rows are untouched |
| Sessions.StartKeepsValid | backend/main.py:58-68 | start keeps the table invariant (keys "1".."n", the same in every table, consistent rows) |
| Sessions.StartTables | backend/main.py:58-68 | the four tables after `start`: the new id maps to the graph state, the questions, the opening cursor and no answers; every other row is kept |
| Sessions.ContinueTables | backend/main.py:86-97 | the tables after `continue_chat`: only the cursor and the answers of that id change |
| Sessions.ContinueKeepsValid | backend/main.py:78-97 | a continue keeps the table invariant |
| Sessions.ValidRowsAreReady | backend/main.py:79-82 | under the invariant every known id has a row in each table and a non-negative cursor |
| Sessions.Store.constructor | backend/main.py:47-50 | all four tables start empty |
| Sessions.Store.Start | backend/main.py:56-74 | the id is the decimal text of the old session count + 1; the tables become `StartTables` of the old ones; the reply has the first question (or none) and the question count |
| Sessions.Store.ContinueChat | backend/main.py:77-103 | an unknown id is refused with no table changed; a known id gets exactly `Continue`'s reply, and only its own index and answer rows change |
| AgentNodes.DecideIfChatNeeded | backend/langgraph_logic.py:282-290 | "start_chat" iff structured_input is a dict with a truthy missing_information, "no_chat_needed" otherwise; raises iff structured_input is not a dict |
| AgentNodes.DecideToContinueChat | backend/langgraph_logic.py:293-301 | "continue_chat" iff question_queue is truthy, else "end_chat" |
| AgentNodes.RouteToSpecialist | backend/langgraph_logic.py:304-306 | diagnosis_path as stored, "general_medicine" when absent |
| AgentNodes.DecideAfterAnalysis | backend/langgraph_logic.py:309-320 | "ask_more_questions" iff status (default "complete") is "incomplete" and missing_information is truthy, else "end_process"; raises iff final_analysis is not a dict |
| AgentNodes.StripJsonFence | backend/langgraph_logic.py:91-96 | the cleaned text has no white space at either end |
| AgentNodes.UnfencedIsOnlyStripped | backend/langgraph_logic.py:215-218 | text with neither fence is only stripped |
| AgentNodes.StripOfFenced | backend/langgraph_logic.py:215-218 | a stripped text fenced at both ends loses exactly both fences |
| AgentNodes.FencedBodyIsRecovered | backend/langgraph_logic.py:91-96 | a body in a "```json" … "```" fence, with white space anywhere around it, comes out as the body alone |
| AgentNodes.InitializeChat | backend/langgraph_logic.py:151-159 | the update is exactly question_queue := missing_information (default []); raises iff structured_input is no dict or the logged specialist name is not a string |
| AgentNodes.AskOneQuestionStep | backend/langgraph_logic.py:162-177 | a falsy queue returns the state unchanged; otherwise the first question is popped, one `{role: "ai", content: q}` is appended, pending_question becomes q and nothing else changes; it raises KeyError exactly for a dict queue or missing messages, AttributeError exactly for a queue that is no list or messages that are no list, and nothing else |
| AgentNodes.AiMessages | backend/langgraph_logic.py:169 | one ai message per question, in order |
| AgentNodes.AskOnce | backend/langgraph_logic.py:164-175 | on a list queue and list messages, one pass shrinks the queue by its head and grows messages by one |
| AgentNodes.AskLoopDrainsQueue | backend/langgraph_logic.py:162-177 | after k passes the queue is questions[k..], messages gained exactly the first k questions in order, and the last one is pending |
| AgentNodes.AskLoopStopsWhenDrained | backend/langgraph_logic.py:293-301 | the chat loop continues exactly while questions remain |
| AgentNodes.GraphState.constructor | backend/langgraph_logic.py:37-48 | the state holds the given values |
| AgentNodes.GraphState.AskOneQuestion | backend/langgraph_logic.py:162-177 | the in-place pop, append and assignment leave exactly the state `AskOneQuestionStep` describes, or raise the same exception |
| AgentNodes.TriageRouter | backend/langgraph_logic.py:180-204 | the update has exactly diagnosis_path and analysis_history; the history restarts from the single pending entry; the department comes from the reply (default "general_medicine") and is "general_medicine" on a parse error |
| AgentNodes.RunSpecialistAnalysis | backend/langgraph_logic.py:207-244 | exactly one entry, the parsed reply or the error dict, is appended to a copy of analysis_history, and final_analysis is that entry; raises only when the transcript or the history cannot be read |
| AgentNodes.SpecialistReplacesQuestionsOnlyWhenIncomplete | backend/langgraph_logic.py:230-234 | structured_input is updated iff the accepted reply says "incomplete", and then missing_information becomes the reply's list (default []) |
| AgentNodes.RefineQuestions | backend/langgraph_logic.py:122-148 | raises exactly when structured_input is no dict; the update is non-empty if and only if labs and initial questions are truthy, the reply parses to a dict and the refined value has a `len`, and then it is structured_input with missing_information := refined_questions (default the initial list) |
| AgentNodes.RefinementReplacesQuestions | backend/langgraph_logic.py:139-145 | a refined list replaces the questions and no other key of the state changes |
| AgentNodes.RefinementDefaultsToInitial | backend/langgraph_logic.py:139-145 | a dict reply without refined_questions keeps the initial questions (`.get(..., initial_questions)`), and no other key of the state changes |
| AgentEdges.NamesAreDistinct | backend/langgraph_logic.py:330-339 | the nodes are registered under distinct names |
| AgentEdges.EdgesAreFixedOrConditional | backend/langgraph_logic.py:342-377 | every node but END has either one plain edge or a conditional one, never both |
| AgentEdges.FixedEdge | backend/langgraph_logic.py:343-377 | the `add_edge` targets: preprocess to process_lab_reports to refine_questions, initialize_chat to ask_one_question, generate_report to END |
| AgentEdges.Branch | backend/langgraph_logic.py:346-375 | the path maps of the conditional edges, keyed by the router's return value |
| AgentEdges.Next | backend/langgraph_logic.py:342-377 | the step a run takes from a node: a plain edge, or the path-map entry for the router's value; a router exception or a value missing from the path map stops the run; `AgentEdges.NextFollowsDeclaredEdges` states this |
| AgentEdges.Successors | backend/langgraph_logic.py:342-377 | only END has no successor |
| AgentEdges.SuccessorsAreDeclared | backend/langgraph_logic.py:342-377 | the successor sets are exactly the targets of the add_edge calls and the path maps |
| AgentEdges.NextFollowsDeclaredEdges | backend/langgraph_logic.py:346-375 | a step only follows a declared edge; only a diagnosis_path outside the three specialities misses its path map; only the chat and specialist routers raise |
| AgentEdges.DeclaredEdgesAreTaken | backend/langgraph_logic.py:346-375 | every declared edge is taken from some state |
| AgentEdges.PathToEnd | backend/langgraph_logic.py:342-377 | every node has a declared route to END |
| AgentEdges.PathFromEntry | backend/langgraph_logic.py:342-377 | every node is reachable from the entry point "preprocess" |
| AgentEdges.ChatStartsExactlyWhenQueueLoads | backend/langgraph_logic.py:282-290 | before any analysis, refine_questions routes to the chat iff initialize_chat loads a truthy queue |
| AgentEdges.LoadedQueueIsAsked | backend/langgraph_logic.py:352 | after a non-empty queue is loaded, the run goes to ask_one_question, and that node makes the first question pending |
| AgentEdges.EntryAsksForMore | backend/langgraph_logic.py:220-244 | the stored entry asks for more exactly when the accepted reply says "incomplete" with a truthy missing_information |
| AgentEdges.SpecialistRoutesOnAnalysis | backend/langgraph_logic.py:369-375 | a specialist's step goes to initialize_chat or generate_report as decide_after_analysis reads final_analysis |
| AgentEdges.SpecialistRoutesOnItsReply | backend/langgraph_logic.py:373-375 | after an analysis the run returns to the chat iff the reply was accepted, says "incomplete" and lists missing information; otherwise, the error entry included, it goes to the report |
| AgentEdges.SpecialistQuestionsAreQueued | backend/langgraph_logic.py:230-234 | when the accepted reply says "incomplete" and lists truthy missing information, the run returns to the chat and initialize_chat queues exactly that list |
| AgentEdges.TriageFallsBackToGeneralMedicine | backend/langgraph_logic.py:197-204 | a reply that does not parse to a dict, or names no department, routes to general medicine |
| EndToEnd.StartIsInSync | ai_doctor/src/App.tsx:482-485 | a start with questions opens the chat on the first one, in step with the new session |
| EndToEnd.StartWithoutQuestionsShowsNoReport | ai_doctor/src/App.tsx:486-488 | a start without questions shows the results tab with no report, since the start reply has no final_analysis |
| EndToEnd.StartBody | backend/main.py:70-74 | the start reply as the client reads it: the id and the first question, with no final_analysis |
| EndToEnd.ContinueBody | backend/main.py:79-103 | the continue reply as the client reads it: the error body has neither id nor question; the done body carries `{"answers": [...]}` as final_analysis; a question body carries the id and the question |
| EndToEnd.UnknownConversationKeepsAnswerOnly | backend/main.py:79-80 | the error reply for an unknown id leaves the client with the answer shown and nothing else changed |
| EndToEnd.ContinueStaysInSync | backend/main.py:78-103 | each continue keeps the client's transcript, chat flag and report in step with the session row |
| EndToEnd.ReplayStaysInSync | ai_doctor/src/App.tsx:498-524 | a run of continues keeps client and backend in step |
| EndToEnd.TranscriptAlternates | ai_doctor/src/App.tsx:499-513 | up to the last question, the transcript alternates question and answer |
| EndToEnd.WholeConversation | backend/main.py:58-103 | after the start and one answer per question the client shows each question followed by its answer, and the report of exactly those answers on the results tab with the chat closed |

## Left out

- JSON numbers are integers. Floating point, `calculateBMI` and `toFixed` are not modelled.
- JavaScript's `null` and `undefined` are one value (`JNull` / `None`).
- File uploads (lab report and health record) and the form fields the payload does not send are not modelled.
- The `index` that `removeSymptom` and `updateSymptom` receive is an integer. `updateSymptom` is modelled for the three symptom fields only, not for an arbitrary property name.
- React's asynchronous state updates, the interleaving of handlers and unmounting are not modelled: each handler is one atomic step.
- Concurrent backend requests are not modelled. FastAPI runs the plain `def` endpoints `start` and `continue_chat` in a thread pool; the model serializes requests, making each one atomic step on the four dictionaries (`Store.Start`, `Store.ContinueChat`). Two concurrent starts can both read `len(sessions)` and issue the same id, the second overwriting the first row; two concurrent continues on one id can both read the cursor and send the same question twice. The id lemmas (`Sessions.IssuedIdsAreOneToN`, `Sessions.LaterIdsAreFresh`, `Sessions.StartIssuesNextId`, `Sessions.StartKeepsValid`) and the replay lemmas (`Sessions.ReplaySendsRemainingQuestions`, `Sessions.SessionLifetime`, `EndToEnd.ReplayStaysInSync`, `EndToEnd.WholeConversation`) hold for serialized requests only.
- The `fetch` and `response.json()` of each handler are an `Outcome` parameter. A reply with a `conversation_id` that is not a string is not modelled.
- The chat panel's scroll-into-view effect and all JSX rendering are not modelled.
- Every language-model call is left out. The reply text and `json.loads` are parameters; `json.loads` is modelled as a function that either returns a value or raises.
- The language-model parts of `preprocess_node`, `process_all_lab_reports_node` and `generate_report_node` are left out, together with PDF text extraction, report rendering, the prompts, the Groq client and the homepage.
- Only the edges of those three nodes are modelled.
- LangGraph's `recursion_limit` and the compilation and invocation of the graph are not modelled: `graph` is never defined in `langgraph_logic.py`, so `main.py`'s import of it cannot succeed. `Store.Start` takes the question list produced by the graph as a parameter.
- Python's list aliasing is not modelled: state values are values. In particular, `question_queue` and `structured_input.missing_information` can be one list, and `pop(0)` on the queue would also shorten the other.
- The log output of every node and router is left out.
- `pending_question` is written by `ask_one_question_node` although `PatientState` does not declare it. It is modelled as an ordinary key.
- The question list stored by `start` is a `seq<string>`. A `missing_information` that is null or holds non-strings is not modelled.
- The three specialist nodes share one model. They differ only in prompt and model, which are left out.
- Sessions.Store.Start: does not restate the table invariant in its contract. That the invariant is kept is `StartKeepsValid` about the transition the method is proved equal to.
- Sessions.Store.ContinueChat: requires that a known id has a row in every table and a non-negative cursor (`RowReady`). The invariant gives that for every id (`ValidRowsAreReady`); the source relies on it without checking.
- AgentNodes.GraphState.AskOneQuestion: the state left behind by an exception that escapes mid-update is not described.
- AgentNodes.InitializeChat: `str.capitalize()` of the specialist name is modelled only for whether it raises, since its result is only logged.
- AgentEdges.Next: a router key missing from the path map is an `UnknownBranch` outcome. The exception type LangGraph raises for it is not modelled.
