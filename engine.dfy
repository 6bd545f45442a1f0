/**
 * The survey runtime engine (`RuntimeEngine`): the cache of sessions, the
 * in-place updates of a session's state when an answer comes in, the
 * persistence of answers, and the reconstruction of a session from the
 * stored answer log. Each method is proved against the functions of
 * module Runtime. A cached runtime session whose state is the replay of
 * its stored answers (`Tracks`) stays one through `submitAnswer`, and a
 * session that is started or reconstructed begins as one.
 */
module Engine {
  import opened JsValues
  import opened Branching
  import opened Survey
  import opened Runtime

  /** `SurveyState` : the state of one session, updated in place. */
  class SurveyState {
    var surveyId: string
    var responseId: string
    var currentBlockId: string
    var variables: Variables
    var completedBlocks: seq<string>
    var answers: map<string, Value>

    constructor (d: StateData)
      ensures Data() == d
    {
      surveyId := d.surveyId;
      responseId := d.responseId;
      currentBlockId := d.currentBlockId;
      variables := d.variables;
      completedBlocks := d.completedBlocks;
      answers := d.answers;
    }

    /** The state as a value. */
    function Data(): StateData
      reads this
    {
      StateData(surveyId, responseId, currentBlockId, variables, completedBlocks, answers)
    }
  }

  datatype SessionKind = PreviewSession | RuntimeSession

  /** The configs a session runs: `ensureConfig` has put them in shape. */
  type Config = c: SurveyConfig | WellFormed(c) witness SurveyConfig(None, map[], [])

  /** `RuntimeSession` : a session's fixed parts and its mutable state. */
  datatype Session = Session(
    sessionId: string,
    kind: SessionKind,
    config: Config,
    state: SurveyState,
    deploymentId: Option<string>,
    draftId: Option<string>)

  /** A stored response: the row `createResponse` makes and the answers `saveAnswer` adds, in order. */
  datatype StoredResponse = StoredResponse(
    id: string,
    sessionId: string,
    deploymentId: Option<string>,
    draftId: Option<string>,
    respondentName: Option<string>,
    completed: bool,
    answers: seq<(string, Value)>)

  /** The survey id of a preview session: `survey.id || "preview"`. */
  function PreviewSurveyId(config: SurveyConfig): string
  {
    OrElse(config.surveyId, "preview")
  }

  /** The survey id of a runtime session: `survey.id || draftId || deploymentId || "runtime"`. */
  function RuntimeSurveyId(config: SurveyConfig, draftId: Option<string>, deploymentId: Option<string>): string
  {
    OrElse(config.surveyId, OrElse(draftId, OrElse(deploymentId, "runtime")))
  }

  /** What `createResponse` stores for the respondent's name: `name || null`. */
  function StoredName(name: Option<string>): (r: Option<string>)
    ensures OrElse(r, "") == OrElse(name, "")
  {
    if NonEmpty(name) then name else None
  }

  /** The state reconstruction starts from. */
  function StartOf(config: SurveyConfig, stored: StoredResponse): StateData
    requires WellFormed(config) && FirstBlockId(config).Ok?
  {
    Initial(RuntimeSurveyId(config, stored.draftId, stored.deploymentId), stored.id, FirstBlockId(config).value, stored.respondentName)
  }

  /** `d` is what replaying the stored answers of `stored` under `config` gives. */
  predicate Replays(config: SurveyConfig, stored: StoredResponse, d: StateData)
  {
    WellFormed(config) && FirstBlockId(config).Ok? && Replay(StartOf(config, stored), config, stored.answers) == Ok(d)
  }

  /** A replayed state stays one when the next answer is stored and stepped. */
  lemma ReplaysStep(config: SurveyConfig, stored: StoredResponse, d: StateData, questionId: string, answer: Value)
    requires Replays(config, stored, d) && Step(d, config, questionId, answer).Ok?
    ensures Replays(config, stored.(answers := stored.answers + [(questionId, answer)]), Step(d, config, questionId, answer).value)
  {
    ReplayExtend(StartOf(config, stored), config, stored.answers, questionId, answer);
  }

  /**
   * The persistence layer (`RuntimePersistence`): responses keyed by the
   * session that created them.
   */
  class Persistence {
    var responses: map<string, StoredResponse>

    constructor ()
      ensures responses == map[]
    {
      responses := map[];
    }

    /** Response ids are unique and each response sits under its own session id. */
    predicate Valid()
      reads this
    {
      (forall s | s in responses :: responses[s].sessionId == s) &&
      (forall s, t | s in responses && t in responses && s != t :: responses[s].id != responses[t].id)
    }

    /** `createResponse` : `id` is the id the database generates. */
    method CreateResponse(sessionId: string, deploymentId: Option<string>, draftId: Option<string>,
                          respondentName: Option<string>, id: string) returns (r: string)
      requires Valid() && sessionId !in responses
      requires forall s | s in responses :: responses[s].id != id
      modifies this
      ensures Valid() && r == id
      ensures responses == old(responses)[sessionId := StoredResponse(id, sessionId, deploymentId, draftId, respondentName, false, [])]
    {
      responses := responses[sessionId := StoredResponse(id, sessionId, deploymentId, draftId, respondentName, false, [])];
      r := id;
    }

    /** `saveAnswer` : appends to the answers of the response with that id. */
    method SaveAnswer(responseId: string, questionId: string, answer: Value)
      requires Valid()
      modifies this
      ensures Valid() && responses.Keys == old(responses).Keys
      ensures forall s | s in responses ::
        responses[s] == if old(responses)[s].id == responseId
                        then old(responses)[s].(answers := old(responses)[s].answers + [(questionId, answer)])
                        else old(responses)[s]
    {
      responses := map s | s in responses ::
        if responses[s].id == responseId then responses[s].(answers := responses[s].answers + [(questionId, answer)])
        else responses[s];
    }

    /** `completeResponse` : marks the response with that id completed. */
    method CompleteResponse(responseId: string)
      requires Valid()
      modifies this
      ensures Valid() && responses.Keys == old(responses).Keys
      ensures forall s | s in responses ::
        responses[s] == if old(responses)[s].id == responseId then old(responses)[s].(completed := true) else old(responses)[s]
    {
      responses := map s | s in responses ::
        if responses[s].id == responseId then responses[s].(completed := true) else responses[s];
    }

    /** `getResponseBySessionId` */
    method GetResponseBySessionId(sessionId: string) returns (r: Option<StoredResponse>)
      ensures r.Some? <==> sessionId in responses
      ensures r.Some? ==> r.value == responses[sessionId]
    {
      r := if sessionId in responses then Some(responses[sessionId]) else None;
    }
  }

  /** With unique response ids, the write `saveAnswer` makes to the response stored under `k` touches that one alone. */
  lemma AppendedUnder(before: map<string, StoredResponse>, after: map<string, StoredResponse>, k: string, questionId: string, answer: Value)
    requires k in before
    requires forall s, t | s in before && t in before && s != t :: before[s].id != before[t].id
    requires after.Keys == before.Keys
    requires forall s | s in after ::
      after[s] == if before[s].id == before[k].id then before[s].(answers := before[s].answers + [(questionId, answer)]) else before[s]
    ensures after == before[k := before[k].(answers := before[k].answers + [(questionId, answer)])]
  {
    forall s | s in after
      ensures after[s] == before[k := before[k].(answers := before[k].answers + [(questionId, answer)])][s]
    {
      if s != k {
        assert before[s].id != before[k].id;
      }
    }
  }

  /** With unique response ids, `completeResponse` on the id of the response stored under `k` completes that one alone. */
  lemma CompletedUnder(before: map<string, StoredResponse>, after: map<string, StoredResponse>, k: string)
    requires k in before
    requires forall s, t | s in before && t in before && s != t :: before[s].id != before[t].id
    requires after.Keys == before.Keys
    requires forall s | s in after :: after[s] == if before[s].id == before[k].id then before[s].(completed := true) else before[s]
    ensures after == before[k := before[k].(completed := true)]
  {
    forall s | s in after
      ensures after[s] == before[k := before[k].(completed := true)][s]
    {
      if s != k {
        assert before[s].id != before[k].id;
      }
    }
  }

  // The writes of each case of `updateSpecialVariables`, one at a time, are the table's writes merged in.

  lemma SingleWrite(v: Variables, questionId: string, answer: Value, key: string)
    requires questionId in {"b3", "b4", "b6", "b18"}
    requires key == match questionId
      case "b3" => "user_name" case "b4" => "connection_type" case "b6" => "arts_importance" case _ => "demographics_consent"
    ensures v[key := SpecialWrites(questionId, answer)[key]] == v + SpecialWrites(questionId, answer)
  {
  }

  lemma ArtsWrites(v: Variables, answer: Value)
    ensures v["arts_connections" := answer]
             ["arts_connections_count" := VNum(if answer.VList? then |answer.items| else 0)]
             ["arts_connections_contains_other" := VBool(answer.VList? && IncludesStr(answer.items, "other"))]
            == v + SpecialWrites("b5", answer)
  {
  }

  lemma VideoWrites(v: Variables, answer: Value)
    ensures (if IsObjectLike(answer) then
               v["videoask_share_response_id" := ValueOrNull(Field(answer, "responseId"))]
                ["videoask_share_response_url" := ValueOrNull(Field(answer, "responseUrl"))]
             else v) == v + SpecialWrites("b7", answer)
  {
  }

  lemma VisionWrites(v: Variables, answer: Value)
    ensures (if IsObjectLike(answer) then
               var kind := Field(answer, "type");
               v["future_vision_type" := if kind.Some? && Truthy(kind.value) then kind.value else VStr("skipped")]
                ["future_vision_response_id" := ValueOrNull(Field(answer, "responseId"))]
                ["future_vision_response_url" := ValueOrNull(Field(answer, "responseUrl"))]
             else v["future_vision_type" := VStr("skipped")]) == v + SpecialWrites("b12", answer)
  {
  }

  lemma NoWrites(v: Variables, questionId: string, answer: Value)
    requires questionId !in {"b3", "b4", "b5", "b6", "b7", "b12", "b16", "b18", "b19"}
    ensures v == v + SpecialWrites(questionId, answer)
  {
  }

  /** A replayed state carries the id of the response it was replayed from. */
  lemma ReplaysResponseId(config: SurveyConfig, stored: StoredResponse, d: StateData)
    requires Replays(config, stored, d)
    ensures d.responseId == stored.id
  {
    ReplayedAnswers(StartOf(config, stored), config, stored.answers);
  }

  /** A block `getNextQuestion` returns can be formatted: a config block, or a message block without a content condition. */
  lemma ReturnedBlockWellFormed(config: SurveyConfig, vars: Variables, questionId: string, answer: Value, fuel: nat)
    requires WellFormed(config)
    ensures var o := NextQuestion(config, vars, questionId, answer, fuel);
      o.Outcome? && o.question.Some? ==> WellFormedBlock(o.question.value)
  {
    ReturnedBlockIsShown(config, vars, questionId, answer, fuel);
  }

  /** What `submitAnswer` reports after moving a session to state `d`. */
  function Answered(config: SurveyConfig, d: StateData, questionId: string, answer: Value): (r: AnswerResponse)
    requires WellFormed(config) && NextQuestion(config, d.variables, questionId, answer, HopLimit(config)).Outcome?
    ensures 0 <= r.progress <= 100
    ensures r.progress == 100 <==> forall x | x in ExpectedBlocks(d.variables) :: x in d.completedBlocks
    ensures r.nextQuestion.Some? <==> NextQuestion(config, d.variables, questionId, answer, HopLimit(config)).question.Some?
  {
    ReturnedBlockWellFormed(config, d.variables, questionId, answer, HopLimit(config));
    ProgressInRange(d.variables, d.completedBlocks);
    ProgressFullIffAllDone(d.variables, d.completedBlocks);
    AnswerResponse(
      FormatNext(NextQuestion(config, d.variables, questionId, answer, HopLimit(config)).question, d.variables),
      Progress(d.variables, d.completedBlocks))
  }

  const InvalidSession := "Invalid session ID"
  const SessionNotFound := "Session not found"

  datatype StartResponse = StartResponse(sessionId: string, responseId: string, firstQuestion: Block)

  datatype AnswerResponse = AnswerResponse(nextQuestion: Option<Block>, progress: int)

  datatype SessionStateResponse = SessionStateResponse(
    currentQuestion: Option<Block>,
    progress: int,
    isComplete: bool,
    responseId: string,
    conversationHistory: seq<HistoryItem>)

  /** `nextBlock ? formatQuestionForClient(nextBlock, variables) : null` */
  function FormatNext(question: Option<Block>, vars: Variables): (r: Option<Block>)
    requires question.Some? ==> WellFormedBlock(question.value)
    ensures r.Some? <==> question.Some?
  {
    match question
    case None => None
    case Some(b) => Some(FormatQuestion(b, vars))
  }

  /** What `getSessionState` reports about a session in state `d`. */
  function StateView(config: SurveyConfig, d: StateData): (r: SessionStateResponse)
    requires WellFormed(config)
    ensures r.isComplete <==> d.currentBlockId !in config.blocks
    ensures r.isComplete <==> r.currentQuestion.None?
    ensures 0 <= r.progress <= 100
    ensures r.responseId == d.responseId
    ensures forall i | 0 <= i < |r.conversationHistory| ::
      r.conversationHistory[i].blockId in d.completedBlocks && r.conversationHistory[i].blockId in config.blocks
  {
    ProgressInRange(d.variables, d.completedBlocks);
    HistoryEntries(config, d, d.completedBlocks);
    SessionStateResponse(
      FormatNext(BlockOf(config, d.currentBlockId), d.variables),
      Progress(d.variables, d.completedBlocks),
      d.currentBlockId !in config.blocks,
      d.responseId,
      HistoryOf(config, d, d.completedBlocks))
  }

  /** The engine's handling of one session's state: `updateState`, `updateSpecialVariables`, `getNextQuestion`, `buildConversationHistory`. */
  class RuntimeEngine {
    var sessions: map<string, Session>
    const persistence: Persistence
    constructor (persistence: Persistence)
      ensures this.persistence == persistence && sessions == map[]
    {
      this.persistence := persistence;
      sessions := map[];
    }

    /** The cached session `k` is a runtime session whose state is the replay of its stored response. */
    ghost predicate Tracks(k: string)
      reads this, persistence, if k in sessions then {sessions[k].state} else {}
    {
      && k in sessions && sessions[k].kind == RuntimeSession && k in persistence.responses
      && Replays(sessions[k].config, persistence.responses[k], sessions[k].state.Data())
    }

    /** `startPreview` : `sessionId` and `responseId` are the generated UUIDs. */
    method StartPreview(config: SurveyConfig, name: Option<string>, sessionId: string, responseId: string) returns (r: Result<StartResponse>)
      requires WellFormed(config)
      modifies this
      ensures r.Err? <==> FirstBlockId(config).Err?
      ensures r.Err? ==> r.message == NoBlocksError && sessions == old(sessions)
      ensures r.Ok? ==>
        var first := FirstBlockId(config).value;
        && sessionId in sessions && sessions == old(sessions)[sessionId := sessions[sessionId]]
        && fresh(sessions[sessionId].state) && sessions[sessionId].kind == PreviewSession && sessions[sessionId].config == config
        && sessions[sessionId].state.Data() == Initial(PreviewSurveyId(config), responseId, first, name)
        && r.value == StartResponse(sessionId, responseId, FormatQuestion(config.blocks[first], sessions[sessionId].state.variables))
    {
      var first := FirstBlockId(config);
      if first.Err? {
        return Err(first.message);
      }
      var state := new SurveyState(Initial(PreviewSurveyId(config), responseId, first.value, name));
      sessions := sessions[sessionId := Session(sessionId, PreviewSession, config, state, None, None)];
      r := Ok(StartResponse(sessionId, responseId, FormatQuestion(config.blocks[first.value], state.variables)));
    }

    /**
     * `startRuntime` : `sessionId` is the generated UUID and `responseId`
     * the id the database gives the new row. The row is created before the
     * first block is looked up, so a config without blocks leaves it behind.
     */
    method StartRuntime(config: SurveyConfig, name: Option<string>, deploymentId: Option<string>, draftId: Option<string>,
                        sessionId: string, responseId: string) returns (r: Result<StartResponse>)
      requires WellFormed(config) && persistence.Valid()
      requires sessionId !in persistence.responses
      requires forall s | s in persistence.responses :: persistence.responses[s].id != responseId
      modifies this, persistence
      ensures persistence.Valid()
      ensures persistence.responses ==
        old(persistence.responses)[sessionId := StoredResponse(responseId, sessionId, deploymentId, draftId, StoredName(name), false, [])]
      ensures r.Err? <==> FirstBlockId(config).Err?
      ensures r.Err? ==> r.message == NoBlocksError && sessions == old(sessions)
      ensures r.Ok? ==>
        var first := FirstBlockId(config).value;
        && sessionId in sessions && sessions == old(sessions)[sessionId := sessions[sessionId]]
        && fresh(sessions[sessionId].state) && sessions[sessionId].config == config
        && sessions[sessionId].state.Data() == Initial(RuntimeSurveyId(config, draftId, deploymentId), responseId, first, name)
        && Tracks(sessionId)
        && r.value == StartResponse(sessionId, responseId, FormatQuestion(config.blocks[first], sessions[sessionId].state.variables))
    {
      var id := persistence.CreateResponse(sessionId, deploymentId, draftId, StoredName(name), responseId);
      var first := FirstBlockId(config);
      if first.Err? {
        return Err(first.message);
      }
      var state := new SurveyState(Initial(RuntimeSurveyId(config, draftId, deploymentId), id, first.value, name));
      sessions := sessions[sessionId := Session(sessionId, RuntimeSession, config, state, deploymentId, draftId)];
      r := Ok(StartResponse(sessionId, id, FormatQuestion(config.blocks[first.value], state.variables)));
    }

    /**
     * The session lookup `submitAnswer` and `getSessionState` share: the
     * cached session, else (given a config) the one reconstructed from the
     * stored answers, which is then cached.
     */
    method Resolve(sessionId: string, config: Option<SurveyConfig>) returns (r: Result<Option<Session>>)
      requires config.Some? ==> WellFormed(config.value)
      modifies this
      ensures sessionId in old(sessions) ==> r == Ok(Some(old(sessions)[sessionId])) && sessions == old(sessions)
      ensures r == Ok(None) <==>
        sessionId !in old(sessions) &&
        (config.None? || sessionId !in persistence.responses || persistence.responses[sessionId].completed)
      ensures r.Err? ==> sessions == old(sessions) && (r.message == NoBlocksError || r.message == OverflowError)
      ensures r.Ok? && r.value.None? ==> sessions == old(sessions)
      ensures r.Ok? && r.value.Some? ==> sessionId in sessions && sessions == old(sessions)[sessionId := r.value.value]
      ensures r.Ok? && r.value.Some? && sessionId !in old(sessions) ==>
        fresh(r.value.value.state) && r.value.value.config == config.value && Tracks(sessionId)
    {
      if sessionId in sessions {
        return Ok(Some(sessions[sessionId]));
      }
      if config.None? {
        return Ok(None);
      }
      r := ReconstructSessionFromDatabase(sessionId, config.value);
      if r.Ok? && r.value.Some? {
        sessions := sessions[sessionId := r.value.value];
      }
    }

    /**
     * `submitAnswer` : record the answer and move on; a runtime session
     * stores the answer too. A session that replayed its stored answers
     * still does after the new one is stored.
     */
    method SubmitAnswer(sessionId: string, questionId: string, answer: Value, config: Option<SurveyConfig>) returns (r: Result<AnswerResponse>)
      requires persistence.Valid() && (config.Some? ==> WellFormed(config.value))
      modifies this, persistence, if sessionId in sessions then {sessions[sessionId].state} else {}
      ensures persistence.Valid()
      ensures r == Err(InvalidSession) <==>
        sessionId !in old(sessions) &&
        (config.None? || sessionId !in old(persistence.responses) || old(persistence.responses[sessionId].completed))
      ensures r.Ok? ==>
        && sessionId in sessions
        && NextQuestion(sessions[sessionId].config, sessions[sessionId].state.variables, questionId, answer, HopLimit(sessions[sessionId].config)).Outcome?
        && r.value == Answered(sessions[sessionId].config, sessions[sessionId].state.Data(), questionId, answer)
      ensures r.Ok? && sessionId in old(sessions) ==>
        sessions == old(sessions) &&
        Step(old(sessions[sessionId].state.Data()), sessions[sessionId].config, questionId, answer) == Ok(sessions[sessionId].state.Data())
      ensures r.Ok? && sessions[sessionId].kind == PreviewSession ==> persistence.responses == old(persistence.responses)
      ensures r.Ok? && (sessionId in old(sessions) ==> old(Tracks(sessionId))) && sessions[sessionId].kind == RuntimeSession ==>
        && Tracks(sessionId)
        && persistence.responses == old(persistence.responses)[sessionId := old(persistence.responses)[sessionId].(
             answers := old(persistence.responses)[sessionId].answers + [(questionId, answer)])]
    {
      var found := Resolve(sessionId, config);
      if found.Err? {
        return Err(found.message);
      }
      if found.value.None? {
        return Err(InvalidSession);
      }
      var session := found.value.value;
      ghost var resolved := sessions;
      r := Reply(sessionId, session, questionId, answer);
      assert sessions == resolved && sessions[sessionId] == session;
    }

    /** `submitAnswer` once the session is found: the answer is taken and the reply built. */
    method Reply(key: string, session: Session, questionId: string, answer: Value) returns (r: Result<AnswerResponse>)
      requires persistence.Valid()
      modifies persistence, session.state
      ensures persistence.Valid()
      ensures r.Err? ==> r.message == OverflowError
      ensures r.Ok? ==>
        && Step(old(session.state.Data()), session.config, questionId, answer) == Ok(session.state.Data())
        && NextQuestion(session.config, session.state.variables, questionId, answer, HopLimit(session.config)).Outcome?
        && r.value == Answered(session.config, session.state.Data(), questionId, answer)
      ensures r.Err? || session.kind == PreviewSession ==> persistence.responses == old(persistence.responses)
      ensures r.Ok? && session.kind == RuntimeSession && key in old(persistence.responses) &&
              old(Replays(session.config, persistence.responses[key], session.state.Data())) ==>
        && persistence.responses == old(persistence.responses)[key := old(persistence.responses)[key].(
             answers := old(persistence.responses)[key].answers + [(questionId, answer)])]
        && Replays(session.config, persistence.responses[key], session.state.Data())
    {
      var next := Answer(key, session, questionId, answer);
      if next.Overflow? {
        return Err(OverflowError);
      }
      var progress := Progress(session.state.variables, session.state.completedBlocks);
      ReturnedBlockWellFormed(session.config, session.state.variables, questionId, answer, HopLimit(session.config));
      r := Ok(AnswerResponse(FormatNext(next.question, session.state.variables), progress));
    }

    /** `getSessionState` : the session's current question, progress and history, reconstructing it when it is not cached. */
    method GetSessionState(sessionId: string, config: Option<SurveyConfig>) returns (r: Result<SessionStateResponse>)
      requires config.Some? ==> WellFormed(config.value)
      modifies this
      ensures r == Err(SessionNotFound) <==>
        sessionId !in old(sessions) &&
        (config.None? || sessionId !in persistence.responses || persistence.responses[sessionId].completed)
      ensures r.Err? ==> sessions == old(sessions)
      ensures r.Ok? ==> sessionId in sessions && r.value == StateView(sessions[sessionId].config, sessions[sessionId].state.Data())
      ensures sessionId in old(sessions) ==> sessions == old(sessions)
      ensures r.Ok? && sessionId !in old(sessions) ==> Tracks(sessionId)
    {
      var found := Resolve(sessionId, config);
      if found.Err? {
        return Err(found.message);
      }
      if found.value.None? {
        return Err(SessionNotFound);
      }
      var session := found.value.value;
      var current := BlockOf(session.config, session.state.currentBlockId);
      var formatted := FormatNext(current, session.state.variables);
      var progress := Progress(session.state.variables, session.state.completedBlocks);
      var history := BuildConversationHistory(session);
      r := Ok(SessionStateResponse(formatted, progress, current.None?, session.state.responseId, history));
    }

    /**
     * `completeSession` : marks the stored response completed and drops the
     * session from the cache. A session that is not cached is completed
     * through its stored row, if that is still open.
     */
    method CompleteSession(sessionId: string)
      requires persistence.Valid()
      modifies this, persistence
      ensures persistence.Valid()
      ensures sessions == old(sessions) - {sessionId}
      ensures sessionId !in old(sessions) ==>
        persistence.responses ==
          if sessionId in old(persistence.responses) && !old(persistence.responses)[sessionId].completed
          then old(persistence.responses)[sessionId := old(persistence.responses)[sessionId].(completed := true)]
          else old(persistence.responses)
      ensures sessionId in old(sessions) && old(sessions)[sessionId].kind == PreviewSession ==>
        persistence.responses == old(persistence.responses)
      ensures old(Tracks(sessionId)) ==>
        persistence.responses == old(persistence.responses)[sessionId := old(persistence.responses)[sessionId].(completed := true)]
    {
      if sessionId !in sessions {
        var dbResponse := persistence.GetResponseBySessionId(sessionId);
        if dbResponse.Some? && !dbResponse.value.completed {
          ghost var stored := persistence.responses;
          persistence.CompleteResponse(dbResponse.value.id);
          CompletedUnder(stored, persistence.responses, sessionId);
        }
        return;
      }
      var session := sessions[sessionId];
      if session.kind == RuntimeSession {
        ghost var stored := persistence.responses;
        ghost var tracked := Tracks(sessionId);
        persistence.CompleteResponse(session.state.responseId);
        if tracked {
          ReplaysResponseId(session.config, stored[sessionId], session.state.Data());
          CompletedUnder(stored, persistence.responses, sessionId);
        }
      }
      sessions := sessions - {sessionId};
    }

    /** `clearSession` */
    method ClearSession(sessionId: string)
      modifies this
      ensures sessions == old(sessions) - {sessionId}
    {
      sessions := sessions - {sessionId};
    }

    /**
     * The part of `submitAnswer` after the session is found: `updateState`,
     * `getNextQuestion`, then `saveAnswer` for a runtime session. A hop
     * chain that never ends throws before the answer is stored. `key` is
     * the session id the stored response sits under.
     */
    method Answer(key: string, session: Session, questionId: string, answer: Value) returns (next: Outcome)
      requires persistence.Valid() && WellFormed(session.config)
      modifies persistence, session.state
      ensures persistence.Valid()
      ensures next.Overflow? <==> Step(old(session.state.Data()), session.config, questionId, answer).Err?
      ensures next.Outcome? ==>
        && Step(old(session.state.Data()), session.config, questionId, answer) == Ok(session.state.Data())
        && next == NextQuestion(session.config, session.state.variables, questionId, answer, HopLimit(session.config))
      ensures next.Overflow? || session.kind == PreviewSession ==> persistence.responses == old(persistence.responses)
      ensures next.Outcome? && session.kind == RuntimeSession && key in old(persistence.responses) &&
              old(Replays(session.config, persistence.responses[key], session.state.Data())) ==>
        && persistence.responses == old(persistence.responses)[key := old(persistence.responses)[key].(
             answers := old(persistence.responses)[key].answers + [(questionId, answer)])]
        && Replays(session.config, persistence.responses[key], session.state.Data())
    {
      ghost var before := session.state.Data();
      ghost var stored := persistence.responses;
      next := Advance(session, questionId, answer);
      if next.Outcome? && session.kind == RuntimeSession {
        persistence.SaveAnswer(session.state.responseId, questionId, answer);
        if key in stored && Replays(session.config, stored[key], before) {
          ReplaysResponseId(session.config, stored[key], before);
          ReplaysStep(session.config, stored[key], before, questionId, answer);
          AppendedUnder(stored, persistence.responses, key, questionId, answer);
        }
      }
    }

    /** `updateSpecialVariables` */
    static method UpdateSpecialVariables(state: SurveyState, questionId: string, answer: Value)
      modifies state
      ensures state.Data() == old(state.Data()).(variables := SpecialVariables(old(state.variables), questionId, answer))
    {
      ghost var v := state.variables;
      match questionId
      case "b3" =>
        state.variables := state.variables["user_name" := if Truthy(answer) then answer else VStr("")];
        SingleWrite(v, "b3", answer, "user_name");
      case "b4" =>
        state.variables := state.variables["connection_type" := answer];
        SingleWrite(v, "b4", answer, "connection_type");
      case "b5" =>
        state.variables := state.variables["arts_connections" := answer];
        state.variables := state.variables["arts_connections_count" := VNum(if answer.VList? then |answer.items| else 0)];
        state.variables := state.variables["arts_connections_contains_other" := VBool(answer.VList? && IncludesStr(answer.items, "other"))];
        ArtsWrites(v, answer);
      case "b6" =>
        state.variables := state.variables["arts_importance" := answer];
        SingleWrite(v, "b6", answer, "arts_importance");
      case "b7" =>
        if IsObjectLike(answer) {
          state.variables := state.variables["videoask_share_response_id" := ValueOrNull(Field(answer, "responseId"))];
          state.variables := state.variables["videoask_share_response_url" := ValueOrNull(Field(answer, "responseUrl"))];
        }
        VideoWrites(v, answer);
      case "b12" =>
        if IsObjectLike(answer) {
          var kind := Field(answer, "type");
          state.variables := state.variables["future_vision_type" := if kind.Some? && Truthy(kind.value) then kind.value else VStr("skipped")];
          state.variables := state.variables["future_vision_response_id" := ValueOrNull(Field(answer, "responseId"))];
          state.variables := state.variables["future_vision_response_url" := ValueOrNull(Field(answer, "responseUrl"))];
        } else {
          state.variables := state.variables["future_vision_type" := VStr("skipped")];
        }
        VisionWrites(v, answer);
      case "b16" =>
        if answer.VList? {
          var xs := answer.items;
          state.variables := state.variables + map[
            "contact_methods" := answer,
            "wants_email" := VBool(IncludesStr(xs, "email")),
            "wants_text" := VBool(IncludesStr(xs, "text")),
            "wants_print" := VBool(IncludesStr(xs, "print") || IncludesStr(xs, "newsletter")),
            "wants_social" := VBool(IncludesStr(xs, "social")),
            "wants_conversations" := VBool(IncludesStr(xs, "conversations")),
            "wants_no_updates" := VBool(IncludesStr(xs, "no-updates"))];
        } else {
          assert SpecialWrites("b16", answer) == map[];
        }
      case "b18" =>
        state.variables := state.variables["demographics_consent" := answer];
        SingleWrite(v, "b18", answer, "demographics_consent");
      case "b19" =>
        if answer.VObj? {
          state.variables := Assign(state.variables, answer.fields);
          assert SpecialWrites("b19", answer) == FieldsMap(answer.fields);
        } else if answer.VList? {
          state.variables := Assign(state.variables, Indexed(answer.items));
          assert SpecialWrites("b19", answer) == FieldsMap(Indexed(answer.items));
        } else {
          assert SpecialWrites("b19", answer) == map[];
        }
      case _ =>
        NoWrites(v, questionId, answer);
    }
  
    /** `updateState` */
    static method UpdateState(session: Session, questionId: string, answer: Value)
      modifies session.state
      ensures session.state.Data() == Record(old(session.state.Data()), session.config, questionId, answer)
    {
      var state := session.state;
      ghost var v := state.variables;
      state.answers := state.answers[questionId := answer];
      if questionId !in state.completedBlocks {
        state.completedBlocks := state.completedBlocks + [questionId];
      }
      var block := BlockOf(session.config, questionId);
      if block.Some? && NonEmpty(block.value.variable) {
        state.variables := state.variables[block.value.variable.value := answer];
      }
      assert state.variables == v + VariableWrite(block, answer);
      if block.Some? && block.value.options.Some? {
        var selected := SelectedOption(block.value.options.value, answer);
        if selected.Some? {
          state.variables := Assign(state.variables, selected.value.setVariables);
        }
      }
      assert state.variables == v + VariableWrite(block, answer) + OptionWrites(block, answer);
      UpdateSpecialVariables(state, questionId, answer);
    }

    /** The precedence part of `getNextQuestion`, for an answer that does not show an `onEmpty` message. */
    static method NextBlockId(block: Block, vars: Variables, answer: Value) returns (r: Option<string>)
      requires !ShowsEmptyMessage(block, answer)
      ensures r == Candidate(block, vars, answer)
    {
      var nextBlockId: Option<string> := None;
      if answer == VStr("") && block.onEmpty.Some? {
        var onEmpty := block.onEmpty.value;
        nextBlockId := if NonEmpty(onEmpty.next) then onEmpty.next else NextAsId(block.next);
      } else if block.next.NextId? {
        nextBlockId := Some(block.next.id);
      }
      if !NonEmpty(nextBlockId) && block.options.Some? {
        var selected := SelectedOption(block.options.value, answer);
        if selected.Some? && NonEmpty(selected.value.next) {
          nextBlockId := selected.value.next;
        }
      }
      if !NonEmpty(nextBlockId) {
        if block.next.NextRouting? {
          nextBlockId := OrNull(EvaluateConditionalNext(Some(block.next.routing), vars, block.variable));
        } else if block.conditionalNext.Some? {
          nextBlockId := OrNull(EvaluateConditionalNext(block.conditionalNext, vars, block.variable));
        }
      }
      r := if NonEmpty(nextBlockId) then nextBlockId else None;
    }

    /**
     * `getNextQuestion`, allowed `fuel` automatic hops: it moves only the
     * current block, onto the last block it passes or returns.
     */
    static method GetNextQuestion(session: Session, questionId: string, answer: Value, fuel: nat) returns (r: Outcome)
      modifies session.state
      ensures r == NextQuestion(session.config, old(session.state.variables), questionId, answer, fuel)
      ensures session.state.Data().(currentBlockId := old(session.state.currentBlockId)) == old(session.state.Data())
      ensures r.Outcome? ==> session.state.currentBlockId == if r.moved.Some? then r.moved.value else old(session.state.currentBlockId)
      decreases fuel
    {
      var state := session.state;
      var blocks := session.config.blocks;
      if questionId !in blocks {
        return Outcome(None, None);
      }
      var block := blocks[questionId];
      if ShowsEmptyMessage(block, answer) {
        return Outcome(None, Some(EmptyMessage(questionId, block)));
      }
      var nextBlockId := NextBlockId(block, state.variables, answer);
      if nextBlockId.None? {
        return Outcome(None, None);
      }
      var n := nextBlockId.value;
      state.currentBlockId := n;
      if n in blocks && (Hidden(blocks[n], state.variables) || AutoAdvance(blocks[n])) {
        // a hidden block is skipped with a null answer, a routing hop passed with "acknowledged"
        var hopAnswer := if Hidden(blocks[n], state.variables) then VNull else VStr("acknowledged");
        if fuel == 0 {
          return Overflow;
        }
        r := GetNextQuestion(session, n, hopAnswer, fuel - 1);
        if r.Outcome? && r.moved.None? {
          r := Outcome(Some(n), r.question);
        }
        return;
      }
      r := Outcome(Some(n), BlockOf(session.config, n));
    }
  
    /** `buildConversationHistory` */
    static method BuildConversationHistory(session: Session) returns (history: seq<HistoryItem>)
      requires WellFormed(session.config)
      ensures history == HistoryOf(session.config, session.state.Data(), session.state.completedBlocks)
    {
      var state := session.state;
      var blocks := session.config.blocks;
      var ids := state.completedBlocks;
      ghost var entries := EntriesOf(session.config, state.Data(), ids);
      history := [];
      for i := 0 to |ids|
        invariant history == Somes(entries[..i])
      {
        assert entries[..i + 1] == entries[..i] + [entries[i]];
        var blockId := ids[i];
        if blockId !in blocks || blocks[blockId].kind == "routing" {
          continue;
        }
        var block := blocks[blockId];
        var formatted := FormatQuestion(block, state.variables);
        if block.kind == "dynamic-message" {
          history := history + [HistoryItem(blockId, ShownContent(formatted.content), None, block.kind, true)];
          continue;
        }
        var answer := if blockId in state.answers then Some(state.answers[blockId]) else None;
        var answerDisplay := FormatAnswerForDisplay(answer, formatted);
        history := history + [HistoryItem(blockId, ShownContent(formatted.content), Some(answerDisplay), block.kind, false)];
      }
      assert entries[..|ids|] == entries;
    }
  
    /** `updateState` followed by `getNextQuestion`, as both the live engine and the replay run them. */
    static method Advance(session: Session, questionId: string, answer: Value) returns (next: Outcome)
      modifies session.state
      ensures next == NextQuestion(session.config, session.state.variables, questionId, answer, HopLimit(session.config))
      ensures next.Overflow? <==> Step(old(session.state.Data()), session.config, questionId, answer).Err?
      ensures next.Outcome? ==> session.state.Data() == Step(old(session.state.Data()), session.config, questionId, answer).value
      ensures next.Overflow? ==> session.state.responseId == old(session.state.responseId)
    {
      UpdateState(session, questionId, answer);
      next := GetNextQuestion(session, questionId, answer, HopLimit(session.config));
    }

    /** The replay loop of `reconstructSessionFromDatabase`: each stored answer in order, stopping at a hop chain that never ends. */
    static method ReplayLog(session: Session, log: seq<(string, Value)>) returns (ok: bool)
      modifies session.state
      ensures ok <==> Replay(old(session.state.Data()), session.config, log).Ok?
      ensures ok ==> session.state.Data() == Replay(old(session.state.Data()), session.config, log).value
    {
      ghost var start := session.state.Data();
      assert log[..0] == [];
      for i := 0 to |log|
        invariant Replay(start, session.config, log[..i]) == Ok(session.state.Data())
      {
        var (questionId, answer) := log[i];
        ReplayExtend(start, session.config, log[..i], questionId, answer);
        assert log[..i + 1] == log[..i] + [(questionId, answer)];
        var next := Advance(session, questionId, answer);
        if next.Overflow? {
          ReplayFailurePersists(start, session.config, log, i + 1);
          return false;
        }
      }
      assert log[..|log|] == log;
      return true;
    }

    /** `reconstructSessionFromDatabase` : replays the stored answers through `updateState` and `getNextQuestion`. */
    method ReconstructSessionFromDatabase(sessionId: string, config: SurveyConfig) returns (r: Result<Option<Session>>)
      requires WellFormed(config)
      ensures r == Ok(None) <==> sessionId !in persistence.responses || persistence.responses[sessionId].completed
      ensures r.Err? <==>
        sessionId in persistence.responses && !persistence.responses[sessionId].completed &&
        (FirstBlockId(config).Err? || Replay(StartOf(config, persistence.responses[sessionId]), config, persistence.responses[sessionId].answers).Err?)
      ensures r.Ok? && r.value.Some? ==>
        var session := r.value.value;
        fresh(session.state) && session.sessionId == sessionId && session.kind == RuntimeSession && session.config == config &&
        sessionId in persistence.responses && Replays(config, persistence.responses[sessionId], session.state.Data())
      ensures r.Err? ==> r.message == NoBlocksError || r.message == OverflowError
    {
      var dbResponse := persistence.GetResponseBySessionId(sessionId);
      if dbResponse.None? || dbResponse.value.completed {
        return Ok(None);
      }
      var stored := dbResponse.value;
      var first := FirstBlockId(config);
      if first.Err? {
        return Err(first.message);
      }
      var state := new SurveyState(Initial(RuntimeSurveyId(config, stored.draftId, stored.deploymentId), stored.id, first.value, stored.respondentName));
      var temp := Session(sessionId, RuntimeSession, config, state, stored.deploymentId, stored.draftId);
      var replayed := ReplayLog(temp, stored.answers);
      if !replayed {
        return Err(OverflowError);
      }
      return Ok(Some(temp));
    }
  }
}
