/** The decision logic of the real-time voice assistant: which persona and which tools a
    session is configured with, the gapless scheduling of reply audio, the session status
    machine, and the routing of tool calls. */
module VoiceAssistant {
  import opened Wrappers
  import opened Numbers

  datatype Mode = Advisor | Negotiator | CallSimulation

  datatype Status = Idle | Connecting | Listening | Speaking

  /** The three persona branches of the system instruction. */
  datatype Persona = AmbientListener | FarmAdvisor | MarketBroker

  /** The persona branch chosen for a session: the ambient flag wins over the mode, and
      the advisor and the call simulation share one persona. */
  function PersonaFor(mode: Mode, ambient: bool): (p: Persona)
    ensures p == AmbientListener <==> ambient
    ensures p == FarmAdvisor <==> !ambient && (mode == Advisor || mode == CallSimulation)
    ensures p == MarketBroker <==> !ambient && mode == Negotiator
  {
    if ambient then AmbientListener
    else match mode
      case Advisor => FarmAdvisor
      case CallSimulation => FarmAdvisor
      case Negotiator => MarketBroker
  }

  const LogHarvest: string := "log_harvest"
  const GetClimateRisk: string := "get_climate_risk"
  const GetInsuranceStatus: string := "get_insurance_status"

  /** The function declarations sent with the session, or None when the session declares
      no tools at all. */
  function ActiveTools(mode: Mode, ambient: bool): (tools: Option<seq<string>>)
    ensures tools.Some? <==> mode == Advisor && !ambient
  {
    if mode == Advisor && !ambient then Some([LogHarvest, GetClimateRisk, GetInsuranceStatus])
    else None
  }

  /** A session that declares tools declares exactly three, among them the climate-risk,
      insurance-status and harvest-logging tools. */
  lemma ActiveToolsDeclared(mode: Mode, ambient: bool)
    ensures ActiveTools(mode, ambient).Some? ==>
      var tools := ActiveTools(mode, ambient).value;
      GetClimateRisk in tools && GetInsuranceStatus in tools && LogHarvest in tools && |tools| == 3
  {
  }

  /** Call simulation speaks with the advisor's persona but without its tools. */
  lemma CallSimulationSharesPersonaNotTools()
    ensures PersonaFor(CallSimulation, false) == PersonaFor(Advisor, false)
    ensures ActiveTools(CallSimulation, false).None? && ActiveTools(Advisor, false).Some?
  {
  }

  /** Where a reply chunk starts: at the end of what is already queued, or now when the
      queue has run dry. */
  function ChunkStart(cursor: real, now: real): (start: real)
    ensures start >= cursor && start >= now
    ensures start == cursor || start == now
  {
    Max(cursor, now)
  }

  /** Two chunks enqueued back to back while the queue is ahead of the clock play with no
      gap between them. */
  lemma BackToBackChunksAreGapless(cursor: real, now1: real, d1: real, now2: real)
    requires now1 <= cursor && now2 <= cursor + d1 && d1 >= 0.0
    ensures ChunkStart(ChunkStart(cursor, now1) + d1, now2) == ChunkStart(cursor, now1) + d1
  {
  }

  /** The active list without the unit that just finished playing. */
  function WithoutUnit(units: seq<nat>, u: nat): (r: seq<nat>)
    ensures forall x :: x in r <==> x in units && x != u
    ensures |r| <= |units|
  {
    if units == [] then []
    else if units[0] == u then WithoutUnit(units[1..], u)
    else [units[0]] + WithoutUnit(units[1..], u)
  }

  /** No interval ends before it starts, and each interval starts no earlier than the
      previous one ends. */
  ghost predicate Gapless(schedule: seq<(real, real)>)
  {
    (forall i :: 0 <= i < |schedule| ==> schedule[i].0 <= schedule[i].1) &&
    (forall i, j :: 0 <= i < j < |schedule| ==> schedule[i].1 <= schedule[j].0)
  }

  const StartFailed: string := "Microphone access failed."
  const ConnectionError: string := "Connection error"

  /** One voice session: the playback queue of reply audio and the session status. */
  class VoiceSession {
    var status: Status
    var active: bool
    var mode: Mode
    var ambient: bool
    var error: Option<string>
    var transcript: string
    /** When the next reply chunk may start (nextStartTimeRef). */
    var cursor: real
    /** Units of audio scheduled and not yet finished (sourceNodesRef). */
    var playing: seq<nat>
    var nextUnit: nat
    /** Whether an output audio context has been created, and whether it is still open. */
    var hasContext: bool
    var contextOpen: bool
    var closeCount: nat
    /** The configuration sent with the last successful start. */
    var persona: Option<Persona>
    var tools: Option<seq<string>>
    /** The intervals scheduled on the current audio context. */
    ghost var schedule: seq<(real, real)>

    ghost predicate Valid()
      reads this
    {
      Gapless(schedule) &&
      (|schedule| > 0 ==> schedule[|schedule| - 1].1 <= cursor) &&
      (contextOpen ==> hasContext) &&
      (forall u :: u in playing ==> u < nextUnit)
    }

    constructor(mode: Mode, ambient: bool)
      ensures Valid()
      ensures status == Idle && !active && !hasContext && playing == []
      ensures this.mode == mode && this.ambient == ambient
    {
      status := Idle;
      active := false;
      this.mode := mode;
      this.ambient := ambient;
      error := None;
      transcript := "";
      cursor := 0.0;
      playing := [];
      nextUnit := 0;
      hasContext := false;
      contextOpen := false;
      closeCount := 0;
      persona := None;
      tools := None;
      schedule := [];
    }

    /** Starts a session.  A missing API key or a refused microphone ends in the same
        catch branch; otherwise a fresh output context is created, the cursor is reset to
        its clock, and the session is configured from the mode and the ambient flag. */
    method Start(hasApiKey: bool, contextTime: real, microphoneGranted: bool)
      modifies this`error, this`transcript, this`status, this`hasContext, this`contextOpen,
               this`cursor, this`schedule, this`tools, this`persona, this`active
      requires Valid()
      ensures Valid()
      ensures transcript == ""
      ensures !(hasApiKey && microphoneGranted) ==>
                status == Idle && error == Some(StartFailed)
                && active == old(active) && persona == old(persona) && tools == old(tools)
      ensures !hasApiKey ==> hasContext == old(hasContext) && contextOpen == old(contextOpen)
                             && cursor == old(cursor) && schedule == old(schedule)
      ensures hasApiKey ==> hasContext && contextOpen && cursor == contextTime && schedule == []
      ensures hasApiKey && microphoneGranted ==>
                status == Connecting && error == None && active
                && persona == Some(PersonaFor(mode, ambient)) && tools == ActiveTools(mode, ambient)
    {
      transcript := "";
      if !hasApiKey {
        error, status := Some(StartFailed), Idle;
        return;
      }
      OpenOutput(contextTime);
      if microphoneGranted {
        error, status := None, Connecting;
        Connect();
      } else {
        error, status := Some(StartFailed), Idle;
      }
    }

    /** A fresh output context: nothing is scheduled on it yet and the cursor starts at its
        clock. */
    method OpenOutput(contextTime: real)
      modifies this`hasContext, this`contextOpen, this`cursor, this`schedule
      requires Valid()
      ensures Valid()
      ensures hasContext && contextOpen && cursor == contextTime && schedule == []
    {
      hasContext, contextOpen, cursor, schedule := true, true, contextTime, [];
    }

    /** Connects with the tools and the persona for the session's mode and ambient flag. */
    method Connect()
      modifies this`tools, this`persona, this`active
      ensures active && persona == Some(PersonaFor(mode, ambient)) && tools == ActiveTools(mode, ambient)
    {
      tools, persona, active := ActiveTools(mode, ambient), Some(PersonaFor(mode, ambient)), true;
    }

    /** The live connection opened. */
    method OnOpen()
      modifies this`status
      ensures status == Listening
    {
      status := Listening;
    }

    /** A transcription of the farmer's speech arrived. */
    method OnTranscription(text: string)
      modifies this`transcript
      ensures transcript == if ambient then "Listening..." else "You: " + text
    {
      transcript := if ambient then "Listening..." else "You: " + text;
    }

    /** A decoded reply chunk of the given duration arrived at context time now.  Without
        an output context the chunk is ignored. */
    method OnAudioChunk(duration: real, now: real) returns (unit: Option<nat>, start: real)
      modifies this`status, this`cursor, this`schedule, this`playing, this`nextUnit
      requires Valid() && duration >= 0.0
      ensures Valid()
      ensures !old(hasContext) ==> unit == None && status == old(status) && cursor == old(cursor)
                                   && playing == old(playing) && schedule == old(schedule)
                                   && nextUnit == old(nextUnit)
      ensures old(hasContext) ==>
                status == Speaking && start == ChunkStart(old(cursor), now)
                && cursor == start + duration && cursor >= old(cursor)
                && unit == Some(old(nextUnit)) && playing == old(playing) + [old(nextUnit)]
                && nextUnit == old(nextUnit) + 1
                && schedule == old(schedule) + [(start, start + duration)]
    {
      if !hasContext {
        return None, cursor;
      }
      status := Speaking;
      start := ChunkStart(cursor, now);
      cursor := start + duration;
      schedule := schedule + [(start, start + duration)];
      unit := Some(nextUnit);
      playing := playing + [nextUnit];
      nextUnit := nextUnit + 1;
    }

    /** A scheduled unit finished playing. */
    method OnUnitEnded(u: nat)
      modifies this`playing, this`status
      requires Valid()
      ensures Valid()
      ensures playing == WithoutUnit(old(playing), u) && u !in playing
      ensures playing == [] ==> status == Listening
      ensures playing != [] ==> status == old(status)
    {
      playing := WithoutUnit(playing, u);
      if |playing| == 0 {
        status := Listening;
      }
    }

    /** Stops the session; the output context is closed only if it is still open, so a
        second stop closes nothing. */
    method Stop()
      modifies this`active, this`status, this`contextOpen, this`closeCount
      requires Valid()
      ensures Valid()
      ensures !active && status == Idle && !contextOpen
      ensures closeCount == if old(hasContext) && old(contextOpen) then old(closeCount) + 1 else old(closeCount)
    {
      active := false;
      status := Idle;
      if hasContext && contextOpen {
        contextOpen := false;
        closeCount := closeCount + 1;
      }
    }

    /** The connection failed: the session stops and reports a connection error. */
    method OnError()
      modifies this`active, this`status, this`contextOpen, this`closeCount, this`error
      requires Valid()
      ensures Valid()
      ensures !active && status == Idle && !contextOpen && error == Some(ConnectionError)
      ensures closeCount <= old(closeCount) + 1
    {
      Stop();
      error := Some(ConnectionError);
    }
  }

  /** Calling stop twice closes the output context at most once. */
  method StopTwiceClosesOnce(s: VoiceSession)
    modifies s
    requires s.Valid()
    ensures s.closeCount <= old(s.closeCount) + 1
    ensures !s.active && s.status == Idle
  {
    s.Stop();
    s.Stop();
  }

  /** A tool call from the model. */
  datatype FunctionCall = FunctionCall(id: string, name: string)

  /** What a tool answers: an acknowledgement for a harvest log, or the data fetched from
      the climate or insurance service. */
  datatype ToolResult<C, I> = Acknowledged | ClimateRisk(climate: C) | InsuranceStatus(insurance: I)

  /** The observable effects of dispatching tool calls, in order. */
  datatype Effect<C, I> =
    | SetTranscript(text: string)
    | SendResponse(id: string, name: string, result: ToolResult<C, I>)

  predicate KnownTool(name: string)
  {
    name == LogHarvest || name == GetClimateRisk || name == GetInsuranceStatus
  }

  /** The effects of one call; an unknown name produces none. */
  function CallEffects<C, I>(fc: FunctionCall, climate: C, insurance: I): (e: seq<Effect<C, I>>)
    ensures KnownTool(fc.name) <==> e != []
    ensures |e| <= 2
    ensures e != [] ==> e[|e| - 1].SendResponse? && e[|e| - 1].id == fc.id && e[|e| - 1].name == fc.name
    ensures forall k :: 0 <= k < |e| - 1 ==> e[k].SetTranscript?
  {
    if fc.name == LogHarvest then [SendResponse(fc.id, fc.name, Acknowledged)]
    else if fc.name == GetClimateRisk then
      [SetTranscript("Checking climate satellites..."), SendResponse(fc.id, fc.name, ClimateRisk(climate))]
    else if fc.name == GetInsuranceStatus then
      [SetTranscript("Checking insurance policy..."), SendResponse(fc.id, fc.name, InsuranceStatus(insurance))]
    else []
  }

  /** The effects of a message's calls handled one after another. */
  function DispatchEffects<C, I>(calls: seq<FunctionCall>, climate: C, insurance: I): seq<Effect<C, I>>
  {
    if calls == [] then []
    else DispatchEffects(calls[..|calls| - 1], climate, insurance) + CallEffects(calls[|calls| - 1], climate, insurance)
  }

  /** The tool-call loop of the message handler.  The climate and insurance services are
      represented by the value each returns for the farmer's profile. */
  method DispatchToolCalls<C, I>(calls: seq<FunctionCall>, climate: C, insurance: I)
    returns (effects: seq<Effect<C, I>>)
    ensures effects == DispatchEffects(calls, climate, insurance)
  {
    effects := [];
    for i := 0 to |calls|
      invariant effects == DispatchEffects(calls[..i], climate, insurance)
    {
      assert calls[..i + 1][..i] == calls[..i];
      effects := effects + CallEffects(calls[i], climate, insurance);
    }
    assert calls[..|calls|] == calls;
  }

  /** The responses among a sequence of effects. */
  function Responses<C, I>(effects: seq<Effect<C, I>>): seq<(string, string)>
  {
    if effects == [] then []
    else (if effects[0].SendResponse? then [(effects[0].id, effects[0].name)] else [])
         + Responses(effects[1..])
  }

  /** The calls among a sequence that name one of the three tools, as (id, name) pairs. */
  function KnownCalls(calls: seq<FunctionCall>): seq<(string, string)>
  {
    if calls == [] then []
    else KnownCalls(calls[..|calls| - 1])
         + (if KnownTool(calls[|calls| - 1].name) then [(calls[|calls| - 1].id, calls[|calls| - 1].name)] else [])
  }

  lemma {:induction false} ResponsesAppend<C, I>(a: seq<Effect<C, I>>, b: seq<Effect<C, I>>)
    ensures Responses(a + b) == Responses(a) + Responses(b)
  {
    if a == [] {
      assert a + b == b;
    } else {
      assert (a + b)[0] == a[0];
      assert (a + b)[1..] == a[1..] + b;
      ResponsesAppend(a[1..], b);
    }
  }

  /** Responses go out in call order, one for each call to a known tool, each carrying the
      call's own id and name; calls to any other name get no response. */
  lemma {:induction false} ResponsesMatchKnownCalls<C, I>(calls: seq<FunctionCall>, climate: C, insurance: I)
    ensures Responses(DispatchEffects(calls, climate, insurance)) == KnownCalls(calls)
  {
    if calls != [] {
      var init, last := calls[..|calls| - 1], calls[|calls| - 1];
      ResponsesMatchKnownCalls(init, climate, insurance);
      ResponsesAppend(DispatchEffects(init, climate, insurance), CallEffects(last, climate, insurance));
      var e := CallEffects(last, climate, insurance);
      if |e| == 2 {
        assert e[1..][1..] == [];
        assert Responses(e) == Responses(e[1..]);
      } else if |e| == 1 {
        assert e[1..] == [];
      }
    }
  }
}
