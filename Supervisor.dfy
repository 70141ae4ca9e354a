/**
 * The supervisor's deterministic bookkeeping: request routing, the wearable path
 * with its threshold gate for proactive MindCare outreach, the conversational
 * path, and the bounded session journal.
 *
 * The agents are not modelled: the physiology agent's reply and the outcomes of
 * the supervisor agent and of MindCare (a reply or an exception) are inputs, as
 * are the clock readings used in journal entries and the two-decimal formatting
 * of probabilities.
 */
module Supervisor {
  import opened Wrappers
  import opened Schemas
  import opened Session

  const MaxJournalEntries := 50

  const PhysioSense := "PhysioSense"
  const MindCareAgent := "MindCareAgent"
  const SupervisorAgent := "SmartStressSupervisor"

  // ---------------------------------------------------------------------------
  // The journal.

  /**
   * The journal after `_append_journal`: the entry is appended, and when that
   * makes it longer than the limit only the most recent entries are kept.
   */
  function Appended(journal: seq<string>, entry: string): (r: seq<string>)
    ensures |r| == if |journal| + 1 <= MaxJournalEntries then |journal| + 1 else MaxJournalEntries
    ensures r != [] && r[|r| - 1] == entry
    ensures r == (journal + [entry])[|journal| + 1 - |r|..]
    ensures |journal| < MaxJournalEntries ==> r == journal + [entry]
  {
    var j := journal + [entry];
    if |j| > MaxJournalEntries then j[|j| - MaxJournalEntries..] else j
  }

  /** `_append_journal(state, entry)`: appends in place, then trims the front. */
  method AppendJournal(state: SmartStressSessionState, entry: string)
    modifies state
    ensures state.journal == Appended(old(state.journal), entry)
    ensures state.stressProb == old(state.stressProb) && state.lastAgent == old(state.lastAgent)
  {
    state.journal := state.journal + [entry];
    if |state.journal| > MaxJournalEntries {
      state.journal := state.journal[|state.journal| - MaxJournalEntries..];
    }
  }

  // ---------------------------------------------------------------------------
  // Inputs and outputs.

  /** The part of the physiology agent's reply the supervisor reads. */
  datatype PhysioReply = PhysioReply(stressProb: Option<real>, recommendedAction: Option<string>)

  /** What an agent's `invoke` did: replied, or raised an exception with a message. */
  datatype AgentOutcome = Replied(reply: string) | Raised(message: string)

  /**
   * The world outside the supervisor: the agents' answers, the clock (its n-th
   * reading during one request) and the `:.2f` formatting of a probability.
   */
  datatype Env = Env(
    physio: PhysioReply,
    supervisor: AgentOutcome,
    mindcare: AgentOutcome,
    clock: nat -> string,
    fmt2: real -> string)

  /**
   * The request payload: `user_id`, the `windows` key and `metadata`. The outer
   * option of `windows` says whether the key is present, the inner one whether
   * its value is a list (`None` for `null`).
   */
  datatype Payload = Payload(userId: Option<string>, windows: Option<Option<seq<WindowInput>>>, metadata: Metadata)

  /** The request the wearable path validates, built from a payload that has the `windows` key. */
  function WearableRequest(payload: Payload): RequestInput
    requires payload.windows.Some?
  {
    RequestInput(payload.userId, payload.windows.value, payload.metadata)
  }

  /** Why `route` raised: no user id, a payload that does not validate, or an agent's exception. */
  datatype RouteError = MissingUserId | InvalidRequest | AgentRaised(agent: string, message: string)

  datatype AgentResult = Inference(inference: PhysioReply) | Routed(reply: string)

  /** The `follow_up` of a wearable response; both come from the MindCare agent. */
  datatype FollowUp = Outreach(reply: string) | OutreachFailed(error: string)

  datatype Response = Response(agent: string, result: AgentResult, followUp: Option<FollowUp>)

  /** `float(result.get("stress_prob") or 0.0)`: a missing or zero probability reads as 0.0. */
  function StressProbOf(reply: PhysioReply): (p: real)
    ensures reply.stressProb.None? ==> p == 0.0
    ensures reply.stressProb.Some? ==> p == reply.stressProb.value
  {
    if reply.stressProb.Some? && reply.stressProb.value != 0.0 then reply.stressProb.value else 0.0
  }

  /** `_maybe_trigger_mindcare` goes on to the outreach exactly when the probability is not below the threshold. */
  predicate TriggersOutreach(p: real, threshold: real)
  {
    !(p < threshold)
  }

  const WearableNote := " wearable inference -> stress_prob="
  const RoutingNote := " conversational routing via SmartStressSupervisor"
  const OutreachFailedNote := " proactive outreach failed: "
  const OutreachNote := " proactive outreach triggered at p="

  function WearableEntry(env: Env, p: real): string
  {
    env.clock(0) + WearableNote + env.fmt2(p)
  }

  function ConversationalEntry(env: Env): string
  {
    env.clock(0) + RoutingNote
  }

  function OutreachFailedEntry(env: Env, message: string): string
  {
    env.clock(1) + OutreachFailedNote + message
  }

  function OutreachEntry(env: Env, p: real): string
  {
    env.clock(1) + OutreachNote + env.fmt2(p)
  }

  // ---------------------------------------------------------------------------
  // The specification of one request.

  /** The state `get_state(user_id)` reads from a store. */
  function StoredState(store: Store, userId: string): StateFields
  {
    FromSession(Lookup(store, userId), userId)
  }

  /** The answer to a request, the store after it and the agents it called, in order. */
  datatype RouteOutcome = RouteOutcome(result: Result<Response, RouteError>, store: Store, invoked: seq<string>)

  /** The state after the wearable handler's own updates. */
  function AfterInference(f: StateFields, env: Env): StateFields
  {
    var p := StressProbOf(env.physio);
    f.(stressProb := Some(p), lastAgent := Some(PhysioSense), journal := Appended(f.journal, WearableEntry(env, p)))
  }

  /** The state after the outreach attempt, which only happens above the threshold. */
  function AfterOutreach(f: StateFields, env: Env): StateFields
  {
    match env.mindcare
    case Raised(message) => f.(journal := Appended(f.journal, OutreachFailedEntry(env, message)))
    case Replied(_) =>
      f.(lastAgent := Some(MindCareAgent), journal := Appended(f.journal, OutreachEntry(env, StressProbOf(env.physio))))
  }

  function FollowUpOf(outcome: AgentOutcome): FollowUp
  {
    match outcome
    case Raised(message) => OutreachFailed(message)
    case Replied(reply) => Outreach(reply)
  }

  /** The wearable path, once the payload has validated. */
  function WearableSpec(store: Store, uid: string, env: Env, threshold: real): RouteOutcome
  {
    var f1 := AfterInference(StoredState(store, uid), env);
    if !TriggersOutreach(StressProbOf(env.physio), threshold) then
      RouteOutcome(Ok(Response(PhysioSense, Inference(env.physio), None)), store[uid := ToSession(f1)], [PhysioSense])
    else
      RouteOutcome(Ok(Response(PhysioSense, Inference(env.physio), Some(FollowUpOf(env.mindcare)))),
                   store[uid := ToSession(AfterOutreach(f1, env))], [PhysioSense, MindCareAgent])
  }

  /** The state after the conversational handler's updates. */
  function AfterRouting(f: StateFields, env: Env): StateFields
  {
    f.(lastAgent := Some(SupervisorAgent), journal := Appended(f.journal, ConversationalEntry(env)))
  }

  /** The conversational path: an exception from the supervisor agent propagates before any session change. */
  function ConversationalSpec(store: Store, uid: string, env: Env): RouteOutcome
  {
    match env.supervisor
    case Raised(message) => RouteOutcome(Err(AgentRaised(SupervisorAgent, message)), store, [SupervisorAgent])
    case Replied(reply) =>
      RouteOutcome(Ok(Response(SupervisorAgent, Routed(reply), None)),
                   store[uid := ToSession(AfterRouting(StoredState(store, uid), env))], [SupervisorAgent])
  }

  /** `route(payload)` as a function of the store before it. */
  function RouteSpec(store: Store, payload: Payload, env: Env, threshold: real): RouteOutcome
  {
    if !Truthy(payload.userId) then RouteOutcome(Err(MissingUserId), store, [])
    else if payload.windows.None? then ConversationalSpec(store, payload.userId.value, env)
    else if !ValidRequest(WearableRequest(payload)) then RouteOutcome(Err(InvalidRequest), store, [])
    else WearableSpec(store, payload.userId.value, env, threshold)
  }

  // ---------------------------------------------------------------------------
  // Properties of a request.

  /** Without a truthy `user_id` the request fails before any agent runs, and no session changes. */
  lemma MissingUserIdRejected(store: Store, payload: Payload, env: Env, threshold: real)
    ensures var o := RouteSpec(store, payload, env, threshold);
      !Truthy(payload.userId) <==> o.result == Err(MissingUserId)
    ensures !Truthy(payload.userId) ==> RouteSpec(store, payload, env, threshold).store == store
    ensures !Truthy(payload.userId) ==> RouteSpec(store, payload, env, threshold).invoked == []
  {
  }

  /**
   * A payload with the `windows` key goes to the physiology agent, even when the
   * key holds `null`, which then fails validation; any other payload goes to the
   * supervisor agent.
   */
  lemma DispatchOnWindows(store: Store, payload: Payload, env: Env, threshold: real)
    requires Truthy(payload.userId)
    ensures var o := RouteSpec(store, payload, env, threshold);
      payload.windows.None? ==> o.invoked == [SupervisorAgent] && (o.result.Ok? <==> env.supervisor.Replied?)
    ensures var o := RouteSpec(store, payload, env, threshold);
      payload.windows.None? && o.result.Ok? ==> o.result.value == Response(SupervisorAgent, Routed(env.supervisor.reply), None)
    ensures var o := RouteSpec(store, payload, env, threshold);
      payload.windows.None? && env.supervisor.Raised? ==> o.result == Err(AgentRaised(SupervisorAgent, env.supervisor.message))
    ensures var o := RouteSpec(store, payload, env, threshold);
      payload.windows.Some? ==> (o.result.Ok? <==> ValidRequest(WearableRequest(payload)))
    ensures var o := RouteSpec(store, payload, env, threshold);
      payload.windows == Some(None) ==> o.result == Err(InvalidRequest) && o.store == store && o.invoked == []
    ensures var o := RouteSpec(store, payload, env, threshold);
      payload.windows.Some? && o.result.Ok? ==> o.invoked[0] == PhysioSense && o.result.value.agent == PhysioSense
    ensures var o := RouteSpec(store, payload, env, threshold);
      payload.windows.Some? && o.result.Err? ==> o.result == Err(InvalidRequest) && o.invoked == []
    ensures var o := RouteSpec(store, payload, env, threshold);
      o.result.Err? ==> o.store == store
  {
  }

  /** A failed request changes no session; a successful one changes only the requesting user's. */
  lemma OtherSessionsUnchanged(store: Store, payload: Payload, env: Env, threshold: real)
    requires Truthy(payload.userId)
    ensures var o := RouteSpec(store, payload, env, threshold);
      o.result.Err? ==> o.store == store
    ensures var o := RouteSpec(store, payload, env, threshold);
      o.result.Ok? ==> payload.userId.value in o.store && o.store == store[payload.userId.value := o.store[payload.userId.value]]
  {
    var uid := payload.userId.value;
    var f0 := StoredState(store, uid);
    var f1 := AfterInference(f0, env);
    var o := RouteSpec(store, payload, env, threshold);
    if payload.windows.None? {
      if env.supervisor.Replied? {
        assert o.store == store[uid := ToSession(AfterRouting(f0, env))];
      }
    } else if !ValidRequest(WearableRequest(payload)) {
    } else if TriggersOutreach(StressProbOf(env.physio), threshold) {
      assert o.store == store[uid := ToSession(AfterOutreach(f1, env))];
    } else {
      assert o.store == store[uid := ToSession(f1)];
    }
  }

  /** After any successful request the user's stored journal holds at most 50 entries. */
  lemma JournalStaysBounded(store: Store, payload: Payload, env: Env, threshold: real)
    requires Truthy(payload.userId)
    ensures var o := RouteSpec(store, payload, env, threshold);
      o.result.Ok? ==> |StoredState(o.store, payload.userId.value).journal| <= MaxJournalEntries
  {
    var uid := payload.userId.value;
    var f0 := StoredState(store, uid);
    var f1 := AfterInference(f0, env);
    if payload.windows.None? {
      ReadBack(store, AfterRouting(f0, env));
    } else if !ValidRequest(WearableRequest(payload)) {
    } else if TriggersOutreach(StressProbOf(env.physio), threshold) {
      ReadBack(store, AfterOutreach(f1, env));
    } else {
      ReadBack(store, f1);
    }
  }

  /** What `update_state` stored is what the next `get_state` reads. */
  lemma ReadBack(store: Store, f: StateFields)
    ensures StoredState(store[f.userId := ToSession(f)], f.userId) == f
  {
    GetStateAfterUpdate(store, f);
  }

  /**
   * The wearable path stores the probability it read; below the threshold it
   * does not call MindCare and the response has no follow-up, otherwise it calls
   * MindCare and reports the outcome as the follow-up.
   */
  lemma ThresholdGate(store: Store, payload: Payload, env: Env, threshold: real)
    requires Truthy(payload.userId) && payload.windows.Some?
    requires ValidRequest(WearableRequest(payload))
    ensures var o := RouteSpec(store, payload, env, threshold);
      StoredState(o.store, payload.userId.value).stressProb == Some(StressProbOf(env.physio))
    ensures var o := RouteSpec(store, payload, env, threshold);
      StressProbOf(env.physio) < threshold <==> MindCareAgent !in o.invoked
    ensures var o := RouteSpec(store, payload, env, threshold);
      StressProbOf(env.physio) < threshold <==> o.result.value.followUp.None?
    ensures var o := RouteSpec(store, payload, env, threshold);
      o.result.value.followUp.Some? ==> o.result.value.followUp.value == FollowUpOf(env.mindcare)
  {
    var uid := payload.userId.value;
    var f1 := AfterInference(StoredState(store, uid), env);
    RoundTrip(f1);
    RoundTrip(AfterOutreach(f1, env));
  }

  /**
   * The last agent recorded by the wearable path: MindCare only after a
   * successful outreach; after a failed outreach it is still PhysioSense.
   */
  lemma LastAgentAfterWearable(store: Store, payload: Payload, env: Env, threshold: real)
    requires Truthy(payload.userId) && payload.windows.Some?
    requires ValidRequest(WearableRequest(payload))
    ensures var o := RouteSpec(store, payload, env, threshold);
      StoredState(o.store, payload.userId.value).lastAgent
      == if TriggersOutreach(StressProbOf(env.physio), threshold) && env.mindcare.Replied? then Some(MindCareAgent) else Some(PhysioSense)
  {
    var uid := payload.userId.value;
    var f1 := AfterInference(StoredState(store, uid), env);
    RoundTrip(f1);
    RoundTrip(AfterOutreach(f1, env));
  }

  lemma Overwrite<K, V>(m: map<K, V>, k: K, a: V, b: V)
    ensures m[k := a][k := b] == m[k := b]
  {
  }

  // ---------------------------------------------------------------------------
  // The supervisor object.

  /** `SupervisorStack`: the session service and the alert threshold from the settings. */
  class SupervisorStack {
    const sessions: SmartStressSessionService
    const threshold: real

    constructor(sessions: SmartStressSessionService, threshold: real)
      ensures this.sessions == sessions && this.threshold == threshold
    {
      this.sessions := sessions;
      this.threshold := threshold;
    }

    /** `route(payload)`. */
    method Route(payload: Payload, env: Env) returns (r: Result<Response, RouteError>, invoked: seq<string>)
      modifies sessions
      ensures RouteOutcome(r, sessions.store, invoked) == RouteSpec(old(sessions.store), payload, env, threshold)
    {
      if !Truthy(payload.userId) {
        return Err(MissingUserId), [];
      }
      var uid := payload.userId.value;
      if payload.windows.Some? {
        r, invoked := HandleWearable(uid, WearableRequest(payload), env);
      } else {
        r := HandleConversational(uid, env);
        invoked := [SupervisorAgent];
      }
    }

    /** `_handle_wearable_payload`: validate, read the inference, record it, maybe reach out. */
    method HandleWearable(uid: string, request: RequestInput, env: Env) returns (r: Result<Response, RouteError>, invoked: seq<string>)
      modifies sessions
      ensures !ValidRequest(request) ==> r == Err(InvalidRequest) && invoked == [] && sessions.store == old(sessions.store)
      ensures ValidRequest(request) ==> RouteOutcome(r, sessions.store, invoked) == WearableSpec(old(sessions.store), uid, env, threshold)
    {
      if !ValidRequest(request) {
        return Err(InvalidRequest), [];
      }
      ghost var store0 := sessions.store;
      var state := RecordInference(uid, env);
      ghost var f1 := AfterInference(StoredState(store0, uid), env);
      var followUp, called := MaybeTriggerMindcare(uid, state, env);
      if called {
        Overwrite(store0, uid, ToSession(f1), ToSession(AfterOutreach(f1, env)));
        invoked := [PhysioSense, MindCareAgent];
      } else {
        invoked := [PhysioSense];
      }
      r := Ok(Response(PhysioSense, Inference(env.physio), followUp));
    }

    /** The first half of the wearable handler: store the inferred probability and the journal entry. */
    method RecordInference(uid: string, env: Env) returns (state: SmartStressSessionState)
      modifies sessions
      ensures fresh(state) && state.userId == uid
      ensures state.Fields() == AfterInference(StoredState(old(sessions.store), uid), env)
      ensures sessions.store == old(sessions.store)[uid := ToSession(state.Fields())]
    {
      ghost var store0 := sessions.store;
      ghost var f0 := StoredState(store0, uid);
      state := sessions.GetState(uid);
      assert state.Fields() == f0;
      var p := StressProbOf(env.physio);
      state.stressProb := Some(p);
      state.lastAgent := Some(PhysioSense);
      assert state.Fields() == f0.(stressProb := Some(p), lastAgent := Some(PhysioSense));
      AppendJournal(state, WearableEntry(env, p));
      assert state.Fields() == AfterInference(f0, env);
      sessions.UpdateState(state);
      SaveAfterGet(store0, uid, ToSession(state.Fields()));
    }

    /** `_maybe_trigger_mindcare`: the threshold gate, then the outreach and its journal entry. */
    method MaybeTriggerMindcare(uid: string, state: SmartStressSessionState, env: Env)
      returns (followUp: Option<FollowUp>, called: bool)
      requires state.userId == uid
      modifies sessions, state
      ensures called <==> TriggersOutreach(StressProbOf(env.physio), threshold)
      ensures followUp == if called then Some(FollowUpOf(env.mindcare)) else None
      ensures called ==> state.Fields() == AfterOutreach(old(state.Fields()), env)
      ensures called ==> sessions.store == old(sessions.store)[uid := ToSession(state.Fields())]
      ensures !called ==> state.Fields() == old(state.Fields()) && sessions.store == old(sessions.store)
    {
      var p := StressProbOf(env.physio);
      if p < threshold {
        return None, false;
      }
      match env.mindcare {
        case Raised(message) =>
          AppendJournal(state, OutreachFailedEntry(env, message));
          sessions.UpdateState(state);
          return Some(OutreachFailed(message)), true;
        case Replied(reply) =>
          state.lastAgent := Some(MindCareAgent);
          AppendJournal(state, OutreachEntry(env, p));
          sessions.UpdateState(state);
          return Some(Outreach(reply)), true;
      }
    }

    /**
     * `_handle_conversational_payload`: ask the supervisor agent, then record the
     * routing and return its reply. When the agent raises, the exception leaves
     * before the session is read.
     */
    method HandleConversational(uid: string, env: Env) returns (r: Result<Response, RouteError>)
      modifies sessions
      ensures env.supervisor.Raised? ==> r == Err(AgentRaised(SupervisorAgent, env.supervisor.message)) && sessions.store == old(sessions.store)
      ensures env.supervisor.Replied? ==> r == Ok(Response(SupervisorAgent, Routed(env.supervisor.reply), None))
      ensures env.supervisor.Replied? ==>
        sessions.store == old(sessions.store)[uid := ToSession(AfterRouting(StoredState(old(sessions.store), uid), env))]
    {
      if env.supervisor.Raised? {
        return Err(AgentRaised(SupervisorAgent, env.supervisor.message));
      }
      var reply := env.supervisor.reply;
      ghost var store0 := sessions.store;
      ghost var f0 := StoredState(store0, uid);
      var state := sessions.GetState(uid);
      assert state.Fields() == f0;
      state.lastAgent := Some(SupervisorAgent);
      assert state.Fields() == f0.(lastAgent := Some(SupervisorAgent));
      AppendJournal(state, ConversationalEntry(env));
      ghost var f := AfterRouting(f0, env);
      assert state.Fields() == f;
      sessions.UpdateState(state);
      SaveAfterGet(store0, uid, ToSession(f));
      r := Ok(Response(SupervisorAgent, Routed(reply), None));
    }
  }
}
