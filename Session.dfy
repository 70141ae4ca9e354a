/**
 * Per-user session state and the fallback in-memory session store. The state is
 * kept in the store as a plain dictionary with three keys and rebuilt from it on
 * every read.
 */
module Session {
  import opened Wrappers

  /** A value held in a session dictionary. */
  datatype SessionValue = Null | Num(x: real) | Text(s: string) | TextList(items: seq<string>)

  type SessionDict = map<string, SessionValue>

  /** The fields of `SmartStressSessionState`, as a value. */
  datatype StateFields = StateFields(userId: string, stressProb: Option<real>, lastAgent: Option<string>, journal: seq<string>)

  const SessionKeys: set<string> := {"stress_prob", "last_agent", "journal"}

  /**
   * `SmartStressSessionState.from_session(session, user_id)`: a missing key reads
   * as the field's default (`None`, `None`, `[]`).
   */
  function FromSession(session: SessionDict, userId: string): (s: StateFields)
    ensures s.userId == userId
    ensures "stress_prob" !in session ==> s.stressProb.None?
    ensures "last_agent" !in session ==> s.lastAgent.None?
    ensures "journal" !in session ==> s.journal == []
    ensures "stress_prob" in session && session["stress_prob"].Num? ==> s.stressProb == Some(session["stress_prob"].x)
    ensures "last_agent" in session && session["last_agent"].Text? ==> s.lastAgent == Some(session["last_agent"].s)
    ensures "journal" in session && session["journal"].TextList? ==> s.journal == session["journal"].items
  {
    StateFields(
      userId,
      if "stress_prob" in session && session["stress_prob"].Num? then Some(session["stress_prob"].x) else None,
      if "last_agent" in session && session["last_agent"].Text? then Some(session["last_agent"].s) else None,
      if "journal" in session && session["journal"].TextList? then session["journal"].items else [])
  }

  /** `to_session()`: exactly the three keys; `None` is stored as a null value. */
  function ToSession(s: StateFields): (d: SessionDict)
    ensures d.Keys == SessionKeys
    ensures d["stress_prob"] == if s.stressProb.Some? then Num(s.stressProb.value) else Null
    ensures d["last_agent"] == if s.lastAgent.Some? then Text(s.lastAgent.value) else Null
    ensures d["journal"] == TextList(s.journal)
  {
    map["stress_prob" := if s.stressProb.Some? then Num(s.stressProb.value) else Null,
        "last_agent" := if s.lastAgent.Some? then Text(s.lastAgent.value) else Null,
        "journal" := TextList(s.journal)]
  }

  /** Storing a state and reading it back under its user id gives the same state. */
  lemma RoundTrip(s: StateFields)
    ensures FromSession(ToSession(s), s.userId) == s
  {
  }

  /** An empty session reads as the default state. */
  lemma FromEmptySession(userId: string)
    ensures FromSession(map[], userId) == StateFields(userId, None, None, [])
  {
  }

  /** `SmartStressSessionState`: the handlers assign its fields in place. */
  class SmartStressSessionState {
    const userId: string
    var stressProb: Option<real>
    var lastAgent: Option<string>
    var journal: seq<string>

    constructor(s: StateFields)
      ensures Fields() == s
    {
      userId := s.userId;
      stressProb := s.stressProb;
      lastAgent := s.lastAgent;
      journal := s.journal;
    }

    function Fields(): StateFields
      reads this
    {
      StateFields(userId, stressProb, lastAgent, journal)
    }
  }

  // ---------------------------------------------------------------------------
  // The fallback store.

  type Store = map<string, SessionDict>

  /** `_store.setdefault(key, {})` as an update of the store. */
  function SetDefault(store: Store, key: string): (r: Store)
    ensures key in store ==> r == store
    ensures key !in store ==> r == store[key := map[]]
  {
    if key in store then store else store[key := map[]]
  }

  /** The session `get(key)` returns: the stored one, or a fresh empty one. */
  function Lookup(store: Store, key: string): (r: SessionDict)
    ensures key in store ==> r == store[key]
    ensures key !in store ==> r == map[]
  {
    SetDefault(store, key)[key]
  }

  /** A second `get` changes nothing and returns what the first returned. */
  lemma GetIsStable(store: Store, key: string)
    ensures SetDefault(SetDefault(store, key), key) == SetDefault(store, key)
    ensures Lookup(SetDefault(store, key), key) == Lookup(store, key)
  {
  }

  /** A `get` that inserted an empty session is overwritten by the next `save` of the same key. */
  lemma SaveAfterGet(store: Store, key: string, value: SessionDict)
    ensures SetDefault(store, key)[key := value] == store[key := value]
  {
  }

  /** `save(k, v)` then `get(k)` returns `v`; every other key keeps its session. */
  lemma GetAfterSave(store: Store, key: string, value: SessionDict, other: string)
    requires other != key
    ensures Lookup(store[key := value], key) == value
    ensures Lookup(store[key := value], other) == Lookup(store, other)
  {
  }

  /** `get_state(s.user_id)` after `update_state(s)` returns a state equal to `s`. */
  lemma GetStateAfterUpdate(store: Store, s: StateFields)
    ensures FromSession(Lookup(store[s.userId := ToSession(s)], s.userId), s.userId) == s
  {
    RoundTrip(s);
  }

  /**
   * `SmartStressSessionService` over the fallback `InMemorySessionService`: the
   * store is a dictionary from user id to session dictionary.
   */
  class SmartStressSessionService {
    var store: Store

    constructor()
      ensures store == map[]
    {
      store := map[];
    }

    /** `get(key)`: inserts an empty session for an unseen key and returns the stored one. */
    method Get(key: string) returns (session: SessionDict)
      modifies this
      ensures store == SetDefault(old(store), key)
      ensures session == Lookup(old(store), key)
      ensures session == store[key]
    {
      if key !in store {
        store := store[key := map[]];
      }
      session := store[key];
    }

    /** `save(key, value)`. */
    method Save(key: string, value: SessionDict)
      modifies this
      ensures store == old(store)[key := value]
    {
      store := store[key := value];
    }

    /** `get_state(user_id)`: a fresh state object read from the user's session. */
    method GetState(userId: string) returns (state: SmartStressSessionState)
      modifies this
      ensures store == SetDefault(old(store), userId)
      ensures fresh(state) && state.Fields() == FromSession(Lookup(old(store), userId), userId)
    {
      var session := Get(userId);
      state := new SmartStressSessionState(FromSession(session, userId));
    }

    /** `update_state(state)`: stores the state under its user id. */
    method UpdateState(state: SmartStressSessionState)
      modifies this
      ensures store == old(store)[state.userId := ToSession(state.Fields())]
    {
      Save(state.userId, ToSession(state.Fields()));
    }
  }
}
