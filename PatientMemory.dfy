/**
 * The patient-preference lookup: a fixed store keyed by user id, with the
 * declared defaults for an unknown user.
 */
module PatientMemory {
  import opened Wrappers
  import opened Schemas

  type PreferenceStore = map<string, PatientPreference>

  /** The store as the module defines it: one known patient. */
  const InitialStore: PreferenceStore :=
    map["patient-001" := PatientPreference("patient-001", false, Some("Box breathing"), ["tight deadlines", "public speaking"])]

  /** Every stored preference is filed under its own user id. */
  predicate Consistent(store: PreferenceStore)
  {
    forall id :: id in store ==> store[id].userId == id
  }

  lemma InitialStoreConsistent()
    ensures Consistent(InitialStore)
  {
  }

  /**
   * `retrieve_patient_info(user_id)`: the stored preference, or a fresh one with
   * the defaults. A stored preference is always truthy, so `or` only falls back
   * when the id is unknown. The store is read and never written.
   */
  function RetrievePatientInfo(store: PreferenceStore, userId: string): (r: PatientPreference)
    ensures userId in store ==> r == store[userId]
    ensures userId !in store ==> r == PatientPreference(userId, false, None, [])
    ensures Consistent(store) ==> r.userId == userId
  {
    if userId in store then store[userId] else DefaultPreference(userId)
  }

  /** Against the store as defined, every lookup answers for the queried id. */
  lemma LookupAnswersForQueriedId(userId: string)
    ensures RetrievePatientInfo(InitialStore, userId).userId == userId
  {
    InitialStoreConsistent();
  }
}
