/** Events as the supervisor mints them, and the functions it treats as given. */
module Events {
  import opened Wrappers
  import Json

  datatype Kind =
    | MissionCreated | ContractUpdated | RouteCreated | RouteStateChanged | ExplorationStarted
    | AgentRunStarted | AgentRunCompleted | AgentRunAborted | AgentMessage | EvidenceRecorded
    | ApprovalRequested | ApprovalResolved | ApprovalRevoked | ApprovalExpired | ApprovalConsumed
    | BudgetWarning | BudgetApprovalRequired | BudgetExceeded | FlightEnvelopeChanged | LoadoutChanged
    | MemoryItemChanged | PauseRequested | RecoveryContinued | RecoveryAbandoned
    | Unknown(name: string)

  /** Deserializing a kind from its stored name. */
  function Parse(s: string): (k: Kind)
    ensures k.Unknown? ==> k.name == s
  {
    if s == "mission_created" then MissionCreated
    else if s == "contract_updated" then ContractUpdated
    else if s == "route_created" then RouteCreated
    else if s == "route_state_changed" then RouteStateChanged
    else if s == "exploration_started" then ExplorationStarted
    else if s == "agent_run_started" then AgentRunStarted
    else if s == "agent_run_completed" then AgentRunCompleted
    else if s == "agent_run_aborted" then AgentRunAborted
    else if s == "agent_message" then AgentMessage
    else if s == "evidence_recorded" then EvidenceRecorded
    else if s == "approval_requested" then ApprovalRequested
    else if s == "approval_resolved" then ApprovalResolved
    else if s == "approval_revoked" then ApprovalRevoked
    else if s == "approval_expired" then ApprovalExpired
    else if s == "approval_consumed" then ApprovalConsumed
    else if s == "budget_warning" then BudgetWarning
    else if s == "budget_approval_required" then BudgetApprovalRequired
    else if s == "budget_exceeded" then BudgetExceeded
    else if s == "flight_envelope_changed" then FlightEnvelopeChanged
    else if s == "loadout_changed" then LoadoutChanged
    else if s == "memory_item_changed" then MemoryItemChanged
    else if s == "pause_requested" then PauseRequested
    else if s == "recovery_continued" then RecoveryContinued
    else if s == "recovery_abandoned" then RecoveryAbandoned
    else Unknown(s)
  }

  /**
   * A kind written to the ledger by name and read back. The names of the known kinds are distinct and read
   * back as themselves; an unknown kind is read by whatever its name says.
   */
  function Stored(k: Kind): Kind {
    if k.Unknown? then Parse(k.name) else k
  }

  /** An unknown kind does not carry the name of a known one. */
  predicate Canonical(k: Kind) {
    k.Unknown? ==> Parse(k.name).Unknown?
  }

  lemma StoredIff(k: Kind)
    ensures Stored(k) == k <==> Canonical(k)
    ensures Canonical(Stored(k))
  {
  }

  datatype Event = Event(
    id: string,
    schemaVersion: nat,
    mission: string,
    route: string,
    sequence: nat,
    occurredAt: string,
    kind: Kind,
    payload: Json.Value,
    rawEvidence: Option<Json.Value>,
    payloadHash: string)

  datatype EvidenceEntry = EvidenceEntry(id: string, kind: string, summary: string, verified: bool,
                                         sources: seq<string>)

  /**
   * The library functions the ledger and the projection compose: the SHA-256 of a serialized payload, secret
   * redaction, which may refuse, the JSON text codec, and the decoding of an evidence entry.
   */
  datatype Codec = Codec(
    hash: Json.Value -> string,
    redact: Json.Value -> Option<Json.Value>,
    encode: Json.Value -> string,
    decode: string -> Option<Json.Value>,
    entry: Json.Value -> Result<EvidenceEntry, string>)
  {
    /** Text written by the encoder is read back as the same value. */
    ghost predicate RoundTrips() {
      forall v :: decode(encode(v)) == Some(v)
    }

    predicate HashMatches(e: Event) {
      e.payloadHash == hash(e.payload)
    }
  }
}
