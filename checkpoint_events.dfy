/** The checkpoint event payloads of `src/events/checkpoint.rs`. */
module CheckpointEvents {
  import opened Base

  /** `CheckpointEnteredEvent`. */
  datatype CheckpointEnteredEvent = CheckpointEnteredEvent(checkpointId: I32, playerId: I32)

  /** `From<...> for CheckpointEnteredEvent`: each field from the tuple position of the same rank, unchanged. */
  function CheckpointEnteredOf(value: (I32, I32)): (e: CheckpointEnteredEvent)
    ensures e.checkpointId == value.0
    ensures e.playerId == value.1
  {
    CheckpointEnteredEvent(value.0, value.1)
  }

  /** `CheckpointExitedEvent`. */
  datatype CheckpointExitedEvent = CheckpointExitedEvent(checkpointId: I32, playerId: I32)

  /** `From<...> for CheckpointExitedEvent`: each field from the tuple position of the same rank, unchanged. */
  function CheckpointExitedOf(value: (I32, I32)): (e: CheckpointExitedEvent)
    ensures e.checkpointId == value.0
    ensures e.playerId == value.1
  {
    CheckpointExitedEvent(value.0, value.1)
  }

  /** Entering and leaving are told apart by the event alone: both read the same fields from the same tuple. */
  lemma EnteredExitedAgree(value: (I32, I32))
    ensures CheckpointEnteredOf(value).checkpointId == CheckpointExitedOf(value).checkpointId
    ensures CheckpointEnteredOf(value).playerId == CheckpointExitedOf(value).playerId
  {
  }

}
