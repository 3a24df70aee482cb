/** The object event payloads of `src/events/object.rs`. */
module ObjectEvents {
  import opened Base

  /** `ObjectShotEvent`. */
  datatype ObjectShotEvent = ObjectShotEvent(objectId: I32, playerId: I32, weaponId: I32)

  /** `From<...> for ObjectShotEvent`: each field from the tuple position of the same rank, unchanged. */
  function ObjectShotOf(value: (I32, I32, I32)): (e: ObjectShotEvent)
    ensures e.objectId == value.0
    ensures e.playerId == value.1
    ensures e.weaponId == value.2
  {
    ObjectShotEvent(value.0, value.1, value.2)
  }

  /** `ObjectTouchedEvent`. */
  datatype ObjectTouchedEvent = ObjectTouchedEvent(objectId: I32, playerId: I32)

  /** `From<...> for ObjectTouchedEvent`: each field from the tuple position of the same rank, unchanged. */
  function ObjectTouchedOf(value: (I32, I32)): (e: ObjectTouchedEvent)
    ensures e.objectId == value.0
    ensures e.playerId == value.1
  {
    ObjectTouchedEvent(value.0, value.1)
  }
}
