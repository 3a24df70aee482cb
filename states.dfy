/** Player states as the host reports them. */
module States {
  import opened Base

  /** `VcmpPlayerState`. */
  datatype PlayerState =
    | None
    | Normal
    | Aim
    | Driver
    | Passenger
    | EnterDriver
    | EnterPassenger
    | Exit
    | Unspawned

  /** Every state, in declaration order: the state with code `k` is at index `k`. */
  const AllPlayerStates: seq<PlayerState> := [
    PlayerState.None, Normal, Aim, Driver, Passenger, EnterDriver, EnterPassenger, Exit, Unspawned
  ]

  /** `From<i32> for VcmpPlayerState`: total, with `None` for every code outside 0..8. */
  function PlayerStateOf(c: I32): (s: PlayerState)
    ensures 0 <= c <= 8 ==> s == AllPlayerStates[c]
    ensures !(0 <= c <= 8) ==> s == PlayerState.None
  {
    match c
    case 0 => PlayerState.None
    case 1 => Normal
    case 2 => Aim
    case 3 => Driver
    case 4 => Passenger
    case 5 => EnterDriver
    case 6 => EnterPassenger
    case 7 => Exit
    case 8 => Unspawned
    case _ => PlayerState.None
  }

  /** Distinct codes in 0..8 decode to distinct states. */
  lemma PlayerStateOfInjective(c1: I32, c2: I32)
    requires 0 <= c1 <= 8 && 0 <= c2 <= 8 && c1 != c2
    ensures PlayerStateOf(c1) != PlayerStateOf(c2)
  {
  }

  /** Only code 0 and the codes outside 0..8 decode to `None`. */
  lemma PlayerStateNoneCodes(c: I32)
    ensures PlayerStateOf(c) == PlayerState.None <==> !(1 <= c <= 8)
  {
  }
}
