/** Values shared by every provider and by both browser pools: the failure
    wrappers, the exception kinds the core raises, and the closed set of
    twelve subscriber groups (the `Group` string enumeration). */
module Common {

  datatype Option<+T> = None | Some(value: T)

  datatype Result<+T, +E> = Success(value: T) | Failure(error: E)

  /** The Python exception classes that reach the callers of the core. */
  datatype Error =
    | ValueError                          // e.g. `Group(code)` with an unknown code
    | TypeError                           // arithmetic on a slot whose date was never set
    | KeyError                            // a key missing from a lookup table or object
    | ConnectionError(statusText: string) // a navigation answered with a non-ok status
    | PlaywrightError                     // the browser automation layer failed
    | InvalidStateError                   // a second terminal write to a future
    | QueueShutDown                       // `put`/`get` on a shut-down queue
    | CancelledError                      // the running task was cancelled

  /** The twelve subscriber groups, in declaration order. */
  datatype Group =
    | G1_1 | G1_2 | G2_1 | G2_2 | G3_1 | G3_2
    | G4_1 | G4_2 | G5_1 | G5_2 | G6_1 | G6_2

  /** The string value of a group (`Group.G1_1 == "1.1"`). */
  function Value(g: Group): string
  {
    match g
    case G1_1 => "1.1"
    case G1_2 => "1.2"
    case G2_1 => "2.1"
    case G2_2 => "2.2"
    case G3_1 => "3.1"
    case G3_2 => "3.2"
    case G4_1 => "4.1"
    case G4_2 => "4.2"
    case G5_1 => "5.1"
    case G5_2 => "5.2"
    case G6_1 => "6.1"
    case G6_2 => "6.2"
  }

  /** `Group(code)`: the lookup by value; `None` is the `ValueError` the
      enumeration raises for a code it does not know. */
  function GroupOf(code: string): (r: Option<Group>)
    ensures r.Some? ==> Value(r.value) == code
    ensures r.None? ==> forall g: Group :: Value(g) != code
  {
    if code == "1.1" then Some(G1_1)
    else if code == "1.2" then Some(G1_2)
    else if code == "2.1" then Some(G2_1)
    else if code == "2.2" then Some(G2_2)
    else if code == "3.1" then Some(G3_1)
    else if code == "3.2" then Some(G3_2)
    else if code == "4.1" then Some(G4_1)
    else if code == "4.2" then Some(G4_2)
    else if code == "5.1" then Some(G5_1)
    else if code == "5.2" then Some(G5_2)
    else if code == "6.1" then Some(G6_1)
    else if code == "6.2" then Some(G6_2)
    else None
  }

  /** Every group, as iterating over the enumeration yields them. */
  const AllGroups: seq<Group> :=
    [G1_1, G1_2, G2_1, G2_2, G3_1, G3_2, G4_1, G4_2, G5_1, G5_2, G6_1, G6_2]

  /** The enumeration is closed: every group is one of the twelve listed
      members. */
  lemma {:induction false} GroupsClosed()
    ensures |AllGroups| == 12
    ensures forall g: Group :: g in AllGroups
  {
    forall g: Group ensures g in AllGroups {
      match g
      case G1_1 => assert AllGroups[0] == G1_1;
      case G1_2 => assert AllGroups[1] == G1_2;
      case G2_1 => assert AllGroups[2] == G2_1;
      case G2_2 => assert AllGroups[3] == G2_2;
      case G3_1 => assert AllGroups[4] == G3_1;
      case G3_2 => assert AllGroups[5] == G3_2;
      case G4_1 => assert AllGroups[6] == G4_1;
      case G4_2 => assert AllGroups[7] == G4_2;
      case G5_1 => assert AllGroups[8] == G5_1;
      case G5_2 => assert AllGroups[9] == G5_2;
      case G6_1 => assert AllGroups[10] == G6_1;
      case G6_2 => assert AllGroups[11] == G6_2;
    }
  }
}
