// The closed set of tags shared by the design store and the tool store: the
// eleven element types a design feature can have, and the tool type, which is
// `select` plus those eleven.
module Elements {

  datatype ToolType =
    | Select
    | HydrobloxRun
    | ParallelRow
    | TransitionBox
    | StormwaterBox
    | FlowArrow
    | StandingWater
    | ProblemArea
    | ExistingSwale
    | ExistingFrenchDrain
    | ExistingPipe
    | Downspout

  /** An element type is any tool type except `select`. */
  type ElementType = t: ToolType | t != Select witness HydrobloxRun

  /** Every tool type, in declaration order. */
  const AllToolTypes: seq<ToolType> := [
    Select, HydrobloxRun, ParallelRow, TransitionBox, StormwaterBox, FlowArrow,
    StandingWater, ProblemArea, ExistingSwale, ExistingFrenchDrain, ExistingPipe, Downspout
  ]

  /** The string tag the original code uses for each tool type. */
  function ToolName(t: ToolType): string {
    match t
    case Select => "select"
    case HydrobloxRun => "hydroblox-run"
    case ParallelRow => "parallel-row"
    case TransitionBox => "transition-box"
    case StormwaterBox => "stormwater-box"
    case FlowArrow => "flow-arrow"
    case StandingWater => "standing-water"
    case ProblemArea => "problem-area"
    case ExistingSwale => "existing-swale"
    case ExistingFrenchDrain => "existing-french-drain"
    case ExistingPipe => "existing-pipe"
    case Downspout => "downspout"
  }

  /** The tool type is `select` plus exactly the eleven element types, each listed once. */
  lemma ToolTypeCensus()
    ensures |AllToolTypes| == 12 && AllToolTypes[0] == Select
    ensures forall t: ToolType :: t in AllToolTypes
    ensures forall i, j :: 0 <= i < j < |AllToolTypes| ==> AllToolTypes[i] != AllToolTypes[j]
    ensures forall i :: 1 <= i < |AllToolTypes| ==> AllToolTypes[i] != Select
  {
    forall t: ToolType ensures t in AllToolTypes {
      match t
      case Select => assert AllToolTypes[0] == t;
      case HydrobloxRun => assert AllToolTypes[1] == t;
      case ParallelRow => assert AllToolTypes[2] == t;
      case TransitionBox => assert AllToolTypes[3] == t;
      case StormwaterBox => assert AllToolTypes[4] == t;
      case FlowArrow => assert AllToolTypes[5] == t;
      case StandingWater => assert AllToolTypes[6] == t;
      case ProblemArea => assert AllToolTypes[7] == t;
      case ExistingSwale => assert AllToolTypes[8] == t;
      case ExistingFrenchDrain => assert AllToolTypes[9] == t;
      case ExistingPipe => assert AllToolTypes[10] == t;
      case Downspout => assert AllToolTypes[11] == t;
    }
  }
}
