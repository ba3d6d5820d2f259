/** The vocabulary shared by every component: identifiers, the closed tool catalog, and the typed
    provider results that the journal stores and the workflow steps keep. */
module Records {
  datatype Option<+T> = None | Some(value: T)

  type Time = int        // an instant, in any fixed unit
  type WorkerId = string
  type WorkflowId = string
  type Key = string      // an idempotency key
  type RowId = nat       // a generated row identifier; see Erp.nextId
  type Quantity = int    // thousandths of a unit: the columns are NUMERIC(14, 3)

  datatype ToolName =
    | CreateReplacementPo | ReduceOrCancelPo | PlacePurchaseOrderHold | NotifyProduction
    | ScheduleArrivalCheck | ReallocateLot | FlagShortageToPurchasing

  datatype ReverseAction =
    | CancelCreatedReplacementPo | RestoreOriginalPurchaseOrder | RestoreHeldPurchaseOrder
    | SendCorrectionNotification | CancelArrivalCheck | RestorePriorAllocation

  // The catalog assigns every tool its reverse action before the tool can run.
  function ReverseOf(tool: ToolName): ReverseAction {
    match tool
    case CreateReplacementPo => CancelCreatedReplacementPo
    case ReduceOrCancelPo => RestoreOriginalPurchaseOrder
    case PlacePurchaseOrderHold => RestoreHeldPurchaseOrder
    case NotifyProduction => SendCorrectionNotification
    case ScheduleArrivalCheck => CancelArrivalCheck
    case ReallocateLot => RestorePriorAllocation
    case FlagShortageToPurchasing => SendCorrectionNotification
  }

  datatype PoStatus = Open | Delayed | Partial | Received | OnHold | Cancelled

  datatype TaskStatus = TaskPending | TaskClaimed | TaskSucceeded | TaskCancelled

  // The source side of a reallocation: its row, its quantity before, its version after.
  datatype SourceChange = SourceChange(id: RowId, previous: Quantity, version: nat)

  // What a provider effect reports; the journal keeps it as the provenance of the reverse effect.
  datatype ToolResult =
    | PoCreated(po: RowId, receiptDate: int)
    | PoReduced(po: RowId, previousOrdered: Quantity, previousStatus: PoStatus,
                ordered: Quantity, received: Quantity, version: nat)
    | PoHeld(po: RowId, previousStatus: PoStatus, version: nat)
    | LotReallocated(lot: RowId, to: RowId, quantity: Quantity,
                     previousInUse: Quantity, previousLotOrder: Option<RowId>, lotVersion: nat,
                     destination: RowId, destinationPrevious: Quantity, destinationVersion: nat,
                     source: Option<SourceChange>)
    | ShortageFlagged(message: RowId, order: RowId, part: string, shortage: Quantity)
    | Notified(message: RowId)
    | ArrivalScheduled(task: RowId)
    | PoCancelled(po: RowId, version: nat)
    | PoRestored(po: RowId, ordered: Quantity, received: Quantity, status: PoStatus, version: nat)
    | HoldRestored(po: RowId, status: PoStatus, version: nat)
    | AllocationRestored(lot: RowId, inUse: Quantity, version: nat)
    | Corrected(message: RowId, reverses: RowId)
    | ArrivalCancelled(task: RowId)

  // The typed input of each tool.
  datatype ToolInput =
    | CreateReplacement(original: RowId, supplier: RowId, production: RowId, quantity: Quantity)
    | ReduceOriginal(original: RowId, quantity: Quantity)
    | PlaceHold(original: RowId, production: RowId, expectedVersion: nat)
    | Reallocate(lot: RowId, from: Option<RowId>, to: RowId, quantity: Quantity)
    | FlagShortage(production: RowId, part: string, quantity: Quantity)
    | Notify(production: RowId, message: string)
    | CheckArrival(original: RowId, dueAt: Time)

  function ToolOf(input: ToolInput): ToolName {
    match input
    case CreateReplacement(_, _, _, _) => CreateReplacementPo
    case ReduceOriginal(_, _) => ReduceOrCancelPo
    case PlaceHold(_, _, _) => PlacePurchaseOrderHold
    case Reallocate(_, _, _, _) => ReallocateLot
    case FlagShortage(_, _, _) => FlagShortageToPurchasing
    case Notify(_, _) => NotifyProduction
    case CheckArrival(_, _) => ScheduleArrivalCheck
  }

  // The input models reject non-positive quantities and equal source and destination orders.
  predicate ValidInput(input: ToolInput) {
    match input
    case PlaceHold(_, _, version) => version >= 1
    case Reallocate(_, from, to, quantity) => quantity > 0 && from != Some(to)
    case CreateReplacement(_, _, _, quantity) => quantity > 0
    case ReduceOriginal(_, quantity) => quantity > 0
    case FlagShortage(_, _, quantity) => quantity > 0
    case _ => true
  }
}
