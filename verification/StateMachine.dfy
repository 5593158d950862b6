/** The table of allowed status changes of a setup, and what every run through it has in common. */
module StateMachine {
  import opened Common
  import opened Models

  function AllowedNext(s: SetupStatus): set<SetupStatus> {
    match s
    case Draft => {Loaded, SetupCancelled}
    case Loaded => {Validated, SetupError}
    case Validated => {WaitingActivation, ReconcilingExistingPosition, WaitingEntrySignal, Disabled, SetupCancelled,
      SetupError}
    case Disabled => {WaitingActivation, ReconcilingExistingPosition, SetupCancelled}
    case WaitingActivation => {WaitingBreakout, MissedBreakout, MissedBreakoutWaitRetest, StaleSetup, Blocked,
      WaitingRetest, WaitingRebound, WaitingConfirmation, WaitingEntrySignal, Expired, Invalidated, SetupCancelled,
      SetupError}
    case Blocked => {WaitingActivation, ReconcilingExistingPosition, MissedBreakoutWaitRetest, StaleSetup, Disabled,
      Expired, Invalidated, SetupCancelled, SetupError}
    case StaleSetup => {WaitingActivation, MissedBreakoutWaitRetest, Blocked, Disabled, Expired, Invalidated,
      SetupCancelled, SetupError}
    case MissedBreakoutWaitRetest => {WaitingActivation, WaitingRetest, RearmedOnNewBase, StaleSetup, Blocked, Disabled,
      Expired, Invalidated, SetupCancelled, SetupError}
    case WaitingBreakout => {MissedBreakout, WaitingRetest, WaitingEntrySignal, Expired, Invalidated, SetupCancelled,
      SetupError}
    case MissedBreakout => {WaitingRetest, RearmedOnNewBase, Expired, Invalidated, SetupCancelled, SetupError}
    case WaitingRetest => {WaitingConfirmation, RearmedOnNewBase, WaitingEntrySignal, Expired, Invalidated,
      SetupCancelled, SetupError}
    case RearmedOnNewBase => {EntryReady, WaitingEntrySignal, Expired, Invalidated, SetupCancelled, SetupError}
    case WaitingRebound => {WaitingConfirmation, WaitingEntrySignal, Invalidated, SetupCancelled, SetupError}
    case WaitingConfirmation => {EntryReady, WaitingEntrySignal, Invalidated, SetupCancelled, SetupError}
    case WaitingEntrySignal => {EntryReady, EntryOrderPlaced, Invalidated, SetupCancelled, SetupError}
    case EntryReady => {EntryOrderPlaced, Invalidated, SetupCancelled, SetupError}
    case EntryOrderPlaced => {EntryPartiallyFilled, EntryFilled, SetupCancelled, SetupError}
    case EntryPartiallyFilled => {EntryFilled, SetupCancelled, SetupError, ManualReviewRequired}
    case EntryFilled => {StopOrderPlaced, StopPlaced, SetupError, ManualReviewRequired}
    case StopOrderPlaced => {InPosition, SetupError, ManualReviewRequired}
    case StopPlaced => {InPosition, SetupError, ManualReviewRequired}
    case ReconcilingExistingPosition => {InPosition, Blocked, Invalidated, ManualReviewRequired,
      ErrorRequiresManualReview, SetupCancelled}
    case InPosition => {ManagingPosition, PartialExit, Closed, SetupError, ManualReviewRequired}
    case ManagingPosition => {PartialExit, Closed, SetupError, ManualReviewRequired}
    case PartialExit => {ManagingPosition, Closed, SetupError}
    case Closed => {}
    case Expired => {}
    case Invalidated => {}
    case SetupCancelled => {}
    case ManualReviewRequired => {SetupCancelled, SetupError, ErrorRequiresManualReview}
    case ErrorRequiresManualReview => {SetupCancelled, ManualReviewRequired}
    case SetupError => {SetupCancelled, ManualReviewRequired}
  }

  predicate IsTerminal(s: SetupStatus) {
    s in {Closed, Expired, Invalidated, SetupCancelled}
  }

  predicate IsEntryFlow(s: SetupStatus) {
    s in {WaitingActivation, WaitingBreakout, MissedBreakout, MissedBreakoutWaitRetest, StaleSetup, WaitingRetest,
          WaitingRebound, WaitingConfirmation, RearmedOnNewBase, WaitingEntrySignal, EntryReady, EntryOrderPlaced,
          EntryPartiallyFilled, EntryFilled, StopOrderPlaced, StopPlaced}
  }

  datatype Decision = ManagementOnlyRefused | AlreadyThere | InTable | NotInTable {
    predicate Allowed() {
      AlreadyThere? || InTable?
    }
  }

  /** The role is consulted first, even when nothing would change; an unknown role is no role. */
  function Explain(current: SetupStatus, target: SetupStatus, role: Option<SetupRole>): Decision {
    if role == Some(ManagementOnly) && IsEntryFlow(target) then ManagementOnlyRefused
    else if current == target then AlreadyThere
    else if target in AllowedNext(current) then InTable
    else NotInTable
  }

  function Transition(current: SetupStatus, target: SetupStatus, role: Option<SetupRole>): Result<SetupStatus, Decision> {
    var d := Explain(current, target, role);
    if d.Allowed() then Ok(target) else Err(d)
  }

  // ------------------------------------------------------------------ runs

  /** The statuses a setup goes through, each reached from the one before by an allowed transition. */
  ghost predicate Run(role: Option<SetupRole>, path: seq<SetupStatus>) {
    path != [] && forall i :: 0 < i < |path| ==> Transition(path[i - 1], path[i], role).Ok?
  }

  /** Statuses a setup can be in once an entry order was placed. */
  predicate OrderOrLater(s: SetupStatus) {
    s in {EntryOrderPlaced, EntryPartiallyFilled, EntryFilled, StopOrderPlaced, StopPlaced, InPosition, ManagingPosition,
          PartialExit, Closed, SetupCancelled, SetupError, ManualReviewRequired, ErrorRequiresManualReview}
  }

  /** After a placed entry order no earlier status is ever seen again. */
  lemma {:induction false} NoReturnBeforeTheOrder(role: Option<SetupRole>, path: seq<SetupStatus>, i: nat, j: nat)
    requires Run(role, path) && i <= j < |path| && path[i] == EntryOrderPlaced
    ensures OrderOrLater(path[j])
  {
    if i < j {
      StaysOrderOrLater(role, path, i, j);
    }
  }

  lemma {:induction false} StaysOrderOrLater(role: Option<SetupRole>, path: seq<SetupStatus>, i: nat, j: nat)
    requires Run(role, path) && i <= j < |path| && OrderOrLater(path[i])
    ensures OrderOrLater(path[j])
    decreases j
  {
    if i < j {
      StaysOrderOrLater(role, path, i, j - 1);
      assert Transition(path[j - 1], path[j], role).Ok?;
    }
  }

  /** Statuses a setup can be in without ever having been validated. */
  predicate NotYetValid(s: SetupStatus) {
    s in {Draft, Loaded, SetupCancelled, SetupError, ManualReviewRequired, ErrorRequiresManualReview}
  }

  lemma {:induction false} StaysNotYetValid(role: Option<SetupRole>, path: seq<SetupStatus>, i: nat)
    requires Run(role, path) && i < |path| && NotYetValid(path[0])
    requires forall k :: 0 <= k <= i ==> path[k] != Validated
    ensures NotYetValid(path[i])
    decreases i
  {
    if i > 0 {
      StaysNotYetValid(role, path, i - 1);
      assert Transition(path[i - 1], path[i], role).Ok?;
    }
  }

  /** Whatever waits, trades or is managed was validated before: no run from a draft gets round the validation. */
  lemma ValidatedFirst(role: Option<SetupRole>, path: seq<SetupStatus>, i: nat)
    requires Run(role, path) && i < |path| && NotYetValid(path[0]) && !NotYetValid(path[i])
    ensures exists k :: 0 <= k <= i && path[k] == Validated
  {
    hide Run, NotYetValid;
    if forall k :: 0 <= k <= i ==> path[k] != Validated {
      StaysNotYetValid(role, path, i);
    }
  }

  /** Terminal statuses are absorbing. */
  lemma {:induction false} TerminalIsFinal(role: Option<SetupRole>, path: seq<SetupStatus>, i: nat, j: nat)
    requires Run(role, path) && i <= j < |path| && IsTerminal(path[i])
    ensures path[j] == path[i]
    decreases j
  {
    if i < j {
      TerminalIsFinal(role, path, i, j - 1);
      assert Transition(path[j - 1], path[j], role).Ok?;
    }
  }

  /** After an error or a manual review nothing is left but errors, reviews and cancellation. */
  lemma {:induction false} ErrorsDoNotTradeAgain(role: Option<SetupRole>, path: seq<SetupStatus>, i: nat, j: nat)
    requires Run(role, path) && i <= j < |path|
    requires path[i] in {SetupError, ManualReviewRequired, ErrorRequiresManualReview}
    ensures path[j] in {SetupError, ManualReviewRequired, ErrorRequiresManualReview, SetupCancelled}
    decreases j
  {
    if i < j {
      ErrorsDoNotTradeAgain(role, path, i, j - 1);
      assert Transition(path[j - 1], path[j], role).Ok?;
    }
  }

  /** A management-only setup never enters the entry flow. */
  lemma ManagementStaysOut(path: seq<SetupStatus>, i: nat)
    requires Run(Some(ManagementOnly), path) && 0 < i < |path|
    ensures path[i] in {Draft, Loaded, Validated, SetupStatus.Disabled, Blocked, ReconcilingExistingPosition, InPosition,
                        ManagingPosition, PartialExit, Closed, Expired, Invalidated, SetupCancelled,
                        ManualReviewRequired, ErrorRequiresManualReview, SetupError}
  {
    assert Transition(path[i - 1], path[i], Some(ManagementOnly)).Ok?;
  }

  /** The step by which a status is first entered. */
  lemma {:induction false} FirstEntered(role: Option<SetupRole>, path: seq<SetupStatus>, i: nat) returns (k: nat)
    requires Run(role, path) && i < |path| && path[i] != path[0]
    ensures 0 < k <= i && path[k] == path[i] && path[k - 1] != path[i] && path[i] in AllowedNext(path[k - 1])
    decreases i
  {
    if path[i - 1] == path[i] {
      k := FirstEntered(role, path, i - 1);
    } else {
      k := i;
      assert Transition(path[i - 1], path[i], role).Ok?;
    }
  }

  /** How a position is come by. */
  ghost predicate CameByEntry(path: seq<SetupStatus>, i: nat) {
    exists a, b, c :: 0 <= a < b < c < i < |path| && path[a] == EntryOrderPlaced && path[b] == EntryFilled
                      && (path[c] == StopOrderPlaced || path[c] == StopPlaced)
  }

  ghost predicate CameByReconciliation(path: seq<SetupStatus>, i: nat) {
    exists a :: 0 <= a < i < |path| && path[a] == ReconcilingExistingPosition
  }

  lemma IntoPosition(s: SetupStatus)
    requires InPosition in AllowedNext(s)
    ensures s == ReconcilingExistingPosition || s == StopOrderPlaced || s == StopPlaced
  {
  }

  lemma IntoStop(s: SetupStatus, stop: SetupStatus)
    requires stop in AllowedNext(s) && (stop == StopOrderPlaced || stop == StopPlaced)
    ensures s == EntryFilled
  {
  }

  lemma IntoFilled(s: SetupStatus)
    requires EntryFilled in AllowedNext(s)
    ensures s == EntryOrderPlaced || s == EntryPartiallyFilled
  {
  }

  lemma IntoPartlyFilled(s: SetupStatus)
    requires EntryPartiallyFilled in AllowedNext(s)
    ensures s == EntryOrderPlaced
  {
  }

  /**
   A setup that starts before any order is in position only after a placed entry order, its fill and a placed stop, in
   that order, or after reconciling an existing position.
   */
  lemma PositionProvenance(role: Option<SetupRole>, path: seq<SetupStatus>, i: nat)
    requires Run(role, path) && i < |path| && path[i] == InPosition
    requires !OrderOrLater(path[0])
    ensures CameByEntry(path, i) || CameByReconciliation(path, i)
  {
    var k := FirstEntered(role, path, i);
    IntoPosition(path[k - 1]);
    hide Run, AllowedNext;
    if path[k - 1] == ReconcilingExistingPosition {
      assert CameByReconciliation(path, i);
    } else {
      var a, b := StopProvenance(role, path, k - 1);
      assert CameByEntry(path, i);
    }
  }

  lemma StopProvenance(role: Option<SetupRole>, path: seq<SetupStatus>, c: nat) returns (a: nat, b: nat)
    requires Run(role, path) && c < |path| && (path[c] == StopOrderPlaced || path[c] == StopPlaced)
    requires !OrderOrLater(path[0])
    ensures a < b < c && path[a] == EntryOrderPlaced && path[b] == EntryFilled
  {
    hide Run, AllowedNext;
    var s := FirstEntered(role, path, c);
    IntoStop(path[s - 1], path[c]);
    b := s - 1;
    a := FillProvenance(role, path, b);
  }

  lemma FillProvenance(role: Option<SetupRole>, path: seq<SetupStatus>, b: nat) returns (a: nat)
    requires Run(role, path) && b < |path| && path[b] == EntryFilled
    requires !OrderOrLater(path[0])
    ensures a < b && path[a] == EntryOrderPlaced
  {
    assert path[0] != EntryFilled && path[0] != EntryPartiallyFilled;
    hide Run, AllowedNext, OrderOrLater;
    var f := FirstEntered(role, path, b);
    IntoFilled(path[f - 1]);
    a := f - 1;
    if path[a] == EntryPartiallyFilled {
      var p := FirstEntered(role, path, a);
      IntoPartlyFilled(path[p - 1]);
      a := p - 1;
    }
  }

  /** A management-only setup outside the entry flow comes by a position only through reconciliation. */
  lemma ManagementPositions(path: seq<SetupStatus>, i: nat)
    requires Run(Some(ManagementOnly), path) && i < |path| && path[i] == InPosition
    requires !OrderOrLater(path[0])
    ensures CameByReconciliation(path, i)
  {
    PositionProvenance(Some(ManagementOnly), path, i);
    if CameByEntry(path, i) {
      var a, b, c :| 0 <= a < b < c < i < |path| && path[a] == EntryOrderPlaced && path[b] == EntryFilled
                     && (path[c] == StopOrderPlaced || path[c] == StopPlaced);
      ManagementStaysOut(path, c);
    }
  }

  /** A status from which another can be entered, one step nearer to a draft. */
  function Previous(s: SetupStatus): SetupStatus
    requires s != Draft
  {
    match s
    case Loaded => Draft
    case SetupCancelled => Draft
    case Validated => Loaded
    case SetupError => Loaded
    case WaitingActivation => Validated
    case Disabled => Validated
    case WaitingEntrySignal => Validated
    case ReconcilingExistingPosition => Validated
    case ManualReviewRequired => SetupError
    case ErrorRequiresManualReview => ManualReviewRequired
    case RearmedOnNewBase => MissedBreakout
    case EntryReady => WaitingEntrySignal
    case EntryOrderPlaced => WaitingEntrySignal
    case EntryPartiallyFilled => EntryOrderPlaced
    case EntryFilled => EntryOrderPlaced
    case StopOrderPlaced => EntryFilled
    case StopPlaced => EntryFilled
    case InPosition => StopOrderPlaced
    case ManagingPosition => InPosition
    case PartialExit => InPosition
    case Closed => InPosition
    case _ => WaitingActivation
  }

  /** The number of steps from a draft. */
  function Depth(s: SetupStatus): nat {
    match s
    case Draft => 0
    case Loaded => 1
    case SetupCancelled => 1
    case Validated => 2
    case SetupError => 2
    case WaitingActivation => 3
    case Disabled => 3
    case WaitingEntrySignal => 3
    case ReconcilingExistingPosition => 3
    case ManualReviewRequired => 3
    case RearmedOnNewBase => 5
    case EntryPartiallyFilled => 5
    case EntryFilled => 5
    case StopOrderPlaced => 6
    case StopPlaced => 6
    case InPosition => 7
    case ManagingPosition => 8
    case PartialExit => 8
    case Closed => 8
    case _ => 4
  }

  /** A way in: the statuses from a draft to a given one. */
  function WayIn(s: SetupStatus): (path: seq<SetupStatus>)
    ensures path != [] && path[0] == Draft && path[|path| - 1] == s
    decreases Depth(s)
  {
    if s == Draft then [Draft] else WayIn(Previous(s)) + [s]
  }

  lemma PreviousLeads(s: SetupStatus)
    requires s != Draft
    ensures s in AllowedNext(Previous(s))
  {
  }

  /** Every status can be reached from a draft. */
  lemma {:induction false} EveryStatusReachable(s: SetupStatus)
    ensures Run(None, WayIn(s))
    decreases Depth(s)
  {
    hide AllowedNext;
    if s != Draft {
      EveryStatusReachable(Previous(s));
      PreviousLeads(s);
    }
  }

  /** A way out: the statuses from a given one to a terminal one. */
  function WayOut(s: SetupStatus): (path: seq<SetupStatus>)
    ensures path != [] && path[0] == s && IsTerminal(path[|path| - 1])
  {
    if IsTerminal(s) then [s]
    else if SetupCancelled in AllowedNext(s) then [s, SetupCancelled]
    else if Closed in AllowedNext(s) then [s, Closed]
    else [s, SetupError, SetupCancelled]
  }

  /** From every status, under every role, a terminal status stays reachable. */
  lemma TerminalReachable(role: Option<SetupRole>, s: SetupStatus)
    ensures Run(role, WayOut(s))
  {
  }
}
