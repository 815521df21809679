/** The challenge rules: loss floors, the pass/fail decision and the manual transitions. Money in cents. */
module ChallengeRules {
  import opened Options
  import opened Money

  datatype Status = Active | Passed | Failed | Suspended | Frozen | FundedStatus
  datatype Phase = Phase1 | Phase2 | FundedPhase
  datatype DrawdownMode = Static | Trailing
  datatype FailureReason = MaxDrawdown | DailyLoss | Expired

  /** A loss floor; None is a switched-off rule (minus infinity in the source). */
  type Floor = Option<int>

  predicate Below(equity: int, floor: Floor) { floor.Some? && equity <= floor.value }

  predicate CanAutoEvaluate(s: Status) { s.Active? || s.FundedStatus? }

  function Limit(base: int, percent: real): int { RoundCents(base as real * (percent / 100.0)) }

  function MaxDrawdownFloor(startingBalance: int, highWaterMark: int, percent: real, mode: DrawdownMode): Floor {
    var limit := Limit(startingBalance, percent);
    if limit <= 0 then None
    else if mode.Trailing? then Some(Min(Max(highWaterMark, startingBalance) - limit, startingBalance))
    else Some(startingBalance - limit)
  }

  function DailyLossFloor(dailyAnchorBalance: int, percent: real): Floor {
    var limit := Limit(dailyAnchorBalance, percent);
    if limit <= 0 then None else Some(dailyAnchorBalance - limit)
  }

  datatype RuleSnapshot = RuleSnapshot(
    maxDrawdown: real, dailyDrawdown: real, profitTarget: Option<real>, minTradingDays: int, drawdownMode: DrawdownMode)

  datatype DecisionInput = DecisionInput(
    status: Status, phase: Phase, startingBalance: int, netPnl: int, equity: int, highWaterMark: int,
    dailyAnchorBalance: int, tradingDays: int, rules: RuleSnapshot, expired: bool, consistencyOk: Option<bool>)

  datatype Decision = Decision(nextStatus: Status, failureReason: Option<FailureReason>)

  function TargetAmount(startingBalance: int, profitTarget: Option<real>): Option<int> {
    if profitTarget.Some? && profitTarget.value > 0.0 then Some(Limit(startingBalance, profitTarget.value)) else None
  }

  predicate MeetsTarget(input: DecisionInput) {
    && TargetAmount(input.startingBalance, input.rules.profitTarget).Some?
    && input.netPnl >= TargetAmount(input.startingBalance, input.rules.profitTarget).value
    && input.tradingDays >= input.rules.minTradingDays
    && (input.consistencyOk.None? || input.consistencyOk.value)
  }

  function DetermineChallengeTransition(input: DecisionInput): Decision {
    if !CanAutoEvaluate(input.status) then Decision(input.status, None)
    else if Below(input.equity, MaxDrawdownFloor(input.startingBalance, input.highWaterMark, input.rules.maxDrawdown, input.rules.drawdownMode))
    then Decision(Failed, Some(MaxDrawdown))
    else if Below(input.equity, DailyLossFloor(input.dailyAnchorBalance, input.rules.dailyDrawdown))
    then Decision(Failed, Some(DailyLoss))
    else if !input.phase.FundedPhase? && input.status.Active? && MeetsTarget(input) then Decision(Passed, None)
    else if input.expired && !input.phase.FundedPhase? && input.status.Active? then Decision(Failed, Some(Expired))
    else Decision(input.status, None)
  }

  /** The live engine's check of the same floors. */
  function CheckBreach(equity: int, ddFloor: Floor, dlFloor: Floor): Option<FailureReason> {
    if Below(equity, ddFloor) then Some(MaxDrawdown)
    else if Below(equity, dlFloor) then Some(DailyLoss)
    else None
  }

  function ReinstateTarget(phase: Phase): Status { if phase.FundedPhase? then FundedStatus else Active }

  predicate IsLegalManualTransition(from: Status, to: Status, phase: Phase) {
    && from != to
    && match to
       case Suspended => from.Active? || from.FundedStatus? || from.Frozen?
       case Frozen => from.Active? || from.FundedStatus? || from.Suspended?
       case Failed => from.Active? || from.FundedStatus? || from.Suspended? || from.Frozen?
       case Active => to == ReinstateTarget(phase) && (from.Suspended? || from.Frozen? || from.Failed?)
       case FundedStatus => to == ReinstateTarget(phase) && (from.Suspended? || from.Frozen? || from.Failed?)
       case Passed => false
  }

  // ----- properties -----

  /** A trailing floor starts at the static floor, never falls as the peak rises, and locks at break-even. */
  lemma TrailingFloorBracket(startingBalance: int, peak: int, laterPeak: int, percent: real)
    requires peak <= laterPeak
    ensures var st := MaxDrawdownFloor(startingBalance, peak, percent, Static);
            var tr := MaxDrawdownFloor(startingBalance, peak, percent, Trailing);
            var later := MaxDrawdownFloor(startingBalance, laterPeak, percent, Trailing);
            && (st.Some? <==> tr.Some?) && (tr.Some? <==> later.Some?)
            && (tr.Some? ==> st.value <= tr.value <= later.value <= startingBalance)
            && (tr.Some? && laterPeak >= startingBalance + Limit(startingBalance, percent) ==> later.value == startingBalance)
            && (tr.Some? && peak <= startingBalance ==> tr.value == st.value)
  {
  }

  /** For one set of figures the live check and the recorded decision fail a tradable account together and for the same reason. */
  lemma LiveCheckAgreesWithRules(input: DecisionInput, reason: FailureReason)
    requires CanAutoEvaluate(input.status)
    ensures var dd := MaxDrawdownFloor(input.startingBalance, input.highWaterMark, input.rules.maxDrawdown, input.rules.drawdownMode);
            var dl := DailyLossFloor(input.dailyAnchorBalance, input.rules.dailyDrawdown);
            CheckBreach(input.equity, dd, dl) == Some(reason)
            <==> DetermineChallengeTransition(input) == Decision(Failed, Some(reason)) && reason != Expired
  {
  }

  /** A limit of `percent` per cent is a hundredth of that many bases, to half a cent. */
  lemma LimitIsPercent(base: int, percent: real)
    ensures -50.0 <= 100.0 * Limit(base, percent) as real - base as real * percent <= 50.0
  {
    PercentOf(base as real, percent);
  }

  /** The amount an account may still lose, at a floor. */
  function Room(from: int, floor: Floor): int { if floor.Some? then from - floor.value else 0 }

  /** A percentage of `base` rounds to a cent or more. */
  predicate IsOn(base: int, percent: real) { base as real * percent >= 50.0 }

  /**
   * Where the floors lie: the static one a percentage of the starting balance below it, the daily one a
   * percentage of the anchor below the anchor, the trailing one as far above the static floor as the
   * peak is above the starting balance, up to the starting balance. A percentage that comes to less
   * than half a cent switches the rule off.
   */
  lemma FloorsLieAt(startingBalance: int, peak: int, anchor: int, percent: real)
    ensures var st := MaxDrawdownFloor(startingBalance, peak, percent, Static);
            var tr := MaxDrawdownFloor(startingBalance, peak, percent, Trailing);
            var daily := DailyLossFloor(anchor, percent);
            && (st.Some? <==> IsOn(startingBalance, percent)) && (tr.Some? <==> st.Some?) && (daily.Some? <==> IsOn(anchor, percent))
            && (st.Some? ==> -50.0 <= 100.0 * Room(startingBalance, st) as real - startingBalance as real * percent <= 50.0)
            && (daily.Some? ==> -50.0 <= 100.0 * Room(anchor, daily) as real - anchor as real * percent <= 50.0)
            && (st.Some? ==> tr.value == Min(st.value + Max(0, peak - startingBalance), startingBalance))
  {
    LimitIsPercent(startingBalance, percent);
    LimitIsPercent(anchor, percent);
    LimitPositiveIff(startingBalance, percent);
    LimitPositiveIff(anchor, percent);
  }

  lemma LimitPositiveIff(base: int, percent: real)
    ensures Limit(base, percent) > 0 <==> IsOn(base, percent)
  {
    PercentOf(base as real, percent);
  }

  /** What a profit target asks of an account: the percentage of the starting balance, the days, and consistency. */
  predicate Earned(input: DecisionInput) {
    && input.rules.profitTarget.Some? && input.rules.profitTarget.value > 0.0
    && input.netPnl >= RoundCents(input.startingBalance as real * input.rules.profitTarget.value / 100.0)
    && input.tradingDays >= input.rules.minTradingDays
    && input.consistencyOk != Some(false)
  }

  /**
   * The decision in full. Only a tradable account is decided on; a floor comes first, the drawdown
   * before the day's loss; then the target, and only then the expiry, both for ACTIVE challenges.
   */
  lemma DecisionIff(input: DecisionInput)
    ensures var d := DetermineChallengeTransition(input);
            var dd := MaxDrawdownFloor(input.startingBalance, input.highWaterMark, input.rules.maxDrawdown, input.rules.drawdownMode);
            var dl := DailyLossFloor(input.dailyAnchorBalance, input.rules.dailyDrawdown);
            var sunk, lost := dd.Some? && input.equity <= dd.value, dl.Some? && input.equity <= dl.value;
            var tradable := input.status == Active || input.status == FundedStatus;
            var open := !sunk && !lost && input.status == Active && input.phase != FundedPhase;
            && (d.nextStatus == Passed && input.status != Passed <==> open && Earned(input))
            && (d.failureReason == Some(MaxDrawdown) <==> tradable && sunk)
            && (d.failureReason == Some(DailyLoss) <==> tradable && !sunk && lost)
            && (d.failureReason == Some(Expired) <==> open && !Earned(input) && input.expired)
            && (d.failureReason.Some? ==> d.nextStatus == Failed)
            && (d.failureReason.None? && d.nextStatus != input.status ==> d.nextStatus == Passed)
  {
    EarnedMeets(input);
  }

  lemma EarnedMeets(input: DecisionInput)
    ensures Earned(input) <==> MeetsTarget(input)
  {
    if input.rules.profitTarget.Some? {
      PercentOf(input.startingBalance as real, input.rules.profitTarget.value);
    }
  }

  lemma PercentOf(x: real, percent: real)
    ensures x * (percent / 100.0) == x * percent / 100.0
  {
  }

  /**
   * Manual transitions: never from or to PASSED, to a tradable status only from one that is not and
   * only the one of the phase, and from FAILED only back to that.
   */
  lemma ManualTransitionIff(from: Status, to: Status, phase: Phase)
    ensures IsLegalManualTransition(from, to, phase)
            <==> from != to && from != Passed && to != Passed
                 && (CanAutoEvaluate(to) ==> !CanAutoEvaluate(from) && (to == FundedStatus <==> phase == FundedPhase))
                 && (from == Failed ==> CanAutoEvaluate(to))
  {
  }
}
