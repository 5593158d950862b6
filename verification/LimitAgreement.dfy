/** Two modules derive the highest entry price on their own; whether they mean the same price. */
module LimitAgreement {
  import opened Common
  import opened Models
  import RiskSizing
  import SetupLifecycle

  /**
   The price beyond which revalidation speaks of chasing is the worst-case price the size is computed from, for a
   stop-limit entry at its configured trigger, exactly if the direction is long, or a limit is configured outright, or
   the offset is zero: a short entry's offset is taken off the trigger by one and added to it by the other.
   */
  lemma LimitsAgreeExactly(s: SetupLifecycle.LifecycleSetup, trigger: int)
    requires s.hasEntrySection && SetupLifecycle.EntryRef(s) == Some(trigger)
    requires s.setup.config.entry.orderType.GetOr(StopLimit) == StopLimit
    ensures var e := s.setup.config.entry;
            SetupLifecycle.MaximumLimit(s) == Some(RiskSizing.WorstCaseEntryPrice(s.setup.config, trigger))
            <==> SetupLifecycle.IsLong(s) || e.maximumLimitPrice.Some? || e.limitPrice.Some? || e.limitOffset.GetOr(0) == 0
  {
  }

  /** A live long setup that revalidation would let through is not asked to pay more than it was sized for. */
  lemma PassedPriceIsWithinSize(i: SetupLifecycle.Input, g: SetupLifecycle.LifecycleSettings, current: SetupStatus)
    requires SetupLifecycle.Revalidate(current, i, g).canSend && SetupLifecycle.IsLong(i.setup)
    requires SetupLifecycle.EntryRef(i.setup).Some? && i.setup.setup.config.entry.orderType.GetOr(StopLimit) == StopLimit
    ensures var prices := SetupLifecycle.PricesOf(i.quote, i.setup.setup.symbol);
            prices.Some?
            && SetupLifecycle.Executable(i.setup, prices.value)
               <= RiskSizing.WorstCaseEntryPrice(i.setup.setup.config, SetupLifecycle.EntryRef(i.setup).value)
  {
    SetupLifecycle.CanSendExactly(current, i, g);
    LimitsAgreeExactly(i.setup, SetupLifecycle.EntryRef(i.setup).value);
  }
}
