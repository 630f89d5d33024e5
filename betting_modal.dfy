/** The bet dialog (app/src/components/BettingModal.tsx): the displayed odds,
    the potential-return quote, the submit and quick-amount guards, and the
    dialog's own state (chosen side, amount text, loading and success
    flags). The bet itself is sent by the parent; its outcome is a parameter. */
module BettingModal {
  import opened Types
  import opened JsText
  import opened Api

  /** The quick-amount buttons. */
  const QuickAmounts: seq<nat> := [50, 100, 500, 1000]

  /** `probA` and `probB`: the market's odds, or 50 each without a market. */
  function DisplayedOdds(market: Option<Market>): (real, real) {
    match market
    case None => (50.0, 50.0)
    case Some(m) => (CalculateOdds(m.poolA, m.poolB, A), CalculateOdds(m.poolA, m.poolB, B))
  }

  /** The two displayed chances always add up to 100: 50/50 without a
      market, and pool shares in [0, 100] for a market whose pools are not
      negative. */
  lemma DisplayedOddsSum(market: Option<Market>)
    ensures DisplayedOdds(market).0 + DisplayedOdds(market).1 == 100.0
    ensures market.None? ==> DisplayedOdds(market) == (50.0, 50.0)
    ensures market.Some? && market.value.poolA >= 0.0 && market.value.poolB >= 0.0 ==>
      0.0 <= DisplayedOdds(market).0 <= 100.0 && 0.0 <= DisplayedOdds(market).1 <= 100.0
  {
    if market.Some? {
      OddsComplementary(market.value.poolA, market.value.poolB);
    }
  }

  /** `parseFloat(amount) <= 0`, which is false for NaN. */
  predicate NotPositive(amount: string) {
    ParseFloat(amount).Some? && ParseFloat(amount).value <= 0.0
  }

  /** `parseFloat(amount) > balance`, which is false for NaN. */
  predicate Exceeds(amount: string, balance: real) {
    ParseFloat(amount).Some? && ParseFloat(amount).value > balance
  }

  /** The `potentialReturn` memo. */
  function PotentialReturn(selected: Option<Side>, amount: string, market: Option<Market>): real {
    if selected.None? || amount == "" || market.None? then 0.0
    else
      match ParseFloat(amount)
      case None => 0.0
      case Some(betAmount) =>
        if betAmount <= 0.0 then 0.0
        else CalculatePotentialReturn(betAmount, market.value.poolA, market.value.poolB, selected.value)
  }

  /** The quote is 0 exactly in the guarded cases (no side, no amount, no
      market, an amount that is NaN or not positive) or when the pricing
      helper itself returns 0; otherwise it is the pricing helper's quote,
      which for pools that are not negative is at least the stake. */
  lemma PotentialReturnCases(selected: Option<Side>, amount: string, market: Option<Market>)
    ensures selected.None? || amount == "" || market.None? || ParseFloat(amount).None? || NotPositive(amount) ==>
      PotentialReturn(selected, amount, market) == 0.0
    ensures selected.Some? && market.Some? && ParseFloat(amount).Some? && ParseFloat(amount).value > 0.0 ==>
      var m, b := market.value, ParseFloat(amount).value;
      && PotentialReturn(selected, amount, market) == CalculatePotentialReturn(b, m.poolA, m.poolB, selected.value)
      && (m.poolA >= 0.0 && m.poolB >= 0.0 ==> PotentialReturn(selected, amount, market) >= b)
  {
    if selected.Some? && market.Some? && ParseFloat(amount).Some? && ParseFloat(amount).value > 0.0 {
      assert amount != "" by { ParseEmpty(); }
      var m, b := market.value, ParseFloat(amount).value;
      if m.poolA >= 0.0 && m.poolB >= 0.0 {
        ReturnBounds(b, m.poolA, m.poolB, selected.value);
      }
    }
  }

  /** The submit button's `disabled` expression. */
  predicate SubmitDisabled(isLoading: bool, selected: Option<Side>, amount: string, isAuthenticated: bool, userBalance: real) {
    isLoading || selected.None? || amount == "" || NotPositive(amount) || (isAuthenticated && Exceeds(amount, userBalance))
  }

  /** A quick-amount button's `disabled` expression. */
  predicate QuickAmountDisabled(isLoading: bool, isAuthenticated: bool, quickAmount: nat, userBalance: real) {
    isLoading || (isAuthenticated && quickAmount as real > userBalance)
  }

  /** Choosing a quick amount the button allows never trips the balance
      check: its text parses back to the amount, which is positive and, for a
      signed-in user, within the balance. */
  lemma QuickAmountWithinBalance(isLoading: bool, isAuthenticated: bool, quickAmount: nat, userBalance: real)
    requires quickAmount in QuickAmounts
    requires !QuickAmountDisabled(isLoading, isAuthenticated, quickAmount, userBalance)
    ensures ParseFloat(NatToString(quickAmount)) == Some(quickAmount as real)
    ensures !NotPositive(NatToString(quickAmount))
    ensures isAuthenticated ==> !Exceeds(NatToString(quickAmount), userBalance)
  {
    ParseNatToString(quickAmount);
  }

  /** What a submit does. */
  datatype SubmitAction =
    | Ignored
      /** A guest's bet is forwarded to the parent (which sends the guest to sign in). */
    | ForwardGuest(marketId: string, option: Side, amount: Option<real>)
      /** A signed-in user's bet is placed. */
    | PlaceBet(marketId: string, option: Side, amount: Option<real>)

  class BettingDialog {
    var selectedOption: Option<Side>
    var amount: string
    var isLoading: bool
    var isSuccess: bool

    constructor ()
      ensures selectedOption == None && amount == "" && !isLoading && !isSuccess
    {
      selectedOption := None;
      amount := "";
      isLoading := false;
      isSuccess := false;
    }

    /** A click on a side's button. */
    method SelectOption(option: Side)
      modifies this`selectedOption
      ensures selectedOption == Some(option)
    {
      selectedOption := Some(option);
    }

    /** Typing in the amount field. */
    method ChangeAmount(text: string)
      modifies this`amount
      ensures amount == text
    {
      amount := text;
    }

    /** A click on a quick-amount button: the amount becomes its digits. */
    method PickQuickAmount(quickAmount: nat)
      modifies this`amount
      ensures amount == NatToString(quickAmount)
      ensures ParseFloat(amount) == Some(quickAmount as real)
    {
      amount := NatToString(quickAmount);
      ParseNatToString(quickAmount);
    }

    /** `handleSubmit` up to the point where it awaits the parent: nothing
        without a market, a side or an amount; a guest's bet is forwarded
        without a balance check; a signed-in user's bet above the balance is
        dropped with no state change; otherwise the bet is placed and the
        dialog starts loading. */
    method Submit(market: Option<Market>, isAuthenticated: bool, userBalance: real) returns (action: SubmitAction)
      modifies this`isLoading
      ensures market.None? || old(selectedOption).None? || amount == "" ==>
        action == Ignored && isLoading == old(isLoading)
      ensures market.Some? && selectedOption.Some? && amount != "" && !isAuthenticated ==>
        action == ForwardGuest(market.value.id, selectedOption.value, ParseFloat(amount)) && isLoading == old(isLoading)
      ensures market.Some? && selectedOption.Some? && amount != "" && isAuthenticated && Exceeds(amount, userBalance) ==>
        action == Ignored && isLoading == old(isLoading)
      ensures market.Some? && selectedOption.Some? && amount != "" && isAuthenticated && !Exceeds(amount, userBalance) ==>
        action == PlaceBet(market.value.id, selectedOption.value, ParseFloat(amount)) && isLoading
      ensures market.Some? && !old(SubmitDisabled(isLoading, selectedOption, amount, isAuthenticated, userBalance)) ==>
        action != Ignored
    {
      if market.None? || selectedOption.None? || amount == "" {
        return Ignored;
      }
      var betAmount := ParseFloat(amount);
      if !isAuthenticated {
        return ForwardGuest(market.value.id, selectedOption.value, betAmount);
      }
      if betAmount.Some? && betAmount.value > userBalance {
        return Ignored;
      }
      isLoading := true;
      action := PlaceBet(market.value.id, selectedOption.value, betAmount);
    }

    /** The rest of a guest's submit: the dialog closes once the forward
        resolves, and stays open when it throws. */
    method SettleGuest(forwarded: Outcome) returns (closes: bool)
      ensures closes <==> forwarded.Pass?
    {
      closes := forwarded.Pass?;
    }

    /** The rest of a signed-in submit: success shows the success view;
        loading ends either way. */
    method SettleBet(placed: Outcome)
      modifies this`isLoading, this`isSuccess
      ensures !isLoading
      ensures isSuccess == (placed.Pass? || old(isSuccess))
    {
      if placed.Pass? {
        isSuccess := true;
      }
      isLoading := false;
    }

    /** The timer set after a successful bet: back to an empty form, and close. */
    method ResetAfterSuccess() returns (closes: bool)
      modifies this`isSuccess, this`selectedOption, this`amount
      ensures !isSuccess && selectedOption == None && amount == "" && closes
    {
      isSuccess := false;
      selectedOption := None;
      amount := "";
      closes := true;
    }

    /** `handleClose`: ignored while loading; otherwise the form is cleared
        and the dialog closes. */
    method Close() returns (closes: bool)
      modifies this`selectedOption, this`amount, this`isSuccess
      ensures closes == !isLoading
      ensures isLoading ==>
        selectedOption == old(selectedOption) && amount == old(amount) && isSuccess == old(isSuccess)
      ensures !isLoading ==> selectedOption == None && amount == "" && !isSuccess
    {
      closes := !isLoading;
      if !isLoading {
        selectedOption := None;
        amount := "";
        isSuccess := false;
      }
    }
  }
}
