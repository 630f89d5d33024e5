/** The user-facing "list a market" dialog
    (app/src/components/CreateMarketModal.tsx): listing costs 200, the form
    is locked for a balance below that, a draft is handed over only with a
    title and both options, and a listed market clears the text fields but
    keeps the category and duration. The listing request belongs to the
    parent; its outcome is a parameter. */
module CreateMarketModal {
  import opened Types

  /** `LISTING_FEE`. */
  const ListingFee: real := 200.0

  /** The category choices, the first being the initial one. */
  const Categories: seq<string> := ["Campus", "Sports", "Politics", "Crypto", "Culture"]

  /** The duration choices in days, as the select's values. */
  const Durations: seq<string> := ["1", "3", "7", "30"]

  const MaxTitleLength: nat := 100
  const MaxOptionLength: nat := 25

  /** `hasEnoughFunds`. */
  predicate HasEnoughFunds(userBalance: real) {
    userBalance >= ListingFee
  }

  /** Every form control carries `disabled={!hasEnoughFunds || isLoading}`. */
  predicate FormLocked(userBalance: real, isLoading: bool) {
    !HasEnoughFunds(userBalance) || isLoading
  }

  /** What the dialog hands to its parent. The end date is the current date
      plus `daysOpen` days. */
  datatype MarketDraft = MarketDraft(title: string, optionA: string, optionB: string, category: string, daysOpen: string)

  class ListingDialog {
    var title: string
    var optionA: string
    var optionB: string
    var category: string
    var daysOpen: string
    var isLoading: bool

    /** The fields hold what their controls allow. */
    predicate Valid()
      reads this
    {
      && |title| <= MaxTitleLength
      && |optionA| <= MaxOptionLength
      && |optionB| <= MaxOptionLength
      && category in Categories
      && daysOpen in Durations
    }

    constructor ()
      ensures title == "" && optionA == "" && optionB == ""
      ensures category == "Campus" && daysOpen == "7" && !isLoading
      ensures Valid()
    {
      title := "";
      optionA := "";
      optionB := "";
      category := "Campus";
      daysOpen := "7";
      isLoading := false;
    }

    /** Typing a title: ignored while the form is locked or beyond 100 characters. */
    method ChangeTitle(text: string, userBalance: real)
      requires Valid()
      modifies this`title
      ensures title == (if FormLocked(userBalance, isLoading) || |text| > MaxTitleLength then old(title) else text)
      ensures Valid()
    {
      if !FormLocked(userBalance, isLoading) && |text| <= MaxTitleLength {
        title := text;
      }
    }

    /** Typing an option: ignored while the form is locked or beyond 25 characters. */
    method ChangeOption(side: Side, text: string, userBalance: real)
      requires Valid()
      modifies this`optionA, this`optionB
      ensures var accepted := !FormLocked(userBalance, isLoading) && |text| <= MaxOptionLength;
        && optionA == (if accepted && side == A then text else old(optionA))
        && optionB == (if accepted && side == B then text else old(optionB))
      ensures Valid()
    {
      if !FormLocked(userBalance, isLoading) && |text| <= MaxOptionLength {
        if side == A {
          optionA := text;
        } else {
          optionB := text;
        }
      }
    }

    /** Picking a category or a duration from the two selects. */
    method Choose(newCategory: string, newDaysOpen: string, userBalance: real)
      requires Valid() && newCategory in Categories && newDaysOpen in Durations
      modifies this`category, this`daysOpen
      ensures FormLocked(userBalance, isLoading) ==> category == old(category) && daysOpen == old(daysOpen)
      ensures !FormLocked(userBalance, isLoading) ==> category == newCategory && daysOpen == newDaysOpen
      ensures Valid()
    {
      if !FormLocked(userBalance, isLoading) {
        category := newCategory;
        daysOpen := newDaysOpen;
      }
    }

    /** `handleSubmit` up to the await: nothing below the fee, a toast for a
        missing title or option, and otherwise the draft is handed over and
        the dialog starts loading. */
    method Submit(userBalance: real) returns (draft: Option<MarketDraft>, toast: Toast)
      modifies this`isLoading
      ensures !HasEnoughFunds(userBalance) ==> draft == None && toast == NoToast && isLoading == old(isLoading)
      ensures HasEnoughFunds(userBalance) && (title == "" || optionA == "" || optionB == "") ==>
        draft == None && toast == ErrorToast("Please fill in all market details") && isLoading == old(isLoading)
      ensures HasEnoughFunds(userBalance) && title != "" && optionA != "" && optionB != "" ==>
        draft == Some(MarketDraft(title, optionA, optionB, category, daysOpen)) && toast == NoToast && isLoading
      ensures draft.Some? ==> userBalance >= ListingFee
    {
      if !HasEnoughFunds(userBalance) {
        return None, NoToast;
      }
      if title == "" || optionA == "" || optionB == "" {
        return None, ErrorToast("Please fill in all market details");
      }
      isLoading := true;
      draft := Some(MarketDraft(title, optionA, optionB, category, daysOpen));
      toast := NoToast;
    }

    /** The rest of `handleSubmit`: a listed market clears the title and the
        options (category and duration stay) and closes the dialog; a failure
        keeps every field and reports the error's message. Loading ends
        either way. */
    method Settle(listed: Outcome) returns (closes: bool, toast: Toast)
      requires Valid()
      modifies this`title, this`optionA, this`optionB, this`isLoading
      ensures !isLoading && closes == listed.Pass? && Valid()
      ensures listed.Pass? ==>
        title == "" && optionA == "" && optionB == "" && toast == SuccessToast("Market successfully listed!")
      ensures listed.Fail? ==>
        title == old(title) && optionA == old(optionA) && optionB == old(optionB) &&
        toast == ErrorToast(if listed.message != "" then listed.message else "Failed to create market")
    {
      match listed {
        case Pass =>
          title := "";
          optionA := "";
          optionB := "";
          closes, toast := true, SuccessToast("Market successfully listed!");
        case Fail(message) =>
          closes, toast := false, ErrorToast(if message != "" then message else "Failed to create market");
      }
      isLoading := false;
    }

    /** The dialog's close request is honoured only when not loading. */
    method RequestClose() returns (closes: bool)
      ensures closes == !isLoading
    {
      closes := !isLoading;
    }
  }
}
