/** The admin console (app/src/pages/AdminPage.tsx): the create-market form,
    the table of active markets with its resolve dialog, and the gate that
    shows everyone but an admin the access-denied view. The server's replies
    (the market list, the create and resolve outcomes, the balance) are
    parameters. */
module AdminPage {
  import opened Types
  import opened Seqs
  import opened UserContext

  /** The category choices of the form. */
  const Categories: seq<string> := ["Sports", "Weather", "Campus Life", "Politics", "Entertainment", "Academic"]

  /** The create-market form. */
  datatype MarketForm = MarketForm(title: string, optionA: string, optionB: string, category: string, endDate: string)

  const EmptyForm: MarketForm := MarketForm("", "", "", "", "")

  /** Every field of the form is filled in. */
  predicate FormComplete(f: MarketForm) {
    f.title != "" && f.optionA != "" && f.optionB != "" && f.category != "" && f.endDate != ""
  }

  /** The form's fields, for the change handlers. */
  datatype Field = Title | OptionA | OptionB | Category | EndDate

  /** The form after `setFormData({...formData, <field>: value})`. */
  function WithField(f: MarketForm, field: Field, value: string): (g: MarketForm)
    ensures field == Title ==> g == f.(title := value)
    ensures field == OptionA ==> g == f.(optionA := value)
    ensures field == OptionB ==> g == f.(optionB := value)
    ensures field == Category ==> g == f.(category := value)
    ensures field == EndDate ==> g == f.(endDate := value)
  {
    match field
    case Title => f.(title := value)
    case OptionA => f.(optionA := value)
    case OptionB => f.(optionB := value)
    case Category => f.(category := value)
    case EndDate => f.(endDate := value)
  }

  predicate IsActive(m: Market) { m.status == Active }
  predicate IsResolved(m: Market) { m.status == Resolved }
  predicate IsCancelled(m: Market) { m.status == Cancelled }

  /** The `status === 'active'` filter. */
  function ActiveMarkets(markets: seq<Market>): seq<Market> {
    Filter(markets, IsActive)
  }

  /** The `status === 'resolved'` filter. */
  function ResolvedMarkets(markets: seq<Market>): seq<Market> {
    Filter(markets, IsResolved)
  }

  /** The markets neither table shows. */
  function CancelledMarkets(markets: seq<Market>): seq<Market> {
    Filter(markets, IsCancelled)
  }

  /** The two tables are disjoint, a cancelled market is in neither, and
      with the cancelled markets they account for every market exactly once. */
  lemma StatusFiltersPartition(markets: seq<Market>)
    ensures forall m :: m in ActiveMarkets(markets) ==> m !in ResolvedMarkets(markets)
    ensures forall m :: m in markets && m.status == Cancelled ==>
      m !in ActiveMarkets(markets) && m !in ResolvedMarkets(markets)
    ensures |ActiveMarkets(markets)| + |ResolvedMarkets(markets)| + |CancelledMarkets(markets)| == |markets|
    ensures multiset(ActiveMarkets(markets)) + multiset(ResolvedMarkets(markets)) + multiset(CancelledMarkets(markets))
         == multiset(markets)
  {
    var notActive := (m: Market) => !IsActive(m);
    FilterPartition(markets, IsActive, notActive);
    var notResolved := (m: Market) => !IsResolved(m);
    FilterPartition(Filter(markets, notActive), IsResolved, notResolved);
    FilterFilter(markets, notActive, IsResolved, IsResolved);
    FilterFilter(markets, notActive, notResolved, IsCancelled);
  }

  /** What the page shows. */
  datatype AdminView = AccessDenied | Console

  /** `if (!user?.isAdmin)`: only an admin gets the console. */
  function View(user: Option<User>): (v: AdminView)
    ensures v == Console <==> user.Some? && user.value.isAdmin
  {
    if user.Some? && user.value.isAdmin then Console else AccessDenied
  }

  /** The toast `fetchMarkets` raises: none when the list arrives, the load
      failure otherwise. */
  function ReloadToasts(fetched: Option<seq<Market>>): (ts: seq<Toast>)
    ensures fetched.Some? <==> ts == []
    ensures fetched.None? ==> ts == [ErrorToast("Failed to load markets from database")]
  {
    if fetched.Some? then [] else [ErrorToast("Failed to load markets from database")]
  }

  /** The body of the resolve request: the market and the winning option's text. */
  datatype ResolveRequest = ResolveRequest(marketId: string, winner: string)

  class AdminConsole {
    var markets: seq<Market>
    var isLoading: bool
    var isCreating: bool
    var isResolving: bool
    var selectedMarket: Option<Market>
    var resolveDialogOpen: bool
    var winner: Option<Side>
    var formData: MarketForm

    constructor ()
      ensures markets == [] && isLoading && !isCreating && !isResolving
      ensures selectedMarket == None && !resolveDialogOpen && winner == None && formData == EmptyForm
    {
      markets := [];
      isLoading := true;
      isCreating := false;
      isResolving := false;
      selectedMarket := None;
      resolveDialogOpen := false;
      winner := None;
      formData := EmptyForm;
    }

    /** `fetchMarkets`: a fetched list replaces the table; a failed fetch
        keeps it and raises a toast. Loading ends either way. */
    method FetchMarkets(fetched: Option<seq<Market>>) returns (toast: Toast)
      modifies this`markets, this`isLoading
      ensures markets == (if fetched.Some? then fetched.value else old(markets)) && !isLoading
      ensures toast == (if fetched.Some? then NoToast else ErrorToast("Failed to load markets from database"))
    {
      isLoading := true;
      if fetched.Some? {
        markets := fetched.value;
        toast := NoToast;
      } else {
        toast := ErrorToast("Failed to load markets from database");
      }
      isLoading := false;
    }

    /** A change in one of the form's controls. */
    method EditForm(field: Field, value: string)
      modifies this`formData
      ensures formData == WithField(old(formData), field, value)
    {
      formData := WithField(formData, field, value);
    }

    /** `handleCreateMarket` up to the await: an incomplete form only raises
        a toast; a complete one is sent and the form starts creating. */
    method StartCreate() returns (sent: Option<MarketForm>, toast: Toast)
      modifies this`isCreating
      ensures FormComplete(formData) ==> sent == Some(formData) && toast == NoToast && isCreating
      ensures !FormComplete(formData) ==>
        sent == None && toast == ErrorToast("Please fill in all fields") && isCreating == old(isCreating)
    {
      if !FormComplete(formData) {
        return None, ErrorToast("Please fill in all fields");
      }
      isCreating := true;
      sent := Some(formData);
      toast := NoToast;
    }

    /** The rest of `handleCreateMarket`: a created market raises the
        success toast, empties the form and reloads the table, whose failure
        adds the reload's own toast; a failed create keeps the form and the
        table. The toasts come in the order they are raised. */
    method SettleCreate(created: Outcome, fetched: Option<seq<Market>>) returns (toasts: seq<Toast>)
      modifies this`formData, this`markets, this`isLoading, this`isCreating
      ensures !isCreating
      ensures created.Pass? ==>
        formData == EmptyForm && !isLoading &&
        markets == (if fetched.Some? then fetched.value else old(markets)) &&
        toasts == [SuccessToast("Market created successfully!")] + ReloadToasts(fetched)
      ensures created.Fail? ==>
        formData == old(formData) && markets == old(markets) && isLoading == old(isLoading) &&
        toasts == [ErrorToast("Failed to create market")]
    {
      if created.Pass? {
        toasts := [SuccessToast("Market created successfully!")];
        formData := EmptyForm;
        var reload := FetchMarkets(fetched);
        if reload != NoToast {
          toasts := toasts + [reload];
        }
      } else {
        toasts := [ErrorToast("Failed to create market")];
      }
      isCreating := false;
    }

    /** A market's Resolve button: it is selected and the dialog opens. The
        winner picked for an earlier market is kept. */
    method OpenResolve(m: Market)
      modifies this`selectedMarket, this`resolveDialogOpen
      ensures selectedMarket == Some(m) && resolveDialogOpen
    {
      selectedMarket := Some(m);
      resolveDialogOpen := true;
    }

    /** One of the dialog's two option buttons. */
    method PickWinner(side: Side)
      modifies this`winner
      ensures winner == Some(side)
    {
      winner := Some(side);
    }

    /** The dialog's own open/close control. */
    method SetDialogOpen(open: bool)
      modifies this`resolveDialogOpen
      ensures resolveDialogOpen == open
    {
      resolveDialogOpen := open;
    }

    /** `handleResolve` up to the await: without a selected market and a
        winner nothing happens; otherwise the request names the winning
        option by its text (`optionA` for A, `optionB` for B). */
    method StartResolve() returns (sent: Option<ResolveRequest>)
      modifies this`isResolving
      ensures selectedMarket.None? || winner.None? ==> sent == None && isResolving == old(isResolving)
      ensures selectedMarket.Some? && winner.Some? ==>
        && isResolving
        && sent == Some(ResolveRequest(selectedMarket.value.id,
                                       if winner.value == A then selectedMarket.value.optionA else selectedMarket.value.optionB))
    {
      if selectedMarket.None? || winner.None? {
        return None;
      }
      isResolving := true;
      sent := Some(ResolveRequest(selectedMarket.value.id, OptionText(selectedMarket.value, winner.value)));
    }

    /** The rest of `handleResolve`, given the request `StartResolve` sent:
        a resolved market raises the success toast naming the option text
        that was sent (whatever option is picked meanwhile), closes the
        dialog, reloads the table (a failed reload adds its toast) and
        refreshes the admin's balance; a failure leaves the dialog, the table
        and the session as they were. */
    method SettleResolve(sent: ResolveRequest, resolved: Outcome, fetched: Option<seq<Market>>,
                         session: UserSession, balance: BalanceReply)
      returns (toasts: seq<Toast>)
      modifies this`resolveDialogOpen, this`markets, this`isLoading, this`isResolving, session
      ensures !isResolving
      ensures resolved.Pass? ==>
        !resolveDialogOpen && !isLoading &&
        markets == (if fetched.Some? then fetched.value else old(markets)) &&
        toasts == [SuccessToast("Market resolved! " + sent.winner + " wins! Payouts distributed.")] + ReloadToasts(fetched) &&
        session.isLoading == old(session.isLoading) &&
        session.user == AfterRefresh(old(session.user), old(session.stored), balance) &&
        session.stored == StoredAfterRefresh(old(session.user), old(session.stored), balance)
      ensures resolved.Fail? ==>
        resolveDialogOpen == old(resolveDialogOpen) && markets == old(markets) && isLoading == old(isLoading) &&
        toasts == [ErrorToast("Failed to resolve market")] &&
        session.user == old(session.user) && session.stored == old(session.stored) && session.isLoading == old(session.isLoading)
    {
      if resolved.Pass? {
        toasts := [SuccessToast("Market resolved! " + sent.winner + " wins! Payouts distributed.")];
        resolveDialogOpen := false;
        var reload := FetchMarkets(fetched);
        if reload != NoToast {
          toasts := toasts + [reload];
        }
        var _ := session.RefreshUser(balance);
      } else {
        toasts := [ErrorToast("Failed to resolve market")];
      }
      isResolving := false;
    }
  }
}
