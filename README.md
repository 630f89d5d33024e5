# UniStake client logic in Dafny

UniStake's web client fronts a two-outcome, pool-based prediction market.
Users stake Kenyan shillings on option A or option B of a market. The client
quotes odds and returns from the two pools. It keeps a session of no user, a
pending user or a signed-in user. It has a deposit drawer for M-Pesa, a
dialog for listing markets, an admin console, an onboarding form, and
profile, markets and leaderboard pages. Settlement and payouts happen on the
server and are not part of this client.

This project models that client logic and proves what it promises:

- the pricing quotes and their bounds;
- the optimistic pool update after a bet, which keeps
  `totalVolume == poolA + poolB`;
- the guards of every form and handler, including their error paths and
  toasts;
- the normalisers of the phone and amount fields;
- the partitions and statistics of the profile page;
- the tab list of the markets page;
- the ranks of the leaderboard;
- the transitions of the session.

Layout: one module per source file, plus three shared modules.

- `Types` holds the records of `app/src/types/index.ts` and small wrappers:
  `Option` stands for null/undefined/NaN, `Outcome` for return-or-throw,
  `Toast` for the toast a handler raises.
- `Seqs` holds a generic `Filter` and its partition lemmas.
- `JsText` models the JavaScript text functions the client uses:
  `parseFloat`, `parseInt` with and without a radix, `toLowerCase` on ASCII, `startsWith`, removing
  non-digits, and `toString` of a natural number.

How the code is modelled:

- Component state that handlers update becomes a class whose methods
  update its fields.
- An async handler that other handlers observe through a loading flag is
  split at its `await`:
  - a `Start`/`Submit` method runs the guards and returns the request;
  - a `Settle` method takes the server's outcome as a parameter.
- Server replies are always parameters; nothing is fetched.
- Money is `real`.
- `Math.round` is integer round-half-up.

## Model

| member | source | states |
|---|---|---|
| Api.OddsColdStart | app/src/lib/api.ts:129-131 | with both pools empty either side is priced at 50 |
| Api.CalculateOdds | app/src/lib/api.ts:129-134 | `calculateOdds`; its properties are stated by OddsColdStart, OddsComplementary and OddsFollowPools |
| Api.OddsComplementary | app/src/lib/api.ts:129-134 | the two percentages add up to 100, and for pools that are not negative each lies in [0, 100] |
| Api.OddsFollowPools | app/src/lib/api.ts:129-134 | for pools that are not negative, side A shows at least B's percentage exactly when A's pool is at least B's |
| Api.ReturnZeroGuard | app/src/lib/api.ts:152 | the quote is 0 when the target pool plus the stake is 0 |
| Api.ReturnIsProRataShare | app/src/lib/api.ts:149-155 | otherwise the quote is the stake plus the stake's share of the target pool (stake included) times the other pool |
| Api.ReturnColdStart | app/src/lib/api.ts:149-155 | on two empty pools a positive stake is quoted back unchanged |
| Api.ReturnBounds | app/src/lib/api.ts:154-155 | for a positive stake and pools that are not negative: stake <= quote <= stake + other pool |
| Api.CalculatePotentialReturn | app/src/lib/api.ts:143-155 | `calculatePotentialReturn`; its properties are stated by ReturnZeroGuard, ReturnIsProRataShare, ReturnColdStart and ReturnBounds |
| Api.Stars | app/src/lib/api.ts:125 | `'*'.repeat(n)` has n characters, each an asterisk |
| Api.MaskPhoneNumber | app/src/lib/api.ts:120-127 | `maskPhoneNumber`; its properties are stated by MaskShortUnchanged, MaskLength and MaskHidesMiddle |
| Api.MaskShortUnchanged | app/src/lib/api.ts:121 | a number shorter than 8 characters (the empty one included) is returned unchanged |
| Api.MaskLength | app/src/lib/api.ts:122-126 | a masked number has 12 characters for inputs of 8 to 12 characters and the input's own length from 12 on; same length exactly when the input has at least 12 |
| Api.MaskHidesMiddle | app/src/lib/api.ts:122-126 | from 12 characters on, the first 6 and last 3 characters stay in place and every character between them becomes `*` |
| Api.MarketFromRow | app/src/lib/api.ts:37-49 | a mapped row has `totalVolume == poolA + poolB`, status `resolved` exactly when the row is resolved, and is never `cancelled`; the traders count is read by ParseIntAutoRadix |
| Api.GetMarkets | app/src/lib/api.ts:34-50 | one market per row, in row order, each with the properties of MarketFromRow |
| Api.RowPoolsFromDigits | app/src/lib/api.ts:42-43 | pools sent as digit strings are read as their decimal values |
| AppShell.ApplyBet | app/src/App.tsx:102-112 | the pool update keeps the list's length |
| AppShell.ApplyBetAt | app/src/App.tsx:102-112 | position by position: the bet's market gains `amount` on the chosen pool and on the total volume, with the other pool and every other field unchanged; every other market is unchanged |
| AppShell.ApplyBetKeepsVolume | app/src/App.tsx:102-112 | the update keeps `totalVolume == poolA + poolB` on every market, the invariant set up by app/src/lib/api.ts:42-44 |
| AppShell.ApplyBetUnknownId | app/src/App.tsx:102-112 | a bet on an id no market carries leaves the summed volume of the list unchanged |
| AppShell.ApplyBetUniqueId | app/src/App.tsx:102-112 | a bet on an id exactly one market carries adds exactly `amount` to the summed volume of the list |
| AppShell.App.constructor | app/src/App.tsx:28 | no markets and no onboarding at first |
| AppShell.App.LoadMarkets | app/src/App.tsx:32-51 | a poll replaces the markets only for an authenticated user past onboarding, and only when the fetch succeeds |
| AppShell.App.HandleSignIn | app/src/App.tsx:54-58 | onboarding is switched on for a new user, and otherwise left as it was |
| AppShell.App.HandleOnboardingComplete | app/src/App.tsx:61-66 | onboarding is switched off |
| AppShell.App.HandleDeposit | app/src/App.tsx:69-91 | without a user nothing is sent or changed; otherwise the deposit is sent with the user's e-mail; a `success` reply refreshes the balance, leaving the user as AfterRefresh and the stored copy as StoredAfterRefresh of the balance reply, while a failed reply rethrows its message and changes nothing |
| AppShell.App.HandlePlaceBet | app/src/App.tsx:95-126 | without a user nothing is sent or changed; a rejected bet leaves the markets and the session untouched and rethrows; an accepted bet applies ApplyBet to the markets and refreshes the balance, leaving the user as AfterRefresh and the stored copy as StoredAfterRefresh of the balance reply |
| BettingModal.DisplayedOddsSum | app/src/components/BettingModal.tsx:36-37 | both chances are 50 without a market; they always add up to 100, and lie in [0, 100] for pools that are not negative |
| BettingModal.PotentialReturn | app/src/components/BettingModal.tsx:40-47 | the `potentialReturn` memo; its cases are stated by PotentialReturnCases |
| BettingModal.SubmitDisabled | app/src/components/BettingModal.tsx:263-269 | the submit button's `disabled` expression; BettingDialog.Submit states that an enabled button always sends something |
| BettingModal.PotentialReturnCases | app/src/components/BettingModal.tsx:40-47 | the quote is 0 with no side, no amount, no market, or an amount that is NaN or not positive; otherwise it is `calculatePotentialReturn`, at least the stake for pools that are not negative |
| BettingModal.QuickAmountWithinBalance | app/src/components/BettingModal.tsx:220-225 | a quick amount whose button is enabled parses back to itself, is positive, and for a signed-in user is within the balance |
| BettingModal.BettingDialog.constructor | app/src/components/BettingModal.tsx:30-33 | no side, an empty amount, not loading, no success view |
| BettingModal.BettingDialog.SelectOption | app/src/components/BettingModal.tsx:30 | the clicked side becomes the selected one |
| BettingModal.BettingDialog.ChangeAmount | app/src/components/BettingModal.tsx:31 | the typed text becomes the amount |
| BettingModal.BettingDialog.PickQuickAmount | app/src/components/BettingModal.tsx:224 | the amount becomes the quick amount's digits, which parse back to it |
| BettingModal.BettingDialog.Submit | app/src/components/BettingModal.tsx:49-68 | nothing without a market, side or amount; a guest's bet is forwarded with no balance check; a signed-in bet above the balance is dropped and no state changes; otherwise the bet is placed and loading starts; whenever the submit button is enabled, something is sent |
| BettingModal.BettingDialog.SettleGuest | app/src/components/BettingModal.tsx:57-59 | the dialog closes exactly when the forwarded bet resolves |
| BettingModal.BettingDialog.SettleBet | app/src/components/BettingModal.tsx:67-82 | an accepted bet turns on the success view; loading ends either way |
| BettingModal.BettingDialog.ResetAfterSuccess | app/src/components/BettingModal.tsx:72-77 | the timer clears the success view, the side and the amount, and closes the dialog |
| BettingModal.BettingDialog.Close | app/src/components/BettingModal.tsx:85-92 | ignored while loading; otherwise side, amount and success view are cleared and the dialog closes |
| DepositDrawer.StripCountryCodeIsLongestMatch | app/src/components/DepositDrawer.tsx:60 | `replace(/^\+?254?/, '')` removes the longest prefix the pattern matches and leaves the rest intact |
| DepositDrawer.StripCountryCode | app/src/components/DepositDrawer.tsx:60 | `replace(/^\+?254?/, '')`; its meaning is stated by StripCountryCodeIsLongestMatch |
| DepositDrawer.NormalisePhone | app/src/components/DepositDrawer.tsx:56-64 | every normalised phone is `+254` followed by digits only |
| DepositDrawer.NormalisePhoneIdempotent | app/src/components/DepositDrawer.tsx:62 | a value that is already `+254` followed by digits is stored unchanged |
| DepositDrawer.NormaliseTwice | app/src/components/DepositDrawer.tsx:56-64 | normalising twice is normalising once |
| DepositDrawer.NormaliseForeignValue | app/src/components/DepositDrawer.tsx:59-60 | a value not starting with `+254` becomes `+254` followed by the digits left after the longest country-code match is cut off |
| DepositDrawer.FilterAmount | app/src/components/DepositDrawer.tsx:67-87 | an empty input clears the amount; an input longer than 6 characters or an integer above 150000 is refused and the old amount kept; anything else is stored as typed |
| DepositDrawer.AmountAcceptable | app/src/components/DepositDrawer.tsx:76-84 | what the amount field may hold; FilterAmountKeepsAcceptable and QuickAmountsAcceptable state that it always does |
| DepositDrawer.FilterAmountKeepsAcceptable | app/src/components/DepositDrawer.tsx:67-87 | the field never holds a refused value |
| DepositDrawer.QuickAmountsAcceptable | app/src/components/DepositDrawer.tsx:165-169 | every quick amount is an acceptable value of the field and parses back to itself |
| DepositDrawer.AllowedIsEnabled | app/src/components/DepositDrawer.tsx:181 | when not loading, whatever the handler accepts has its button enabled; an enabled button differs from the handler's guard only on an amount that is not a number |
| DepositDrawer.DepositAllowed | app/src/components/DepositDrawer.tsx:30-33 | the guard of `handleSubmit`; Drawer.Submit states that the deposit is sent exactly when it holds, and AllowedIsEnabled relates it to the button |
| DepositDrawer.SubmitDisabled | app/src/components/DepositDrawer.tsx:181 | the submit button's `disabled` expression; its relation to the guard is stated by AllowedIsEnabled |
| DepositDrawer.SmallAmountLeftToBrowser | app/src/components/DepositDrawer.tsx:30-33 | an amount of 5, below the input's `min`, passes the handler's guard |
| DepositDrawer.ExponentAmountLeftToBrowser | app/src/components/DepositDrawer.tsx:67-87 | `2e5` passes the amount filter, which reads it as 2, and the handler's guard, which reads it as 200000, above the cap of 150000 |
| DepositDrawer.InitialPhone | app/src/components/DepositDrawer.tsx:23 | the user's phone when set, otherwise `+254` |
| DepositDrawer.Drawer.constructor | app/src/components/DepositDrawer.tsx:23-26 | the initial phone, an empty amount, not loading, no success view |
| DepositDrawer.Drawer.ChangePhone | app/src/components/DepositDrawer.tsx:56-65 | the stored phone is the normalised input, `+254` followed by digits |
| DepositDrawer.Drawer.ChangeAmount | app/src/components/DepositDrawer.tsx:67-87 | the amount follows FilterAmount and stays acceptable |
| DepositDrawer.Drawer.PickQuickAmount | app/src/components/DepositDrawer.tsx:165-169 | the amount becomes the quick amount's digits and stays acceptable |
| DepositDrawer.Drawer.Submit | app/src/components/DepositDrawer.tsx:28-39 | the deposit is handed over, and loading starts, exactly when the phone has at least 10 characters and the amount parses to a positive number; otherwise nothing changes |
| DepositDrawer.Drawer.Settle | app/src/components/DepositDrawer.tsx:39-53 | a completed deposit turns on the success view; loading ends either way |
| DepositDrawer.Drawer.ResetAfterSuccess | app/src/components/DepositDrawer.tsx:43-48 | the timer puts the fields back to their initial values and closes the drawer |
| CreateMarketModal.ListingDialog.constructor | app/src/components/CreateMarketModal.tsx:18-23 | empty texts, category `Campus`, duration 7 days, not loading |
| CreateMarketModal.ListingDialog.ChangeTitle | app/src/components/CreateMarketModal.tsx:86-88 | a title is taken only when the form is unlocked (balance >= 200 and not loading) and it has at most 100 characters |
| CreateMarketModal.ListingDialog.ChangeOption | app/src/components/CreateMarketModal.tsx:96-106 | an option text is taken only when the form is unlocked and it has at most 25 characters; the other option is unchanged |
| CreateMarketModal.ListingDialog.Choose | app/src/components/CreateMarketModal.tsx:114-135 | category and duration change only when the form is unlocked, and only to one of the offered choices |
| CreateMarketModal.ListingDialog.Submit | app/src/components/CreateMarketModal.tsx:28-42 | nothing with a balance below 200; a toast when the title or an option is empty; otherwise the draft is handed over and loading starts; a draft is only ever handed over with a balance of at least 200 |
| CreateMarketModal.ListingDialog.Settle | app/src/components/CreateMarketModal.tsx:42-52 | a listed market clears title and options, keeps category and duration, and closes the dialog; a failure keeps every field and shows the error's message or `Failed to create market` |
| CreateMarketModal.ListingDialog.RequestClose | app/src/components/CreateMarketModal.tsx:56 | the dialog closes only when not loading |
| AdminPage.WithField | app/src/pages/AdminPage.tsx:113-120 | editing a form field changes that field and no other |
| AdminPage.StatusFiltersPartition | app/src/pages/AdminPage.tsx:89-90 | the active and resolved tables are disjoint, a cancelled market is in neither, and with the cancelled markets they hold every market exactly once |
| AdminPage.View | app/src/pages/AdminPage.tsx:92-101 | the console shows exactly for an admin; everyone else gets the access-denied view |
| AdminPage.ReloadToasts | app/src/pages/AdminPage.tsx:33-43 | `fetchMarkets` raises no toast when the list arrives and exactly `Failed to load markets from database` when it does not |
| AdminPage.AdminConsole.constructor | app/src/pages/AdminPage.tsx:20-27 | no markets, loading, nothing selected, dialog closed, no winner, empty form |
| AdminPage.AdminConsole.FetchMarkets | app/src/pages/AdminPage.tsx:33-43 | a fetched list replaces the table; a failure keeps it and raises `Failed to load markets from database`; loading ends either way |
| AdminPage.AdminConsole.EditForm | app/src/pages/AdminPage.tsx:113-120 | the form changes as WithField says |
| AdminPage.AdminConsole.StartCreate | app/src/pages/AdminPage.tsx:45-53 | creation is attempted only when all five fields are filled in; otherwise `Please fill in all fields` and nothing changes |
| AdminPage.AdminConsole.SettleCreate | app/src/pages/AdminPage.tsx:53-61 | a created market raises `Market created successfully!`, empties the form and reloads the table, and a failed reload adds `Failed to load markets from database` after it; a failure keeps form and table and raises only `Failed to create market`; creating ends either way |
| AdminPage.AdminConsole.OpenResolve | app/src/pages/AdminPage.tsx:141 | the market is selected and the dialog opens |
| AdminPage.AdminConsole.PickWinner | app/src/pages/AdminPage.tsx:159-160 | the clicked side becomes the winner |
| AdminPage.AdminConsole.SetDialogOpen | app/src/pages/AdminPage.tsx:154 | the dialog follows its open/close control |
| AdminPage.AdminConsole.StartResolve | app/src/pages/AdminPage.tsx:64-71 | nothing without a selected market and a winner; otherwise the request carries the market's id and `optionA` for A or `optionB` for B |
| AdminPage.AdminConsole.SettleResolve | app/src/pages/AdminPage.tsx:68-86 | success raises the toast naming the option text that was sent (whatever is picked while the request is pending), closes the dialog, reloads the table (a failed reload adds `Failed to load markets from database`) and sets the admin's user to AfterRefresh and the stored copy to StoredAfterRefresh of the balance reply; a failure raises `Failed to resolve market` and changes neither the dialog, the table nor the session |
| OnboardingPage.TestWordPatternMeaning | app/src/pages/OnboardingPage.tsx:21 | `/^[a-zA-Z0-9_]+$/` matches exactly the non-empty strings of letters, digits and `_` |
| OnboardingPage.NicknameRule | app/src/pages/OnboardingPage.tsx:21 | a nickname is valid exactly when it has 3 to 20 characters, each a letter, a digit or `_` |
| OnboardingPage.IsValidNickname | app/src/pages/OnboardingPage.tsx:21 | `isValidNickname`; its meaning is stated by NicknameRule and Boundaries |
| OnboardingPage.IsValidPhone | app/src/pages/OnboardingPage.tsx:22 | `isValidPhone`; its boundary is stated by Boundaries |
| OnboardingPage.Boundaries | app/src/pages/OnboardingPage.tsx:21-22 | nicknames of 2 or 21 characters fail; 3 or 20 word characters pass; `+254` with 8 more characters passes and with 7 fails |
| OnboardingPage.HandleSubmit | app/src/pages/OnboardingPage.tsx:24-31 | the update is sent exactly when nickname and phone are both valid; otherwise the matching toast, the nickname's first |
| OnboardingPage.ButtonMatchesGate | app/src/pages/OnboardingPage.tsx:85 | when not loading, the button is enabled exactly when the handler would send the update |
| OnboardingPage.AfterUpdate | app/src/pages/OnboardingPage.tsx:31-35 | onboarding completes exactly when the update succeeds, with the welcome toast; a failure gives `Failed to setup account` |
| ProfilePage.ActivePastPartition | app/src/pages/ProfilePage.tsx:30-31 | every bet is in exactly one of the active and past lists |
| ProfilePage.Label | app/src/pages/ProfilePage.tsx:180-181 | `A` names option A, `B` names option B, any other text is shown as it is |
| ProfilePage.WinnerMeaning | app/src/pages/ProfilePage.tsx:34-40 | a bet wins exactly when it is resolved with a non-empty winning option equal to the chosen option or to the chosen letter's option text; an unresolved bet or one without a winning option never wins |
| ProfilePage.IsBetWinner | app/src/pages/ProfilePage.tsx:34-40 | `isBetWinner`; its meaning is stated by WinnerMeaning |
| ProfilePage.WonLostDisjoint | app/src/pages/ProfilePage.tsx:43-44 | won and lost bets are disjoint past bets, so won + lost <= past |
| ProfilePage.WinRateIsRoundedPercentage | app/src/pages/ProfilePage.tsx:46 | the win rate is `100 * won / past` rounded to the nearest integer, halves up; it lies in [0, 100] and is 0 with no past bets |
| ProfilePage.WinRate | app/src/pages/ProfilePage.tsx:46 | `winRate`; its meaning is stated by WinRateIsRoundedPercentage |
| ProfilePage.ProfitIsSignedSum | app/src/pages/ProfilePage.tsx:49-51 | the profit, won stakes minus lost stakes, is the sum over past bets of each won stake counted positively and each lost stake negatively |
| ProfilePage.Profit | app/src/pages/ProfilePage.tsx:49-51 | `profit`; its meaning is stated by ProfitIsSignedSum |
| ProfilePage.ProfileStats | app/src/pages/ProfilePage.tsx:27-51 | nothing without a user; otherwise the partition, won + lost <= past, a win rate in [0, 100] that is 0 with no past bets, and the profit as a signed sum |
| MarketsPage.ActiveMarketsOnlyMeaning | app/src/pages/MarketsPage.tsx:25 | the active list holds exactly the active markets, and filtering it again changes nothing |
| MarketsPage.ActiveMarketsOnly | app/src/pages/MarketsPage.tsx:25 | `activeMarketsOnly`; its meaning is stated by ActiveMarketsOnlyMeaning |
| MarketsPage.FilteredMarketsMeaning | app/src/pages/MarketsPage.tsx:28-30 | tab `all` shows every active market; another tab shows, in order, the active markets whose category matches it ignoring case, never more than the active list |
| MarketsPage.FilteredMarkets | app/src/pages/MarketsPage.tsx:28-30 | `filteredMarkets`; its meaning is stated by FilteredMarketsMeaning |
| MarketsPage.CategoryNames | app/src/pages/MarketsPage.tsx:31 | one lower-cased category per market, in order |
| MarketsPage.Distinct | app/src/pages/MarketsPage.tsx:31 | `Array.from(new Set(s))` holds the same values as `s`, each once |
| MarketsPage.DistinctKeepsFirstOrder | app/src/pages/MarketsPage.tsx:31 | the distinct values come in the order of their first occurrences |
| MarketsPage.CategoriesMeaning | app/src/pages/MarketsPage.tsx:31 | the tabs are `all` and then every lower-cased category of the whole list exactly once, in first-occurrence order |
| MarketsPage.Categories | app/src/pages/MarketsPage.tsx:31 | `categories`; its meaning is stated by CategoriesMeaning |
| MarketsPage.ResolvedOnlyCategoryIsEmpty | app/src/pages/MarketsPage.tsx:25-31 | a category found only on inactive markets still gets a tab, and that tab lists nothing |
| MarketsPage.ModalBalance | app/src/pages/MarketsPage.tsx:90 | the bet dialog gets 0 without a user and the user's balance otherwise |
| LeaderboardPage.AssignRanks | app/src/pages/LeaderboardPage.tsx:30-33 | entry i gets rank i + 1 and keeps every other field |
| LeaderboardPage.RanksAreOneToN | app/src/pages/LeaderboardPage.tsx:30-33 | the ranks are 1 to n in list order, strictly increasing, and ranking a ranked list changes nothing |
| LeaderboardPage.TopThree | app/src/pages/LeaderboardPage.tsx:79 | the first three entries, or all of them when there are fewer |
| LeaderboardPage.PodiumMeaning | app/src/pages/LeaderboardPage.tsx:97 | the podium shows exactly with at least three entries, and then holds ranks 1, 2 and 3 |
| LeaderboardPage.FindIndex | app/src/pages/LeaderboardPage.tsx:81 | the first entry with the e-mail, or -1 when there is none |
| LeaderboardPage.CurrentUserRank | app/src/pages/LeaderboardPage.tsx:80-82 | null without a user; otherwise 1 + the first matching index, which is 0 when the user is absent |
| LeaderboardPage.RankBadgeMeaning | app/src/pages/LeaderboardPage.tsx:169 | the badge shows exactly for a signed-in user on the board, and shows the rank of the user's row |
| LeaderboardPage.GetRankStyle | app/src/pages/LeaderboardPage.tsx:42-77 | ranks 1, 2 and 3 each get their own style; every other rank gets the default |
| LeaderboardPage.RowStylesOfRankedBoard | app/src/pages/LeaderboardPage.tsx:181 | on a ranked board the first three rows get gold, silver and bronze, each once, and every other row the default |
| LeaderboardPage.FooterMeaning | app/src/pages/LeaderboardPage.tsx:255-257 | the "climb the ranks" footer shows exactly for a signed-in user ranked below 10th; visitors and users not on the board get the praise |
| LeaderboardPage.FooterMessage | app/src/pages/LeaderboardPage.tsx:255-257 | the footer's text; its meaning is stated by FooterMeaning |
| UserContext.EmailLocalPart | app/src/contexts/UserContext.tsx:30 | `email.split('@')[0]` is the prefix of the e-mail before its first `@`, or all of it |
| UserContext.FormatUser | app/src/contexts/UserContext.tsx:23-31 | e-mail and admin flag are copied; a parsable balance is copied and an unparsable one is 0; a non-empty name, nickname or phone is copied and a missing or empty one becomes the e-mail's local part or empty; the id is the record's id written out, or the clock's when missing, so the user is authenticated |
| UserContext.PendingUser | app/src/contexts/UserContext.tsx:71-73 | the placeholder has id `pending`, balance 0, no admin flag, empty nickname and phone, and is not authenticated |
| UserContext.FreshBalance | app/src/contexts/UserContext.tsx:185-187 | a reply with `balance_kes` gives its parsed value, or 0 when it is not a number; a reply without one gives nothing |
| UserContext.AfterRefresh | app/src/contexts/UserContext.tsx:176-193 | the user gets the reply's balance, and nothing else changes, exactly when a user is signed in, a stored user with an e-mail was looked up and the reply carries a balance |
| UserContext.StoredAfterRefresh | app/src/contexts/UserContext.tsx:189-194 | the stored copy becomes the refreshed user exactly when the balance is replaced, and is untouched otherwise |
| UserContext.UserSession.constructor | app/src/contexts/UserContext.tsx:34-35 | no user, loading, with the browser's stored copy as found |
| UserContext.UserSession.Restore | app/src/contexts/UserContext.tsx:37-48 | a stored user becomes the session's user; loading ends |
| UserContext.UserSession.Login | app/src/contexts/UserContext.tsx:51-83 | a refusal throws the server's message or `Authentication failed` and changes nothing; a reply with a record signs in and stores FormatUser's user; a new-user reply installs the pending user; loading ends either way |
| UserContext.UserSession.RegisterWithEmail | app/src/contexts/UserContext.tsx:86-110 | a refusal throws `Registration failed` or the server's message; a new-user reply installs the pending user; nothing is stored |
| UserContext.UserSession.LoginWithEmail | app/src/contexts/UserContext.tsx:113-143 | like Login, passing the server's new-user flag on, and throwing `Invalid response from server` when the reply has neither a record nor a new user |
| UserContext.UserSession.UpdateNickname | app/src/contexts/UserContext.tsx:145-162 | without a user it fails with `No user session` and sends nothing; otherwise it sends the e-mail, nickname and phone and installs the returned record |
| UserContext.UserSession.UpdateBalance | app/src/contexts/UserContext.tsx:164-172 | without a user nothing happens; NaN keeps the old balance; only the balance changes, and the stored copy follows |
| UserContext.UserSession.RefreshUser | app/src/contexts/UserContext.tsx:174-199 | the balance is looked up by the stored user's e-mail (nothing happens without one); an unparsable balance becomes 0; only the balance changes; the new user is AfterRefresh and the new stored copy StoredAfterRefresh of the old state and the reply |
| UserContext.UserSession.Logout | app/src/contexts/UserContext.tsx:201-204 | no user and nothing stored, so nobody is authenticated |
| JsText.NatToString | app/src/components/DepositDrawer.tsx:169 | `n.toString()` is a non-empty digit string whose value is n |
| JsText.ParseNatToString | app/src/components/BettingModal.tsx:224 | `parseInt` and `parseFloat` read `n.toString()` back as n |
| JsText.ParseInt | app/src/components/DepositDrawer.tsx:80 | `parseInt(s, 10)`; ParseNatToString and ExponentAmountLeftToBrowser state what it reads |
| JsText.ParseFloat | app/src/components/DepositDrawer.tsx:30 | `parseFloat(s)`; ParseNatToString and ExponentAmountLeftToBrowser state what it reads |
| JsText.ParseIntAutoRadix | app/src/lib/api.ts:48 | `parseInt(s)` without a radix agrees with `parseInt(s, 10)` unless the text after the sign starts with `0x` or `0X` |
| JsText.HexTextWithoutRadix | app/src/lib/api.ts:48 | `0x` followed by hexadecimal digits is read in base 16 when no radix is given |
| JsText.HexTextWithRadix10 | app/src/lib/api.ts:48 | with radix 10 the same text reads 0 |
| JsText.KeepDigitsIsFilter | app/src/components/DepositDrawer.tsx:60 | `replace(/\D/g, '')` keeps exactly the digits, in order |
| JsText.ToLower | app/src/pages/MarketsPage.tsx:30 | `toLowerCase` maps each letter A to Z to its lower case and keeps every other character |

## Left out

- Network I/O: the HTTP calls (`getMarkets`, `placeBet`, `deposit`, `createMarket`, `resolveMarket`, `getLeaderboard`, the `fetch` calls of the session and the profile page) are not modelled; their replies are method parameters.
- Settlement, payouts, fees and leaderboard ordering happen on the server; the client only sends the winning option's text.
- Local storage is the `stored` field of the session; JSON parsing and serialising of the stored user are not modelled, so an unparsable stored value cannot occur.
- Timers: the 5-second market poll is one call of `LoadMarkets` per tick; the success-view timeouts of the bet dialog and the deposit drawer are the `ResetAfterSuccess` methods, run when the timer fires.
- Dates: `new Date().toISOString()` in `getMarkets` is the parameter `now`, `Date.now()` in `formatUser` is `nowMillis`, and the listing dialog's end date is carried as its `daysOpen` choice instead of the computed date.
- Floating point: money and pools are exact reals, so rounding in IEEE-754 arithmetic and `Infinity` are not modelled; `parseFloat` reads digits, one decimal point and an optional exponent, and does not read `Infinity`.
- Text: `toLowerCase` is modelled for ASCII letters only; other letters keep their case.
- Text lengths: strings are sequences of Unicode scalar values, while JavaScript counts UTF-16 code units, so a character outside the Basic Multilingual Plane counts once here and twice in the browser; this affects `maxLength`, the nickname and phone length checks, the phone guard of the deposit drawer and `maskPhoneNumber`.
- DepositDrawer.Drawer.Submit: the browser's constraint validation of the amount input (`min="10"`, `max="150000"`, step 1) runs before `handleSubmit` and is not modelled, so the model sends amounts such as 5 or `2e5` that the page blocks (SmallAmountLeftToBrowser, ExponentAmountLeftToBrowser).
- BettingModal.BettingDialog.Submit: the browser's constraint validation of the amount input (`min="10"`, and `max` set to the balance for a signed-in user) runs before `handleSubmit` and is not modelled, so the model places bets below 10 that the page blocks.
- UserContext.FormatUser: the record's id is modelled as a number, as the server sends it; a string id would be copied as it is (an empty one falling back to the clock), and a string id of `pending` would not give an authenticated user.
- Presentation: JSX layout, icons, colours, formatting of amounts, the capitalised nickname initial and the unused suggested nicknames of the onboarding page.
- Toasts outside the modelled handlers (the welcome toast of `handleOnboardingComplete`, the success and failure toasts of `handleDeposit` and `handlePlaceBet`, the leaderboard's load failure) are not modelled.
- The admin page calls `createMarket(formData)` while the function takes `(email, data)`: `data` is then `undefined`, so reading `data.title` throws before any request is sent, and every create from the admin page ends in `Failed to create market`. The model takes the create outcome as a parameter and sends the form, so the success branch of AdminPage.AdminConsole.SettleCreate describes the evidently intended call, which the code as written never reaches.
- The markets page's selected-market and tab state, and the leaderboard's and profile page's fetch and loading state, are not modelled; those pages are modelled through what they derive from their data.
- CreateMarketModal.ListingDialog.ChangeTitle: `maxLength` is modelled as refusing a longer text, whereas the browser truncates a longer paste.
- CreateMarketModal.ListingDialog.ChangeOption: `maxLength` is modelled as refusing a longer text, whereas the browser truncates a longer paste.
- ProfilePage.ProfitIsSignedSum: stakes are exact reals; `parseFloat` of an unparsable `amount_kes` (NaN, which would make the profit NaN) is not modelled.
- ProfilePage.WinRate: rounds the exact percentage, while the page rounds the floating-point product `won / past * 100`, which can fall just below a half; with 23 won out of 40 past bets the page computes 57.49999999999999 and shows 57, where the model gives 58 (29 out of 200 likewise shows 14, not 15).
- ProfilePage.WonLostDisjoint: a winning option that is `undefined` rather than `null` is not distinguished; both are `None`, so the model never counts such a bet as lost, while the source's `!== null` test would.
