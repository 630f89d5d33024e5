/** The top-level component (app/src/App.tsx): the list of markets shown on
    the markets page, the onboarding flag, and the handlers for signing in,
    finishing onboarding, depositing and placing a bet. A bet that the server
    accepts is reflected at once in the local pools. */
module AppShell {
  import opened Types
  import opened UserContext

  /** The market after a bet of `amount` on `option`: the chosen pool and the
      total volume grow by `amount`. */
  function BumpPools(m: Market, option: Side, amount: real): Market {
    m.(poolA := if option == A then m.poolA + amount else m.poolA,
       poolB := if option == B then m.poolB + amount else m.poolB,
       totalVolume := m.totalVolume + amount)
  }

  /** The `prev.map(...)` of `handlePlaceBet`: every market with the bet's id
      gets the bet added to its pools; the others are returned as they are. */
  function ApplyBet(markets: seq<Market>, marketId: string, option: Side, amount: real): (r: seq<Market>)
    ensures |r| == |markets|
  {
    if |markets| == 0 then []
    else
      [if markets[0].id == marketId then BumpPools(markets[0], option, amount) else markets[0]]
      + ApplyBet(markets[1..], marketId, option, amount)
  }

  /** Position by position: the bet's market has the chosen pool and the
      total volume raised by `amount`, the other pool and every other field
      unchanged; every other market is returned unchanged. */
  lemma {:induction false} ApplyBetAt(markets: seq<Market>, marketId: string, option: Side, amount: real, i: nat)
    requires i < |markets|
    ensures var was, now := markets[i], ApplyBet(markets, marketId, option, amount)[i];
      if was.id == marketId then
        && now.poolA == (if option == A then was.poolA + amount else was.poolA)
        && now.poolB == (if option == B then was.poolB + amount else was.poolB)
        && now.totalVolume == was.totalVolume + amount
        && now.(poolA := was.poolA, poolB := was.poolB, totalVolume := was.totalVolume) == was
      else now == was
  {
    if i > 0 {
      ApplyBetAt(markets[1..], marketId, option, amount, i - 1);
    }
  }

  /** The bet keeps `totalVolume == poolA + poolB` on every market that had it. */
  lemma ApplyBetKeepsVolume(markets: seq<Market>, marketId: string, option: Side, amount: real)
    requires forall i :: 0 <= i < |markets| ==> VolumeConsistent(markets[i])
    ensures var r := ApplyBet(markets, marketId, option, amount);
      forall i :: 0 <= i < |r| ==> VolumeConsistent(r[i])
  {
    var r := ApplyBet(markets, marketId, option, amount);
    forall i | 0 <= i < |r|
      ensures VolumeConsistent(r[i])
    {
      ApplyBetAt(markets, marketId, option, amount, i);
    }
  }

  /** The number of markets with id `marketId`. */
  function CountId(markets: seq<Market>, marketId: string): nat {
    if |markets| == 0 then 0
    else (if markets[0].id == marketId then 1 else 0) + CountId(markets[1..], marketId)
  }

  /** The summed volume of all markets. */
  function TotalVolume(markets: seq<Market>): real {
    if |markets| == 0 then 0.0 else markets[0].totalVolume + TotalVolume(markets[1..])
  }

  /** The volume of a list is its first market's plus the rest's. */
  lemma TotalVolumeCons(m: Market, rest: seq<Market>)
    ensures TotalVolume([m] + rest) == m.totalVolume + TotalVolume(rest)
  {
    assert ([m] + rest)[1..] == rest;
  }

  /** The update read from the list's first market. */
  lemma ApplyBetFront(markets: seq<Market>, marketId: string, option: Side, amount: real)
    requires |markets| > 0
    ensures var m, tail := markets[0], markets[1..];
      && TotalVolume(ApplyBet(markets, marketId, option, amount))
         == (if m.id == marketId then m.totalVolume + amount else m.totalVolume)
            + TotalVolume(ApplyBet(tail, marketId, option, amount))
      && TotalVolume(markets) == m.totalVolume + TotalVolume(tail)
  {
    var m, tail := markets[0], markets[1..];
    var head := if m.id == marketId then BumpPools(m, option, amount) else m;
    assert ApplyBet(markets, marketId, option, amount) == [head] + ApplyBet(tail, marketId, option, amount);
    TotalVolumeCons(head, ApplyBet(tail, marketId, option, amount));
  }

  /** A bet on an id no market carries leaves the summed volume as it was. */
  lemma {:induction false} ApplyBetUnknownId(markets: seq<Market>, marketId: string, option: Side, amount: real)
    requires CountId(markets, marketId) == 0
    ensures TotalVolume(ApplyBet(markets, marketId, option, amount)) == TotalVolume(markets)
  {
    if |markets| == 0 {
      assert ApplyBet(markets, marketId, option, amount) == [];
    } else {
      ApplyBetUnknownId(markets[1..], marketId, option, amount);
      ApplyBetFront(markets, marketId, option, amount);
    }
  }

  /** A bet on an id exactly one market carries adds `amount` to the summed
      volume of the list. */
  lemma {:induction false} ApplyBetUniqueId(markets: seq<Market>, marketId: string, option: Side, amount: real)
    requires CountId(markets, marketId) == 1
    ensures TotalVolume(ApplyBet(markets, marketId, option, amount)) == TotalVolume(markets) + amount
  {
    ApplyBetFront(markets, marketId, option, amount);
    if markets[0].id == marketId {
      ApplyBetUnknownId(markets[1..], marketId, option, amount);
    } else {
      ApplyBetUniqueId(markets[1..], marketId, option, amount);
    }
  }

  /** What a deposit request sends. */
  datatype DepositRequest = DepositRequest(email: string, amount: real, phoneNumber: string)

  /** The reply to the deposit request: the server's `success` flag with its
      message, or a request that failed with an error. */
  datatype DepositReply = DepositAnswered(success: bool, message: string) | DepositFailed(error: string)

  /** What a bet request sends. */
  datatype BetRequest = BetRequest(email: string, marketId: string, option: Side, amount: real)

  class App {
    var markets: seq<Market>
    var showOnboarding: bool

    constructor ()
      ensures markets == [] && !showOnboarding
    {
      markets := [];
      showOnboarding := false;
    }

    /** One run of the market poll: it runs only for an authenticated user
        past onboarding, and a failed fetch keeps the markets shown. */
    method LoadMarkets(session: UserSession, fetched: Option<seq<Market>>)
      modifies this`markets
      ensures markets == (if session.IsAuthenticated() && !showOnboarding && fetched.Some? then fetched.value else old(markets))
    {
      if session.IsAuthenticated() && !showOnboarding && fetched.Some? {
        markets := fetched.value;
      }
    }

    /** `handleSignIn`: a new user is sent to onboarding; a returning user
        leaves the flag as it was. */
    method HandleSignIn(isNewUser: bool)
      modifies this`showOnboarding
      ensures showOnboarding == (isNewUser || old(showOnboarding))
    {
      if isNewUser {
        showOnboarding := true;
      }
    }

    /** `handleOnboardingComplete`. */
    method HandleOnboardingComplete()
      modifies this`showOnboarding
      ensures !showOnboarding
    {
      showOnboarding := false;
    }

    /** `handleDeposit`: without a user nothing is sent; a successful deposit
        refreshes the balance, anything else rethrows. */
    method HandleDeposit(session: UserSession, phoneNumber: string, amount: real, reply: DepositReply, balance: BalanceReply)
      returns (o: Outcome, sent: Option<DepositRequest>)
      modifies session
      ensures old(session.user).None? ==>
        o == Pass && sent == None && session.user == old(session.user) && session.stored == old(session.stored)
      ensures old(session.user).Some? ==>
        sent == Some(DepositRequest(old(session.user).value.email, amount, phoneNumber))
      ensures old(session.user).Some? ==>
        match reply
        case DepositAnswered(success, message) => o == (if success then Pass else Fail(message))
        case DepositFailed(error) => o == Fail(error)
      ensures o.Fail? ==> session.user == old(session.user) && session.stored == old(session.stored)
      ensures session.isLoading == old(session.isLoading)
      ensures old(session.user).Some? ==>
        session.user.Some? && session.user.value.(balance := 0.0) == old(session.user).value.(balance := 0.0)
      ensures o.Pass? ==>
        session.user == AfterRefresh(old(session.user), old(session.stored), balance) &&
        session.stored == StoredAfterRefresh(old(session.user), old(session.stored), balance)
    {
      if session.user.None? {
        return Pass, None;
      }
      sent := Some(DepositRequest(session.user.value.email, amount, phoneNumber));
      match reply {
        case DepositAnswered(success, message) =>
          if success {
            var _ := session.RefreshUser(balance);
            o := Pass;
          } else {
            o := Fail(message);
          }
        case DepositFailed(error) =>
          o := Fail(error);
      }
    }

    /** `handlePlaceBet`: without a user it does nothing; when the server
        rejects the bet the markets are untouched and the error is rethrown;
        when it accepts, the bet is applied to the local pools and the
        balance is refreshed (only the user's balance may change). */
    method HandlePlaceBet(session: UserSession, marketId: string, option: Side, amount: real, placed: Outcome, balance: BalanceReply)
      returns (o: Outcome, sent: Option<BetRequest>)
      modifies this`markets, session
      ensures old(session.user).None? ==>
        o == Pass && sent == None && markets == old(markets) &&
        session.user == old(session.user) && session.stored == old(session.stored)
      ensures old(session.user).Some? ==>
        sent == Some(BetRequest(old(session.user).value.email, marketId, option, amount)) && o == placed
      ensures old(session.user).Some? && placed.Fail? ==>
        markets == old(markets) && session.user == old(session.user) && session.stored == old(session.stored)
      ensures old(session.user).Some? && placed.Pass? ==>
        markets == ApplyBet(old(markets), marketId, option, amount) &&
        session.user.Some? && session.user.value.(balance := 0.0) == old(session.user).value.(balance := 0.0) &&
        session.user == AfterRefresh(old(session.user), old(session.stored), balance) &&
        session.stored == StoredAfterRefresh(old(session.user), old(session.stored), balance)
      ensures session.isLoading == old(session.isLoading)
    {
      if session.user.None? {
        return Pass, None;
      }
      sent := Some(BetRequest(session.user.value.email, marketId, option, amount));
      if placed.Fail? {
        return placed, sent;
      }
      markets := ApplyBet(markets, marketId, option, amount);
      var _ := session.RefreshUser(balance);
      o := Pass;
    }
  }
}
