/** The statistics of the profile page (app/src/pages/ProfilePage.tsx): the
    user's bets split into active and past, the winner test that accepts a
    winning option stored either as a letter or as the option's text, the won
    and lost lists, the rounded win rate and the profit. */
module ProfilePage {
  import opened Types
  import opened Seqs

  /** One row of `GET /api/bets` for the user. `winningOption` is `None` for
      `null`; `amountKes` is the stake as a number. */
  datatype BetRow = BetRow(
    title: string,
    optionA: string,
    optionB: string,
    chosenOption: string,
    winningOption: Option<string>,
    amountKes: real,
    isResolved: bool)

  predicate IsActiveBet(b: BetRow) { !b.isResolved }
  predicate IsPastBet(b: BetRow) { b.isResolved }

  /** `activeBets`. */
  function ActiveBets(bets: seq<BetRow>): seq<BetRow> {
    Filter(bets, IsActiveBet)
  }

  /** `pastBets`. */
  function PastBets(bets: seq<BetRow>): seq<BetRow> {
    Filter(bets, IsPastBet)
  }

  /** Every bet is active or past, never both. */
  lemma ActivePastPartition(bets: seq<BetRow>)
    ensures |ActiveBets(bets)| + |PastBets(bets)| == |bets|
    ensures multiset(ActiveBets(bets)) + multiset(PastBets(bets)) == multiset(bets)
    ensures forall b :: b in ActiveBets(bets) ==> b !in PastBets(bets)
  {
    FilterPartition(bets, IsActiveBet, IsPastBet);
  }

  /** The label shown for a stored choice: the letters `A` and `B` name the
      market's options, any other text is shown as it is. */
  function Label(b: BetRow, choice: string): (shown: string)
    ensures choice == "A" ==> shown == b.optionA
    ensures choice == "B" ==> shown == b.optionB
    ensures choice != "A" && choice != "B" ==> shown == choice
  {
    if choice == "A" then b.optionA else if choice == "B" then b.optionB else choice
  }

  /** `isBetWinner`. */
  predicate IsBetWinner(b: BetRow) {
    if !b.isResolved || b.winningOption.None? || b.winningOption.value == "" then false
    else if b.chosenOption == b.winningOption.value then true
    else Label(b, b.chosenOption) == b.winningOption.value
  }

  /** A bet wins exactly when it is resolved with a non-empty winning option
      that is the chosen option, stored either as the same text or as the
      text of the chosen letter's option. An unresolved bet, or one without a
      winning option, never wins. */
  lemma WinnerMeaning(b: BetRow)
    ensures !b.isResolved || b.winningOption.None? ==> !IsBetWinner(b)
    ensures IsBetWinner(b) <==>
      && b.isResolved && b.winningOption.Some? && b.winningOption.value != ""
      && (b.winningOption.value == b.chosenOption
          || (b.chosenOption == "A" && b.winningOption.value == b.optionA)
          || (b.chosenOption == "B" && b.winningOption.value == b.optionB))
  {
  }

  /** `lostBets`' test: not a winner, and a winning option is set (even an
      empty one). */
  predicate IsBetLoser(b: BetRow) {
    !IsBetWinner(b) && b.winningOption.Some?
  }

  /** `wonBets`. */
  function WonBets(bets: seq<BetRow>): seq<BetRow> {
    Filter(PastBets(bets), IsBetWinner)
  }

  /** `lostBets`. */
  function LostBets(bets: seq<BetRow>): seq<BetRow> {
    Filter(PastBets(bets), IsBetLoser)
  }

  /** Won and lost bets are disjoint, both are past bets, and together they
      are no more than the past bets. */
  lemma WonLostDisjoint(bets: seq<BetRow>)
    ensures forall b :: b in WonBets(bets) ==> b !in LostBets(bets)
    ensures forall b :: b in WonBets(bets) ==> b in PastBets(bets)
    ensures forall b :: b in LostBets(bets) ==> b in PastBets(bets)
    ensures |WonBets(bets)| + |LostBets(bets)| <= |PastBets(bets)|
  {
    var past := PastBets(bets);
    var notWinner := (b: BetRow) => !IsBetWinner(b);
    FilterPartition(past, IsBetWinner, notWinner);
    FilterMonotone(past, IsBetLoser, notWinner);
  }

  /** `Math.round(won / past * 100)`, or 0 with no past bets; rounding is
      half up, done on integers. */
  function WinRate(won: nat, past: nat): int {
    if past > 0 then (200 * won + past) / (2 * past) else 0
  }

  /** The win rate is the percentage rounded to the nearest integer (halves
      up): it lies within half a point of `100 * won / past`, below on a tie.
      With no more wins than past bets it lies in [0, 100]; with no past
      bets it is 0. */
  lemma WinRateIsRoundedPercentage(won: nat, past: nat)
    ensures past > 0 ==>
      var r := WinRate(won, past);
      r as real - 0.5 <= (100 * won) as real / past as real < r as real + 0.5
    ensures won <= past ==> 0 <= WinRate(won, past) <= 100
    ensures past == 0 ==> WinRate(won, past) == 0
  {
    if past == 0 {
      return;
    }
    var r := WinRate(won, past);
    var n, d := 200 * won + past, 2 * past;
    assert n == d * r + n % d && 0 <= n % d < d;
    HalfPointBounds(r, 100 * won, past);
    if won <= past {
      assert 2 * past * r <= 201 * past;
      IntCancel(past, 2 * r, 201);
      assert 0 <= 200 * won + past < 2 * past * r + 2 * past;
      IntCancel(past, -2, 2 * r);
    }
  }

  /** Cancelling a positive factor keeps an integer inequality. */
  lemma IntCancel(p: int, a: int, b: int)
    requires p > 0 && p * a <= p * b
    ensures a <= b
  {
    assert p * b - p * a == p * (b - a);
  }

  /** Cancelling a positive factor keeps a real inequality. */
  lemma RealCancel(k: real, a: real, b: real)
    requires k > 0.0
    ensures a * k <= b * k ==> a <= b
    ensures a * k < b * k ==> a < b
  {
    assert b * k - a * k == (b - a) * k;
  }

  /** From `2pr <= 2v + p < 2pr + 2p` on integers: `v / p` lies within half a
      point of `r`, below on a tie. */
  lemma HalfPointBounds(r: int, v: int, p: int)
    requires p > 0 && 2 * p * r <= 2 * v + p < 2 * p * r + 2 * p
    ensures r as real - 0.5 <= v as real / p as real < r as real + 0.5
  {
    var pr, rp := p as real, r as real;
    assert (2 * p * r) as real == 2.0 * pr * rp;
    assert (rp - 0.5) * pr <= v as real < (rp + 0.5) * pr;
    var q := v as real / pr;
    assert q * pr == v as real;
    RealCancel(pr, rp - 0.5, q);
    RealCancel(pr, q, rp + 0.5);
  }

  /** Sum of the stakes of `bets` (`reduce((sum, bet) => sum + amount, 0)`). */
  function Stakes(bets: seq<BetRow>): real {
    if |bets| == 0 then 0.0 else Stakes(bets[..|bets| - 1]) + bets[|bets| - 1].amountKes
  }

  /** `profit`: stakes won minus stakes lost. */
  function Profit(bets: seq<BetRow>): real {
    Stakes(WonBets(bets)) - Stakes(LostBets(bets))
  }

  /** A bet's contribution to the profit: its stake if won, minus its stake
      if lost, nothing if it is unresolved or resolved without a verdict. */
  function SignedStake(b: BetRow): real {
    if IsBetWinner(b) then b.amountKes else if IsBetLoser(b) then -b.amountKes else 0.0
  }

  /** The signed stakes of `bets`, front to back. */
  function SignedStakes(bets: seq<BetRow>): real {
    if |bets| == 0 then 0.0 else SignedStake(bets[0]) + SignedStakes(bets[1..])
  }

  /** The stake sum read front to back. */
  lemma {:induction false} StakesFront(bets: seq<BetRow>)
    requires |bets| > 0
    ensures Stakes(bets) == bets[0].amountKes + Stakes(bets[1..])
  {
    if |bets| > 1 {
      StakesFront(bets[..|bets| - 1]);
      assert bets[..|bets| - 1][1..] == bets[1..][..|bets| - 2];
    }
  }

  /** Over any list, the won stakes minus the lost stakes is the sum of the
      signed stakes. */
  lemma {:induction false} SplitStakes(bets: seq<BetRow>)
    ensures Stakes(Filter(bets, IsBetWinner)) - Stakes(Filter(bets, IsBetLoser)) == SignedStakes(bets)
  {
    if |bets| > 0 {
      SplitStakes(bets[1..]);
      var b := bets[0];
      if IsBetWinner(b) {
        StakesFront(Filter(bets, IsBetWinner));
      } else if IsBetLoser(b) {
        StakesFront(Filter(bets, IsBetLoser));
      }
    }
  }

  /** The profit is the sum, over the past bets, of each won stake counted
      positively and each lost stake negatively. */
  lemma ProfitIsSignedSum(bets: seq<BetRow>)
    ensures Profit(bets) == SignedStakes(PastBets(bets))
  {
    SplitStakes(PastBets(bets));
  }

  /** The page's statistics. */
  datatype Stats = Stats(
    active: seq<BetRow>,
    past: seq<BetRow>,
    won: seq<BetRow>,
    lost: seq<BetRow>,
    winRate: int,
    profit: real)

  /** Everything the page derives from the bets; `None` without a user, when
      the page renders nothing. */
  function ProfileStats(user: Option<User>, bets: seq<BetRow>): (s: Option<Stats>)
    ensures user.None? <==> s.None?
    ensures s.Some? ==>
      && |s.value.won| + |s.value.lost| <= |s.value.past|
      && |s.value.active| + |s.value.past| == |bets|
      && 0 <= s.value.winRate <= 100
      && (|s.value.past| == 0 ==> s.value.winRate == 0)
      && s.value.profit == SignedStakes(s.value.past)
  {
    if user.None? then None
    else
      ActivePastPartition(bets);
      WonLostDisjoint(bets);
      ProfitIsSignedSum(bets);
      WinRateIsRoundedPercentage(|WonBets(bets)|, |PastBets(bets)|);
      Some(Stats(
        active := ActiveBets(bets),
        past := PastBets(bets),
        won := WonBets(bets),
        lost := LostBets(bets),
        winRate := WinRate(|WonBets(bets)|, |PastBets(bets)|),
        profit := Profit(bets)))
  }
}
