/** The pure helpers of the client's API layer (app/src/lib/api.ts): the pool
    pricing quotes, the phone-number masker, and the mapping of a fetched
    market row to a `Market`. The HTTP calls themselves are not modelled. */
module Api {
  import opened Types
  import opened JsText

  // ---------------------------------------------------------------- pricing

  /** `calculateOdds`: the percentage of the pool staked on `option`, 50 when
      nothing is staked yet. */
  function CalculateOdds(poolA: real, poolB: real, option: Side): real {
    var totalPool := poolA + poolB;
    if totalPool == 0.0 then 50.0
    else (if option == A then poolA else poolB) / totalPool * 100.0
  }

  /** Cold start: with both pools empty each side shows 50. */
  lemma OddsColdStart(option: Side)
    ensures CalculateOdds(0.0, 0.0, option) == 50.0
  {
  }

  /** The two displayed percentages always add up to 100, and for pools that
      are not negative each lies in [0, 100]. */
  lemma OddsComplementary(poolA: real, poolB: real)
    ensures CalculateOdds(poolA, poolB, A) + CalculateOdds(poolA, poolB, B) == 100.0
    ensures poolA >= 0.0 && poolB >= 0.0 ==>
      0.0 <= CalculateOdds(poolA, poolB, A) <= 100.0 && 0.0 <= CalculateOdds(poolA, poolB, B) <= 100.0
  {
    var total := poolA + poolB;
    if total != 0.0 {
      assert poolA / total + poolB / total == 1.0;
      if poolA >= 0.0 && poolB >= 0.0 {
        assert poolA / total <= 1.0 && poolB / total <= 1.0;
      }
    }
  }

  /** The side with the larger pool shows the larger percentage. */
  lemma OddsFollowPools(poolA: real, poolB: real)
    requires poolA >= 0.0 && poolB >= 0.0
    ensures CalculateOdds(poolA, poolB, A) >= CalculateOdds(poolA, poolB, B) <==> poolA >= poolB
  {
    var total := poolA + poolB;
    if total != 0.0 {
      assert total > 0.0;
      assert poolA / total >= poolB / total <==> poolA >= poolB;
    }
  }

  /** `calculatePotentialReturn`: the pari-mutuel quote for staking
      `betAmount` on `option`, assuming no further stakes arrive and no fee;
      0 when the target pool plus the stake is 0. */
  function CalculatePotentialReturn(betAmount: real, poolA: real, poolB: real, option: Side): real {
    var totalPool := poolA + poolB;
    var targetPool := if option == A then poolA else poolB;
    if targetPool + betAmount == 0.0 then 0.0
    else betAmount * (totalPool + betAmount) / (targetPool + betAmount)
  }

  /** The other side's pool. */
  function OtherPool(poolA: real, poolB: real, option: Side): real {
    if option == A then poolB else poolA
  }

  /** Zero guard: no division by zero, the quote is 0. */
  lemma ReturnZeroGuard(betAmount: real, poolA: real, poolB: real, option: Side)
    requires (if option == A then poolA else poolB) + betAmount == 0.0
    ensures CalculatePotentialReturn(betAmount, poolA, poolB, option) == 0.0
  {
  }

  /** The quote is the stake back plus the stake's pro-rata share of the other
      pool once the stake has joined the target pool. */
  lemma ReturnIsProRataShare(betAmount: real, poolA: real, poolB: real, option: Side)
    requires (if option == A then poolA else poolB) + betAmount != 0.0
    ensures CalculatePotentialReturn(betAmount, poolA, poolB, option) ==
      betAmount + betAmount / ((if option == A then poolA else poolB) + betAmount) * OtherPool(poolA, poolB, option)
  {
    var target := if option == A then poolA else poolB;
    var other := OtherPool(poolA, poolB, option);
    assert poolA + poolB + betAmount == (target + betAmount) + other;
    calc {
      betAmount * ((target + betAmount) + other) / (target + betAmount);
      betAmount * (target + betAmount) / (target + betAmount) + betAmount * other / (target + betAmount);
      betAmount + betAmount / (target + betAmount) * other;
    }
  }

  /** Cold start: on two empty pools a positive stake is quoted back unchanged. */
  lemma ReturnColdStart(betAmount: real, option: Side)
    requires betAmount > 0.0
    ensures CalculatePotentialReturn(betAmount, 0.0, 0.0, option) == betAmount
  {
    ReturnIsProRataShare(betAmount, 0.0, 0.0, option);
  }

  /** For a positive stake on pools that are not negative, the quote is at
      least the stake and at most the stake plus the whole other pool. */
  lemma ReturnBounds(betAmount: real, poolA: real, poolB: real, option: Side)
    requires betAmount > 0.0 && poolA >= 0.0 && poolB >= 0.0
    ensures betAmount <= CalculatePotentialReturn(betAmount, poolA, poolB, option)
                      <= betAmount + OtherPool(poolA, poolB, option)
  {
    var target := if option == A then poolA else poolB;
    var other := OtherPool(poolA, poolB, option);
    ReturnIsProRataShare(betAmount, poolA, poolB, option);
    var d := target + betAmount;
    assert d >= betAmount > 0.0;
    var share := betAmount / d;
    assert share * d == betAmount;
    assert 0.0 < share <= 1.0;
    assert 0.0 <= share * other <= other;
    assert CalculatePotentialReturn(betAmount, poolA, poolB, option) == betAmount + share * other;
  }

  // ----------------------------------------------------------- phone masking

  /** `n` asterisks. */
  function Stars(n: nat): (r: string)
    ensures |r| == n && forall i :: 0 <= i < n ==> r[i] == '*'
  {
    seq(n, _ => '*')
  }

  /** `maskPhoneNumber`: inputs shorter than 8 characters are returned as
      they are; otherwise the first 6 characters, `max(3, length - 9)`
      asterisks and the last 3 characters. */
  function MaskPhoneNumber(phone: string): string {
    if |phone| < 8 then phone
    else
      var maskedLength := |phone| - 9;
      phone[..6] + Stars(if maskedLength > 3 then maskedLength else 3) + phone[|phone| - 3..]
  }

  /** Short (and empty) numbers pass through unchanged. */
  lemma MaskShortUnchanged(phone: string)
    requires |phone| < 8
    ensures MaskPhoneNumber(phone) == phone
  {
  }

  /** The masked number's length: 12 for inputs of 8 to 12 characters, the
      input's own length from 12 characters on. */
  lemma MaskLength(phone: string)
    requires |phone| >= 8
    ensures |MaskPhoneNumber(phone)| == if |phone| >= 12 then |phone| else 12
    ensures |MaskPhoneNumber(phone)| == |phone| <==> |phone| >= 12
  {
  }

  /** From 12 characters on, masking keeps the first 6 and last 3 characters
      in place and replaces every character between them by `*`. */
  lemma MaskHidesMiddle(phone: string, i: nat)
    requires |phone| >= 12 && i < |phone|
    ensures MaskPhoneNumber(phone)[i] == if 6 <= i < |phone| - 3 then '*' else phone[i]
  {
    var r := MaskPhoneNumber(phone);
    assert r == phone[..6] + Stars(|phone| - 9) + phone[|phone| - 3..];
    if i >= |phone| - 3 {
      assert r[i] == phone[|phone| - 3..][i - (|phone| - 3)];
    }
  }

  // ---------------------------------------------------------- market rows

  /** One row of `GET /api/markets`, as the server sends it. Pool and trader
      counts arrive as text; a missing end date or category is `None`. */
  datatype MarketRow = MarketRow(
    id: nat,
    title: string,
    optionA: string,
    optionB: string,
    optionAPool: string,
    optionBPool: string,
    endDate: Option<string>,
    isResolved: bool,
    category: Option<string>,
    tradersCount: string)

  /** The `rawMarkets.map(m => ...)` body of `getMarkets`; `now` stands for
      `new Date().toISOString()`. Unparsable pools count as 0, so the total
      volume is always the sum of the two pools, and the status is
      `resolved` exactly when the row is resolved. */
  function MarketFromRow(row: MarketRow, now: string): (m: Market)
    ensures VolumeConsistent(m)
    ensures m.status == Resolved <==> row.isResolved
    ensures m.status != Cancelled
  {
    var poolA := ParseFloat(row.optionAPool).GetOr(0.0);
    var poolB := ParseFloat(row.optionBPool).GetOr(0.0);
    Market(
      id := NatToString(row.id),
      title := row.title,
      optionA := row.optionA,
      optionB := row.optionB,
      poolA := poolA,
      poolB := poolB,
      totalVolume := poolA + poolB,
      endDate := OrElse(row.endDate, now),
      status := if row.isResolved then Resolved else Active,
      category := OrElse(row.category, "General"),
      winner := None,
      createdAt := None,
      traders := ParseIntAutoRadix(row.tradersCount).GetOr(0),
      winningOption := None)
  }

  /** `getMarkets` after the fetch: one market per row, in order, each with
      `totalVolume == poolA + poolB`. */
  function GetMarkets(rows: seq<MarketRow>, now: string): (ms: seq<Market>)
    ensures |ms| == |rows|
    ensures forall i :: 0 <= i < |ms| ==>
      VolumeConsistent(ms[i]) && (ms[i].status == Resolved <==> rows[i].isResolved) && ms[i].status != Cancelled
  {
    seq(|rows|, i requires 0 <= i < |rows| => MarketFromRow(rows[i], now))
  }

  /** A row's pools that are plain digit strings are read as their values. */
  lemma RowPoolsFromDigits(row: MarketRow, now: string)
    requires |row.optionAPool| > 0 && AllDigits(row.optionAPool)
    requires |row.optionBPool| > 0 && AllDigits(row.optionBPool)
    ensures MarketFromRow(row, now).poolA == DigitsValue(row.optionAPool) as real
    ensures MarketFromRow(row, now).poolB == DigitsValue(row.optionBPool) as real
  {
    ParseFloatDigits(row.optionAPool);
    ParseFloatDigits(row.optionBPool);
  }
}
