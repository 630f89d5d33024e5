/** The records the web client passes around (app/src/types/index.ts), and the
    small wrappers the model uses for JavaScript's null/undefined/NaN and for
    a handler that either returns or throws. */
module Types {

  /** A value that may be absent: `null`, `undefined`, or a NaN from parsing. */
  datatype Option<+T> = None | Some(value: T) {
    function GetOr(default: T): T {
      match this
      case Some(v) => v
      case None => default
    }
  }

  /** `x || fallback` on an optional string: an absent or empty value falls back. */
  function OrElse(x: Option<string>, fallback: string): string {
    match x
    case Some(v) => if v != "" then v else fallback
    case None => fallback
  }

  /** How an async handler ends: it returns, or it throws with a message. */
  datatype Outcome = Pass | Fail(message: string)

  /** A toast a handler raises, if any. */
  datatype Toast = NoToast | ErrorToast(message: string) | SuccessToast(message: string)

  /** The two outcomes of a market (`'A' | 'B'`). */
  datatype Side = A | B

  /** `Market.status`. */
  datatype MarketStatus = Active | Resolved | Cancelled

  /** `Market`: one binary market as the client holds it. */
  datatype Market = Market(
    id: string,
    title: string,
    optionA: string,
    optionB: string,
    poolA: real,
    poolB: real,
    totalVolume: real,
    endDate: string,
    status: MarketStatus,
    category: string,
    winner: Option<Side>,
    createdAt: Option<string>,
    traders: int,
    winningOption: Option<string>)

  /** The invariant `getMarkets` sets up and the optimistic bet update keeps. */
  predicate VolumeConsistent(m: Market) {
    m.totalVolume == m.poolA + m.poolB
  }

  /** `User`: the signed-in (or pending) account. */
  datatype User = User(
    id: string,
    email: string,
    phoneNumber: string,
    name: string,
    nickname: string,
    balance: real,
    isAdmin: bool)

  /** `LeaderboardUser`: one row of the leaderboard, as the server sends it. */
  datatype LeaderboardUser = LeaderboardUser(
    id: string,
    name: string,
    nickname: string,
    email: string,
    phoneNumber: string,
    balance: real,
    totalBets: int,
    winRate: int,
    wonBets: int,
    rank: Option<int>)

  /** The option text of a market for a side. */
  function OptionText(m: Market, side: Side): string {
    match side
    case A => m.optionA
    case B => m.optionB
  }
}
