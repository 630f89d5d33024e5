/** The leaderboard page (app/src/pages/LeaderboardPage.tsx): the server's
    order is kept and each entry is ranked by its position, the podium shows
    the first three, the signed-in user's rank is found by e-mail, and the
    row styles and footer follow from the ranks. How the server orders the
    entries is not part of this page. */
module LeaderboardPage {
  import opened Types

  /** `realLeaderboard.map((user, index) => ({...user, rank: index + 1}))`. */
  function AssignRanks(users: seq<LeaderboardUser>): (ranked: seq<LeaderboardUser>)
    ensures |ranked| == |users|
    ensures forall i :: 0 <= i < |users| ==>
      ranked[i].rank == Some(i + 1) && ranked[i].(rank := users[i].rank) == users[i]
  {
    seq(|users|, i requires 0 <= i < |users| => users[i].(rank := Some(i + 1)))
  }

  /** The ranks are exactly 1 to n, each once, in list order; ranking an
      already ranked list changes nothing. */
  lemma RanksAreOneToN(users: seq<LeaderboardUser>)
    ensures var ranked := AssignRanks(users);
      && (forall k :: 1 <= k <= |users| ==> ranked[k - 1].rank == Some(k))
      && (forall i, j :: 0 <= i < j < |ranked| ==> ranked[i].rank.value < ranked[j].rank.value)
      && AssignRanks(ranked) == ranked
  {
    var ranked := AssignRanks(users);
    var again := AssignRanks(ranked);
    assert |again| == |ranked|;
    forall i | 0 <= i < |ranked|
      ensures again[i] == ranked[i]
    {
      assert again[i] == ranked[i].(rank := Some(i + 1));
    }
  }

  /** `users.slice(0, 3)`. */
  function TopThree(users: seq<LeaderboardUser>): (top: seq<LeaderboardUser>)
    ensures |top| == if |users| < 3 then |users| else 3
    ensures top == users[..|top|]
  {
    if |users| < 3 then users else users[..3]
  }

  /** `topThree.length >= 3`. */
  predicate ShowPodium(users: seq<LeaderboardUser>) {
    |TopThree(users)| >= 3
  }

  /** The podium shows exactly when there are at least three entries, and
      then holds the entries ranked 1, 2 and 3. */
  lemma PodiumMeaning(users: seq<LeaderboardUser>)
    ensures ShowPodium(users) <==> |users| >= 3
    ensures ShowPodium(AssignRanks(users)) ==>
      var top := TopThree(AssignRanks(users));
      top[0].rank == Some(1) && top[1].rank == Some(2) && top[2].rank == Some(3)
  {
  }

  /** `users.findIndex(u => u.email === email)`: the first matching position,
      or -1. */
  function FindIndex(users: seq<LeaderboardUser>, email: string): (i: int)
    ensures -1 <= i < |users|
    ensures i >= 0 ==> users[i].email == email && forall j :: 0 <= j < i ==> users[j].email != email
    ensures i == -1 ==> forall j :: 0 <= j < |users| ==> users[j].email != email
  {
    if |users| == 0 then -1
    else if users[0].email == email then 0
    else
      var k := FindIndex(users[1..], email);
      if k == -1 then -1 else k + 1
  }

  /** `currentUserRank`: `None` (null) without a signed-in user, otherwise
      one more than the user's first position, which is 0 when absent. */
  function CurrentUserRank(current: Option<User>, users: seq<LeaderboardUser>): (r: Option<int>)
    ensures current.None? <==> r.None?
    ensures r.Some? ==> 0 <= r.value <= |users|
    ensures r.Some? && r.value == 0 ==>
      forall j :: 0 <= j < |users| ==> users[j].email != current.value.email
    ensures r.Some? && r.value > 0 ==>
      && users[r.value - 1].email == current.value.email
      && forall j :: 0 <= j < r.value - 1 ==> users[j].email != current.value.email
  {
    if current.None? then None else Some(FindIndex(users, current.value.email) + 1)
  }

  /** The "Your Rank" badge: `currentUserRank && currentUserRank > 0`. */
  predicate ShowRankBadge(rank: Option<int>) {
    rank.Some? && rank.value != 0 && rank.value > 0
  }

  /** The badge shows exactly when a signed-in user is on the board, and its
      number is the rank the board gives the user's row. */
  lemma RankBadgeMeaning(current: Option<User>, users: seq<LeaderboardUser>)
    ensures var r := CurrentUserRank(current, users);
      ShowRankBadge(r) <==>
        current.Some? && exists j :: 0 <= j < |users| && users[j].email == current.value.email
    ensures var r := CurrentUserRank(current, users);
      ShowRankBadge(r) ==> AssignRanks(users)[r.value - 1].rank == Some(r.value)
  {
    var r := CurrentUserRank(current, users);
    if current.Some? && r.value > 0 {
      assert users[r.value - 1].email == current.value.email;
    }
  }

  /** The footer's text. */
  const ClimbMessage: string := "Keep analyzing markets to climb the ranks!"
  const TopMessage: string := "You're among the top analysts!"

  /** `currentUserRank && currentUserRank > 10 ? ... : ...`. */
  function FooterMessage(rank: Option<int>): string {
    if rank.Some? && rank.value != 0 && rank.value > 10 then ClimbMessage else TopMessage
  }

  /** The footer urges climbing exactly for a signed-in user ranked below
      10th; a user not on the board, and a visitor, get the praise. */
  lemma FooterMeaning(current: Option<User>, users: seq<LeaderboardUser>)
    ensures FooterMessage(CurrentUserRank(current, users)) == ClimbMessage <==>
      current.Some? && CurrentUserRank(current, users).value > 10
    ensures current.None? ==> FooterMessage(CurrentUserRank(current, users)) == TopMessage
    ensures current.Some? && FindIndex(users, current.value.email) == -1 ==>
      FooterMessage(CurrentUserRank(current, users)) == TopMessage
  {
  }

  /** The four looks of `getRankStyle`. */
  datatype RankStyle = Gold | Silver | Bronze | Plain

  /** Ranks 1, 2 and 3 each get their own look; every other rank the plain one. */
  function GetRankStyle(rank: int): (style: RankStyle)
    ensures style == Gold <==> rank == 1
    ensures style == Silver <==> rank == 2
    ensures style == Bronze <==> rank == 3
    ensures style == Plain <==> rank != 1 && rank != 2 && rank != 3
  {
    if rank == 1 then Gold
    else if rank == 2 then Silver
    else if rank == 3 then Bronze
    else Plain
  }

  /** A row's style: `getRankStyle(user.rank || index + 1)`. */
  function RowStyle(user: LeaderboardUser, index: nat): RankStyle {
    GetRankStyle(if user.rank.Some? && user.rank.value != 0 then user.rank.value else index + 1)
  }

  /** On a ranked board the first three rows get the gold, silver and
      bronze looks, each used by exactly one row, and every other row the
      plain one. */
  lemma RowStylesOfRankedBoard(users: seq<LeaderboardUser>)
    ensures var ranked := AssignRanks(users);
      forall i :: 0 <= i < |ranked| ==>
        && (RowStyle(ranked[i], i) == Gold <==> i == 0)
        && (RowStyle(ranked[i], i) == Silver <==> i == 1)
        && (RowStyle(ranked[i], i) == Bronze <==> i == 2)
        && (RowStyle(ranked[i], i) == Plain <==> i >= 3)
  {
  }
}
