/**
 * The eco-points leaderboard: entries kept in descending order of points
 * and ranked by position. Updating a user's statistics re-sorts the whole
 * board and renumbers every rank.
 */
module Leaderboard {
  import opened Common
  import opened Sequences

  datatype LeaderboardEntry = LeaderboardEntry(
    userId: string,
    userName: string,
    ecoPoints: int,
    totalCarbonSaved: real,
    productsPurchased: int,
    rank: int)

  /** The board shown before any update has been saved. */
  const InitialLeaderboard: seq<LeaderboardEntry> := [
    LeaderboardEntry("1", "Eco Warrior", 1250, 45.2, 23, 1),
    LeaderboardEntry("2", "Green Thumb", 980, 38.7, 18, 2),
    LeaderboardEntry("3", "Nature Lover", 750, 29.4, 15, 3),
    LeaderboardEntry("4", "Sustainable Shopper", 620, 24.1, 12, 4),
    LeaderboardEntry("5", "Eco Explorer", 480, 19.8, 10, 5)
  ]

  function UserIdOf(e: LeaderboardEntry): string {
    e.userId
  }

  /** An entry with its rank blanked out: what the sort moves around. */
  function Unranked(e: LeaderboardEntry): LeaderboardEntry {
    e.(rank := 0)
  }

  /**
   * The comparator `(a, b) => b.ecoPoints - a.ecoPoints`: `a` may stay
   * before `b` when the difference is not positive.
   */
  function MorePoints(a: LeaderboardEntry, b: LeaderboardEntry): bool {
    b.ecoPoints - a.ecoPoints <= 0
  }

  lemma MorePointsIsTotalPreorder()
    ensures TotalPreorder(MorePoints)
  {
  }

  /** Ranks count positions from 1, and points never increase down the board. */
  predicate WellRanked(board: seq<LeaderboardEntry>) {
    && (forall i :: 0 <= i < |board| ==> board[i].rank == i + 1)
    && SortedBy(board, MorePoints)
  }

  /** The map step: the user's entry takes the new statistics, the others stay. */
  function Restated(userId: string, ecoPoints: int, carbonSaved: real, productsPurchased: int)
    : LeaderboardEntry -> LeaderboardEntry
  {
    (e: LeaderboardEntry) =>
      if e.userId == userId
      then e.(ecoPoints := ecoPoints, totalCarbonSaved := carbonSaved, productsPurchased := productsPurchased)
      else e
  }

  /** The rank step: every entry numbered by its position. */
  function Renumbered(board: seq<LeaderboardEntry>): (r: seq<LeaderboardEntry>)
    ensures |r| == |board|
    ensures forall i :: 0 <= i < |r| ==> r[i] == board[i].(rank := i + 1)
  {
    seq(|board|, i requires 0 <= i < |board| => board[i].(rank := i + 1))
  }

  /** `updateUserPoints`: restate the user's entry, sort by points, renumber. */
  function UpdatedBoard(board: seq<LeaderboardEntry>, userId: string, ecoPoints: int,
                        carbonSaved: real, productsPurchased: int): (r: seq<LeaderboardEntry>)
    ensures |r| == |board|
    ensures WellRanked(r)
    ensures multiset(MapSeq(r, UserIdOf)) == multiset(MapSeq(board, UserIdOf))
    ensures multiset(MapSeq(r, Unranked))
         == multiset(MapSeq(MapSeq(board, Restated(userId, ecoPoints, carbonSaved, productsPurchased)), Unranked))
  {
    var restate := Restated(userId, ecoPoints, carbonSaved, productsPurchased);
    var updated := MapSeq(board, restate);
    var sorted := Sort(updated, MorePoints);
    MorePointsIsTotalPreorder();
    SortSorted(updated, MorePoints);
    var r := Renumbered(sorted);
    assert SortedBy(r, MorePoints) by {
      forall i, j | 0 <= i < j < |r| ensures MorePoints(r[i], r[j]) {
        assert MorePoints(sorted[i], sorted[j]);
      }
    }
    assert MapSeq(r, UserIdOf) == MapSeq(sorted, UserIdOf);
    assert MapSeq(r, Unranked) == MapSeq(sorted, Unranked);
    MapPermutation(sorted, updated, UserIdOf);
    assert MapSeq(updated, UserIdOf) == MapSeq(board, UserIdOf);
    MapPermutation(sorted, updated, Unranked);
    r
  }

  /** Every entry of the updated board for `userId` carries the new statistics. */
  lemma UpdatedEntryHasNewStats(board: seq<LeaderboardEntry>, userId: string, ecoPoints: int,
                                carbonSaved: real, productsPurchased: int, i: nat)
    requires i < |board|
    requires UpdatedBoard(board, userId, ecoPoints, carbonSaved, productsPurchased)[i].userId == userId
    ensures var e := UpdatedBoard(board, userId, ecoPoints, carbonSaved, productsPurchased)[i];
      e.ecoPoints == ecoPoints && e.totalCarbonSaved == carbonSaved && e.productsPurchased == productsPurchased
  {
    var restate := Restated(userId, ecoPoints, carbonSaved, productsPurchased);
    var r := UpdatedBoard(board, userId, ecoPoints, carbonSaved, productsPurchased);
    var updated := MapSeq(MapSeq(board, restate), Unranked);
    assert Unranked(r[i]) in multiset(MapSeq(r, Unranked)) by {
      assert MapSeq(r, Unranked)[i] == Unranked(r[i]);
    }
    assert Unranked(r[i]) in updated;
    var k :| 0 <= k < |updated| && updated[k] == Unranked(r[i]);
    assert updated[k] == Unranked(restate(board[k]));
  }

  /** A user that is not on a well-ranked board leaves it exactly as it was. */
  lemma UnknownUserChangesNothing(board: seq<LeaderboardEntry>, userId: string, ecoPoints: int,
                                  carbonSaved: real, productsPurchased: int)
    requires WellRanked(board)
    requires forall i :: 0 <= i < |board| ==> board[i].userId != userId
    ensures UpdatedBoard(board, userId, ecoPoints, carbonSaved, productsPurchased) == board
  {
    var updated := MapSeq(board, Restated(userId, ecoPoints, carbonSaved, productsPurchased));
    assert updated == board;
    SortOfSorted(board, MorePoints);
    assert Renumbered(board) == board;
  }

  /** User ids that are unique stay unique after an update. */
  lemma UpdateKeepsUniqueIds(board: seq<LeaderboardEntry>, userId: string, ecoPoints: int,
                             carbonSaved: real, productsPurchased: int)
    requires NoDuplicates(MapSeq(board, UserIdOf))
    ensures NoDuplicates(MapSeq(UpdatedBoard(board, userId, ecoPoints, carbonSaved, productsPurchased), UserIdOf))
  {
    var r := UpdatedBoard(board, userId, ecoPoints, carbonSaved, productsPurchased);
    PermutationNoDuplicates(MapSeq(board, UserIdOf), MapSeq(r, UserIdOf));
  }

  /** `getUserRank`: the rank of the first entry for the user, 0 when there is none. */
  function UserRank(board: seq<LeaderboardEntry>, userId: string): (r: int)
    ensures (forall i :: 0 <= i < |board| ==> board[i].userId != userId) ==> r == 0
    ensures forall k ::
              (0 <= k < |board| && board[k].userId == userId
               && forall j :: 0 <= j < k ==> board[j].userId != userId) ==> r == board[k].rank
  {
    if board == [] then 0
    else if board[0].userId == userId then board[0].rank
    else
      var r := UserRank(board[1..], userId);
      assert forall k :: 1 <= k < |board| ==> board[k] == board[1..][k - 1];
      r
  }

  /** On a well-ranked board with unique ids, a user's rank is one more than their position. */
  lemma RankIsPosition(board: seq<LeaderboardEntry>, i: nat)
    requires WellRanked(board) && NoDuplicates(MapSeq(board, UserIdOf))
    requires i < |board|
    ensures UserRank(board, board[i].userId) == i + 1
  {
    var ids := MapSeq(board, UserIdOf);
    forall j | 0 <= j < i ensures board[j].userId != board[i].userId {
      assert ids[j] != ids[i];
    }
  }

  /** After an update, the user's rank is their position on the new board. */
  lemma RankAfterUpdate(board: seq<LeaderboardEntry>, userId: string, ecoPoints: int,
                        carbonSaved: real, productsPurchased: int, i: nat)
    requires NoDuplicates(MapSeq(board, UserIdOf))
    requires i < |board|
    ensures var r := UpdatedBoard(board, userId, ecoPoints, carbonSaved, productsPurchased);
      UserRank(r, r[i].userId) == i + 1
  {
    UpdateKeepsUniqueIds(board, userId, ecoPoints, carbonSaved, productsPurchased);
    RankIsPosition(UpdatedBoard(board, userId, ecoPoints, carbonSaved, productsPurchased), i);
  }

  /**
   * `getTopUsers(limit)`, that is `leaderboard.slice(0, limit)`: a negative
   * limit counts back from the end of the board.
   */
  function TopUsers(board: seq<LeaderboardEntry>, limit: int): (r: seq<LeaderboardEntry>)
    ensures r <= board
    ensures 0 <= limit ==> |r| == if limit < |board| then limit else |board|
    ensures limit < 0 ==> |r| == if |board| + limit < 0 then 0 else |board| + limit
  {
    var end := if limit < 0 then (if |board| + limit < 0 then 0 else |board| + limit)
               else if limit < |board| then limit else |board|;
    board[..end]
  }

  /** On a well-ranked board the top users have at least the points of everyone left out. */
  lemma TopUsersAreTop(board: seq<LeaderboardEntry>, limit: int)
    requires WellRanked(board)
    ensures var top := TopUsers(board, limit);
      forall i, j :: 0 <= i < |top| <= j < |board| ==> top[i].ecoPoints >= board[j].ecoPoints
    ensures forall i :: 0 <= i < |TopUsers(board, limit)| ==> TopUsers(board, limit)[i].rank == i + 1
  {
    var top := TopUsers(board, limit);
    forall i, j | 0 <= i < |top| <= j < |board| ensures top[i].ecoPoints >= board[j].ecoPoints {
      assert top[i] == board[i] && MorePoints(board[i], board[j]);
    }
  }

  /** The sample board is ranked consistently. */
  lemma InitialLeaderboardWellRanked()
    ensures WellRanked(InitialLeaderboard)
    ensures NoDuplicates(MapSeq(InitialLeaderboard, UserIdOf))
  {
    var board := InitialLeaderboard;
    var ids := MapSeq(board, UserIdOf);
    assert ids == ["1", "2", "3", "4", "5"];
    forall i, j | 0 <= i < j < |board| ensures MorePoints(board[i], board[j]) {
      assert board[j].ecoPoints <= board[i + 1].ecoPoints <= board[i].ecoPoints;
    }
  }

  /** The leaderboard holder: `updateUserPoints` replaces the board. */
  class LeaderboardStore {
    var leaderboard: seq<LeaderboardEntry>

    ghost predicate Valid()
      reads this
    {
      WellRanked(leaderboard) && NoDuplicates(MapSeq(leaderboard, UserIdOf))
    }

    /** The board as first loaded, with nothing saved before. */
    constructor ()
      ensures leaderboard == InitialLeaderboard && Valid()
    {
      leaderboard := InitialLeaderboard;
      InitialLeaderboardWellRanked();
    }

    method UpdateUserPoints(userId: string, ecoPoints: int, carbonSaved: real, productsPurchased: int)
      requires Valid()
      modifies this
      ensures leaderboard == UpdatedBoard(old(leaderboard), userId, ecoPoints, carbonSaved, productsPurchased)
      ensures Valid()
    {
      UpdateKeepsUniqueIds(leaderboard, userId, ecoPoints, carbonSaved, productsPurchased);
      leaderboard := UpdatedBoard(leaderboard, userId, ecoPoints, carbonSaved, productsPurchased);
    }
  }
}
