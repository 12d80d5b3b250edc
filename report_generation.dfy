/**
 The in-process report accumulator: one object per report, fed one game at a
 time, then asked for the report. Go's map iteration order, which the
 language leaves unspecified, is passed to the report methods as an explicit
 sequence of the map's keys.
 */
module ReportGeneration {
  import opened GameModel
  import opened ReportSpec

  /**
   Sums a game's comment likes and takes the rounded-up mean; a game with no
   comments averages 0.
   */
  method ProcessLikes(game: Game) returns (avg: int, total: int)
    ensures total == TotalLikes(game.comments)
    ensures avg == AverageLikes(game.comments)
  {
    var cs := game.comments;
    var likeSum := 0;
    var i := 0;
    while i < |cs|
      invariant 0 <= i <= |cs|
      invariant likeSum == TotalLikes(cs[..i])
    {
      assert cs[..i + 1][..i] == cs[..i];
      likeSum := likeSum + cs[i].like;
      i := i + 1;
    }
    assert cs[..|cs|] == cs;
    if |cs| == 0 {
      avg := 0;
    } else {
      avg := CeilDiv(likeSum, |cs|);
    }
    total := likeSum;
  }

  class ReportAccumulator {
    /** Comments posted so far, per user name. */
    var users: map<string, int>
    /** The most-liked candidate: its title and total likes. */
    var mostLikedTitle: string
    var mostLikedLikes: int
    /** One entry per processed game, in processing order. */
    var averageLikes: seq<GameAverageLikes>

    /** The games processed so far. */
    ghost var processed: seq<Game>

    /** The fields hold the corpus statistics of the games processed so far. */
    ghost predicate Valid()
      reads this
    {
      users == UserCounts(processed) &&
      (mostLikedTitle, mostLikedLikes) == MostLiked(processed) &&
      averageLikes == Averages(processed)
    }

    constructor ()
      ensures Valid() && processed == []
      ensures users == map[] && averageLikes == []
      ensures mostLikedTitle == "" && mostLikedLikes == 0
    {
      users := map[];
      mostLikedTitle, mostLikedLikes := "", 0;
      averageLikes := [];
      processed := [];
    }

    /**
     Folds one game in: a strictly greater total replaces the most-liked
     candidate, one average entry is appended, and each commenter's count
     rises by that user's comments on the game.
     */
    method ProcessGame(game: Game)
      requires Valid()
      modifies this
      ensures Valid() && processed == old(processed) + [game]
      ensures TotalLikes(game.comments) > old(mostLikedLikes) ==>
        mostLikedTitle == game.title && mostLikedLikes == TotalLikes(game.comments)
      ensures TotalLikes(game.comments) <= old(mostLikedLikes) ==>
        mostLikedTitle == old(mostLikedTitle) && mostLikedLikes == old(mostLikedLikes)
      ensures averageLikes == old(averageLikes) + [GameAverageLikes(game.title, AverageLikes(game.comments))]
      ensures users.Keys == old(users).Keys + UsersOf(game.comments)
      ensures forall u :: Get(users, u) == Get(old(users), u) + CountBy(game.comments, u)
    {
      var avg, total := ProcessLikes(game);
      if total > mostLikedLikes {
        mostLikedLikes := total;
        mostLikedTitle := game.title;
      }
      averageLikes := averageLikes + [GameAverageLikes(game.title, avg)];

      CountComments(game.comments);

      var gs := old(processed) + [game];
      assert gs[..|gs| - 1] == old(processed);
      UserCountsAppend(old(processed), game);
      forall u | u in users ensures users[u] == UserCounts(gs)[u] {
        assert Get(users, u) == Get(UserCounts(gs), u);
      }
      processed := gs;
    }

    /** Raises each user's count by that user's comments among cs, one comment at a time. */
    method CountComments(cs: seq<Comment>)
      modifies this`users
      ensures users.Keys == old(users).Keys + UsersOf(cs)
      ensures forall u :: Get(users, u) == Get(old(users), u) + CountBy(cs, u)
    {
      var i := 0;
      while i < |cs|
        invariant 0 <= i <= |cs|
        invariant users.Keys == old(users).Keys + UsersOf(cs[..i])
        invariant forall u :: Get(users, u) == Get(old(users), u) + CountBy(cs[..i], u)
      {
        assert cs[..i + 1][..i] == cs[..i];
        UsersOfSnoc(cs[..i + 1]);
        // A user not yet in the map reads as zero.
        var numberOfComments := Get(users, cs[i].user);
        users := users[cs[i].user := numberOfComments + 1];
        i := i + 1;
      }
      assert cs[..|cs|] == cs;
    }

    /**
     The report as the source computes it. The running maximum stays 0, so
     the chosen user is simply the last key visited: some key of the map,
     whatever its count, or "" when no one has commented.
     */
    method Report(order: seq<string>) returns (r: Report)
      requires Valid()
      requires IsKeyOrder(order, users)
      ensures r.highestRatedGame == mostLikedTitle
      ensures r.averageLikesPerGame == averageLikes
      ensures r.userWithMostComments == ScanAsWritten(order, users)
      ensures users == map[] ==> r.userWithMostComments == ""
      ensures users != map[] ==>
        r.userWithMostComments in users && r.userWithMostComments == order[|order| - 1]
    {
      UserCountsAtLeastOne(processed);
      var maxComments := 0;
      var maxName := "";
      var i := 0;
      while i < |order|
        invariant 0 <= i <= |order|
        invariant maxComments == 0
        invariant maxName == ScanAsWritten(order[..i], users)
        invariant i > 0 ==> maxName == order[i - 1]
      {
        assert order[..i + 1][..i] == order[..i];
        var name := order[i];
        var comments := users[name];
        if comments > maxComments {
          maxName := name;
        }
        i := i + 1;
      }
      assert order[..|order|] == order;
      if users != map[] {
        var k :| k in users;
        assert k in order;
      }
      r := GameModel.Report(maxName, mostLikedTitle, averageLikes);
    }

    /**
     The report with the scan raising its running maximum as it goes: a
     user with the largest count (the first such in the visiting order).
     */
    method CorrectedReport(order: seq<string>) returns (r: Report)
      requires Valid()
      requires IsKeyOrder(order, users)
      ensures r.highestRatedGame == mostLikedTitle
      ensures r.averageLikesPerGame == averageLikes
      ensures r.userWithMostComments == ScanCorrected(order, users).0
      ensures users == map[] ==> r.userWithMostComments == ""
      ensures users != map[] ==>
        r.userWithMostComments in users &&
        forall u :: u in users ==> users[u] <= users[r.userWithMostComments]
    {
      UserCountsAtLeastOne(processed);
      var maxComments := 0;
      var maxName := "";
      var i := 0;
      while i < |order|
        invariant 0 <= i <= |order|
        invariant (maxName, maxComments) == ScanCorrected(order[..i], users)
      {
        assert order[..i + 1][..i] == order[..i];
        var name := order[i];
        var comments := users[name];
        if comments > maxComments {
          maxComments := comments;
          maxName := name;
        }
        i := i + 1;
      }
      assert order[..|order|] == order;
      ScanCorrectedIsMax(order, users);
      if users != map[] {
        var k :| k in users;
        assert k in order;
        forall u | u in users ensures users[u] <= users[maxName] {
          var j :| 0 <= j < |order| && order[j] == u;
        }
      }
      r := GameModel.Report(maxName, mostLikedTitle, averageLikes);
    }
  }

  /**
   Builds a report over a corpus: a fresh accumulator, every game processed
   in input order, then the report with the corrected user scan. What the
   result means is proved of CorpusReport in module ReportSpec.
   */
  method GenerateReport(games: seq<Game>, order: seq<string>) returns (r: Report)
    requires IsKeyOrder(order, UserCounts(games))
    ensures r == CorpusReport(games, order)
  {
    var acc := new ReportAccumulator();
    var i := 0;
    while i < |games|
      invariant 0 <= i <= |games|
      invariant acc.Valid() && acc.processed == games[..i]
    {
      assert games[..i + 1] == games[..i] + [games[i]];
      acc.ProcessGame(games[i]);
      i := i + 1;
    }
    assert games[..|games|] == games;
    r := acc.CorrectedReport(order);
  }
}
