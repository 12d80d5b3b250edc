/**
 The records the report is built from and the report it produces. Only the
 fields the report reads are kept: a game's title and comments, a comment's
 user and like count.
 */
module GameModel {

  /** One user comment on a game; `like` may be negative and is summed as given. */
  datatype Comment = Comment(user: string, like: int)

  /** One catalog entry; `comments` is in posting order. */
  datatype Game = Game(title: string, comments: seq<Comment>)

  /** The rounded-up mean like count of one game. */
  datatype GameAverageLikes = GameAverageLikes(title: string, averageLikes: int)

  /** The statistics handed back to the caller. */
  datatype Report = Report(
    userWithMostComments: string,
    highestRatedGame: string,
    averageLikesPerGame: seq<GameAverageLikes>)
}
