/** The frame dispatch of game.js (`tick`) reduced to the part the game-over
    rule depends on: whether a frame runs `update`, and what the ball-lost
    branch of `update` does to the lives. */
module Flow {
  import opened Util

  /** What a frame of `tick` does. */
  datatype FrameKind =
    | Rewinding     // `updateRewind` runs
    | Waiting       // the level-clear message waits for a key; nothing moves
    | Playing       // `update` then `captureSnapshot`
    | Stopped       // drawing only (paused, or over)

  /** `tick` as written: the game-over state is not consulted. */
  function FrameAsWritten(rewindActive: bool, awaiting: bool, paused: bool): FrameKind {
    if rewindActive then Rewinding
    else if awaiting then Waiting
    else if !paused then Playing
    else Stopped
  }

  /** `tick` with the evident intent of the "GAME OVER (press reset)"
      message: once the lives are spent, no further frame plays. Otherwise it
      agrees with the source. */
  function Frame(rewindActive: bool, awaiting: bool, paused: bool, lives: int): (k: FrameKind)
    ensures k == Playing ==> lives >= 1
    ensures lives >= 1 ==> k == FrameAsWritten(rewindActive, awaiting, paused)
    ensures FrameAsWritten(rewindActive, awaiting, paused) != Playing ==> k == FrameAsWritten(rewindActive, awaiting, paused)
  {
    var k := FrameAsWritten(rewindActive, awaiting, paused);
    if k == Playing && lives <= 0 then Stopped else k
  }

  /** The lives and whether some ball is alive, which is all the ball-lost
      branch looks at. */
  datatype LossState = LossState(lives: int, ballAlive: bool)

  /** The ball-lost branch of `update` (game.js 1448-1462): with no ball
      alive a life is taken; if some remain the ball is served again
      (`resetToServe` adds a fresh ball), otherwise the game is over and no
      ball is added. */
  function LostBallBranch(s: LossState): (t: LossState)
    ensures s.ballAlive ==> t == s
    ensures !s.ballAlive ==> t.lives == s.lives - 1 && (t.ballAlive <==> t.lives > 0)
  {
    if s.ballAlive then s
    else
      var lives := s.lives - 1;
      LossState(lives, lives > 0)
  }

  /** `n` frames that all play, as written. */
  function PlayAsWritten(s: LossState, n: nat): LossState
    decreases n
  {
    if n == 0 then s else PlayAsWritten(LostBallBranch(s), n - 1)
  }

  /** `n` frames under the corrected guard. */
  function Play(s: LossState, n: nat): LossState
    decreases n
  {
    if n == 0 then s
    else if Frame(false, false, false, s.lives) == Playing then Play(LostBallBranch(s), n - 1)
    else s
  }

  /** As written, losing the last ball with one life left keeps taking a
      life on every later frame: two frames leave the counter at -1. */
  lemma LivesGoNegativeAsWritten()
    ensures PlayAsWritten(LossState(1, false), 2).lives == -1
  {
    assert LostBallBranch(LossState(1, false)) == LossState(0, false);
    assert LostBallBranch(LossState(0, false)) == LossState(-1, false);
  }

  /** Under the corrected guard the lives never go below 0 however many
      frames follow, and losing a ball costs exactly one life. */
  lemma {:induction false} LivesNeverNegative(s: LossState, n: nat)
    requires s.lives >= 0
    ensures Play(s, n).lives >= 0
    ensures Play(s, n).lives >= s.lives - 1
    ensures !s.ballAlive && s.lives >= 1 && n >= 1 ==> Play(s, n).lives == s.lives - 1
    decreases n
  {
    if n > 0 && s.lives >= 1 {
      var t := LostBallBranch(s);
      if s.ballAlive {
        LivesNeverNegative(t, n - 1);
      } else {
        if t.lives >= 1 {
          PlayWithBallFixed(t, n - 1);
        } else {
          PlayOver(t, n - 1);
        }
      }
    }
  }

  /** While a ball is alive the branch changes nothing. */
  lemma {:induction false} PlayWithBallFixed(s: LossState, n: nat)
    requires s.ballAlive
    ensures Play(s, n) == s
    decreases n
  {
    if n > 0 && s.lives >= 1 {
      PlayWithBallFixed(s, n - 1);
    }
  }

  /** Once over, the game stays over. */
  lemma {:induction false} PlayOver(s: LossState, n: nat)
    requires s.lives <= 0
    ensures Play(s, n) == s
  {
  }
}
