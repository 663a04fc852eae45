/** The GameManager of the fundamentals lesson: a singleton holding the score
    and the lives, with game over once the lives reach 0. Its fields are C#
    ints, so the arithmetic wraps around at 32 bits. */
module Scoring {
  import Singleton

  const MinInt: int := -0x8000_0000
  const MaxInt: int := 0x7fff_ffff

  /** A C# int. */
  type Int32 = x: int | -0x8000_0000 <= x <= 0x7fff_ffff

  /** Unchecked 32-bit arithmetic: the result is congruent to x modulo 2^32,
      and equal to x when x fits. */
  function Wrap(x: int): (r: Int32)
    ensures MinInt <= x <= MaxInt ==> r == x
    ensures (x - r) % 0x1_0000_0000 == 0
  {
    (x - MinInt) % 0x1_0000_0000 + MinInt
  }

  const InitialScore: Int32 := 0
  const InitialLives: Int32 := 3

  /** The lives after n calls of LoseLife. */
  function AfterLosses(lives: Int32, n: nat): Int32
  {
    if n == 0 then lives else Wrap(AfterLosses(lives, n - 1) - 1)
  }

  /** As long as nothing wraps, n losses take exactly n lives. */
  lemma {:induction false} LossesCount(lives: Int32, n: nat)
    requires lives - n >= MinInt
    ensures AfterLosses(lives, n) == lives - n
  {
    if n > 0 {
      LossesCount(lives, n - 1);
    }
  }

  /** From the initial 3 lives, the k-th LoseLife signals game over exactly
      when k >= 3, for every k before the counter would wrap. */
  lemma GameOverFromThirdLoss(k: nat)
    requires 1 <= k <= InitialLives - MinInt
    ensures AfterLosses(InitialLives, k) <= 0 <==> k >= 3
  {
    LossesCount(InitialLives, k);
  }

  /** At the smallest int, one more loss wraps to the largest, and game over
      stops being signalled. */
  lemma LossWrapsAtMinimum()
    ensures Wrap(MinInt - 1) == MaxInt
    ensures !(Wrap(MinInt - 1) <= 0)
  {
  }

  class GameManager {
    var score: Int32
    var lives: Int32

    constructor ()
      ensures score == InitialScore && lives == InitialLives
    {
      score := 0;
      lives := 3;
    }

    /** Awake: the first manager registers itself as the Instance. */
    method Awake(registry: Singleton.Registry<GameManager>) returns (kept: bool)
      modifies registry
      ensures registry.instance == Singleton.Register(old(registry.instance), this)
      ensures kept <==> old(registry.instance).None?
    {
      kept := registry.Claim(this);
    }

    /** Adds any number of points, negative ones included. */
    method AddScore(points: Int32)
      modifies this`score
      ensures score == Wrap(old(score) + points)
      ensures MinInt <= old(score) + points <= MaxInt ==> score == old(score) + points
    {
      score := Wrap(score + points);
    }

    /** Returns whether game over is signalled. */
    method LoseLife() returns (gameOver: bool)
      modifies this`lives
      ensures lives == Wrap(old(lives) - 1)
      ensures old(lives) > MinInt ==> lives == old(lives) - 1
      ensures gameOver <==> lives <= 0
    {
      lives := Wrap(lives - 1);
      gameOver := lives <= 0;
    }

    method GetScore() returns (s: Int32)
      ensures s == score
    {
      s := score;
    }

    method GetLives() returns (l: Int32)
      ensures l == lives
    {
      l := lives;
    }
  }
}
