/** The GameManager of the UI lesson: a singleton that pauses and resumes the
    game by setting the global time scale, toggled by the Escape key. */
module Pausing {
  import Singleton

  /** The global Time.timeScale (1 unless someone changes it). */
  class TimeSettings {
    var timeScale: real

    constructor ()
      ensures timeScale == 1.0
    {
      timeScale := 1.0;
    }
  }

  datatype PauseState = PauseState(isPaused: bool, timeScale: real)

  /** PauseGame: from running, stop time; when already paused, nothing. */
  function Paused(s: PauseState): (r: PauseState)
    ensures r.isPaused
    ensures s.isPaused ==> r == s
    ensures !s.isPaused ==> r.timeScale == 0.0
  {
    if s.isPaused then s else PauseState(true, 0.0)
  }

  /** ResumeGame: from paused, run time at normal speed; when running, nothing. */
  function Resumed(s: PauseState): (r: PauseState)
    ensures !r.isPaused
    ensures !s.isPaused ==> r == s
    ensures s.isPaused ==> r.timeScale == 1.0
  {
    if !s.isPaused then s else PauseState(false, 1.0)
  }

  /** An Escape press in Update: resume when paused, pause otherwise. */
  function Escaped(s: PauseState): (r: PauseState)
    ensures r.isPaused == !s.isPaused
  {
    if s.isPaused then Resumed(s) else Paused(s)
  }

  datatype Command = Pause | Resume | Escape

  function Apply(s: PauseState, c: Command): PauseState
  {
    match c
    case Pause => Paused(s)
    case Resume => Resumed(s)
    case Escape => Escaped(s)
  }

  function Replay(s: PauseState, cs: seq<Command>): PauseState
    decreases |cs|
  {
    if cs == [] then s else Replay(Apply(s, cs[0]), cs[1..])
  }

  /** The time scale matches the flag: 0 when paused, 1 when running. */
  predicate Coupled(s: PauseState)
  {
    s.timeScale == if s.isPaused then 0.0 else 1.0
  }

  /** Pausing twice is pausing once, and so is resuming. */
  lemma Idempotent(s: PauseState)
    ensures Paused(Paused(s)) == Paused(s)
    ensures Resumed(Resumed(s)) == Resumed(s)
  {
  }

  /** Two Escape presses restore the flag; they restore the time scale too
      when it matched the flag. */
  lemma EscapeTwice(s: PauseState)
    ensures Escaped(Escaped(s)).isPaused == s.isPaused
    ensures Coupled(s) ==> Escaped(Escaped(s)) == s
  {
  }

  /** If nothing else writes the time scale, it stays coupled to the flag
      through any sequence of calls: it is 0 exactly when the game is paused. */
  lemma {:induction false} CoupledAlongReplay(s: PauseState, cs: seq<Command>)
    requires Coupled(s)
    ensures Coupled(Replay(s, cs))
    ensures Replay(s, cs).timeScale == 0.0 <==> Replay(s, cs).isPaused
    decreases |cs|
  {
    if cs != [] {
      CoupledAlongReplay(Apply(s, cs[0]), cs[1..]);
    }
  }

  /** A game that starts running at scale 1 keeps the two coupled. */
  lemma FromStart(cs: seq<Command>)
    ensures Replay(PauseState(false, 1.0), cs).timeScale == 0.0 <==> Replay(PauseState(false, 1.0), cs).isPaused
  {
    CoupledAlongReplay(PauseState(false, 1.0), cs);
  }

  class GameManager {
    const time: TimeSettings
    var isPaused: bool

    function State(): PauseState
      reads this, time
    {
      PauseState(isPaused, time.timeScale)
    }

    constructor (time: TimeSettings)
      ensures this.time == time && !isPaused
    {
      this.time := time;
      isPaused := false;
    }

    /** Awake: the first manager registers itself as the Instance. */
    method Awake(registry: Singleton.Registry<GameManager>) returns (kept: bool)
      modifies registry
      ensures registry.instance == Singleton.Register(old(registry.instance), this)
      ensures kept <==> old(registry.instance).None?
    {
      kept := registry.Claim(this);
    }

    method PauseGame()
      modifies this, time
      ensures State() == Paused(old(State()))
    {
      if isPaused {
        return;
      }
      isPaused := true;
      time.timeScale := 0.0;
    }

    method ResumeGame()
      modifies this, time
      ensures State() == Resumed(old(State()))
    {
      if !isPaused {
        return;
      }
      isPaused := false;
      time.timeScale := 1.0;
    }

    method Update(escapePressed: bool)
      modifies this, time
      ensures State() == if escapePressed then Escaped(old(State())) else old(State())
    {
      if escapePressed {
        if isPaused {
          ResumeGame();
        } else {
          PauseGame();
        }
      }
    }

    method IsPaused() returns (paused: bool)
      ensures paused == isPaused
    {
      paused := isPaused;
    }
  }
}
