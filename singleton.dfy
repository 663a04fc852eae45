/** The first-wins registration that both GameManagers perform in Awake: the
    first manager to wake becomes the static Instance and survives scene loads;
    any later one finds Instance set, leaves it alone and is destroyed. */
module Singleton {
  import opened Engine

  /** The Instance after one Awake of a candidate. */
  function Register<T>(instance: Option<T>, candidate: T): (r: Option<T>)
    ensures r.Some?
    ensures instance.Some? ==> r == instance
    ensures instance.None? ==> r == Some(candidate)
  {
    if instance.None? then Some(candidate) else instance
  }

  /** The Instance after candidates wake one after another. */
  function RegisterAll<T>(instance: Option<T>, candidates: seq<T>): Option<T>
    decreases |candidates|
  {
    if candidates == [] then instance else RegisterAll(Register(instance, candidates[0]), candidates[1..])
  }

  /** Once set, the Instance never changes. */
  lemma {:induction false} InstanceIsSticky<T>(first: T, candidates: seq<T>)
    ensures RegisterAll(Some(first), candidates) == Some(first)
    decreases |candidates|
  {
    if candidates != [] {
      InstanceIsSticky(first, candidates[1..]);
    }
  }

  /** Starting without an Instance, the first manager to wake wins. */
  lemma FirstAwakeWins<T>(candidates: seq<T>)
    requires |candidates| > 0
    ensures RegisterAll(None, candidates) == Some(candidates[0])
  {
    InstanceIsSticky(candidates[0], candidates[1..]);
  }

  /** The static Instance property of a manager class. */
  class Registry<T> {
    var instance: Option<T>

    constructor ()
      ensures instance == None
    {
      instance := None;
    }

    /** The rule of Awake. Returns whether the candidate was registered
        (it is kept alive) or not (the host destroys it). */
    method Claim(candidate: T) returns (kept: bool)
      modifies this
      ensures instance == Register(old(instance), candidate)
      ensures kept <==> old(instance).None?
    {
      if instance.None? {
        instance := Some(candidate);
        kept := true;
      } else {
        kept := false;
      }
    }
  }
}
