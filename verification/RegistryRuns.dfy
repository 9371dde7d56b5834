/** Runs of the registry, event by event, and the empty registry they can start from. */
module RegistryRuns {
  import opened Wrappers
  import opened RegistryRecord
  import opened RegistrySteps

  function EmptyWorld(): World {
    World(Hub(map[], [], map[], map[], map[], map[], map[], Asleep, {}), 0.0, 0.0, [])
  }

  lemma Then(w: World, es: seq<Event>, e: Event) returns (more: seq<Event>)
    ensures more == es + [e] && Run(w, more) == Step(Run(w, es), e)
  {
    more := es + [e];
    assert more[..|es|] == es;
  }

  lemma RunTurn(w: World, es: seq<Event>, n: nat)
    requires n < |es|
    ensures Run(w, es[..n + 1]) == Step(Run(w, es[..n]), es[n])
  {
    assert es[..n + 1][..n] == es[..n];
  }
}
