/** The one-shot initial-sync gate: a deferred resolved by `handleInitialSyncDone`
    and read through `waitForInitialSyncCompletion`. Only the resolution is
    modelled: `None` is a pending promise, `Some(p)` one resolved with `p`. */
module SyncGate {
  import opened Events

  /** `deferred.resolve(p)`: settles a pending gate with `p`; a settled gate
      ignores every later resolution. */
  function Resolve(gate: Option<Payload>, p: Payload): (r: Option<Payload>)
    ensures r.Some?
    ensures gate.Some? ==> r == gate
    ensures gate.None? ==> r == Some(p)
  {
    if gate.None? then Some(p) else gate
  }

  /** The gate after `handleInitialSyncDone` is called with each of `ps` in turn. */
  function ResolveAll(gate: Option<Payload>, ps: seq<Payload>): Option<Payload>
    decreases |ps|
  {
    if ps == [] then gate else ResolveAll(Resolve(gate, ps[0]), ps[1..])
  }

  /** Once settled, the gate keeps its payload however often it is resolved again. */
  lemma {:induction false} SettledGateIsStable(p: Payload, ps: seq<Payload>)
    ensures ResolveAll(Some(p), ps) == Some(p)
    decreases |ps|
  {
    if ps != [] {
      SettledGateIsStable(p, ps[1..]);
    }
  }

  /** Resolving a fresh gate several times yields the first payload only. */
  lemma {:induction false} FirstResolutionWins(ps: seq<Payload>)
    requires |ps| > 0
    ensures ResolveAll(None, ps) == Some(ps[0])
  {
    SettledGateIsStable(ps[0], ps[1..]);
  }
}
