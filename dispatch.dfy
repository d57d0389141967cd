/**
 * The cloud helper's main loop: for each image key in turn, load its
 * metadata, retrieve the image if the action needs it and it is missing,
 * run the action's operation, and save the metadata tagged with the action.
 * Collaborators are opaque: each call is recorded in a trace, what the loop
 * observes of the environment is given by `probe`, and a collaborator that
 * raises is given by `failAt`, the trace position of the first call that raises.
 */
module Dispatch {
  import opened Wrappers
  import opened Cli
  import opened Policy
  import opened Trace

  /** How the loop ended: every key processed, or a collaborator raised out of it. */
  datatype Outcome = Completed | Raised(call: Call)

  /** How a whole invocation ended: refused by the argument parser, or the loop ran. */
  datatype Status = UsageError(error: ArgError) | Ran(outcome: Outcome)

  /**
   * The body of one iteration, as the calls it makes in order: the metadata
   * load, the retrieve guard, the if/elif chain over the action, the save.
   */
  method KeyStep(action: Action, key: ImageKey, p: Probe) returns (calls: seq<Call>)
    ensures calls == KeyCalls(action, key, p)
  {
    calls := [GetConfig(key), LoadMeta(key)];
    if (action == Import || action == Sign) && !p.imagePresent {
      calls := calls + [Retrieve(key)];
    }
    if action == Local {
      calls := calls + [Convert(key)];
    } else if action == Upload {
      calls := calls + [UploadImg(key)];
    } else if action == Import {
      calls := calls + [CloudImport(key)];
    } else if action == Sign {
      calls := calls + [SignImg(key)];
    } else if action == Publish && "publish" in p.cloudActions {
      calls := calls + [PublishImg(key)];
    } else if action == Release {
      calls := calls + [ReleaseImg(key)];
    }
    calls := calls + [SaveMeta(key, action)];
  }

  /**
   * The loop body's helper for `RunAction`: makes one iteration's calls after
   * the calls `done`, in order; a call that raises is the last one made.
   */
  method MakeCalls(done: seq<Call>, calls: seq<Call>, failAt: Option<nat>) returns (trace: seq<Call>, outcome: Outcome)
    requires !Fails(done, failAt)
    ensures trace == Issued(done + calls, failAt)
    ensures outcome.Raised? <==> Fails(done + calls, failAt)
    ensures outcome.Raised? ==> trace != [] && outcome.call == trace[|trace| - 1]
    ensures outcome.Completed? ==> trace == done + calls
  {
    if failAt.Some? && failAt.value < |done| + |calls| {
      var k := failAt.value - |done|;
      outcome := Raised(calls[k]);
      trace := done + calls[..k + 1];
    } else {
      outcome := Completed;
      trace := done + calls;
    }
  }

  /**
   * Runs `action` over `keys` in order. Every call is made in the order of the
   * if/elif chain; the call that raises is the last one made, and the loop
   * stops there, so neither that key's save nor any later key runs.
   */
  method RunAction(action: Action, keys: seq<ImageKey>, probe: nat -> Probe, failAt: Option<nat>)
    returns (trace: seq<Call>, outcome: Outcome)
    ensures trace == Issued(Planned(action, keys, probe), failAt)
    ensures outcome.Raised? <==> Fails(Planned(action, keys, probe), failAt)
    ensures outcome.Raised? ==> trace != [] && outcome.call == trace[|trace| - 1]
    ensures outcome.Completed? ==> trace == Planned(action, keys, probe)
  {
    trace := [];
    outcome := Completed;
    ghost var planned: seq<Call> := [];
    var i := 0;
    while i < |keys| && outcome == Completed
      invariant 0 <= i <= |keys|
      invariant planned == Planned(action, keys[..i], probe)
      invariant trace == Issued(planned, failAt)
      invariant outcome.Raised? <==> Fails(planned, failAt)
      invariant outcome.Raised? ==> trace != [] && outcome.call == trace[|trace| - 1]
    {
      var key := keys[i];
      var p := probe(i);
      var calls := KeyStep(action, key, p);
      assert trace == planned;
      PlannedStep(action, keys, probe, i);
      planned := planned + calls;
      trace, outcome := MakeCalls(trace, calls, failAt);
      assert planned == Planned(action, keys[..i + 1], probe);
      i := i + 1;
    }
    RunEnds(action, keys, probe, failAt, i, trace, outcome);
  }

  /** When the loop stops, having processed keys[..i], the run's promises hold. */
  lemma RunEnds(action: Action, keys: seq<ImageKey>, probe: nat -> Probe, failAt: Option<nat>,
                i: nat, trace: seq<Call>, outcome: Outcome)
    requires i <= |keys| && (i == |keys| || outcome.Raised?)
    requires trace == Issued(Planned(action, keys[..i], probe), failAt)
    requires outcome.Raised? <==> Fails(Planned(action, keys[..i], probe), failAt)
    requires outcome.Raised? ==> trace != [] && outcome.call == trace[|trace| - 1]
    ensures trace == Issued(Planned(action, keys, probe), failAt)
    ensures outcome.Raised? <==> Fails(Planned(action, keys, probe), failAt)
    ensures outcome.Completed? ==> trace == Planned(action, keys, probe)
  {
    PlannedPrefix(action, keys, probe, i);
    if outcome.Completed? {
      assert keys[..i] == keys;
    } else {
      IssuedOfPrefix(Planned(action, keys[..i], probe), Planned(action, keys, probe), failAt);
    }
  }

  /**
   * A whole invocation: the positional arguments are parsed first, and only a
   * valid action with at least one image key reaches the loop.
   */
  method RunCommand(positionals: seq<string>, probe: nat -> Probe, failAt: Option<nat>)
    returns (trace: seq<Call>, status: Status)
    ensures ParseArgs(positionals).Err? ==>
      trace == [] && status == UsageError(ParseArgs(positionals).error)
    ensures ParseArgs(positionals).Ok? ==>
      var inv := ParseArgs(positionals).value;
      var planned := Planned(inv.action, inv.imageKeys, probe);
      trace == Issued(planned, failAt) && status.Ran? &&
      (status.outcome.Raised? <==> Fails(planned, failAt)) &&
      (status.outcome.Raised? ==> trace != [] && status.outcome.call == trace[|trace| - 1]) &&
      (status.outcome.Completed? ==> trace == planned)
  {
    match ParseArgs(positionals)
    case Err(e) =>
      trace, status := [], UsageError(e);
    case Ok(inv) =>
      var outcome;
      trace, outcome := RunAction(inv.action, inv.imageKeys, probe, failAt);
      status := Ran(outcome);
  }
}
