/** The switch object: its pending updates, its two states and the handler that moves them. */
module SwSwitch {
  import opened StatePipeline
  import opened PipelineRuns

  class Switch {
    var appliedState: State
    var desiredState: State
    var pendingUpdates: seq<Update>
    var exiting: bool
    var arrivals: nat               // numbers the updates
    var nextNode: nat               // identity of the next state made
    ghost var world: World

    ghost predicate Tracks()
      reads this
    {
      && world.applied == appliedState && world.desired == desiredState
      && world.queue == pendingUpdates && world.exiting == exiting
      && |world.arrived| == arrivals && world.next == nextNode
    }

    ghost predicate Valid()
      reads this
    {
      Tracks() && world.batch == []
    }

    constructor (initial: State)
      ensures Valid() && Initial(world) && world.desired == initial
    {
      appliedState, desiredState := initial, initial;
      pendingUpdates := [];
      exiting := false;
      arrivals, nextNode := 0, initial.node + 1;
      world := World(initial, initial, [], [], initial.node + 1, 0, 0, false, [], 0, [], []);
    }

    /** `updateState`, `updateStateNoCoalescing`: append under the lock, then signal. */
    method UpdateState(coalesces: bool, fn: Content -> Result)
      requires Valid()
      modifies this
      ensures Valid() && world == Step(Step(old(world), Push(coalesces, fn)), Signal)
    {
      pendingUpdates := pendingUpdates + [Ordinary(arrivals, coalesces, fn)];
      arrivals := arrivals + 1;
      world := Step(Step(world, Push(coalesces, fn)), Signal);
    }

    /** How much of the queue one batch takes. */
    method CountPulled(queue: seq<Update>) returns (n: nat)
      ensures n == Pulled(queue)
    {
      n := 0;
      while n < |queue|
        invariant n <= |queue| && Pulled(queue) == n + Pulled(queue[n..])
      {
        var update := queue[n];
        n := n + 1;
        if !AllowsCoalescing(update) { return; }
        assert queue[n - 1..][1..] == queue[n..];
      }
    }

    /** The loop that calls the update functions one after the other. */
    method Prepare(updates: seq<Update>, start: Progress)
      returns (end: Progress, failures: seq<Completion>, remaining: seq<Update>)
      ensures end == Fold(updates, start)
      ensures failures == Failures(updates, start) && remaining == Remaining(updates, start)
    {
      end, failures, remaining := start, [], [];
      var i := 0;
      while i < |updates|
        invariant 0 <= i <= |updates| && end == Fold(updates[..i], start)
        invariant failures == Failures(updates[..i], start) && remaining == Remaining(updates[..i], start)
      {
        assert updates[..i + 1][..i] == updates[..i];
        var update := updates[i];
        if Raises(update, end.state.content) {
          failures := failures + [Failed(update.id)];
        } else {
          remaining := remaining + [update];
        }
        end := Apply(update, end);
        i := i + 1;
      }
      assert updates[..i] == updates;
    }

    method NotifySuccess(remaining: seq<Update>) returns (done: seq<Completion>)
      ensures done == Successes(remaining)
    {
      var left := remaining;
      done := [];
      while left != []
        invariant |left| <= |remaining| && left == remaining[|remaining| - |left|..]
        invariant done == Successes(remaining[..|remaining| - |left|])
        decreases |left|
      {
        var k := |remaining| - |left|;
        assert remaining[..k + 1] == remaining[..k] + [left[0]];
        SuccessesPush(remaining[..k], left[0]);
        if left[0].Ordinary? {
          done := done + [Succeeded(left[0].id)];
        }
        left := left[1..];
      }
      assert remaining[..|remaining|] == remaining;
    }

    /** `applyUpdate`: `given` is what hardware is handed, `hw` answers for hardware. */
    method ApplyUpdate(newState: State, hw: (State, State) -> State) returns (given: seq<Delta>)
      modifies this`appliedState, this`desiredState
      ensures exiting ==> given == [] && unchanged(this)
      ensures !exiting ==>
                && given == [Delta(old(appliedState), newState)]
                && appliedState == hw(old(appliedState), newState) && desiredState == newState
    {
      if exiting { return []; }
      given := [Delta(appliedState, newState)];
      appliedState, desiredState := hw(appliedState, newState), newState;
    }

    /** The first half of `handlePendingUpdates`, under the lock. */
    method TakeBatch() returns (updates: seq<Update>)
      requires Valid() && world.wakeups > 0
      modifies this
      ensures Tracks() && world == Spliced(old(world)) && updates == world.batch
    {
      var n := CountPulled(pendingUpdates);
      updates := pendingUpdates[..n];
      pendingUpdates := pendingUpdates[n..];
      world := Spliced(world);
    }

    /** The end of the batch, once the new desired state is prepared. */
    method Commit(end: Progress, hw: (State, State) -> State) returns (given: seq<Delta>)
      requires Tracks() && end == Fold(world.batch, Start(world))
      modifies this
      ensures Valid() && world == Finished(old(world), hw(old(appliedState), end.state))
      ensures world.deltas == old(world).deltas + given
    {
      var answer := hw(appliedState, end.state);
      nextNode := Above(answer.node, end.next);
      given := [];
      if end.state != appliedState {
        given := ApplyUpdate(end.state, hw);
        if appliedState != end.state {
          pendingUpdates := [Recovery(end.state, appliedState)] + pendingUpdates;
        }
      }
      world := Finished(world, answer);
    }

    /** `handlePendingUpdates`, one wake-up: a batch is taken and, if it holds anything, applied. */
    method HandlePendingUpdates(hw: (State, State) -> State) returns (done: seq<Completion>, given: seq<Delta>)
      requires Valid() && world.wakeups > 0
      modifies this
      ensures Valid()
      ensures var taken := Spliced(old(world));
              if taken.batch == [] then world == taken && done == [] && given == []
              else
                && world == Finished(taken, hw(taken.applied, Target(taken)))
                && world.completions == old(world).completions + done
                && world.deltas == old(world).deltas + given
    {
      var updates := TakeBatch();
      if updates == [] { return [], []; }
      var end, failures, remaining := Prepare(updates, Progress(appliedState, nextNode));
      FinishFields(world, hw(appliedState, end.state));
      given := Commit(end, hw);
      var successes := NotifySuccess(remaining);
      done := failures + successes;
    }
  }
}
