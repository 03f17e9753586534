/** The state-update pipeline: updates are queued by any thread and applied in batches by the
    update thread, to software state first and then to hardware that may apply only part. */
module StatePipeline {

  /** What a switch state says; nothing is assumed of it. */
  type Content(!new, ==)

  /** A published state. `node` is its identity: two handles are equal when all fields are. */
  datatype State = State(node: nat, generation: nat, content: Content)

  /** What an update function does with the state it is given: raise an error, return null,
      return its argument, return a modified copy, or return a handle it kept from before. */
  datatype Result = Throw | Null | Same | Changed(content: Content) | Stored(state: State)

  /** `Recovery` is the update queued when hardware fell behind `desired`. */
  datatype Update =
    | Recovery(desired: State, applied: State)
    | Ordinary(id: nat, coalesces: bool, fn: Content -> Result)

  datatype Completion = Failed(id: nat) | Succeeded(id: nat)

  datatype Delta = Delta(before: State, after: State)

  datatype World = World(
    applied: State,
    desired: State,
    queue: seq<Update>,
    batch: seq<Update>,           // taken off the queue, not yet applied; empty when idle
    next: nat,                    // above every node seen so far
    unsignalled: nat,             // pushed, wake-up not yet scheduled
    wakeups: nat,
    exiting: bool,
    arrived: seq<Update>,         // every ordinary update, in arrival order
    handled: nat,                 // how many of them went through a batch
    completions: seq<Completion>,
    deltas: seq<Delta>)           // what hardware was given

  predicate AllowsCoalescing(u: Update)
  {
    u.Recovery? || u.coalesces
  }

  /** An update pushed as one that must not be coalesced with later ones. */
  predicate IsBarrier(u: Update)
  {
    u.Ordinary? && !u.coalesces
  }

  predicate NoBarrierBefore(us: seq<Update>, n: int)
    requires n <= |us|
  {
    forall i | 0 <= i < n :: !IsBarrier(us[i])
  }

  /** How many updates one batch takes: up to and including the first that must not be
      coalesced with later ones. */
  function Pulled(queue: seq<Update>): (n: nat)
    ensures n <= |queue|
    ensures queue != [] ==> n > 0
    ensures NoBarrierBefore(queue, n - 1)
    ensures n < |queue| ==> IsBarrier(queue[n - 1])
  {
    if queue == [] then 0
    else if !AllowsCoalescing(queue[0]) then 1
    else 1 + Pulled(queue[1..])
  }

  datatype Progress = Progress(state: State, next: nat)

  function Above(node: nat, next: nat): nat
  {
    if node < next then next else node + 1
  }

  /** One iteration of the loop that prepares the new state. */
  function Apply(u: Update, p: Progress): Progress
  {
    match u
    case Recovery(desired, applied) =>
      Progress(State(p.next, applied.generation + 1, desired.content), p.next + 1)
    case Ordinary(_, _, fn) =>
      match fn(p.state.content)
      case Changed(content) => Progress(State(p.next, p.state.generation + 1, content), p.next + 1)
      case Stored(state) => Progress(state, Above(state.node, p.next))
      case _ => p
  }

  function Fold(us: seq<Update>, p: Progress): Progress
  {
    if us == [] then p else Apply(us[|us| - 1], Fold(us[..|us| - 1], p))
  }

  predicate Raises(u: Update, content: Content)
  {
    u.Ordinary? && u.fn(content).Throw?
  }

  /** Completions by `onError`, in the order of the loop. */
  function Failures(us: seq<Update>, p: Progress): seq<Completion>
  {
    if us == [] then []
    else
      var before := us[..|us| - 1];
      var u := us[|us| - 1];
      Failures(before, p) + if Raises(u, Fold(before, p).state.content) then [Failed(u.id)] else []
  }

  /** Updates that stay on the batch's list, and so get `onSuccess`. */
  function Remaining(us: seq<Update>, p: Progress): seq<Update>
  {
    if us == [] then []
    else
      var before := us[..|us| - 1];
      var u := us[|us| - 1];
      Remaining(before, p) + if Raises(u, Fold(before, p).state.content) then [] else [u]
  }

  function Successes(us: seq<Update>): seq<Completion>
  {
    if us == [] then []
    else Successes(us[..|us| - 1]) + if us[|us| - 1].Ordinary? then [Succeeded(us[|us| - 1].id)] else []
  }

  function Start(w: World): Progress
  {
    Progress(w.applied, w.next)
  }

  /** The state the current batch asks hardware for. */
  function Target(w: World): State
  {
    Fold(w.batch, Start(w)).state
  }

  function OrdinaryOf(us: seq<Update>): seq<Update>
  {
    if us != [] && us[0].Recovery? then us[1..] else us
  }

  datatype Event =
    | Push(coalesces: bool, fn: Content -> Result)
    | Signal
    | Splice
    | Finish(hw: State)
    | Exit

  predicate Enabled(w: World, e: Event)
  {
    match e
    case Push(_, _) => true
    case Signal => w.unsignalled > 0
    case Splice => w.wakeups > 0 && w.batch == []
    case Finish(_) => w.batch != []
    case Exit => true
  }

  function Pushed(w: World, coalesces: bool, fn: Content -> Result): World
  {
    var u := Ordinary(|w.arrived|, coalesces, fn);
    w.(queue := w.queue + [u], arrived := w.arrived + [u], unsignalled := w.unsignalled + 1)
  }

  function Spliced(w: World): World
    requires w.wakeups > 0
  {
    var n := Pulled(w.queue);
    w.(batch := w.queue[..n], queue := w.queue[n..], wakeups := w.wakeups - 1)
  }

  /** `applyUpdate`: nothing happens when exiting, otherwise hardware is given the delta and
      answers with the state it now runs. */
  function GivenToHw(w: World, target: State, hw: State): World
  {
    if w.exiting then w
    else w.(applied := hw, desired := target, deltas := w.deltas + [Delta(w.applied, target)])
  }

  /** The recovery update goes to the front of the queue when hardware did not follow. */
  function Recovered(w: World, target: State): World
  {
    if w.applied != target then w.(queue := [Recovery(target, w.applied)] + w.queue) else w
  }

  function Finished(w: World, hw: State): World
  {
    var end := Fold(w.batch, Start(w));
    var done := w.(
      batch := [],
      next := Above(hw.node, end.next),
      handled := w.handled + |OrdinaryOf(w.batch)|,
      completions := w.completions + Failures(w.batch, Start(w)) + Successes(Remaining(w.batch, Start(w))));
    if end.state == w.applied then done else Recovered(GivenToHw(done, end.state, hw), end.state)
  }

  function Step(w: World, e: Event): World
    requires Enabled(w, e)
  {
    match e
    case Push(coalesces, fn) => Pushed(w, coalesces, fn)
    case Signal => w.(unsignalled := w.unsignalled - 1, wakeups := w.wakeups + 1)
    case Splice => Spliced(w)
    case Finish(hw) => Finished(w, hw)
    case Exit => w.(exiting := true)
  }

  ghost predicate Initial(w: World)
  {
    && w.applied == w.desired && w.applied.node < w.next
    && w.queue == w.batch == w.arrived == [] && w.unsignalled == w.wakeups == w.handled == 0
    && !w.exiting && w.completions == [] && w.deltas == []
  }

  ghost predicate StepsTo(w: World, e: Event, w': World)
  {
    Enabled(w, e) && w' == Step(w, e)
  }

  ghost predicate IsRun(worlds: seq<World>, events: seq<Event>)
  {
    && |worlds| == |events| + 1 && Initial(worlds[0])
    && forall i | 0 <= i < |events| :: StepsTo(worlds[i], events[i], worlds[i + 1])
  }
}
