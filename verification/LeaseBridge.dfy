/**
 * The transparent lease bridge: many concurrent calls share one lease and one acquisition. Each stretch
 * between two awaits is one atomic step, and any enabled step may come next.
 * Models `TransparentLeaseBridge` of packages/cli/src/mcp.ts.
 */
module LeaseBridge {
  import opened Wrappers

  datatype Proof = Proof(id: string, generation: int, epoch: string)
  datatype Code = StaleLease | BackgroundLease | OtherCode

  /** A gateway reply; `NotStarted` claims that the tool was never dispatched. */
  datatype Reply = Succeeded | NotStarted(code: Code) | Rejected(code: Code)

  /** The single-flight promise: resolved or refused first, settled once its `finally` has run. */
  datatype Promise = InFlight | Resolved(proof: Proof) | Refused | Settled(result: Option<Proof>)

  datatype Phase =
    | Entering(attempt: nat)
    | Waiting(attempt: nat, promise: nat)
    | HasProof(attempt: nat, proof: Option<Proof>)
    | Sent(attempt: nat, proof: Option<Proof>, executed: bool)
    | Releasing(attempt: nat)
    | Done
    | FellThrough

  datatype Call = Call(leased: bool, phase: Phase, replies: seq<Reply>, posts: nat, effects: nat)

  /** `acquiring` names the promise that the field holds. */
  datatype State = State(lease: Option<Proof>, acquiring: Option<nat>, promises: seq<Promise>, calls: seq<Call>)

  datatype Step =
    | Begin(leased: bool)
    | Enter(call: nat)
    | Acquired(promise: nat, result: Option<Proof>)
    | Finally(promise: nat)
    | Wake(call: nat)
    | Post(call: nat)
    | Execute(call: nat)
    | Receive(call: nat, reply: Reply)
    | Lose(call: nat)
    | Released(call: nat)
    | Close

  function Start(): State { State(None, None, [], []) }

  predicate Retriable(reply: Reply) {
    reply.NotStarted? && reply.code in {StaleLease, BackgroundLease}
  }

  predicate Unsettled(promise: Promise) { !promise.Settled? }

  /** Which steps may come next; a truthful gateway says `NotStarted` only of a tool it did not run. */
  predicate Enabled(s: State, step: Step, truthful: bool) {
    match step
    case Begin(_) => true
    case Enter(c) => c < |s.calls| && s.calls[c].phase.Entering?
    case Acquired(p, _) => p < |s.promises| && s.promises[p].InFlight?
    case Finally(p) => p < |s.promises| && (s.promises[p].Resolved? || s.promises[p].Refused?)
    case Wake(c) =>
      && c < |s.calls| && s.calls[c].phase.Waiting?
      && s.calls[c].phase.promise < |s.promises| && s.promises[s.calls[c].phase.promise].Settled?
    case Post(c) => c < |s.calls| && s.calls[c].phase.HasProof?
    case Execute(c) => c < |s.calls| && s.calls[c].phase.Sent? && !s.calls[c].phase.executed
    case Receive(c, reply) =>
      c < |s.calls| && s.calls[c].phase.Sent? && (truthful && reply.NotStarted? ==> !s.calls[c].phase.executed)
    case Lose(c) => c < |s.calls| && s.calls[c].phase.Sent?
    case Released(c) => c < |s.calls| && s.calls[c].phase.Releasing?
    case Close => true
  }

  function WithPhase(s: State, c: nat, phase: Phase): State
    requires c < |s.calls|
  {
    s.(calls := s.calls[c := s.calls[c].(phase := phase)])
  }

  /** ensureLease up to its first await, at the head of the retry loop. */
  function EnterLoop(s: State, c: nat): State
    requires c < |s.calls| && s.calls[c].phase.Entering?
  {
    var attempt := s.calls[c].phase.attempt;
    if attempt >= 2 then WithPhase(s, c, FellThrough)
    else if s.lease.Some? then WithPhase(s, c, HasProof(attempt, s.lease))
    else if s.acquiring.Some? then WithPhase(s, c, Waiting(attempt, s.acquiring.value))
    else WithPhase(s.(acquiring := Some(|s.promises|), promises := s.promises + [InFlight]), c,
                   Waiting(attempt, |s.promises|))
  }

  /** The stretch of `call` after its tool reply. */
  function HandleReply(s: State, c: nat, reply: Reply): State
    requires c < |s.calls| && s.calls[c].phase.Sent?
  {
    var call := s.calls[c];
    var noted := s.(calls := s.calls[c := call.(replies := call.replies + [reply])]);
    if !call.leased || !Retriable(reply) || call.phase.attempt > 0 then WithPhase(noted, c, Done)
    else if s.lease.None? || s.lease != call.phase.proof then WithPhase(noted, c, Entering(1))
    else if reply.code == BackgroundLease then WithPhase(noted.(lease := None), c, Releasing(1))
    else WithPhase(noted.(lease := None), c, Entering(1))
  }

  function Apply(s: State, step: Step): State
    requires Enabled(s, step, false)
  {
    match step
    case Begin(leased) =>
      s.(calls := s.calls + [Call(leased, if leased then Entering(0) else HasProof(0, None), [], 0, 0)])
    case Enter(c) => EnterLoop(s, c)
    case Acquired(p, result) =>
      if result.Some? then s.(lease := result, promises := s.promises[p := Resolved(result.value)])
      else s.(promises := s.promises[p := Refused])
    case Finally(p) =>
      s.(acquiring := None,
         promises := s.promises[p := Settled(if s.promises[p].Resolved? then Some(s.promises[p].proof) else None)])
    case Wake(c) =>
      var phase := s.calls[c].phase;
      var result := s.promises[phase.promise].result;
      WithPhase(s, c, if result.Some? then HasProof(phase.attempt, result) else Done)
    case Post(c) =>
      var phase := s.calls[c].phase;
      s.(calls :=
         s.calls[c := s.calls[c].(phase := Sent(phase.attempt, phase.proof, false), posts := s.calls[c].posts + 1)])
    case Execute(c) =>
      s.(calls :=
         s.calls[c := s.calls[c].(phase := s.calls[c].phase.(executed := true), effects := s.calls[c].effects + 1)])
    case Receive(c, reply) => HandleReply(s, c, reply)
    case Lose(c) => WithPhase(s, c, Done)
    case Released(c) => WithPhase(s, c, Entering(s.calls[c].phase.attempt))
    case Close => s.(lease := None)
  }

  // ----- what every interleaving keeps -----

  /** At most one promise is unsettled, and the field holds it. */
  predicate SingleFlight(s: State) {
    && (forall p :: 0 <= p < |s.promises| && Unsettled(s.promises[p]) ==> s.acquiring == Some(p))
    && (s.acquiring.Some? ==> s.acquiring.value < |s.promises| && Unsettled(s.promises[s.acquiring.value]))
  }

  function Attempt(phase: Phase): nat {
    match phase
    case Entering(a) => a
    case Waiting(a, _) => a
    case HasProof(a, _) => a
    case Sent(a, _, _) => a
    case Releasing(a) => a
    case Done => 0
    case FellThrough => 2
  }

  predicate Finished(phase: Phase) { phase.Done? }

  /** The first attempt has no reply behind it, the second exactly one retriable reply. */
  predicate CallOk(call: Call, promises: nat) {
    && !call.phase.FellThrough?
    && Attempt(call.phase) <= 1
    && (call.phase.Waiting? ==> call.phase.promise < promises)
    && (!Finished(call.phase) ==>
          && |call.replies| == Attempt(call.phase)
          && call.posts == |call.replies| + (if call.phase.Sent? then 1 else 0))
    && call.posts <= 2 && |call.replies| <= 2
    && (call.posts == 2 || Attempt(call.phase) == 1 ==>
          |call.replies| >= 1 && call.leased && Retriable(call.replies[0]))
  }

  /** The tool has run at most once, and not at all before the post that is in flight. */
  predicate EffectOk(call: Call) {
    && call.effects <= 1
    && (!Finished(call.phase) ==> call.effects == if call.phase.Sent? && call.phase.executed then 1 else 0)
  }

  predicate Inv(s: State) {
    SingleFlight(s) && forall c :: 0 <= c < |s.calls| ==> CallOk(s.calls[c], |s.promises|)
  }

  predicate AtMostOnce(s: State) {
    forall c :: 0 <= c < |s.calls| ==> EffectOk(s.calls[c])
  }

  lemma StepKeepsSingleFlight(s: State, step: Step, truthful: bool)
    requires SingleFlight(s) && Enabled(s, step, truthful)
    ensures SingleFlight(Apply(s, step))
  {
  }

  /** The call that the step is about. */
  function Subject(s: State, step: Step): nat {
    match step
    case Begin(_) => |s.calls|
    case Enter(c) => c
    case Wake(c) => c
    case Post(c) => c
    case Execute(c) => c
    case Receive(c, _) => c
    case Lose(c) => c
    case Released(c) => c
    case _ => |s.calls|
  }

  lemma OtherCallsStay(s: State, step: Step, truthful: bool)
    requires Enabled(s, step, truthful)
    ensures var after := Apply(s, step);
            && |after.promises| >= |s.promises|
            && (if step.Begin? then |after.calls| == |s.calls| + 1 else |after.calls| == |s.calls|)
            && forall c :: 0 <= c < |s.calls| && c != Subject(s, step) ==> after.calls[c] == s.calls[c]
  {
  }

  lemma SubjectStaysOk(s: State, step: Step, truthful: bool)
    requires Inv(s) && Enabled(s, step, truthful)
    ensures var after := Apply(s, step);
            Subject(s, step) < |after.calls| ==> CallOk(after.calls[Subject(s, step)], |after.promises|)
  {
    if Subject(s, step) < |s.calls| { assert CallOk(s.calls[Subject(s, step)], |s.promises|); }
  }

  lemma StepKeepsCalls(s: State, step: Step, truthful: bool)
    requires Inv(s) && Enabled(s, step, truthful)
    ensures var after := Apply(s, step); forall c :: 0 <= c < |after.calls| ==> CallOk(after.calls[c], |after.promises|)
  {
    OtherCallsStay(s, step, truthful);
    SubjectStaysOk(s, step, truthful);
    var after := Apply(s, step);
    hide Apply, Enabled, SingleFlight;
    forall c | 0 <= c < |after.calls|
      ensures CallOk(after.calls[c], |after.promises|)
    {
      if c != Subject(s, step) { assert CallOk(s.calls[c], |s.promises|); }
    }
  }

  lemma StepKeepsInv(s: State, step: Step, truthful: bool)
    requires Inv(s) && Enabled(s, step, truthful)
    ensures Inv(Apply(s, step))
  {
    hide Apply, Enabled;
    StepKeepsSingleFlight(s, step, truthful);
    StepKeepsCalls(s, step, truthful);
  }

  lemma StepKeepsAtMostOnce(s: State, step: Step)
    requires Inv(s) && AtMostOnce(s) && Enabled(s, step, true)
    ensures AtMostOnce(Apply(s, step))
  {
  }

  /** A run: any sequence of enabled steps. */
  predicate Runs(s: State, steps: seq<Step>, truthful: bool)
    decreases |steps|
  {
    steps == [] || (Enabled(s, steps[0], truthful) && Runs(Apply(s, steps[0]), steps[1..], truthful))
  }

  function After(s: State, steps: seq<Step>, truthful: bool): State
    requires Runs(s, steps, truthful)
    decreases |steps|
  {
    if steps == [] then s else After(Apply(s, steps[0]), steps[1..], truthful)
  }

  lemma {:induction false} RunKeepsInv(s: State, steps: seq<Step>, truthful: bool)
    requires Inv(s) && Runs(s, steps, truthful)
    ensures Inv(After(s, steps, truthful))
    decreases |steps|
  {
    if steps != [] {
      StepKeepsInv(s, steps[0], truthful);
      RunKeepsInv(Apply(s, steps[0]), steps[1..], truthful);
    }
  }

  lemma {:induction false} RunKeepsAtMostOnce(s: State, steps: seq<Step>)
    requires Inv(s) && AtMostOnce(s) && Runs(s, steps, true)
    ensures AtMostOnce(After(s, steps, true))
    decreases |steps|
  {
    if steps != [] {
      StepKeepsInv(s, steps[0], true);
      StepKeepsAtMostOnce(s, steps[0]);
      RunKeepsAtMostOnce(Apply(s, steps[0]), steps[1..]);
    }
  }

  // ----- what the bridge promises -----

  /**
   * In every interleaving, whatever the gateway answers: one acquisition at a time, at most two posts of a
   * tool, the second only after a retriable `not-started`, and the return after the loop is never reached.
   */
  lemma BridgeIsSafe(steps: seq<Step>, truthful: bool)
    requires Runs(Start(), steps, truthful)
    ensures var s := After(Start(), steps, truthful);
            && (forall p, q :: 0 <= p < |s.promises| && 0 <= q < |s.promises|
                                && s.promises[p].InFlight? && s.promises[q].InFlight?
                  ==> p == q)
            && forall c :: 0 <= c < |s.calls| ==>
                 && s.calls[c].posts <= 2 && !s.calls[c].phase.FellThrough?
                 && (s.calls[c].posts == 2 ==> s.calls[c].replies != [] && Retriable(s.calls[c].replies[0]))
  {
    RunKeepsInv(Start(), steps, truthful);
    var s := After(Start(), steps, truthful);
    forall p, q | 0 <= p < |s.promises| && 0 <= q < |s.promises| && s.promises[p].InFlight? && s.promises[q].InFlight?
      ensures p == q
    {
      assert Unsettled(s.promises[p]) && Unsettled(s.promises[q]);
    }
  }

  /** With a truthful gateway a tool takes effect at most once per call. */
  lemma ToolRunsAtMostOnce(steps: seq<Step>, c: nat)
    requires Runs(Start(), steps, true) && c < |After(Start(), steps, true).calls|
    ensures After(Start(), steps, true).calls[c].effects <= 1
  {
    RunKeepsAtMostOnce(Start(), steps);
  }

  /** A reply clears the shared lease only when the lease is still the proof the call was sent with. */
  lemma OldReplyKeepsNewerLease(s: State, c: nat, reply: Reply, truthful: bool)
    requires Enabled(s, Receive(c, reply), truthful)
    ensures var after := Apply(s, Receive(c, reply));
            after.lease != s.lease ==> after.lease == None && s.lease == s.calls[c].phase.proof && Retriable(reply)
  {
  }

  /**
   * The assumption on the gateway is needed: an untruthful `not-started` for a first post that did run
   * sends the call into its retry with the effect already spent.
   */
  lemma UntruthfulReplyRetriesAnEffect(s: State, c: nat, code: Code)
    requires Inv(s) && AtMostOnce(s) && c < |s.calls| && code in {StaleLease, BackgroundLease}
    requires s.calls[c].leased && s.calls[c].phase.Sent? && s.calls[c].phase.attempt == 0 && s.calls[c].phase.executed
    ensures Enabled(s, Receive(c, NotStarted(code)), false) && !Enabled(s, Receive(c, NotStarted(code)), true)
    ensures var after := Apply(s, Receive(c, NotStarted(code)));
            Attempt(after.calls[c].phase) == 1 && after.calls[c].effects == 1 && !AtMostOnce(after)
  {
    var after := Apply(s, Receive(c, NotStarted(code)));
    assert !EffectOk(after.calls[c]);
  }

  lemma {:induction false} RunsFurther(s: State, steps: seq<Step>, step: Step)
    requires Runs(s, steps, false) && Enabled(After(s, steps, false), step, false)
    ensures Runs(s, steps + [step], false) && After(s, steps + [step], false) == Apply(After(s, steps, false), step)
    decreases |steps|
  {
    if steps == [] {
      assert [step][1..] == [];
    } else {
      assert (steps + [step])[1..] == steps[1..] + [step];
      RunsFurther(Apply(s, steps[0]), steps[1..], step);
    }
  }

  /** One more step of a run from the start, with the state it leads to. */
  lemma Then(steps: seq<Step>, s: State, step: Step) returns (longer: seq<Step>, after: State)
    requires Runs(Start(), steps, false) && s == After(Start(), steps, false) && Enabled(s, step, false)
    ensures Runs(Start(), longer, false) && after == After(Start(), longer, false) == Apply(s, step)
  {
    RunsFurther(Start(), steps, step);
    longer, after := steps + [step], Apply(s, step);
  }

  /** The first post of a call has run the tool, and its reply is still to come. */
  function EffectSpent(): State {
    var proof := Some(Proof("a", 1, "e"));
    State(proof, None, [Settled(proof)], [Call(true, Sent(0, proof, true), [], 1, 1)])
  }

  lemma ReachesSpentEffect() returns (steps: seq<Step>)
    ensures Runs(Start(), steps, false) && After(Start(), steps, false) == EffectSpent()
  {
    hide Runs, After;
    var s := Start();
    steps := [];
    assert Runs(Start(), [], false) && After(Start(), [], false) == Start() by { NoSteps(); }
    steps, s := Then(steps, s, Begin(true));
    steps, s := Then(steps, s, Enter(0));
    steps, s := Then(steps, s, Acquired(0, Some(Proof("a", 1, "e"))));
    steps, s := Then(steps, s, Finally(0));
    steps, s := Then(steps, s, Wake(0));
    steps, s := Then(steps, s, Post(0));
    steps, s := Then(steps, s, Execute(0));
    assert s == EffectSpent();
  }

  /** And the retry runs the tool again: one call, two effects. */
  lemma UntruthfulReplyRunsTwice() returns (steps: seq<Step>)
    ensures Runs(Start(), steps, false)
    ensures var s := After(Start(), steps, false); |s.calls| == 1 && s.calls[0].effects == 2
  {
    hide Runs, After;
    steps := ReachesSpentEffect();
    var s := EffectSpent();
    steps, s := Then(steps, s, Receive(0, NotStarted(StaleLease)));
    steps, s := Then(steps, s, Enter(0));
    steps, s := Then(steps, s, Acquired(1, Some(Proof("b", 2, "e"))));
    steps, s := Then(steps, s, Finally(1));
    steps, s := Then(steps, s, Wake(0));
    steps, s := Then(steps, s, Post(0));
    steps, s := Then(steps, s, Execute(0));
  }

  lemma NoSteps()
    ensures Runs(Start(), [], false) && After(Start(), [], false) == Start()
  {
  }

  // ----- the class -----

  /** The two shared fields, with the callers and promises that the event loop keeps alongside. */
  class TransparentLeaseBridge {
    var lease: Option<Proof>
    var acquiring: Option<nat>
    ghost var promises: seq<Promise>
    ghost var calls: seq<Call>
    /** The number of acquisitions started, naming the next promise. */
    var started: nat

    ghost function View(): State
      reads this
    {
      State(lease, acquiring, promises, calls)
    }

    ghost predicate Valid()
      reads this
    {
      Inv(View()) && started == |promises|
    }

    constructor ()
      ensures Valid() && View() == Start()
    {
      lease, acquiring, promises, calls, started := None, None, [], [], 0;
    }

    /** ensureLease up to its first await. */
    method EnsureLease(ghost c: nat) returns (held: Option<Proof>)
      requires Valid() && Enabled(View(), Enter(c), false)
      modifies this
      ensures Valid() && View() == Apply(old(View()), Enter(c))
      ensures held == old(lease) && (held.None? ==> acquiring.Some?)
    {
      StepKeepsInv(View(), Enter(c), false);
      assert CallOk(calls[c], |promises|);
      ghost var next := Apply(View(), Enter(c));
      held := lease;
      if lease.None? && acquiring.None? {
        acquiring := Some(started);
        started := started + 1;
      }
      promises, calls := next.promises, next.calls;
    }

    /** The `then` of the acquisition. */
    method OnAcquired(p: nat, result: Option<Proof>)
      requires Valid() && Enabled(View(), Acquired(p, result), false)
      modifies this
      ensures Valid() && View() == Apply(old(View()), Acquired(p, result))
    {
      StepKeepsInv(View(), Acquired(p, result), false);
      ghost var next := Apply(View(), Acquired(p, result));
      if result.Some? { lease := result; }
      promises := next.promises;
    }

    /** The `finally` of the acquisition. */
    method OnSettled(p: nat)
      requires Valid() && Enabled(View(), Finally(p), false)
      modifies this
      ensures Valid() && View() == Apply(old(View()), Finally(p))
    {
      StepKeepsInv(View(), Finally(p), false);
      ghost var next := Apply(View(), Finally(p));
      acquiring := None;
      promises := next.promises;
    }

    /** The stretch of `call` after a leased tool reply: whether to go round again, and what to release first. */
    method OnReply(ghost c: nat, attempt: nat, proof: Option<Proof>, reply: Reply)
      returns (again: bool, release: Option<Proof>)
      requires Valid() && Enabled(View(), Receive(c, reply), false)
      requires calls[c].leased && attempt == calls[c].phase.attempt && proof == calls[c].phase.proof
      modifies this
      ensures Valid() && View() == Apply(old(View()), Receive(c, reply))
      ensures again <==> Retriable(reply) && attempt == 0
      ensures release.Some? ==> release == proof && old(lease) == proof && lease == None
    {
      StepKeepsInv(View(), Receive(c, reply), false);
      ghost var next := Apply(View(), Receive(c, reply));
      again, release := false, None;
      if Retriable(reply) && attempt == 0 {
        again := true;
        if lease.Some? && lease == proof {
          if reply.code == BackgroundLease { release := lease; }
          lease := None;
        }
      }
      calls := next.calls;
    }
  }
}
