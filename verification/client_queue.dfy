/**
 The per-client command queue of the extension (extension/background.js): one promise chain per client, kept in a
 map that holds only the tail of each chain.
 */
module ClientQueues {
  import opened Options

  type Key = string
  type CommandId = nat

  /** `Ended` when the command has resolved or thrown; `Settled` when the tail promise behind it has. */
  datatype Phase = Waiting | Running | Ended(ok: bool) | Settled(ok: bool)

  /** `prev` is the tail the command was chained to, or none for an already resolved promise. */
  datatype Command = Command(key: Key, prev: Option<CommandId>, phase: Phase)

  datatype Queues = Queues(commands: seq<Command>, tails: map<Key, CommandId>)

  const GLOBAL_KEY: Key := "__global__"

  function KeyOf(clientId: string): Key {
    if clientId == "" then GLOBAL_KEY else clientId
  }

  function Enqueue(q: Queues, key: Key): Queues {
    var prev := if key in q.tails then Some(q.tails[key]) else None;
    Queues(q.commands + [Command(key, prev, Waiting)], q.tails[key := |q.commands|])
  }

  /** The callback chained to `prev` may run. */
  predicate CanStart(q: Queues, n: CommandId) {
    && n < |q.commands| && q.commands[n].phase == Waiting
    && (q.commands[n].prev.Some? ==> q.commands[n].prev.value < |q.commands| && q.commands[q.commands[n].prev.value].phase.Settled?)
  }

  function SetPhase(q: Queues, n: CommandId, phase: Phase): Queues
    requires n < |q.commands|
  {
    q.(commands := q.commands[n := q.commands[n].(phase := phase)])
  }

  /** The `finally` of the tail: the map forgets the chain only if this tail is still the last. */
  function Settle(q: Queues, n: CommandId): Queues
    requires n < |q.commands| && q.commands[n].phase.Ended?
  {
    var key := q.commands[n].key;
    SetPhase(q, n, Settled(q.commands[n].phase.ok)).(tails := if key in q.tails && q.tails[key] == n then q.tails - {key} else q.tails)
  }

  /** `commands` stands for the promises created so far, `clientQueues` is the map of the source. */
  class Background {
    var commands: seq<Command>
    var clientQueues: map<Key, CommandId>

    constructor ()
      ensures Model() == Queues([], map[])
    {
      commands, clientQueues := [], map[];
    }

    function Model(): Queues
      reads this
    {
      Queues(commands, clientQueues)
    }

    method EnqueueClientCommand(clientId: string) returns (run: CommandId)
      modifies this
      ensures run == |old(commands)| && Model() == Enqueue(old(Model()), KeyOf(clientId))
    {
      var key := if clientId == "" then GLOBAL_KEY else clientId;
      var prev := if key in clientQueues then Some(clientQueues[key]) else None;
      run := |commands|;
      commands := commands + [Command(key, prev, Waiting)];
      clientQueues := clientQueues[key := run];
    }

    method TailSettles(n: CommandId)
      requires n < |commands| && commands[n].phase.Ended?
      modifies this
      ensures Model() == Settle(old(Model()), n)
    {
      var key := commands[n].key;
      if key in clientQueues && clientQueues[key] == n {
        clientQueues := clientQueues - {key};
      }
      commands := commands[n := commands[n].(phase := Settled(commands[n].phase.ok))];
    }
  }

  // ---- runs ----

  datatype Step = Submitted(clientId: string) | Starts(command: CommandId) | Ends(command: CommandId, ok: bool) | Settles(command: CommandId)

  predicate Enabled(q: Queues, step: Step) {
    match step
    case Submitted(_) => true
    case Starts(n) => CanStart(q, n)
    case Ends(n, _) => n < |q.commands| && q.commands[n].phase == Running
    case Settles(n) => n < |q.commands| && q.commands[n].phase.Ended?
  }

  function Next(q: Queues, step: Step): Queues
    requires Enabled(q, step)
  {
    match step
    case Submitted(clientId) => Enqueue(q, KeyOf(clientId))
    case Starts(n) => SetPhase(q, n, Running)
    case Ends(n, ok) => SetPhase(q, n, Ended(ok))
    case Settles(n) => Settle(q, n)
  }

  // ---- the queue the chains stand for ----

  predicate Before(q: Queues, i: int, n: int) {
    0 <= i < n < |q.commands| && q.commands[i].key == q.commands[n].key
  }

  /** The unsettled commands of a key, in submission order. */
  function Line(q: Queues, key: Key): seq<CommandId> {
    LineUpTo(q, key, |q.commands|)
  }

  function LineUpTo(q: Queues, key: Key, n: nat): seq<CommandId>
    requires n <= |q.commands|
  {
    if n == 0 then []
    else LineUpTo(q, key, n - 1) + if q.commands[n - 1].key == key && !q.commands[n - 1].phase.Settled? then [n - 1] else []
  }

  lemma {:induction false} LineMembers(q: Queues, key: Key, n: nat)
    requires n <= |q.commands|
    ensures forall i: nat :: i in LineUpTo(q, key, n) <==> i < n && q.commands[i].key == key && !q.commands[i].phase.Settled?
    ensures forall i, j :: 0 <= i < j < |LineUpTo(q, key, n)| ==> LineUpTo(q, key, n)[i] < LineUpTo(q, key, n)[j]
  {
    if n > 0 {
      LineMembers(q, key, n - 1);
      var init := LineUpTo(q, key, n - 1);
      assert forall i :: 0 <= i < |init| ==> init[i] in init;
    }
  }

  /** A command that has started comes after nothing unsettled; the chain links each command to the one before it. */
  ghost predicate Chained(q: Queues, n: CommandId)
    requires n < |q.commands|
  {
    match q.commands[n].prev
    case None => forall i :: Before(q, i, n) ==> q.commands[i].phase.Settled?
    case Some(p) => Before(q, p, n) && forall i :: Before(q, i, n) ==> i <= p
  }

  ghost predicate Inv(q: Queues) {
    && (forall n :: 0 <= n < |q.commands| ==> Chained(q, n))
    && (forall n, i :: 0 <= n < |q.commands| && Before(q, i, n) && q.commands[n].phase != Waiting ==> q.commands[i].phase.Settled?)
    && (forall key :: key in q.tails ==>
          q.tails[key] < |q.commands| && q.commands[q.tails[key]].key == key && !q.commands[q.tails[key]].phase.Settled?)
    && (forall n :: 0 <= n < |q.commands| ==>
          if q.commands[n].key in q.tails then n <= q.tails[q.commands[n].key] else q.commands[n].phase.Settled?)
  }

  lemma PredecessorsSettled(q: Queues, n: CommandId)
    requires Inv(q) && CanStart(q, n)
    ensures forall i :: Before(q, i, n) ==> q.commands[i].phase.Settled?
  {
    assert Chained(q, n);
    if q.commands[n].prev.Some? {
      var p := q.commands[n].prev.value;
      forall i | Before(q, i, n) ensures q.commands[i].phase.Settled? {
        assert i < p ==> Before(q, i, p);
      }
    }
  }

  lemma EnqueueKeeps(q: Queues, key: Key)
    requires Inv(q)
    ensures Inv(Enqueue(q, key))
  {
    var q' := Enqueue(q, key);
    forall n | 0 <= n < |q'.commands| ensures Chained(q', n) {
      if n < |q.commands| {
        assert Chained(q, n);
        assert forall i :: Before(q', i, n) ==> Before(q, i, n);
      } else {
        forall i | Before(q', i, n) ensures if key in q.tails then i <= q.tails[key] else q'.commands[i].phase.Settled? {
          assert q'.commands[i] == q.commands[i];
        }
      }
    }
  }

  lemma PhaseKeeps(q: Queues, n: CommandId, phase: Phase)
    requires Inv(q) && n < |q.commands| && !phase.Settled? && !q.commands[n].phase.Settled? && phase != Waiting
    requires forall i :: Before(q, i, n) ==> q.commands[i].phase.Settled?
    ensures Inv(SetPhase(q, n, phase))
  {
    var q' := SetPhase(q, n, phase);
    forall m | 0 <= m < |q'.commands| ensures Chained(q', m) {
      assert Chained(q, m);
      assert forall i :: Before(q', i, m) ==> Before(q, i, m);
    }
    forall m, i | 0 <= m < |q'.commands| && Before(q', i, m) && q'.commands[m].phase != Waiting ensures q'.commands[i].phase.Settled? {
      assert Before(q, i, m);
    }
  }

  lemma SettleKeeps(q: Queues, n: CommandId)
    requires Inv(q) && n < |q.commands| && q.commands[n].phase.Ended?
    ensures Inv(Settle(q, n))
  {
    var q' := Settle(q, n);
    forall m | 0 <= m < |q'.commands| ensures Chained(q', m) {
      assert Chained(q, m);
      assert forall i :: Before(q', i, m) <==> Before(q, i, m);
    }
    forall m, i | 0 <= m < |q'.commands| && Before(q', i, m) && q'.commands[m].phase != Waiting ensures q'.commands[i].phase.Settled? {
      assert Before(q, i, m);
    }
    forall m | 0 <= m < |q'.commands| && q'.commands[m].key !in q'.tails ensures q'.commands[m].phase.Settled? {
      if q.commands[m].key in q.tails && m != n { assert Before(q, m, n); }
    }
  }

  lemma StepKeeps(q: Queues, step: Step)
    requires Inv(q) && Enabled(q, step)
    ensures Inv(Next(q, step))
  {
    match step
    case Submitted(clientId) => EnqueueKeeps(q, KeyOf(clientId));
    case Starts(n) => PredecessorsSettled(q, n); PhaseKeeps(q, n, Running);
    case Ends(n, ok) => PhaseKeeps(q, n, Ended(ok));
    case Settles(n) => SettleKeeps(q, n);
  }

  ghost predicate IsRun(states: seq<Queues>, steps: seq<Step>) {
    && |states| == |steps| + 1 && states[0] == Queues([], map[])
    && forall i :: 0 <= i < |steps| ==> Enabled(states[i], steps[i]) && states[i + 1] == Next(states[i], steps[i])
  }

  lemma {:induction false} RunKeepsInv(states: seq<Queues>, steps: seq<Step>, n: nat)
    requires IsRun(states, steps) && n < |states|
    ensures Inv(states[n])
  {
    if n > 0 {
      RunKeepsInv(states, steps, n - 1);
      hide Inv, Next, Enabled;
      StepKeeps(states[n - 1], steps[n - 1]);
    }
  }

  /** Commands of one client run in submission order and never overlap: one that has started, or ended, leaves only
      settled commands before it. */
  lemma InOrderWithoutOverlap(states: seq<Queues>, steps: seq<Step>, n: nat, i: CommandId, j: CommandId)
    requires IsRun(states, steps) && n < |states| && i < j < |states[n].commands|
    requires states[n].commands[i].key == states[n].commands[j].key && states[n].commands[j].phase != Waiting
    ensures states[n].commands[i].phase.Settled?
  {
    RunKeepsInv(states, steps, n);
    assert Before(states[n], i, j);
  }

  /** The map holds an entry for a client exactly while it has an unsettled command, and the entry is the command
      submitted last: deleting an entry never drops a live chain. */
  lemma MapHoldsTheLiveTails(states: seq<Queues>, steps: seq<Step>, n: nat, key: Key)
    requires IsRun(states, steps) && n < |states|
    ensures var q := states[n];
      && (key in q.tails <==> Line(q, key) != [])
      && (key in q.tails ==> q.tails[key] == Line(q, key)[|Line(q, key)| - 1])
  {
    RunKeepsInv(states, steps, n);
    TailIsLast(states[n], key);
  }

  lemma TailIsLast(q: Queues, key: Key)
    requires Inv(q)
    ensures key in q.tails <==> Line(q, key) != []
    ensures key in q.tails ==> q.tails[key] == Line(q, key)[|Line(q, key)| - 1]
  {
    var line := Line(q, key);
    LineMembers(q, key, |q.commands|);
    if line != [] {
      var last := line[|line| - 1];
      assert last in line && last < |q.commands| && q.commands[last].key == key && !q.commands[last].phase.Settled?;
    }
    if key in q.tails {
      assert q.tails[key] in line;
    }
  }

  /** Whatever the commands before it did, resolved or threw, a waiting command can start exactly when it is at the
      head of its client's line; a head that is not waiting is running or about to settle. So no client's line stalls. */
  lemma HeadCanAlwaysGo(states: seq<Queues>, steps: seq<Step>, n: nat, i: CommandId)
    requires IsRun(states, steps) && n < |states| && i < |states[n].commands| && !states[n].commands[i].phase.Settled?
    ensures var q := states[n];
      var line := Line(q, q.commands[i].key);
      var atHead := line != [] && line[0] == i;
      && (q.commands[i].phase == Waiting ==> (CanStart(q, i) <==> atHead))
      && (q.commands[i].phase != Waiting ==> atHead)
  {
    RunKeepsInv(states, steps, n);
    var q := states[n];
    var line := Line(q, q.commands[i].key);
    LineMembers(q, q.commands[i].key, |q.commands|);
    assert i in line;
    var head := line[0];
    assert head in line && head <= i;
    assert Chained(q, i);
    if head < i {
      assert Before(q, head, i);
      if CanStart(q, i) { PredecessorsSettled(q, i); }
    } else if q.commands[i].prev.Some? {
      var p := q.commands[i].prev.value;
      assert Before(q, p, i) && p !in line;
    }
  }

  // ---- clients do not wait for one another ----

  /** The client ids given with the commands, in the order of submission. */
  function Submissions(steps: seq<Step>): seq<string> {
    if steps == [] then []
    else Submissions(steps[..|steps| - 1]) + if steps[|steps| - 1].Submitted? then [steps[|steps| - 1].clientId] else []
  }

  /** Commands given without a client id share the queue of a client of that very name. */
  predicate Together(a: string, b: string) {
    a == b || (a in {"", "__global__"} && b in {"", "__global__"})
  }

  ghost predicate HasEnded(steps: seq<Step>, i: CommandId) {
    Ends(i, true) in steps || Ends(i, false) in steps
  }

  /** How far a command has come is what the steps so far say. */
  ghost predicate PhaseIsHistory(phase: Phase, steps: seq<Step>, i: CommandId) {
    && (phase.Waiting? <==> Starts(i) !in steps)
    && (phase.Settled? <==> Settles(i) in steps)
    && (HasEnded(steps, i) <==> phase.Ended? || phase.Settled?)
  }

  ghost predicate Recalls(q: Queues, steps: seq<Step>) {
    && |q.commands| == |Submissions(steps)|
    && (forall i :: 0 <= i < |q.commands| ==>
          q.commands[i].key == KeyOf(Submissions(steps)[i]) && PhaseIsHistory(q.commands[i].phase, steps, i))
    && (forall i :: |q.commands| <= i ==> Starts(i) !in steps && Settles(i) !in steps && !HasEnded(steps, i))
  }

  lemma StepRecalls(q: Queues, steps: seq<Step>, step: Step)
    requires Recalls(q, steps) && Enabled(q, step)
    ensures Recalls(Next(q, step), steps + [step])
  {
    var later, q' := steps + [step], Next(q, step);
    assert later[..|later| - 1] == steps;
    assert forall x :: x in later <==> x in steps || x == step;
    if step.Submitted? {
      assert Submissions(later) == Submissions(steps) + [step.clientId];
      hide Submissions;
      forall i | 0 <= i < |q'.commands| ensures PhaseIsHistory(q'.commands[i].phase, later, i) {
        assert i < |q.commands| ==> PhaseIsHistory(q.commands[i].phase, steps, i);
      }
    } else {
      assert Submissions(later) == Submissions(steps) + [] == Submissions(steps);
      hide Submissions;
      PhasesRecall(q, steps, step);
    }
  }

  lemma PhasesRecall(q: Queues, steps: seq<Step>, step: Step)
    requires Recalls(q, steps) && Enabled(q, step) && !step.Submitted?
    ensures var later, q' := steps + [step], Next(q, step);
      && |q'.commands| == |q.commands|
      && forall i :: 0 <= i < |q'.commands| ==> q'.commands[i].key == q.commands[i].key && PhaseIsHistory(q'.commands[i].phase, later, i)
  {
    var later, q' := steps + [step], Next(q, step);
    hide Submissions, KeyOf;
    forall i | 0 <= i < |q'.commands| ensures PhaseIsHistory(q'.commands[i].phase, later, i) {
      assert PhaseIsHistory(q.commands[i].phase, steps, i);
      PhaseRecalls(q.commands[i].phase, q'.commands[i].phase, steps, step, i);
    }
  }

  /** What a step other than a submission makes of command `i`. */
  predicate Moves(phase: Phase, phase': Phase, step: Step, i: CommandId) {
    match step
    case Submitted(_) => false
    case Starts(n) => if i == n then phase.Waiting? && phase'.Running? else phase' == phase
    case Ends(n, ok) => if i == n then phase.Running? && phase' == Ended(ok) else phase' == phase
    case Settles(n) => if i == n then phase.Ended? && phase'.Settled? else phase' == phase
  }

  lemma PhaseRecalls(phase: Phase, phase': Phase, steps: seq<Step>, step: Step, i: CommandId)
    requires PhaseIsHistory(phase, steps, i) && Moves(phase, phase', step, i)
    ensures PhaseIsHistory(phase', steps + [step], i)
  {
    assert forall x :: x in steps + [step] <==> x in steps || x == step;
  }

  lemma {:induction false} RunRecalls(states: seq<Queues>, steps: seq<Step>, n: nat)
    requires IsRun(states, steps) && n < |states|
    ensures Recalls(states[n], steps[..n])
  {
    if n > 0 {
      RunRecalls(states, steps, n - 1);
      assert steps[..n] == steps[..n - 1] + [steps[n - 1]];
      hide Recalls, Next, Enabled;
      StepRecalls(states[n - 1], steps[..n - 1], steps[n - 1]);
    }
  }

  /** Whatever commands of other clients are doing, a command can start exactly once it has been submitted and has not
      started, and all commands submitted before it for the same client have settled. It can end exactly while it is
      started and has not ended, and settle exactly when it has ended and not settled. */
  lemma ClientsAreApart(states: seq<Queues>, steps: seq<Step>, n: nat, i: CommandId, ok: bool)
    requires IsRun(states, steps) && n < |states|
    ensures var past, ids := steps[..n], Submissions(steps[..n]);
      && (Enabled(states[n], Starts(i)) <==>
            i < |ids| && Starts(i) !in past && forall j :: 0 <= j < i && Together(ids[j], ids[i]) ==> Settles(j) in past)
      && (Enabled(states[n], Ends(i, ok)) <==> Starts(i) in past && !HasEnded(past, i))
      && (Enabled(states[n], Settles(i)) <==> HasEnded(past, i) && Settles(i) !in past)
  {
    RunRecalls(states, steps, n);
    var q, past, ids := states[n], steps[..n], Submissions(steps[..n]);
    if i < |ids| && q.commands[i].phase.Waiting? {
      RunKeepsInv(states, steps, n);
      assert forall j :: 0 <= j < i ==> (Before(q, j, i) <==> Together(ids[j], ids[i]));
      assert Chained(q, i);
      hide Recalls, Together;
      if CanStart(q, i) { PredecessorsSettled(q, i); }
    }
  }
}
