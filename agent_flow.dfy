/** The agent pipeline animation (src/components/AgentFlow.tsx): the cards'
    per-index status updates and the timer schedule the mount effect registers.
    Timers are data; the browser firing one is the `Fire` step. */
module AgentFlow {
  import opened Wrappers
  import opened Seqs

  /** The card status (src/components/AgentCard.tsx). */
  datatype CardStatus = Idle | Loading | Complete {
    function Name(): string {
      match this
      case Idle => "idle"
      case Loading => "loading"
      case Complete => "complete"
    }
  }

  datatype AgentCard = AgentCard(icon: string, name: string, status: CardStatus, result: Option<string>)

  const StepMs: nat := 500
  const LoadingMs: nat := 1200
  const DoneResult: string := "Done"

  /** The cards shown when the parent passes none: four idle agents. */
  const DefaultAgents: seq<AgentCard> := [
    AgentCard("\U{1F9E0}", "Sentiment Analyzer", Idle, Some("OK")),
    AgentCard("\U{1F4F6}", "Network Analyzer", Idle, Some("OK")),
    AgentCard("\U{2694}\U{FE0F}", "Competitor Benchmark", Idle, Some("OK")),
    AgentCard("\U{1F4AC}", "Feedback Aggregator", Idle, Some("OK"))
  ]

  /** The cards the component starts from: the `agents` prop, or the defaults. */
  function InitialStates(agents: Option<seq<AgentCard>>): (states: seq<AgentCard>)
    ensures agents.Some? ==> states == agents.value
    ensures agents.None? ==> |states| == 4 && forall i :: 0 <= i < 4 ==> states[i].status == Idle
  {
    agents.GetOr(DefaultAgents)
  }

  /** The start timer's update: card `i` goes loading, nothing else changes. */
  function MarkLoading(states: seq<AgentCard>, i: nat): (r: seq<AgentCard>)
    ensures |r| == |states|
    ensures i < |states| ==> r[i] == states[i].(status := Loading)
    ensures forall j :: 0 <= j < |states| && j != i ==> r[j] == states[j]
  {
    seq(|states|, j requires 0 <= j < |states| => if j == i then states[j].(status := Loading) else states[j])
  }

  /** The finish timer's update: card `i` completes with result "Done",
      nothing else changes. */
  function MarkComplete(states: seq<AgentCard>, i: nat): (r: seq<AgentCard>)
    ensures |r| == |states|
    ensures i < |states| ==> r[i] == states[i].(status := Complete, result := Some(DoneResult))
    ensures forall j :: 0 <= j < |states| && j != i ==> r[j] == states[j]
  {
    seq(|states|, j requires 0 <= j < |states| =>
      if j == i then states[j].(status := Complete, result := Some(DoneResult)) else states[j])
  }

  datatype TimerKind = Start | Finish

  /** A registered timeout: whose card it updates, after how many
      milliseconds, and with which update. */
  datatype Timer = Timer(agent: nat, delay: nat, kind: TimerKind)

  function StartTimer(i: nat): Timer { Timer(i, StepMs * i, Start) }
  function FinishTimer(i: nat): Timer { Timer(i, StepMs * i + LoadingMs, Finish) }

  /** The timers for the first `n` agents, in registration order: each
      agent's start, then its finish. */
  function ScheduleFor(n: nat): (timers: seq<Timer>)
    ensures |timers| == 2 * n
  {
    if n == 0 then [] else ScheduleFor(n - 1) + [StartTimer(n - 1), FinishTimer(n - 1)]
  }

  /** Entry `2i` of the schedule starts agent `i` and entry `2i + 1` finishes it. */
  lemma {:induction false} ScheduleEntries(n: nat, i: nat)
    requires i < n
    ensures ScheduleFor(n)[2 * i] == StartTimer(i) && ScheduleFor(n)[2 * i + 1] == FinishTimer(i)
  {
    var pre := ScheduleFor(n - 1);
    assert ScheduleFor(n) == pre + [StartTimer(n - 1), FinishTimer(n - 1)];
    if i < n - 1 {
      ScheduleEntries(n - 1, i);
      assert ScheduleFor(n)[2 * i] == pre[2 * i] && ScheduleFor(n)[2 * i + 1] == pre[2 * i + 1];
    }
  }

  /** Agent `i` goes loading at 500·i ms and completes 1200 ms later; agent
      `i + 1` starts 500 ms after agent `i`. */
  lemma ScheduleTiming(n: nat, i: nat)
    requires i < n
    ensures ScheduleFor(n)[2 * i].delay == 500 * i
    ensures ScheduleFor(n)[2 * i + 1].delay == 500 * i + 1200
    ensures ScheduleFor(n)[2 * i].delay < ScheduleFor(n)[2 * i + 1].delay
    ensures i + 1 < n ==> ScheduleFor(n)[2 * (i + 1)].delay == ScheduleFor(n)[2 * i].delay + 500
  {
    ScheduleEntries(n, i);
    if i + 1 < n {
      ScheduleEntries(n, i + 1);
    }
  }

  /** `setTimeout(f, delay)` loop of the mount effect. */
  method Schedule(total: nat) returns (timers: seq<Timer>)
    ensures timers == ScheduleFor(total)
  {
    timers := [];
    for i := 0 to total
      invariant timers == ScheduleFor(i)
    {
      timers := timers + [StartTimer(i)];
      timers := timers + [FinishTimer(i)];
    }
  }

  /** The update a timer applies. */
  function ApplyTimer(states: seq<AgentCard>, t: Timer): seq<AgentCard> {
    match t.kind
    case Start => MarkLoading(states, t.agent)
    case Finish => MarkComplete(states, t.agent)
  }

  /** The cards after the given timers fire, in list order. */
  function ApplyAll(states: seq<AgentCard>, timers: seq<Timer>): (r: seq<AgentCard>)
    ensures |r| == |states|
    decreases |timers|
  {
    if timers == [] then states else ApplyAll(ApplyTimer(states, timers[0]), timers[1..])
  }

  /** Every card complete with result "Done", the rest of each card unchanged. */
  function AllDone(states: seq<AgentCard>): seq<AgentCard> {
    seq(|states|, j requires 0 <= j < |states| => states[j].(status := Complete, result := Some(DoneResult)))
  }

  lemma {:induction false} ApplyAllConcat(states: seq<AgentCard>, a: seq<Timer>, b: seq<Timer>)
    ensures ApplyAll(states, a + b) == ApplyAll(ApplyAll(states, a), b)
    decreases |a|
  {
    if a == [] {
      assert a + b == b;
    } else {
      assert (a + b)[0] == a[0] && (a + b)[1..] == a[1..] + b;
      assert ApplyAll(states, a + b) == ApplyAll(ApplyTimer(states, a[0]), a[1..] + b);
      ApplyAllConcat(ApplyTimer(states, a[0]), a[1..], b);
    }
  }

  lemma ApplyTwo(states: seq<AgentCard>, t: Timer, u: Timer)
    ensures ApplyAll(states, [t, u]) == ApplyTimer(ApplyTimer(states, t), u)
  {
    assert [t, u][1..] == [u];
    assert [u][1..] == [];
    var once := ApplyTimer(states, t);
    assert ApplyAll(states, [t, u]) == ApplyAll(once, [u]);
    assert ApplyAll(once, [u]) == ApplyAll(ApplyTimer(once, u), []);
  }

  /** Once the schedule for the first `n` cards has fired in registration
      order, those cards are done and the others untouched. */
  lemma {:induction false} SchedulePrefixCompletes(states: seq<AgentCard>, n: nat)
    requires n <= |states|
    ensures var r := ApplyAll(states, ScheduleFor(n));
      && (forall j :: 0 <= j < n ==> r[j] == states[j].(status := Complete, result := Some(DoneResult)))
      && (forall j :: n <= j < |states| ==> r[j] == states[j])
  {
    if n == 0 {
      assert ScheduleFor(0) == [];
    } else {
      SchedulePrefixCompletes(states, n - 1);
      var pre, t, u := ScheduleFor(n - 1), StartTimer(n - 1), FinishTimer(n - 1);
      var mid := ApplyAll(states, pre);
      assert ScheduleFor(n) == pre + [t, u];
      ApplyAllConcat(states, pre, [t, u]);
      ApplyTwo(mid, t, u);
      assert ApplyAll(states, ScheduleFor(n)) == ApplyTimer(ApplyTimer(mid, t), u);
      CompleteNext(states, mid, n - 1);
    }
  }

  /** Agent `i`'s two timers extend "the first `i` cards are done" to `i + 1`. */
  lemma CompleteNext(states: seq<AgentCard>, mid: seq<AgentCard>, i: nat)
    requires i < |states| && |mid| == |states|
    requires forall j :: 0 <= j < i ==> mid[j] == states[j].(status := Complete, result := Some(DoneResult))
    requires forall j :: i <= j < |states| ==> mid[j] == states[j]
    ensures var r := ApplyTimer(ApplyTimer(mid, StartTimer(i)), FinishTimer(i));
      && (forall j :: 0 <= j < i + 1 ==> r[j] == states[j].(status := Complete, result := Some(DoneResult)))
      && (forall j :: i + 1 <= j < |states| ==> r[j] == states[j])
  {
    var r := MarkComplete(MarkLoading(mid, i), i);
    assert ApplyTimer(ApplyTimer(mid, StartTimer(i)), FinishTimer(i)) == r;
  }

  /** Firing the whole schedule in registration order leaves every card done. */
  lemma FullScheduleCompletesAll(states: seq<AgentCard>)
    ensures ApplyAll(states, ScheduleFor(|states|)) == AllDone(states)
  {
    SchedulePrefixCompletes(states, |states|);
  }

  /** What one timer does to its own card. */
  function CardStep(c: AgentCard, kind: TimerKind): AgentCard {
    match kind
    case Start => c.(status := Loading)
    case Finish => c.(status := Complete, result := Some(DoneResult))
  }

  /** A card after its own timers fire, in list order. */
  function CardAfter(c: AgentCard, timers: seq<Timer>): AgentCard
    decreases |timers|
  {
    if timers == [] then c else CardAfter(CardStep(c, timers[0].kind), timers[1..])
  }

  /** The filter predicate "this timer updates card `j`". */
  function ForAgent(j: nat): Timer -> bool {
    (t: Timer) => t.agent == j
  }

  /** Card `j` after any firing order depends only on card `j`'s own timers,
      in the order they fire. */
  lemma {:induction false} ApplyAllAtCard(states: seq<AgentCard>, timers: seq<Timer>, j: nat)
    requires j < |states|
    ensures ApplyAll(states, timers)[j] == CardAfter(states[j], Filter(timers, ForAgent(j)))
    decreases |timers|
  {
    if timers != [] {
      var t := timers[0];
      var next := ApplyTimer(states, t);
      ApplyAllAtCard(next, timers[1..], j);
      assert ApplyAll(states, timers) == ApplyAll(next, timers[1..]);
      var rest := Filter(timers[1..], ForAgent(j));
      if t.agent == j {
        assert next[j] == CardStep(states[j], t.kind);
        assert Filter(timers, ForAgent(j)) == [t] + rest;
        assert ([t] + rest)[1..] == rest;
      } else {
        assert next[j] == states[j];
        assert Filter(timers, ForAgent(j)) == rest;
      }
    }
  }

  /** Whatever order the browser fires the timers in, as long as each card's
      start fires before its finish (its delay is 1200 ms shorter) and each
      exactly once, every card ends complete with result "Done". */
  lemma CompletesWhenEachStartPrecedesItsFinish(states: seq<AgentCard>, timers: seq<Timer>)
    requires forall j :: 0 <= j < |states| ==> Filter(timers, ForAgent(j)) == [StartTimer(j), FinishTimer(j)]
    ensures ApplyAll(states, timers) == AllDone(states)
  {
    forall j | 0 <= j < |states| ensures ApplyAll(states, timers)[j] == AllDone(states)[j] {
      CardCompletes(states, timers, j);
    }
  }

  /** A card whose own timers are its start, then its finish, ends done. */
  lemma CardCompletes(states: seq<AgentCard>, timers: seq<Timer>, j: nat)
    requires j < |states| && Filter(timers, ForAgent(j)) == [StartTimer(j), FinishTimer(j)]
    ensures ApplyAll(states, timers)[j] == states[j].(status := Complete, result := Some(DoneResult))
  {
    ApplyAllAtCard(states, timers, j);
    StartThenFinish(states[j], j);
  }

  lemma StartThenFinish(c: AgentCard, j: nat)
    ensures CardAfter(c, [StartTimer(j), FinishTimer(j)]) == c.(status := Complete, result := Some(DoneResult))
  {
    var two := [StartTimer(j), FinishTimer(j)];
    assert two[1..] == [FinishTimer(j)] && two[1..][1..] == [];
    assert CardAfter(c, two) == CardAfter(CardStep(CardStep(c, Start), Finish), []);
  }

  /** One mounted instance of the component. */
  class Run {
    var states: seq<AgentCard>
    var mounted: bool
    var timers: seq<Timer>
    /** Indices of the timers cleared by the cleanup, in clearing order. */
    var cleared: seq<nat>

    constructor (agents: Option<seq<AgentCard>>)
      ensures states == InitialStates(agents) && !mounted && timers == [] && cleared == []
    {
      states := InitialStates(agents);
      mounted := false;
      timers := [];
      cleared := [];
    }

    /** The mount effect of an unmounted instance: two fresh timers per card,
        as scheduled, none of them cleared yet. */
    method Mount()
      requires !mounted
      modifies this`mounted, this`timers, this`cleared
      ensures mounted && timers == ScheduleFor(|states|) && cleared == []
    {
      mounted := true;
      timers := Schedule(|states|);
      cleared := [];
    }

    /** The browser fires timer `k`: its update applies unless the timer was
        cleared or the component is unmounted. */
    method Fire(k: nat)
      requires k < |timers|
      modifies this`states
      ensures k in cleared || !mounted ==> states == old(states)
      ensures k !in cleared && mounted ==> states == ApplyTimer(old(states), timers[k])
    {
      if k in cleared || !mounted {
        return;
      }
      states := ApplyTimer(states, timers[k]);
    }

    /** The effect's cleanup: unmounts and clears every timer. */
    method Cleanup()
      modifies this`mounted, this`cleared
      ensures !mounted
      ensures cleared == old(cleared) + Indices(|timers|)
    {
      mounted := false;
      for i := 0 to |timers|
        invariant !mounted
        invariant cleared == old(cleared) + Indices(i)
      {
        assert Indices(i + 1) == Indices(i) + [i];
        cleared := cleared + [i];
      }
    }
  }

  /** `[0, 1, ..., n - 1]` */
  function Indices(n: nat): (r: seq<nat>)
    ensures |r| == n && forall i :: 0 <= i < n ==> r[i] == i
  {
    seq(n, i requires 0 <= i < n => i)
  }
}
