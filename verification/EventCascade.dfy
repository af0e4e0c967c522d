/**
 Event cascades: a completed execution publishes an event, the events agent turns it into an execution of the linked
 actor, which completes in turn (actors/models.py, Event and finalize_execution; actors/events.py).  The actors and
 their links stay as they are while the cascade runs.
 */
module EventCascade {
  import opened LinkGraph
  import ActorRegistry

  datatype Platform = Platform(actors: set<string>, links: Links)

  /**
   The queued messages (by actor) and events (by linked actor), and four counters: messages posted by users, status
   events of actors that no delivery causes (ACTOR_READY and ACTOR_ERROR from a spawner), executions added, and
   deliveries that were repeated because the message was requeued or a process died before acknowledging it.

   Complete is the end of a delivery.  Its event is EXECUTION_COMPLETE, or ACTOR_ERROR when the execution failed; a
   delivery publishes at most one of them.
   */
  datatype State = State(
    messages: seq<string>, events: seq<string>, posted: nat, announced: nat, executions: nat, repeats: nat)

  datatype Action =
    | Post(actor: string)
    | Announce(actor: string)
    | Complete(message: nat, published: bool, settled: bool)
    | Process(event: nat, sent: bool, settled: bool)

  /** Only registered actors have links, and the empty id is no actor's. */
  predicate Proper(p: Platform) {
    p.links.Keys <= p.actors && NOTHING !in p.actors
  }

  predicate Enabled(p: Platform, s: State, a: Action) {
    match a
    case Post(actor) => actor in p.actors
    case Announce(actor) => true
    case Complete(i, _, _) => i < |s.messages|
    case Process(i, _, _) => i < |s.events|
  }

  function Without(q: seq<string>, i: nat): seq<string>
    requires i < |q|
  {
    q[..i] + q[i+1..]
  }

  function Step(p: Platform, s: State, a: Action): State
    requires Enabled(p, s, a)
  {
    match a
    case Post(actor) => s.(messages := s.messages + [actor], posted := s.posted + 1, executions := s.executions + 1)
    case Announce(actor) =>
      var link := Next(p.links, actor);
      s.(events := if link != NOTHING then s.events + [link] else s.events, announced := s.announced + 1)
    case Complete(i, published, settled) =>
      var link := Next(p.links, s.messages[i]);
      s.(messages := if settled then Without(s.messages, i) else s.messages,
         events := if published && link != NOTHING then s.events + [link] else s.events,
         repeats := if settled then s.repeats else s.repeats + 1)
    case Process(i, sent, settled) =>
      var link := s.events[i];
      s.(messages := if sent && link in p.actors then s.messages + [link] else s.messages,
         events := if settled then Without(s.events, i) else s.events,
         executions := if link in p.actors then s.executions + 1 else s.executions,
         repeats := if settled then s.repeats else s.repeats + 1)
  }

  predicate CanRun(p: Platform, s: State, actions: seq<Action>)
    decreases |actions|
  {
    actions == [] || (Enabled(p, s, actions[0]) && CanRun(p, Step(p, s, actions[0]), actions[1..]))
  }

  function Run(p: Platform, s: State, actions: seq<Action>): State
    requires CanRun(p, s, actions)
    decreases |actions|
  {
    if actions == [] then s else Run(p, Step(p, s, actions[0]), actions[1..])
  }

  const IDLE := State([], [], 0, 0, 0, 0)

  // ---------------------------------------------------------------------------------------------
  // What an event can still cause
  // ---------------------------------------------------------------------------------------------

  /** The length of the path of links from an event's target, through actors that it has not visited yet. */
  ghost function Chain(links: Links, actors: set<string>, target: string): (n: nat)
    ensures n <= |actors|
    decreases actors
  {
    if target !in actors then 0 else 1 + Chain(links, actors - {target}, Next(links, target))
  }

  ghost predicate Reaches(links: Links, x: string, y: string) {
    exists n: nat :: Follow(links, x, n) == y
  }

  lemma NextReachesNoMore(links: Links, x: string, y: string) returns (n: nat)
    requires x != NOTHING && y != NOTHING && Reaches(links, Next(links, x), y)
    ensures n >= 1 && Follow(links, x, n) == y
  {
    var m: nat :| Follow(links, Next(links, x), m) == y;
    assert Follow(links, x, 0) == x;
    assert Follow(links, x, 1) == Next(links, x);
    if Next(links, x) == NOTHING {
      WalkStaysEnded(links, NOTHING, 0, m);
    }
    FollowAdds(links, x, 1, m);
    return 1 + m;
  }

  /** An actor that the path does not reach does not count. */
  lemma {:induction false} ChainAvoids(links: Links, actors: set<string>, x: string, a: string)
    requires a != NOTHING && NOTHING !in actors && !Reaches(links, x, a)
    ensures Chain(links, actors, x) == Chain(links, actors - {a}, x)
    decreases actors
  {
    if x in actors {
      assert Follow(links, x, 0) == x;
      if Reaches(links, Next(links, x), a) {
        var n := NextReachesNoMore(links, x, a);
        assert false;
      }
      ChainAvoids(links, actors - {x}, Next(links, x), a);
      assert actors - {x} - {a} == actors - {a} - {x};
    }
  }

  /** Without cycles, an execution's event has one execution less to cause than the event before it. */
  lemma ChainShortens(p: Platform, a: string)
    requires Proper(p) && !HasCycle(p.links) && a in p.actors
    ensures Chain(p.links, p.actors, a) == 1 + Chain(p.links, p.actors, Next(p.links, a))
  {
    if Reaches(p.links, Next(p.links, a), a) {
      var n := NextReachesNoMore(p.links, a, a);
      assert false by { assert OnCycle(p.links, a); }
    }
    ChainAvoids(p.links, p.actors, Next(p.links, a), a);
  }

  ghost function AfterMessage(p: Platform, actor: string): nat {
    Chain(p.links, p.actors, Next(p.links, actor))
  }

  ghost function Sum(f: string -> nat, q: seq<string>): nat {
    if q == [] then 0 else f(q[0]) + Sum(f, q[1..])
  }

  lemma {:induction false} SumAdds(f: string -> nat, q: seq<string>, r: seq<string>)
    ensures Sum(f, q + r) == Sum(f, q) + Sum(f, r)
  {
    if q == [] {
      assert q + r == r;
    } else {
      assert (q + r)[1..] == q[1..] + r;
      SumAdds(f, q[1..], r);
    }
  }

  lemma SumOfOne(f: string -> nat, q: seq<string>, x: string)
    ensures Sum(f, q + [x]) == Sum(f, q) + f(x)
  {
    SumAdds(f, q, [x]);
    assert Sum(f, [x]) == f(x) + Sum(f, []);
  }

  lemma {:induction false} SumWithout(f: string -> nat, q: seq<string>, i: nat)
    requires i < |q|
    ensures Sum(f, Without(q, i)) == Sum(f, q) - f(q[i])
    decreases i
  {
    if i == 0 {
      assert Without(q, 0) == q[1..];
    } else {
      assert Without(q, i)[1..] == Without(q[1..], i - 1);
      SumWithout(f, q[1..], i - 1);
    }
  }

  /** The executions that may still come, and the steps that may still be taken. */
  ghost function Pending(p: Platform, s: State): nat {
    Sum(x => AfterMessage(p, x), s.messages) + Sum(x => Chain(p.links, p.actors, x), s.events)
  }

  ghost function Outstanding(p: Platform, s: State): nat {
    2 * Pending(p, s) + 2 * |s.messages| + |s.events|
  }

  ghost predicate Inv(p: Platform, s: State) {
    forall m :: m in s.messages ==> m in p.actors
  }

  /** Deliveries that users, status changes or failures brought in. */
  function Budget(s: State): nat {
    s.posted + s.announced + s.repeats
  }

  /** A step that brings in nothing uses up what is pending; one that does may add what one delivery can cause. */
  ghost predicate Paid(p: Platform, s: State, next: State) {
    if Budget(next) == Budget(s) then
      Pending(p, next) + next.executions <= Pending(p, s) + s.executions &&
      Outstanding(p, next) < Outstanding(p, s)
    else
      Budget(next) == Budget(s) + 1 &&
      Pending(p, next) + next.executions <= Pending(p, s) + s.executions + |p.actors| &&
      Outstanding(p, next) <= Outstanding(p, s) + 2 * |p.actors|
  }

  lemma PostIsPaid(p: Platform, s: State, actor: string)
    requires Proper(p) && !HasCycle(p.links) && actor in p.actors
    ensures Paid(p, s, Step(p, s, Post(actor)))
  {
    SumOfOne(x => AfterMessage(p, x), s.messages, actor);
    ChainShortens(p, actor);
  }

  lemma AnnounceIsPaid(p: Platform, s: State, actor: string)
    requires Proper(p) && !HasCycle(p.links)
    ensures Paid(p, s, Step(p, s, Announce(actor)))
  {
    SumOfOne(x => Chain(p.links, p.actors, x), s.events, Next(p.links, actor));
    if actor in p.links {
      ChainShortens(p, actor);
    }
  }

  lemma CompleteIsPaid(p: Platform, s: State, i: nat, published: bool, settled: bool)
    requires Proper(p) && !HasCycle(p.links) && i < |s.messages| && Inv(p, s)
    ensures Paid(p, s, Step(p, s, Complete(i, published, settled)))
  {
    var actor := s.messages[i];
    SumWithout(x => AfterMessage(p, x), s.messages, i);
    SumOfOne(x => Chain(p.links, p.actors, x), s.events, Next(p.links, actor));
    ChainShortens(p, actor);
  }

  lemma ProcessIsPaid(p: Platform, s: State, i: nat, sent: bool, settled: bool)
    requires Proper(p) && !HasCycle(p.links) && i < |s.events|
    ensures Paid(p, s, Step(p, s, Process(i, sent, settled)))
  {
    var link := s.events[i];
    SumWithout(x => Chain(p.links, p.actors, x), s.events, i);
    SumOfOne(x => AfterMessage(p, x), s.messages, link);
    if link in p.actors {
      ChainShortens(p, link);
    }
  }

  lemma StepIsPaid(p: Platform, s: State, a: Action)
    requires Proper(p) && !HasCycle(p.links) && Enabled(p, s, a) && Inv(p, s)
    ensures Paid(p, s, Step(p, s, a)) && Inv(p, Step(p, s, a))
  {
    match a
    case Post(actor) => PostIsPaid(p, s, actor);
    case Announce(actor) => AnnounceIsPaid(p, s, actor);
    case Complete(i, published, settled) => CompleteIsPaid(p, s, i, published, settled);
    case Process(i, sent, settled) => ProcessIsPaid(p, s, i, sent, settled);
  }

  /** An amount of at most so much for each delivery in the budget. */
  predicate Within(amount: nat, budget: nat, each: nat) {
    amount <= budget * each
  }

  lemma OneMore(amount: nat, more: nat, budget: nat, each: nat)
    requires Within(amount, budget, each) && more <= amount + each
    ensures Within(more, budget + 1, each)
  {
  }

  /** After a number of steps, executions and steps, done or pending, are within the budget. */
  ghost predicate Funded(p: Platform, s: State, steps: nat) {
    Within(s.executions + Pending(p, s), Budget(s), |p.actors|) &&
    Within(steps + Outstanding(p, s), Budget(s), 2 * |p.actors| + 1)
  }

  lemma StepKeepsFunded(p: Platform, s: State, next: State, steps: nat)
    requires Funded(p, s, steps) && Paid(p, s, next)
    ensures Funded(p, next, steps + 1)
  {
    if Budget(next) == Budget(s) + 1 {
      OneMore(s.executions + Pending(p, s), next.executions + Pending(p, next), Budget(s), |p.actors|);
      OneMore(steps + Outstanding(p, s), steps + 1 + Outstanding(p, next), Budget(s), 2 * |p.actors| + 1);
    }
  }

  lemma {:induction false} RunIsFunded(p: Platform, s: State, actions: seq<Action>, steps: nat)
    requires Proper(p) && !HasCycle(p.links) && Inv(p, s) && CanRun(p, s, actions) && Funded(p, s, steps)
    ensures Funded(p, Run(p, s, actions), steps + |actions|)
    decreases |actions|
  {
    if actions != [] {
      StepIsPaid(p, s, actions[0]);
      StepKeepsFunded(p, s, Step(p, s, actions[0]), steps);
      RunIsFunded(p, Step(p, s, actions[0]), actions[1..], steps + 1);
    }
  }

  lemma StartIsFunded(p: Platform)
    ensures Funded(p, IDLE, 0) && Inv(p, IDLE)
  {
    assert Sum(x => AfterMessage(p, x), []) == 0 && Sum(x => Chain(p.links, p.actors, x), []) == 0;
    assert Pending(p, IDLE) == 0 && Outstanding(p, IDLE) == 0;
  }

  lemma FundedIsWithin(p: Platform, s: State, steps: nat)
    requires Funded(p, s, steps)
    ensures Within(s.executions, Budget(s), |p.actors|) && Within(steps, Budget(s), 2 * |p.actors| + 1)
  {
  }

  /**
   Without cycles, each posted message, status event and repeated delivery accounts for at most as many executions as
   there are actors, over every run; and every cascade stops.
   */
  lemma CascadesStop(p: Platform, actions: seq<Action>)
    requires Proper(p) && !HasCycle(p.links) && CanRun(p, IDLE, actions)
    ensures var end := Run(p, IDLE, actions);
            Within(end.executions, Budget(end), |p.actors|) &&
            Within(|actions|, Budget(end), 2 * |p.actors| + 1)
  {
    StartIsFunded(p);
    RunIsFunded(p, IDLE, actions, 0);
    FundedIsWithin(p, Run(p, IDLE, actions), |actions|);
  }

  // ---------------------------------------------------------------------------------------------
  // Conservation
  // ---------------------------------------------------------------------------------------------

  datatype Kind = Posted | Announced | Published | Sent | Caused | Repeated | Completed | Processed

  /** What happens in a step: a message or an event is added, an execution is added for an event, or one is settled. */
  ghost predicate Happens(p: Platform, s: State, a: Action, kind: Kind)
    requires Enabled(p, s, a)
  {
    match kind
    case Posted => a.Post?
    case Announced => a.Announce?
    case Published =>
      || (a.Announce? && Next(p.links, a.actor) != NOTHING)
      || (a.Complete? && a.published && Next(p.links, s.messages[a.message]) != NOTHING)
    case Sent => a.Process? && a.sent && s.events[a.event] in p.actors
    case Caused => a.Process? && s.events[a.event] in p.actors
    case Repeated => (a.Complete? || a.Process?) && !a.settled
    case Completed => a.Complete? && a.settled
    case Processed => a.Process? && a.settled
  }

  ghost function Happened(p: Platform, s: State, a: Action, kind: Kind): nat
    requires Enabled(p, s, a)
  {
    if Happens(p, s, a, kind) then 1 else 0
  }

  ghost function Tally(p: Platform, s: State, actions: seq<Action>, kind: Kind): nat
    requires CanRun(p, s, actions)
    decreases |actions|
  {
    if actions == [] then 0
    else Happened(p, s, actions[0], kind) + Tally(p, Step(p, s, actions[0]), actions[1..], kind)
  }

  lemma StepMovesQueues(p: Platform, s: State, a: Action)
    requires Enabled(p, s, a)
    ensures var t := Step(p, s, a);
            && |t.messages| + Happened(p, s, a, Completed)
                 == |s.messages| + Happened(p, s, a, Posted) + Happened(p, s, a, Sent)
            && |t.events| + Happened(p, s, a, Processed) == |s.events| + Happened(p, s, a, Published)
  {
  }

  lemma StepCounts(p: Platform, s: State, a: Action)
    requires Enabled(p, s, a)
    ensures var t := Step(p, s, a);
            && t.executions == s.executions + Happened(p, s, a, Posted) + Happened(p, s, a, Caused)
            && t.posted == s.posted + Happened(p, s, a, Posted)
            && t.announced == s.announced + Happened(p, s, a, Announced)
            && t.repeats == s.repeats + Happened(p, s, a, Repeated)
  {
  }

  /**
   Over every run: an execution was posted or caused by a processed event, whether or not its message could be sent;
   messages are posted or sent, and stay until a delivery is settled; and events are published, and stay until they are
   settled.
   */
  lemma {:induction false} MessagesAndEventsAreConserved(p: Platform, s: State, actions: seq<Action>)
    requires CanRun(p, s, actions)
    ensures var end := Run(p, s, actions);
            && end.executions == s.executions + Tally(p, s, actions, Posted) + Tally(p, s, actions, Caused)
            && |end.messages| + Tally(p, s, actions, Completed)
                 == |s.messages| + Tally(p, s, actions, Posted) + Tally(p, s, actions, Sent)
            && |end.events| + Tally(p, s, actions, Processed) == |s.events| + Tally(p, s, actions, Published)
            && end.posted == s.posted + Tally(p, s, actions, Posted)
            && end.announced == s.announced + Tally(p, s, actions, Announced)
            && end.repeats == s.repeats + Tally(p, s, actions, Repeated)
    decreases |actions|
  {
    if actions != [] {
      StepMovesQueues(p, s, actions[0]);
      StepCounts(p, s, actions[0]);
      MessagesAndEventsAreConserved(p, Step(p, s, actions[0]), actions[1..]);
    }
  }

  // ---------------------------------------------------------------------------------------------
  // With a cycle
  // ---------------------------------------------------------------------------------------------

  /** One execution round after another: the event of each is processed, and the next actor runs. */
  function Rounds(n: nat): seq<Action> {
    if n == 0 then [] else [Complete(0, true, true), Process(0, true, true)] + Rounds(n - 1)
  }

  lemma {:induction false} CycleKeepsRunning(p: Platform, s: State, x: string, n: nat)
    requires Proper(p) && OnCycle(p.links, x) && s.messages == [x] && s.events == []
    ensures CanRun(p, s, Rounds(n))
    ensures var end := Run(p, s, Rounds(n));
            end.executions == s.executions + n && end.posted == s.posted && end.repeats == s.repeats &&
            end.announced == s.announced
    decreases n
  {
    if n > 0 {
      var link := Next(p.links, x);
      NextIsOnCycle(p.links, x);
      CycleNodesHaveLinks(p.links, link);
      var rounds := Rounds(n);
      var completed := Step(p, s, rounds[0]);
      assert completed.messages == [] && completed.events == [link];
      var next := Step(p, completed, rounds[1]);
      assert next.messages == [link] && next.events == [];
      assert rounds[1..][0] == rounds[1] && rounds[1..][1..] == Rounds(n - 1);
      CycleKeepsRunning(p, next, link, n - 1);
    }
  }

  ghost predicate Bounded(p: Platform, actions: seq<Action>, bound: nat) {
    CanRun(p, IDLE, actions) ==>
      Within(Run(p, IDLE, actions).executions, Budget(Run(p, IDLE, actions)), bound)
  }

  ghost predicate ExecutionsBounded(p: Platform, bound: nat) {
    forall actions :: Bounded(p, actions, bound)
  }

  lemma OnePostRunsForever(p: Platform, x: string, n: nat)
    requires Proper(p) && OnCycle(p.links, x)
    ensures var actions := [Post(x)] + Rounds(n);
            CanRun(p, IDLE, actions) && Run(p, IDLE, actions).executions == n + 1 &&
            Budget(Run(p, IDLE, actions)) == 1
  {
    CycleNodesHaveLinks(p.links, x);
    var actions := [Post(x)] + Rounds(n);
    assert actions[1..] == Rounds(n);
    CycleKeepsRunning(p, Step(p, IDLE, Post(x)), x, n);
  }

  /** The acyclic graphs are those in which the executions of every run are bounded by its budget, with any factor. */
  lemma BoundedIffAcyclic(p: Platform)
    requires Proper(p)
    ensures !HasCycle(p.links) <==> exists bound: nat :: ExecutionsBounded(p, bound)
  {
    if HasCycle(p.links) {
      var x :| OnCycle(p.links, x);
      forall bound: nat ensures !ExecutionsBounded(p, bound) {
        OnePostRunsForever(p, x, bound);
        assert !Bounded(p, [Post(x)] + Rounds(bound), bound);
      }
    } else {
      forall actions ensures Bounded(p, actions, |p.actors|) {
        if CanRun(p, IDLE, actions) {
          CascadesStop(p, actions);
        }
      }
      assert ExecutionsBounded(p, |p.actors|);
    }
  }

  /** The actors of a registry, with the links that events follow. */
  function PlatformOf(aliases: ActorRegistry.Aliases, r: ActorRegistry.Registry): Platform {
    Platform(r.actors.Keys, ActorRegistry.EventLinks(aliases, r.actors))
  }

  /** A registry after any sequence of requests. */
  ghost function After(aliases: ActorRegistry.Aliases, requests: seq<ActorRegistry.Request>): ActorRegistry.Registry {
    ActorRegistry.HandleAll(aliases, ActorRegistry.EMPTY, requests)
  }

  /** Registry and events together: whatever was registered, updated and removed before, cascades are bounded. */
  lemma RegisteredCascadesStop(aliases: ActorRegistry.Aliases, requests: seq<ActorRegistry.Request>,
                               actions: seq<Action>)
    requires ActorRegistry.ProperRun(aliases, ActorRegistry.EMPTY, requests)
    requires CanRun(PlatformOf(aliases, After(aliases, requests)), IDLE, actions)
    ensures var p := PlatformOf(aliases, After(aliases, requests));
            var end := Run(p, IDLE, actions);
            Within(end.executions, Budget(end), |p.actors|)
  {
    var r := After(aliases, requests);
    ActorRegistry.EmptyRegistryIsAcyclic(aliases);
    ActorRegistry.RegistryStaysAcyclic(aliases, ActorRegistry.EMPTY, requests);
    forall k | k in r.actors ensures k != NOTHING {
      assert |k| > 0 by { assert k == ActorRegistry.DbId(r.actors[k].tenant, r.actors[k].id); }
    }
    CascadesStop(PlatformOf(aliases, r), actions);
  }

  // ---------------------------------------------------------------------------------------------
  // The events agent
  // ---------------------------------------------------------------------------------------------

  lemma {:induction false} RunExtends(p: Platform, s: State, actions: seq<Action>, a: Action)
    requires CanRun(p, s, actions) && Enabled(p, Run(p, s, actions), a)
    ensures CanRun(p, s, actions + [a]) && Run(p, s, actions + [a]) == Step(p, Run(p, s, actions), a)
    decreases |actions|
  {
    if actions == [] {
      assert [a][1..] == [];
    } else {
      assert (actions + [a])[1..] == actions[1..] + [a];
      RunExtends(p, Step(p, s, actions[0]), actions[1..], a);
    }
  }

  /** The events that an agent without failures settles, in the order of the queue. */
  function Served(sent: seq<bool>): seq<Action> {
    seq(|sent|, i requires 0 <= i < |sent| => Process(0, sent[i], true))
  }

  ghost predicate Serves(p: Platform, start: State, sent: seq<bool>, end: State) {
    CanRun(p, start, Served(sent)) && Run(p, start, Served(sent)) == end
  }

  lemma ServedGrows(sent: seq<bool>, i: nat)
    requires i < |sent|
    ensures Served(sent[..i+1]) == Served(sent[..i]) + [Process(0, sent[i], true)]
  {
  }

  lemma ServesOneMore(p: Platform, start: State, sent: seq<bool>, i: nat, before: State)
    requires i < |sent| && Serves(p, start, sent[..i], before) && |before.events| > 0
    ensures Serves(p, start, sent[..i+1], Step(p, before, Process(0, sent[i], true)))
  {
    ServedGrows(sent, i);
    RunExtends(p, start, Served(sent[..i]), Process(0, sent[i], true));
  }

  /** The first events whose linked actors are registered, by their places in the queue. */
  ghost function Targets(p: Platform, events: seq<string>, n: nat): set<int>
    requires n <= |events|
  {
    set i | 0 <= i < n && events[i] in p.actors
  }

  lemma OneTargetMore(p: Platform, events: seq<string>, n: nat)
    requires n < |events|
    ensures |Targets(p, events, n + 1)| == |Targets(p, events, n)| + if events[n] in p.actors then 1 else 0
  {
    var before := Targets(p, events, n);
    assert Targets(p, events, n + 1) == if events[n] in p.actors then before + {n as int} else before;
  }

  class EventsAgent {
    const platform: Platform
    var messages: seq<string>
    var events: seq<string>
    var executions: nat

    constructor (platform: Platform, messages: seq<string>, events: seq<string>, executions: nat)
      ensures this.platform == platform && Snapshot() == State(messages, events, 0, 0, executions, 0)
    {
      this.platform, this.messages, this.events, this.executions := platform, messages, events, executions;
    }

    /** The state of the cascade, its other counters starting from zero. */
    function Snapshot(): State
      reads this
    {
      State(messages, events, 0, 0, executions, 0)
    }

    /** Adds an execution for the linked actor, if there is such an actor, and sends it the event. */
    method ProcessLink(link: string, sent: bool) returns (found: bool)
      modifies this`messages, this`executions
      ensures found <==> link in platform.actors
      ensures executions == old(executions) + (if found then 1 else 0)
      ensures messages == old(messages) + (if found && sent then [link] else [])
    {
      if link !in platform.actors {
        return false;
      }
      executions := executions + 1;
      if sent {
        messages := messages + [link];
      }
      return true;
    }

    /** One round of the loop: the event is acknowledged, whether or not it could be processed. */
    method ServeOne(sent: bool)
      requires |events| > 0
      modifies this
      ensures Snapshot() == Step(platform, old(Snapshot()), Process(0, sent, true))
      ensures events == old(events)[1..]
      ensures executions == old(executions) + (if old(events)[0] in platform.actors then 1 else 0)
      ensures messages == old(messages) + (if old(events)[0] in platform.actors && sent then [old(events)[0]] else [])
    {
      var link := events[0];
      var _ := ProcessLink(link, sent);
      events := events[1..];
    }

    /** The loop of the agent, for as many events as there are outcomes. */
    method Serve(sent: seq<bool>)
      requires |sent| <= |events|
      modifies this
      ensures CanRun(platform, old(Snapshot()), Served(sent))
      ensures Snapshot() == Run(platform, old(Snapshot()), Served(sent))
      ensures events == old(events)[|sent|..]
      ensures executions == old(executions) + |set i | 0 <= i < |sent| && old(events)[i] in platform.actors|
    {
      ghost var start := Snapshot();
      for i := 0 to |sent|
        invariant events == old(events)[i..]
        invariant executions == old(executions) + |Targets(platform, old(events), i)|
        invariant Serves(platform, start, sent[..i], Snapshot())
      {
        ServesOneMore(platform, start, sent, i, Snapshot());
        OneTargetMore(platform, old(events), i);
        ServeOne(sent[i]);
      }
      assert sent[..|sent|] == sent;
      assert (set i | 0 <= i < |sent| && old(events)[i] in platform.actors)
          == Targets(platform, old(events), |sent|);
    }
  }
}
