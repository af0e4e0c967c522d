/**
 The usage report (actors/reports.py): one pass over all executions, with a memo of the actors that are gone, against
 its meaning as sums over the executions grouped by actor.
 */
module UsageReport {
  import opened Options

  /** A stored execution; one that lacks a field that the report reads makes the report fail. */
  datatype Execution = Execution(actorId: string, cpu: int, io: int, runtime: int) | Incomplete

  /**
   A stored actor.  A stub is a document that lacks a field the Actor class requires, such as the one that a status
   written after the actor's deletion leaves behind; reading it raises.
   */
  datatype Actor = Actor(id: string, owner: string, image: string) | Stub

  type Store = map<string, Actor>

  datatype Totals = Totals(executions: int, cpu: int, io: int, runtime: int)

  datatype Row = Row(actorId: string, dbid: string, owner: string, image: string, totals: Totals)

  datatype Summary = Summary(
    actorsAll: int, actorsAllWithExecutions: nat, all: Totals,
    actorsExisting: nat, actorsExistingWithExecutions: nat, existing: Totals)

  datatype Report = Report(summary: Summary, actors: seq<Row>)

  predicate Complete(es: seq<Execution>) {
    forall i :: 0 <= i < |es| ==> es[i].Execution?
  }

  predicate Readable(e: Execution, store: Store) {
    e.Execution? && (e.actorId in store ==> store[e.actorId].Actor?)
  }

  /** Every execution is complete, and no actor seen is a stub. */
  predicate Sound(es: seq<Execution>, store: Store) {
    forall i :: 0 <= i < |es| ==> Readable(es[i], store)
  }

  // ---------------------------------------------------------------------------------------------
  // The meaning: sums over the executions of a group of actors
  // ---------------------------------------------------------------------------------------------

  type Group = iset<string>

  ghost const EVERYONE: Group := iset id: string | true

  ghost function Existing(store: Store): Group {
    iset id | id in store
  }

  ghost function OneOf(ids: seq<string>): Group {
    iset id | id in ids
  }

  /** The four quantities that the report adds up. */
  datatype Quantity = Executions | Cpu | Io | Runtime

  function Amount(e: Execution, q: Quantity): int
    requires e.Execution?
  {
    match q
    case Executions => 1
    case Cpu => e.cpu
    case Io => e.io
    case Runtime => e.runtime
  }

  ghost function Sum(es: seq<Execution>, g: Group, q: Quantity): int
    requires Complete(es)
  {
    if es == [] then 0
    else
      var last := es[|es|-1];
      Sum(es[..|es|-1], g, q) + if last.actorId in g then Amount(last, q) else 0
  }

  ghost function TotalsOf(es: seq<Execution>, g: Group): Totals
    requires Complete(es)
  {
    Totals(Sum(es, g, Executions), Sum(es, g, Cpu), Sum(es, g, Io), Sum(es, g, Runtime))
  }

  /** The actors with executions, existing or not. */
  function Seen(es: seq<Execution>): set<string>
    requires Complete(es)
  {
    if es == [] then {} else Seen(es[..|es|-1]) + {es[|es|-1].actorId}
  }

  /** The existing actors with executions, each once, in the order of their first executions. */
  function FirstSeen(es: seq<Execution>, store: Store): seq<string>
    requires Complete(es)
  {
    if es == [] then []
    else
      var before := FirstSeen(es[..|es|-1], store);
      var id := es[|es|-1].actorId;
      if id in store && id !in before then before + [id] else before
  }

  ghost function RowOf(es: seq<Execution>, store: Store, dbid: string): Row
    requires Complete(es) && dbid in store && store[dbid].Actor?
  {
    Row(store[dbid].id, dbid, store[dbid].owner, store[dbid].image, TotalsOf(es, iset{dbid}))
  }

  ghost function Rows(es: seq<Execution>, store: Store, ids: seq<string>): seq<Row>
    requires Complete(es) && forall i :: 0 <= i < |ids| ==> ids[i] in store && store[ids[i]].Actor?
  {
    seq(|ids|, i requires 0 <= i < |ids| => RowOf(es, store, ids[i]))
  }

  lemma {:induction false} SeenAreActors(es: seq<Execution>, store: Store)
    requires Sound(es, store)
    ensures forall id :: id in Seen(es) && id in store ==> store[id].Actor?
    decreases |es|
  {
    if es != [] {
      SeenAreActors(es[..|es|-1], store);
      assert Readable(es[|es|-1], store);
    }
  }

  lemma {:induction false} FirstSeenIsDistinct(es: seq<Execution>, store: Store)
    requires Complete(es)
    ensures var order := FirstSeen(es, store);
            (forall i, j :: 0 <= i < j < |order| ==> order[i] != order[j]) &&
            (forall id :: id in order <==> id in Seen(es) && id in store)
    decreases |es|
  {
    if es != [] {
      FirstSeenIsDistinct(es[..|es|-1], store);
    }
  }

  /** The report as the group-by specification gives it. */
  ghost function Specification(es: seq<Execution>, store: Store, actorTotal: int): Report
    requires Sound(es, store)
  {
    FirstSeenIsDistinct(es, store);
    SeenAreActors(es, store);
    Report(
      Summary(actorTotal, |Seen(es)|, TotalsOf(es, EVERYONE),
              |store|, |Seen(es) * store.Keys|, TotalsOf(es, Existing(store))),
      Rows(es, store, FirstSeen(es, store)))
  }

  lemma {:induction false} SeenIff(es: seq<Execution>, id: string)
    requires Complete(es)
    ensures id in Seen(es) <==> exists i :: 0 <= i < |es| && es[i].actorId == id
    decreases |es|
  {
    if es != [] {
      var before := es[..|es|-1];
      SeenIff(before, id);
      if i :| 0 <= i < |before| && before[i].actorId == id {
        assert es[i].actorId == id;
      }
    }
  }

  lemma {:induction false} SeenOfPrefix(es: seq<Execution>, n: nat)
    requires Complete(es) && n <= |es|
    ensures Seen(es[..n]) <= Seen(es)
    decreases |es|
  {
    if n == |es| {
      assert es[..n] == es;
    } else {
      assert es[..|es|-1][..n] == es[..n];
      SeenOfPrefix(es[..|es|-1], n);
    }
  }

  /** Of two rows, the first belongs to an actor with an execution before all executions of the second. */
  lemma {:induction false} RowsAreOrdered(es: seq<Execution>, store: Store, i: nat, j: nat)
    requires Complete(es) && i < j < |FirstSeen(es, store)|
    ensures exists k :: 0 <= k < |es| && es[k].actorId == FirstSeen(es, store)[i] &&
                        FirstSeen(es, store)[j] !in Seen(es[..k+1])
    decreases |es|
  {
    var before := es[..|es|-1];
    var order := FirstSeen(before, store);
    if j < |order| {
      RowsAreOrdered(before, store, i, j);
      var k :| 0 <= k < |before| && before[k].actorId == order[i] && order[j] !in Seen(before[..k+1]);
      assert es[k].actorId == order[i] && es[..k+1] == before[..k+1];
    } else {
      FirstSeenIsDistinct(before, store);
      SeenIff(before, order[i]);
      var k :| 0 <= k < |before| && before[k].actorId == order[i];
      SeenOfPrefix(before, k + 1);
      assert es[k].actorId == order[i] && es[..k+1] == before[..k+1];
    }
  }

  /** Sums over disjoint groups add up. */
  lemma {:induction false} SumSplits(es: seq<Execution>, a: Group, b: Group, q: Quantity)
    requires Complete(es) && a !! b
    ensures Sum(es, a + b, q) == Sum(es, a, q) + Sum(es, b, q)
    decreases |es|
  {
    if es != [] {
      SumSplits(es[..|es|-1], a, b, q);
    }
  }

  /** Only the actors seen matter. */
  lemma {:induction false} SameSum(es: seq<Execution>, a: Group, b: Group, q: Quantity)
    requires Complete(es) && forall id :: id in Seen(es) ==> (id in a <==> id in b)
    ensures Sum(es, a, q) == Sum(es, b, q)
    decreases |es|
  {
    if es != [] {
      SameSum(es[..|es|-1], a, b, q);
      assert es[|es|-1].actorId in Seen(es);
    }
  }

  lemma {:induction false} SumOfNobody(es: seq<Execution>, q: Quantity)
    requires Complete(es)
    ensures Sum(es, iset{}, q) == 0
    decreases |es|
  {
    if es != [] {
      SumOfNobody(es[..|es|-1], q);
    }
  }

  function AmountOf(totals: Totals, q: Quantity): int {
    match q
    case Executions => totals.executions
    case Cpu => totals.cpu
    case Io => totals.io
    case Runtime => totals.runtime
  }

  function SumOfRows(rows: seq<Row>, q: Quantity): int {
    if rows == [] then 0 else AmountOf(rows[0].totals, q) + SumOfRows(rows[1..], q)
  }

  lemma {:induction false} RowsAddUp(es: seq<Execution>, store: Store, ids: seq<string>, q: Quantity)
    requires Complete(es) && forall i :: 0 <= i < |ids| ==> ids[i] in store && store[ids[i]].Actor?
    requires forall i, j :: 0 <= i < j < |ids| ==> ids[i] != ids[j]
    ensures SumOfRows(Rows(es, store, ids), q) == Sum(es, OneOf(ids), q)
    decreases |ids|
  {
    if ids == [] {
      SumOfNobody(es, q);
      assert OneOf(ids) == iset{};
    } else {
      RowsAddUp(es, store, ids[1..], q);
      SumSplits(es, iset{ids[0]}, OneOf(ids[1..]), q);
      assert OneOf(ids) == iset{ids[0]} + OneOf(ids[1..]);
      assert Rows(es, store, ids)[1..] == Rows(es, store, ids[1..]);
    }
  }

  lemma {:induction false} DistinctLength(ids: seq<string>)
    requires forall i, j :: 0 <= i < j < |ids| ==> ids[i] != ids[j]
    ensures |set id | id in ids| == |ids|
    decreases |ids|
  {
    if ids != [] {
      DistinctLength(ids[1..]);
      assert (set id | id in ids) == (set id | id in ids[1..]) + {ids[0]};
    }
  }

  /** The totals of the existing actors are the sums of the rows, and there is one row for each counted actor. */
  lemma ExistingTotalsAreRowSums(es: seq<Execution>, store: Store, actorTotal: int, q: Quantity)
    requires Sound(es, store)
    ensures var r := Specification(es, store, actorTotal);
            AmountOf(r.summary.existing, q) == SumOfRows(r.actors, q) &&
            r.summary.actorsExistingWithExecutions == |r.actors|
  {
    var order := FirstSeen(es, store);
    FirstSeenIsDistinct(es, store);
    SeenAreActors(es, store);
    RowsAddUp(es, store, order, q);
    SameSum(es, OneOf(order), Existing(store), q);
    assert (set id | id in order) == Seen(es) * store.Keys;
    DistinctLength(order);
  }

  lemma {:induction false} EveryoneCounts(es: seq<Execution>)
    requires Complete(es)
    ensures Sum(es, EVERYONE, Executions) == |es|
    decreases |es|
  {
    if es != [] {
      EveryoneCounts(es[..|es|-1]);
    }
  }

  /** What the totals of the existing actors leave out is exactly the executions of actors that are gone. */
  lemma TotalsSplit(es: seq<Execution>, store: Store, actorTotal: int, q: Quantity)
    requires Sound(es, store)
    ensures var summary := Specification(es, store, actorTotal).summary;
            AmountOf(summary.all, q) == AmountOf(summary.existing, q) + Sum(es, (iset id | id !in store), q) &&
            summary.all.executions == |es|
  {
    var gone: Group := iset id | id !in store;
    SumSplits(es, Existing(store), gone, q);
    assert Existing(store) + gone == EVERYONE;
    EveryoneCounts(es);
  }

  /** How the specification grows by one execution. */
  lemma SeenGrows(es: seq<Execution>, e: Execution, keys: set<string>)
    requires Complete(es) && e.Execution?
    ensures Seen(es + [e]) == Seen(es) + {e.actorId}
    ensures |Seen(es + [e])| == |Seen(es)| + if e.actorId in Seen(es) then 0 else 1
    ensures |Seen(es + [e]) * keys| == |Seen(es) * keys| + if e.actorId in Seen(es) || e.actorId !in keys then 0 else 1
  {
    var more := es + [e];
    assert more[..|more|-1] == es && more[|more|-1] == e;
    if e.actorId in Seen(es) {
      assert Seen(more) == Seen(es);
    } else if e.actorId in keys {
      assert Seen(more) * keys == Seen(es) * keys + {e.actorId};
    } else {
      assert Seen(more) * keys == Seen(es) * keys;
    }
  }

  lemma FirstSeenGrows(es: seq<Execution>, e: Execution, store: Store)
    requires Complete(es) && e.Execution?
    ensures var order := FirstSeen(es, store);
            FirstSeen(es + [e], store)
              == if e.actorId in store && e.actorId !in Seen(es) then order + [e.actorId] else order
  {
    var more := es + [e];
    assert more[..|more|-1] == es && more[|more|-1] == e;
    FirstSeenIsDistinct(es, store);
  }

  function Plus(totals: Totals, e: Execution): Totals
    requires e.Execution?
  {
    Totals(totals.executions + 1, totals.cpu + e.cpu, totals.io + e.io, totals.runtime + e.runtime)
  }

  const ZERO := Totals(0, 0, 0, 0)

  lemma TotalsGrow(es: seq<Execution>, e: Execution, g: Group)
    requires Complete(es) && e.Execution?
    ensures Complete(es + [e])
    ensures TotalsOf(es + [e], g) == if e.actorId in g then Plus(TotalsOf(es, g), e) else TotalsOf(es, g)
  {
    var more := es + [e];
    assert more[..|more|-1] == es && more[|more|-1] == e;
  }

  lemma UnseenHasNoTotals(es: seq<Execution>, id: string)
    requires Complete(es) && id !in Seen(es)
    ensures TotalsOf(es, iset{id}) == ZERO
  {
    forall q ensures Sum(es, iset{id}, q) == 0 {
      SumOfNobody(es, q);
      SameSum(es, iset{id}, iset{}, q);
    }
  }

  /** What one more execution adds to totals. */
  ghost predicate Gains(before: Totals, e: Execution, after: Totals) {
    e.Execution? && after.executions == before.executions + 1 && after.cpu == before.cpu + e.cpu &&
    after.io == before.io + e.io && after.runtime == before.runtime + e.runtime
  }

  lemma ReportOfNothing(store: Store, actorTotal: int)
    ensures Specification([], store, actorTotal)
         == Report(Summary(actorTotal, 0, Totals(0, 0, 0, 0), |store|, 0, Totals(0, 0, 0, 0)), [])
  {
    assert Specification([], store, actorTotal).actors == [];
  }

  /** The summary over one more execution. */
  lemma SummaryGrows(es: seq<Execution>, e: Execution, store: Store, actorTotal: int)
    requires Sound(es, store) && Sound(es + [e], store) && e.Execution?
    ensures var before, after := Specification(es, store, actorTotal).summary,
                                 Specification(es + [e], store, actorTotal).summary;
            && Gains(before.all, e, after.all)
            && (if e.actorId in store then Gains(before.existing, e, after.existing)
                else after.existing == before.existing)
            && after.actorsAllWithExecutions - before.actorsAllWithExecutions
                 == (if exists i :: 0 <= i < |es| && es[i].actorId == e.actorId then 0 else 1)
            && after.actorsAll == actorTotal && after.actorsExisting == |store|
  {
    TotalsGrow(es, e, EVERYONE);
    TotalsGrow(es, e, Existing(store));
    SeenGrows(es, e, store.Keys);
    SeenIff(es, e.actorId);
  }

  lemma RowOfOthers(es: seq<Execution>, e: Execution, store: Store, dbid: string)
    requires Sound(es, store) && Sound(es + [e], store) && e.Execution? && e.actorId != dbid
    requires dbid in store && store[dbid].Actor?
    ensures RowOf(es + [e], store, dbid) == RowOf(es, store, dbid)
  {
    TotalsGrow(es, e, iset{dbid});
  }

  lemma RowsOfOthers(es: seq<Execution>, e: Execution, store: Store, ids: seq<string>)
    requires Sound(es, store) && Sound(es + [e], store) && e.Execution? && e.actorId !in ids
    requires forall i :: 0 <= i < |ids| ==> ids[i] in store && store[ids[i]].Actor?
    ensures Rows(es + [e], store, ids) == Rows(es, store, ids)
  {
    forall i | 0 <= i < |ids| ensures RowOf(es + [e], store, ids[i]) == RowOf(es, store, ids[i]) {
      RowOfOthers(es, e, store, ids[i]);
    }
  }

  /** An execution of an actor that is gone changes no row. */
  lemma NoRowOfGone(es: seq<Execution>, e: Execution, store: Store, actorTotal: int)
    requires Sound(es, store) && Sound(es + [e], store) && e.Execution? && e.actorId !in store
    ensures Specification(es + [e], store, actorTotal).actors == Specification(es, store, actorTotal).actors
  {
    FirstSeenGrows(es, e, store);
    FirstSeenIsDistinct(es, store);
    SeenAreActors(es, store);
    RowsOfOthers(es, e, store, FirstSeen(es, store));
  }

  lemma OneRowMore(es: seq<Execution>, store: Store, ids: seq<string>, id: string)
    requires Complete(es) && id in store && store[id].Actor?
    requires forall i :: 0 <= i < |ids| ==> ids[i] in store && store[ids[i]].Actor?
    ensures Rows(es, store, ids + [id]) == Rows(es, store, ids) + [RowOf(es, store, id)]
  {
  }

  /** The first execution of an existing actor adds its row. */
  lemma NewRow(es: seq<Execution>, e: Execution, store: Store, actorTotal: int)
    requires Sound(es, store) && Sound(es + [e], store) && e.Execution?
    requires e.actorId in store && forall i :: 0 <= i < |es| ==> es[i].actorId != e.actorId
    ensures store[e.actorId].Actor?
    ensures var actor := store[e.actorId];
            Specification(es + [e], store, actorTotal).actors
              == Specification(es, store, actorTotal).actors +
                 [Row(actor.id, e.actorId, actor.owner, actor.image, Totals(1, e.cpu, e.io, e.runtime))]
  {
    assert (es + [e])[|es|] == e && Readable(e, store);
    SeenIff(es, e.actorId);
    FirstSeenGrows(es, e, store);
    FirstSeenIsDistinct(es, store);
    SeenAreActors(es, store);
    RowsOfOthers(es, e, store, FirstSeen(es, store));
    OneRowMore(es + [e], store, FirstSeen(es, store), e.actorId);
    UnseenHasNoTotals(es, e.actorId);
    TotalsGrow(es, e, iset{e.actorId});
  }

  /** A further execution of an existing actor is added to its row, and to no other one. */
  lemma RowGrows(es: seq<Execution>, e: Execution, store: Store, actorTotal: int, i: nat)
    requires Sound(es, store) && Sound(es + [e], store) && e.Execution?
    requires e.actorId in store && exists k :: 0 <= k < |es| && es[k].actorId == e.actorId
    requires i < |Specification(es, store, actorTotal).actors|
    ensures |Specification(es + [e], store, actorTotal).actors| == |Specification(es, store, actorTotal).actors|
    ensures var before, after := Specification(es, store, actorTotal).actors[i],
                                 Specification(es + [e], store, actorTotal).actors[i];
            && after.(totals := before.totals) == before
            && if before.dbid == e.actorId then Gains(before.totals, e, after.totals) else after == before
  {
    SeenIff(es, e.actorId);
    FirstSeenGrows(es, e, store);
    TotalsGrow(es, e, iset{FirstSeen(es, store)[i]});
  }

  // ---------------------------------------------------------------------------------------------
  // The one pass
  // ---------------------------------------------------------------------------------------------

  datatype Failure = KeyError | DAOError

  datatype Result = Ok(report: Report) | Err(failure: Failure)

  /** The first execution that cannot be read, and why. */
  ghost predicate FailsAt(es: seq<Execution>, store: Store, i: nat, failure: Failure) {
    i < |es| && Sound(es[..i], store) && !Readable(es[i], store) && (failure.KeyError? <==> es[i].Incomplete?)
  }

  lemma PrefixIsReadable(es: seq<Execution>, store: Store, n: nat, i: nat)
    requires i < n <= |es| && Sound(es[..n], store)
    ensures Readable(es[i], store)
  {
    assert es[..n][i] == es[i];
  }

  lemma OneFailure(es: seq<Execution>, store: Store, i: nat, failure: Failure)
    requires FailsAt(es, store, i, failure)
    ensures !Sound(es, store) && forall j, other :: FailsAt(es, store, j, other) ==> j == i && other == failure
  {
    forall j: nat, other | FailsAt(es, store, j, other) ensures j == i {
      if j < i {
        PrefixIsReadable(es, store, i, j);
      } else if i < j {
        PrefixIsReadable(es, store, j, i);
      }
    }
  }

  /** Actor.set_status writes one field by path, which creates a document that is missing; a deletion removes it. */
  function SetStatus(store: Store, dbid: string): Store {
    if dbid in store then store else store[dbid := Stub]
  }

  lemma {:induction false} FirstUnreadable(es: seq<Execution>, store: Store, from: nat) returns (i: nat)
    requires from <= |es| && Complete(es) && Sound(es[..from], store) && !Sound(es, store)
    ensures FailsAt(es, store, i, DAOError)
    decreases |es| - from
  {
    if Readable(es[from], store) {
      assert es[..from + 1] == es[..from] + [es[from]];
      i := FirstUnreadable(es, store, from + 1);
    } else {
      i := from;
    }
  }

  /**
   A status written for an actor after its deletion makes every later report fail if the actor has executions, and only
   then: deleting an actor keeps its executions.
   */
  lemma LateStatusBreaksReport(es: seq<Execution>, store: Store, dbid: string)
    requires Sound(es, store)
    ensures Sound(es, store - {dbid})
    ensures Sound(es, SetStatus(store - {dbid}, dbid)) <==> dbid !in Seen(es)
    ensures dbid in Seen(es) ==> exists i :: FailsAt(es, SetStatus(store - {dbid}, dbid), i, DAOError)
  {
    var late := SetStatus(store - {dbid}, dbid);
    assert forall i :: 0 <= i < |es| ==> Readable(es[i], store) && (Readable(es[i], late) <==> es[i].actorId != dbid);
    SeenIff(es, dbid);
    if dbid in Seen(es) {
      var i := FirstUnreadable(es, late, 0);
    }
  }

  /** What the pass has collected: totals, counts, rows in the order of insertion, and the actors found to be gone. */
  datatype Memo = Memo(
    all: Totals, existing: Totals, withExecutions: nat, existingWithExecutions: nat,
    order: seq<string>, stats: map<string, Row>, gone: seq<string>)

  ghost predicate CountsMatch(m: Memo, es: seq<Execution>, store: Store) {
    Complete(es) &&
    m.all == TotalsOf(es, EVERYONE) && m.existing == TotalsOf(es, Existing(store)) &&
    m.withExecutions == |Seen(es)| && m.existingWithExecutions == |Seen(es) * store.Keys| &&
    m.order == FirstSeen(es, store)
  }

  ghost predicate MemosMatch(m: Memo, es: seq<Execution>, store: Store) {
    Complete(es) &&
    (forall id :: id in m.stats <==> id in Seen(es) && id in store) &&
    (forall id :: id in m.stats ==> store[id].Actor? && m.stats[id] == RowOf(es, store, id)) &&
    (forall id :: id in m.gone <==> id in Seen(es) && id !in store)
  }

  /** One round of the loop, as the source's branches have it. */
  function Round(m: Memo, e: Execution, store: Store): Memo
    requires Readable(e, store)
  {
    var m' := m.(all := Plus(m.all, e));
    if e.actorId in m.gone then m'
    else if e.actorId !in m.stats && e.actorId !in store then
      m'.(withExecutions := m.withExecutions + 1, gone := m.gone + [e.actorId])
    else if e.actorId !in m.stats then
      var actor := store[e.actorId];
      m'.(withExecutions := m.withExecutions + 1, existingWithExecutions := m.existingWithExecutions + 1,
          order := m.order + [e.actorId], existing := Plus(m.existing, e),
          stats := m.stats[e.actorId := Row(actor.id, e.actorId, actor.owner, actor.image, Plus(ZERO, e))])
    else
      var row := m.stats[e.actorId];
      m'.(existing := Plus(m.existing, e), stats := m.stats[e.actorId := row.(totals := Plus(row.totals, e))])
  }

  lemma RoundKeepsCounts(m: Memo, e: Execution, es: seq<Execution>, store: Store)
    requires Readable(e, store) && CountsMatch(m, es, store) && MemosMatch(m, es, store)
    ensures CountsMatch(Round(m, e, store), es + [e], store)
  {
    SeenGrows(es, e, store.Keys);
    FirstSeenGrows(es, e, store);
    TotalsGrow(es, e, EVERYONE);
    TotalsGrow(es, e, Existing(store));
  }

  lemma RoundUpdatesRow(m: Memo, e: Execution, es: seq<Execution>, store: Store, id: string)
    requires Readable(e, store) && MemosMatch(m, es, store) && id in Round(m, e, store).stats
    ensures id in store && store[id].Actor? && Round(m, e, store).stats[id] == RowOf(es + [e], store, id)
  {
    TotalsGrow(es, e, iset{id});
    if id == e.actorId && id !in m.stats {
      UnseenHasNoTotals(es, id);
    }
  }

  lemma RoundKeepsMembers(m: Memo, e: Execution, es: seq<Execution>, store: Store)
    requires Readable(e, store) && MemosMatch(m, es, store)
    ensures var next := Round(m, e, store);
            (forall id :: id in next.stats <==> id in Seen(es + [e]) && id in store) &&
            (forall id :: id in next.gone <==> id in Seen(es + [e]) && id !in store)
  {
    SeenGrows(es, e, store.Keys);
  }

  ghost predicate Matches(m: Memo, es: seq<Execution>, store: Store) {
    CountsMatch(m, es, store) && MemosMatch(m, es, store)
  }

  lemma RoundKeepsMatches(m: Memo, e: Execution, es: seq<Execution>, store: Store)
    requires Readable(e, store) && Matches(m, es, store)
    ensures Matches(Round(m, e, store), es + [e], store)
  {
    RoundKeepsCounts(m, e, es, store);
    RoundKeepsMembers(m, e, es, store);
    forall id | id in Round(m, e, store).stats
      ensures store[id].Actor? && Round(m, e, store).stats[id] == RowOf(es + [e], store, id)
    {
      RoundUpdatesRow(m, e, es, store, id);
    }
  }

  /** The memo after a number of rounds. */
  function Rounds(es: seq<Execution>, store: Store): Memo
    requires Sound(es, store)
  {
    if es == [] then Memo(ZERO, ZERO, 0, 0, [], map[], [])
    else Round(Rounds(es[..|es|-1], store), es[|es|-1], store)
  }

  lemma StartMatches(store: Store)
    ensures Matches(Memo(ZERO, ZERO, 0, 0, [], map[], []), [], store)
  {
  }

  lemma {:induction false} RoundsMatch(es: seq<Execution>, store: Store)
    requires Sound(es, store)
    ensures Matches(Rounds(es, store), es, store)
    decreases |es|
  {
    if es == [] {
      StartMatches(store);
    } else {
      var before, last := es[..|es|-1], es[|es|-1];
      assert es == before + [last];
      RoundsMatch(before, store);
      var m := Rounds(before, store);
      assert Rounds(es, store) == Round(m, last, store);
      RoundKeepsMatches(m, last, before, store);
    }
  }

  /** The object that holds the memo while the loop runs. */
  class Pass {
    const store: Store
    var all: Totals
    var existing: Totals
    var withExecutions: nat
    var existingWithExecutions: nat
    var order: seq<string>
    var stats: map<string, Row>
    var gone: seq<string>

    constructor (store: Store)
      ensures this.store == store && Snapshot() == Memo(ZERO, ZERO, 0, 0, [], map[], [])
    {
      this.store, all, existing, withExecutions, existingWithExecutions := store, ZERO, ZERO, 0, 0;
      order, stats, gone := [], map[], [];
    }

    function Snapshot(): Memo
      reads this
    {
      Memo(all, existing, withExecutions, existingWithExecutions, order, stats, gone)
    }

    method Count(e: Execution)
      requires Readable(e, store)
      modifies this
      ensures Snapshot() == Round(old(Snapshot()), e, store)
    {
      if e.actorId !in gone {
        if e.actorId !in stats {
          withExecutions := withExecutions + 1;
        }
        if e.actorId !in stats && e.actorId !in store {
          gone := gone + [e.actorId];
        } else {
          if e.actorId !in stats {
            var actor := store[e.actorId];
            stats := stats[e.actorId := Row(actor.id, e.actorId, actor.owner, actor.image, ZERO)];
            order := order + [e.actorId];
            existingWithExecutions := existingWithExecutions + 1;
          }
          var row := stats[e.actorId];
          stats := stats[e.actorId := row.(totals := Plus(row.totals, e))];
          existing := Plus(existing, e);
        }
      }
      all := Plus(all, e);
    }
  }

  function Collected(m: Memo, store: Store, actorTotal: int): Report
    requires forall i :: 0 <= i < |m.order| ==> m.order[i] in m.stats
  {
    Report(Summary(actorTotal, m.withExecutions, m.all, |store|, m.existingWithExecutions, m.existing),
           seq(|m.order|, i requires 0 <= i < |m.order| => m.stats[m.order[i]]))
  }

  lemma MatchingReport(m: Memo, es: seq<Execution>, store: Store, actorTotal: int)
    requires Matches(m, es, store) && Sound(es, store)
    ensures (forall i :: 0 <= i < |m.order| ==> m.order[i] in m.stats)
    ensures Collected(m, store, actorTotal) == Specification(es, store, actorTotal)
  {
    FirstSeenIsDistinct(es, store);
  }

  /** The loop over all executions; what it cannot read ends it. */
  method Collect(es: seq<Execution>, store: Store) returns (memo: Option<Memo>, failure: Failure)
    ensures memo.Some? <==> Sound(es, store)
    ensures memo.Some? ==> memo.value == Rounds(es, store)
    ensures memo.None? ==> exists i :: FailsAt(es, store, i, failure)
  {
    failure := KeyError;
    var pass := new Pass(store);
    for i := 0 to |es|
      invariant pass.store == store && Sound(es[..i], store)
      invariant pass.Snapshot() == Rounds(es[..i], store)
    {
      if es[i].Incomplete? {
        assert FailsAt(es, store, i, KeyError);
        return None, KeyError;
      }
      if es[i].actorId in store && store[es[i].actorId].Stub? {
        assert FailsAt(es, store, i, DAOError);
        return None, DAOError;
      }
      pass.Count(es[i]);
      assert es[..i+1][..i] == es[..i];
    }
    assert es[..|es|] == es;
    memo := Some(pass.Snapshot());
  }

  /**
   The report is the specification's exactly when every execution is complete, no actor seen is a stub and the metrics
   have the total.  Otherwise the first execution that cannot be read, or else the missing total, says how it fails.
   */
  method ActorsExecutionsReport(es: seq<Execution>, store: Store, actorTotal: Option<int>) returns (result: Result)
    ensures result.Ok? <==> Sound(es, store) && actorTotal.Some?
    ensures result.Ok? ==> result.report == Specification(es, store, actorTotal.value)
    ensures result.Ok? ==> result.report.summary.actorsAll == actorTotal.value &&
                           result.report.summary.actorsExisting == |store|
    ensures result.Ok? ==> forall row :: row in result.report.actors ==>
              row.dbid in store && store[row.dbid] == Actor(row.actorId, row.owner, row.image)
    ensures result == Err(DAOError) <==> exists i :: FailsAt(es, store, i, DAOError)
    ensures result == Err(KeyError) <==>
              (exists i :: FailsAt(es, store, i, KeyError)) || (Sound(es, store) && actorTotal.None?)
  {
    var memo, failure := Collect(es, store);
    if memo.None? {
      ghost var i :| FailsAt(es, store, i, failure);
      OneFailure(es, store, i, failure);
      return Err(failure);
    }
    forall i, other ensures !FailsAt(es, store, i, other) {
      if FailsAt(es, store, i, other) {
        OneFailure(es, store, i, other);
      }
    }
    if actorTotal.None? {
      return Err(KeyError);
    }
    RoundsMatch(es, store);
    MatchingReport(memo.value, es, store, actorTotal.value);
    result := Ok(Collected(memo.value, store, actorTotal.value));
  }
}
