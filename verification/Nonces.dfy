/**
 Redeeming nonces (actors/models.py, Nonce.check_and_redeem_nonce): a read, then up to two conditional updates, each
 atomic on its own, while other requests redeem, create and delete nonces of the same document.
 */
module Nonces {
  const UNLIMITED := -1

  datatype Nonce = Nonce(level: nat, maxUses: int, currentUses: int, remainingUses: int)

  type NonceDoc = map<string, Nonce>

  /** The check on max_uses when a nonce is created. */
  predicate ValidMaxUses(m: int) {
    !(m == 0 || m < -1)
  }

  function NewNonce(level: nat, maxUses: int): Nonce {
    Nonce(level, maxUses, 0, maxUses)
  }

  datatype Outcome = Redeemed | NoSuchNonce | LevelTooLow | NoUsesLeft

  /** Where a redeeming request is: before the read, before the first update, before the second, or finished. */
  datatype Phase = Reading | TryingUnlimited | TryingFinite | Finished(outcome: Outcome)

  datatype Redeemer = Redeemer(id: string, level: nat, phase: Phase)

  /** Issued remembers every nonce as it was created, so that deleted ones are not forgotten. */
  datatype State = State(nonces: NonceDoc, issued: NonceDoc, redeemers: seq<Redeemer>)

  datatype Action =
    | Create(id: string, level: nat, maxUses: int)
    | Delete(id: string)
    | Arrive(id: string, level: nat)
    | Proceed(redeemer: nat)

  predicate Enabled(s: State, a: Action) {
    match a
    case Create(id, _, m) => id !in s.issued && ValidMaxUses(m)
    case Delete(_) => true
    case Arrive(_, _) => true
    case Proceed(i) => i < |s.redeemers| && !s.redeemers[i].phase.Finished?
  }

  /** The read: the nonce must exist, with a level that suffices. */
  function AfterRead(nonces: NonceDoc, r: Redeemer): Phase {
    if r.id !in nonces then Finished(NoSuchNonce)
    else if nonces[r.id].level < r.level then Finished(LevelTooLow)
    else TryingUnlimited
  }

  /** The first update: counts a use of an unlimited nonce. */
  predicate MatchesUnlimited(nonces: NonceDoc, id: string) {
    id in nonces && nonces[id].remainingUses == UNLIMITED
  }

  function UseUnlimited(nonces: NonceDoc, id: string): NonceDoc {
    if MatchesUnlimited(nonces, id) then
      nonces[id := nonces[id].(currentUses := nonces[id].currentUses + 1)]
    else
      nonces
  }

  /** The second update: moves one use from the remaining to the current ones. */
  predicate MatchesFinite(nonces: NonceDoc, id: string) {
    id in nonces && nonces[id].remainingUses > 0
  }

  function UseFinite(nonces: NonceDoc, id: string): NonceDoc {
    if MatchesFinite(nonces, id) then
      var nonce := nonces[id];
      nonces[id := nonce.(currentUses := nonce.currentUses + 1, remainingUses := nonce.remainingUses - 1)]
    else
      nonces
  }

  function ProceedPhase(nonces: NonceDoc, r: Redeemer): Phase {
    match r.phase
    case Reading => AfterRead(nonces, r)
    case TryingUnlimited => if MatchesUnlimited(nonces, r.id) then Finished(Redeemed) else TryingFinite
    case TryingFinite => if MatchesFinite(nonces, r.id) then Finished(Redeemed) else Finished(NoUsesLeft)
    case Finished(_) => r.phase
  }

  function ProceedDoc(nonces: NonceDoc, r: Redeemer): NonceDoc {
    match r.phase
    case TryingUnlimited => UseUnlimited(nonces, r.id)
    case TryingFinite => UseFinite(nonces, r.id)
    case _ => nonces
  }

  function Step(s: State, a: Action): State
    requires Enabled(s, a)
  {
    match a
    case Create(id, level, m) =>
      s.(nonces := s.nonces[id := NewNonce(level, m)], issued := s.issued[id := NewNonce(level, m)])
    case Delete(id) => s.(nonces := s.nonces - {id})
    case Arrive(id, level) => s.(redeemers := s.redeemers + [Redeemer(id, level, Reading)])
    case Proceed(i) =>
      var r := s.redeemers[i];
      s.(nonces := ProceedDoc(s.nonces, r), redeemers := s.redeemers[i := r.(phase := ProceedPhase(s.nonces, r))])
  }

  predicate CanRun(s: State, actions: seq<Action>)
    decreases |actions|
  {
    actions == [] || (Enabled(s, actions[0]) && CanRun(Step(s, actions[0]), actions[1..]))
  }

  function Run(s: State, actions: seq<Action>): State
    requires CanRun(s, actions)
    decreases |actions|
  {
    if actions == [] then s else Run(Step(s, actions[0]), actions[1..])
  }

  const EMPTY := State(map[], map[], [])

  // ---------------------------------------------------------------------------------------------
  // Counting redeemers
  // ---------------------------------------------------------------------------------------------

  predicate Succeeded(r: Redeemer, id: string) {
    r.id == id && r.phase == Finished(Redeemed)
  }

  function Successes(rs: seq<Redeemer>, id: string): nat {
    if rs == [] then 0 else (if Succeeded(rs[0], id) then 1 else 0) + Successes(rs[1..], id)
  }

  /** The requests that found the nonce, with a sufficient level, and have finished. */
  predicate Attempted(r: Redeemer, id: string) {
    r.id == id && (r.phase == Finished(Redeemed) || r.phase == Finished(NoUsesLeft))
  }

  function Attempts(rs: seq<Redeemer>, id: string): nat {
    if rs == [] then 0 else (if Attempted(rs[0], id) then 1 else 0) + Attempts(rs[1..], id)
  }

  lemma {:induction false} SuccessesAfterChange(rs: seq<Redeemer>, i: nat, phase: Phase, id: string)
    requires i < |rs| && !rs[i].phase.Finished?
    ensures Successes(rs[i := rs[i].(phase := phase)], id)
         == Successes(rs, id) + if rs[i].id == id && phase == Finished(Redeemed) then 1 else 0
    decreases |rs|
  {
    var changed := rs[i := rs[i].(phase := phase)];
    if i > 0 {
      assert changed[1..] == rs[1..][i-1 := rs[1..][i-1].(phase := phase)];
      SuccessesAfterChange(rs[1..], i - 1, phase, id);
    }
  }

  lemma {:induction false} SuccessesAfterArrival(rs: seq<Redeemer>, r: Redeemer, id: string)
    requires !r.phase.Finished?
    ensures Successes(rs + [r], id) == Successes(rs, id)
    decreases |rs|
  {
    if rs == [] {
      assert [r][1..] == [];
    } else {
      assert (rs + [r])[1..] == rs[1..] + [r];
      SuccessesAfterArrival(rs[1..], r, id);
    }
  }

  // ---------------------------------------------------------------------------------------------
  // What every step keeps
  // ---------------------------------------------------------------------------------------------

  /** A stored nonce: its uses add up, and its successful redemptions are the current uses. */
  predicate Balanced(nonce: Nonce, issued: Nonce, successes: nat) {
    nonce.level == issued.level && nonce.maxUses == issued.maxUses && ValidMaxUses(nonce.maxUses) &&
    nonce.currentUses == successes &&
    if nonce.maxUses == UNLIMITED then nonce.remainingUses == UNLIMITED
    else nonce.remainingUses >= 0 && nonce.currentUses + nonce.remainingUses == nonce.maxUses
  }

  ghost predicate Conserved(s: State) {
    (forall id :: id in s.nonces ==>
       id in s.issued && Balanced(s.nonces[id], s.issued[id], Successes(s.redeemers, id))) &&
    (forall id :: id in s.issued && s.issued[id].maxUses > 0 ==> Successes(s.redeemers, id) <= s.issued[id].maxUses) &&
    (forall id :: id !in s.issued ==> Successes(s.redeemers, id) == 0)
  }

  /** What a redeemer knows from the steps that it has taken. */
  predicate Knows(s: State, r: Redeemer) {
    match r.phase
    case Reading => true
    case TryingUnlimited => r.id in s.issued && r.level <= s.issued[r.id].level
    case TryingFinite =>
      r.id in s.issued && r.level <= s.issued[r.id].level &&
      (r.id in s.nonces ==> s.issued[r.id].maxUses != UNLIMITED)
    case Finished(Redeemed) => r.id in s.issued && r.level <= s.issued[r.id].level
    case Finished(NoUsesLeft) =>
      r.id in s.issued && r.level <= s.issued[r.id].level && (r.id in s.nonces ==> s.nonces[r.id].remainingUses == 0)
    case Finished(LevelTooLow) => r.id in s.issued && s.issued[r.id].level < r.level
    case Finished(_) => true
  }

  ghost predicate Inv(s: State) {
    Conserved(s) && (forall id :: id in s.nonces ==> id in s.issued) &&
    forall i :: 0 <= i < |s.redeemers| ==> Knows(s, s.redeemers[i])
  }

  lemma ProceedKeepsConserved(s: State, i: nat)
    requires Inv(s) && Enabled(s, Proceed(i))
    ensures Conserved(Step(s, Proceed(i)))
  {
    var r := s.redeemers[i];
    var phase := ProceedPhase(s.nonces, r);
    forall id
      ensures Successes(Step(s, Proceed(i)).redeemers, id)
           == Successes(s.redeemers, id) + if r.id == id && phase == Finished(Redeemed) then 1 else 0
    {
      SuccessesAfterChange(s.redeemers, i, phase, id);
    }
  }

  lemma ProceedKeepsKnowledge(s: State, i: nat)
    requires Inv(s) && Enabled(s, Proceed(i))
    ensures var next := Step(s, Proceed(i));
            forall j :: 0 <= j < |next.redeemers| ==> Knows(next, next.redeemers[j])
  {
    var r := s.redeemers[i];
    var next := Step(s, Proceed(i));
    assert next.nonces.Keys == s.nonces.Keys;
    assert forall id :: id in s.nonces && s.nonces[id].remainingUses == 0 ==> next.nonces[id] == s.nonces[id];
    assert r.id in s.nonces ==> Balanced(s.nonces[r.id], s.issued[r.id], Successes(s.redeemers, r.id));
    assert Knows(next, next.redeemers[i]);
  }

  lemma CreateKeepsInv(s: State, a: Action)
    requires Inv(s) && Enabled(s, a) && a.Create?
    ensures Inv(Step(s, a))
  {
    var next := Step(s, a);
    assert forall i :: 0 <= i < |s.redeemers| ==> Knows(s, s.redeemers[i]) && Knows(next, next.redeemers[i]);
  }

  lemma ArriveKeepsInv(s: State, id: string, level: nat)
    requires Inv(s)
    ensures Inv(Step(s, Arrive(id, level)))
  {
    var next := Step(s, Arrive(id, level));
    forall k ensures Successes(next.redeemers, k) == Successes(s.redeemers, k) {
      SuccessesAfterArrival(s.redeemers, Redeemer(id, level, Reading), k);
    }
    assert forall i :: 0 <= i < |s.redeemers| ==> Knows(next, next.redeemers[i]);
  }

  lemma StepKeepsInv(s: State, a: Action)
    requires Inv(s) && Enabled(s, a)
    ensures Inv(Step(s, a))
  {
    match a
    case Create(_, _, _) => CreateKeepsInv(s, a);
    case Delete(_) =>
    case Arrive(id, level) => ArriveKeepsInv(s, id, level);
    case Proceed(i) =>
      ProceedKeepsConserved(s, i);
      ProceedKeepsKnowledge(s, i);
  }

  lemma {:induction false} RunKeepsInv(s: State, actions: seq<Action>)
    requires Inv(s) && CanRun(s, actions)
    ensures Inv(Run(s, actions))
    decreases |actions|
  {
    if actions != [] {
      StepKeepsInv(s, actions[0]);
      RunKeepsInv(Step(s, actions[0]), actions[1..]);
    }
  }

  // ---------------------------------------------------------------------------------------------
  // Main results
  // ---------------------------------------------------------------------------------------------

  /**
   In every interleaving of any number of redeemers: a stored nonce created with m > 0 uses has current and remaining
   uses adding up to m, none of them negative, so it never looks unlimited; an unlimited one stays unlimited; and the
   current uses are exactly the successful redemptions.
   */
  lemma UsesAreConserved(actions: seq<Action>, id: string)
    requires CanRun(EMPTY, actions) && id in Run(EMPTY, actions).nonces
    ensures var s := Run(EMPTY, actions);
            var nonce := s.nonces[id];
            nonce.currentUses == Successes(s.redeemers, id) &&
            (nonce.maxUses > 0 ==>
               nonce.currentUses + nonce.remainingUses == nonce.maxUses && nonce.remainingUses >= 0) &&
            (nonce.remainingUses == UNLIMITED <==> nonce.maxUses == UNLIMITED)
  {
    RunKeepsInv(EMPTY, actions);
  }

  /** A nonce is never redeemed more often than it allows, also when it is deleted meanwhile, nor above its level. */
  lemma RedemptionsAreBounded(actions: seq<Action>, i: nat)
    requires CanRun(EMPTY, actions) && i < |Run(EMPTY, actions).redeemers|
    requires Run(EMPTY, actions).redeemers[i].phase == Finished(Redeemed)
    ensures var s := Run(EMPTY, actions);
            var r := s.redeemers[i];
            r.id in s.issued && r.level <= s.issued[r.id].level &&
            (s.issued[r.id].maxUses > 0 ==> Successes(s.redeemers, r.id) <= s.issued[r.id].maxUses)
  {
    RunKeepsInv(EMPTY, actions);
    var s := Run(EMPTY, actions);
    assert Knows(s, s.redeemers[i]);
  }

  lemma {:induction false} FailedAttempt(rs: seq<Redeemer>, id: string)
    ensures Successes(rs, id) <= Attempts(rs, id)
    ensures Successes(rs, id) < Attempts(rs, id) ==>
              exists i :: 0 <= i < |rs| && rs[i].id == id && rs[i].phase == Finished(NoUsesLeft)
    decreases |rs|
  {
    if rs != [] {
      FailedAttempt(rs[1..], id);
      assert forall i :: 0 < i < |rs| ==> rs[i] == rs[1..][i - 1];
      if Successes(rs[1..], id) < Attempts(rs[1..], id) {
        var i :| 0 <= i < |rs[1..]| && rs[1..][i].id == id && rs[1..][i].phase == Finished(NoUsesLeft);
        assert rs[i + 1] == rs[1..][i];
      } else if Successes(rs, id) < Attempts(rs, id) {
        assert rs[0].id == id && rs[0].phase == Finished(NoUsesLeft);
      }
    }
  }

  /** Who is refused for the level asked for more than the nonce was issued with, and who gets past the read did not. */
  lemma LevelsDecide(actions: seq<Action>, i: nat)
    requires CanRun(EMPTY, actions) && i < |Run(EMPTY, actions).redeemers|
    ensures var s := Run(EMPTY, actions);
            var r := s.redeemers[i];
            match r.phase
            case Finished(LevelTooLow) => r.id in s.issued && r.level > s.issued[r.id].level
            case Finished(NoSuchNonce) => true
            case Reading => true
            case _ => r.id in s.issued && r.level <= s.issued[r.id].level
  {
    RunKeepsInv(EMPTY, actions);
    var s := Run(EMPTY, actions);
    assert Knows(s, s.redeemers[i]);
  }

  /** In some step of the run this redeemer read, and the nonce that it names was not there. */
  predicate ReadsMissing(s: State, actions: seq<Action>, i: nat)
    requires CanRun(s, actions)
    decreases |actions|
  {
    actions != [] &&
    ((actions[0] == Proceed(i) && s.redeemers[i].phase.Reading? && s.redeemers[i].id !in s.nonces) ||
     ReadsMissing(Step(s, actions[0]), actions[1..], i))
  }

  lemma StepsOfOthers(s: State, a: Action, i: nat)
    requires Enabled(s, a) && i < |s.redeemers|
    ensures i < |Step(s, a).redeemers| && Step(s, a).redeemers[i].id == s.redeemers[i].id
    ensures a != Proceed(i) ==> Step(s, a).redeemers[i] == s.redeemers[i]
    ensures a == Proceed(i) ==>
              (Step(s, a).redeemers[i].phase == Finished(NoSuchNonce) <==>
               s.redeemers[i].phase.Reading? && s.redeemers[i].id !in s.nonces)
  {
  }

  lemma {:induction false} FinishedReadsNoMore(s: State, actions: seq<Action>, i: nat)
    requires CanRun(s, actions) && i < |s.redeemers| && s.redeemers[i].phase.Finished?
    ensures !ReadsMissing(s, actions, i)
    decreases |actions|
  {
    if actions != [] {
      StepsOfOthers(s, actions[0], i);
      FinishedReadsNoMore(Step(s, actions[0]), actions[1..], i);
    }
  }

  lemma {:induction false} MissingFrom(s: State, actions: seq<Action>, i: nat)
    requires CanRun(s, actions) && i < |Run(s, actions).redeemers|
    ensures Run(s, actions).redeemers[i].phase == Finished(NoSuchNonce) <==>
              (i < |s.redeemers| && s.redeemers[i].phase == Finished(NoSuchNonce)) || ReadsMissing(s, actions, i)
    decreases |actions|
  {
    if actions != [] {
      MissingFrom(Step(s, actions[0]), actions[1..], i);
      if i < |s.redeemers| {
        StepsOfOthers(s, actions[0], i);
        if s.redeemers[i].phase == Finished(NoSuchNonce) {
          FinishedReadsNoMore(s, actions, i);
        }
      }
    }
  }

  /** A redeemer is told that there is no such nonce exactly when there was none in the step in which it read. */
  lemma NoSuchNonceIff(actions: seq<Action>, i: nat)
    requires CanRun(EMPTY, actions) && i < |Run(EMPTY, actions).redeemers|
    ensures Run(EMPTY, actions).redeemers[i].phase == Finished(NoSuchNonce) <==> ReadsMissing(EMPTY, actions, i)
  {
    MissingFrom(EMPTY, actions, i);
  }

  /** In some step of the run the nonce was deleted. */
  predicate IsDeleted(s: State, actions: seq<Action>, id: string)
    requires CanRun(s, actions)
    decreases |actions|
  {
    actions != [] &&
    ((actions[0] == Delete(id) && id in s.nonces) || IsDeleted(Step(s, actions[0]), actions[1..], id))
  }

  /** A nonce is issued with the level and the uses that were asked for, all of them remaining. */
  lemma CreatedAsAsked(s: State, id: string, level: nat, maxUses: int)
    requires id !in s.issued && (maxUses > 0 || maxUses == -1)
    ensures Enabled(s, Create(id, level, maxUses))
    ensures var t := Step(s, Create(id, level, maxUses));
            t.nonces == s.nonces[id := Nonce(level, maxUses, 0, maxUses)] &&
            t.issued == s.issued[id := Nonce(level, maxUses, 0, maxUses)] && t.redeemers == s.redeemers
  {
  }

  lemma {:induction false} IssuedStays(s: State, actions: seq<Action>, id: string)
    requires CanRun(s, actions) && id in s.issued
    ensures id in Run(s, actions).issued && Run(s, actions).issued[id] == s.issued[id]
    ensures id !in s.nonces ==> id !in Run(s, actions).nonces && !IsDeleted(s, actions, id)
    ensures id in s.nonces ==> (id !in Run(s, actions).nonces <==> IsDeleted(s, actions, id))
    decreases |actions|
  {
    if actions != [] {
      IssuedStays(Step(s, actions[0]), actions[1..], id);
    }
  }

  lemma {:induction false} CreatedOrNot(s: State, actions: seq<Action>, id: string)
    requires CanRun(s, actions) && id !in s.issued && id !in s.nonces
    ensures id in Run(s, actions).issued ==> (id !in Run(s, actions).nonces <==> IsDeleted(s, actions, id))
    decreases |actions|
  {
    if actions != [] {
      var next := Step(s, actions[0]);
      if id in next.issued {
        IssuedStays(next, actions[1..], id);
      } else {
        CreatedOrNot(next, actions[1..], id);
      }
    }
  }

  /** A nonce that was issued is missing exactly when it was deleted; it never comes back. */
  lemma MissingWasDeleted(actions: seq<Action>, id: string)
    requires CanRun(EMPTY, actions) && id in Run(EMPTY, actions).issued
    ensures id !in Run(EMPTY, actions).nonces <==> IsDeleted(EMPTY, actions, id)
  {
    CreatedOrNot(EMPTY, actions, id);
  }

  /**
   No redeemer is turned away for nothing: as long as the nonce exists, exactly min(N, m) of the N finished attempts to
   use it succeeded, or all of them when it is unlimited.
   */
  lemma ExactlySoManySucceed(actions: seq<Action>, id: string)
    requires CanRun(EMPTY, actions) && id in Run(EMPTY, actions).nonces
    ensures var s := Run(EMPTY, actions);
            var n := Attempts(s.redeemers, id);
            var m := s.nonces[id].maxUses;
            Successes(s.redeemers, id) == if m == UNLIMITED || n <= m then n else m
  {
    RunKeepsInv(EMPTY, actions);
    var s := Run(EMPTY, actions);
    FailedAttempt(s.redeemers, id);
    if Successes(s.redeemers, id) < Attempts(s.redeemers, id) {
      var i :| 0 <= i < |s.redeemers| && s.redeemers[i].id == id && s.redeemers[i].phase == Finished(NoUsesLeft);
      assert Knows(s, s.redeemers[i]);
    }
  }

  // ---------------------------------------------------------------------------------------------
  // The store and one undisturbed request
  // ---------------------------------------------------------------------------------------------

  /** What a request that is not interleaved with others answers. */
  function Answer(nonces: NonceDoc, id: string, level: nat): Outcome {
    if id !in nonces then NoSuchNonce
    else if nonces[id].level < level then LevelTooLow
    else if nonces[id].remainingUses == UNLIMITED || nonces[id].remainingUses > 0 then Redeemed
    else NoUsesLeft
  }

  /** An undisturbed request is three steps of the concurrent model (the last ones idle once it has finished). */
  lemma UndisturbedRequest(s: State, i: nat)
    requires i < |s.redeemers| && s.redeemers[i].phase == Reading
    ensures var r := s.redeemers[i];
            var s1 := Step(s, Proceed(i));
            var s2 := if s1.redeemers[i].phase.Finished? then s1 else Step(s1, Proceed(i));
            var s3 := if s2.redeemers[i].phase.Finished? then s2 else Step(s2, Proceed(i));
            s3.redeemers[i].phase == Finished(Answer(s.nonces, r.id, r.level)) &&
            s3.nonces == (if Answer(s.nonces, r.id, r.level) == Redeemed
                          then UseFinite(UseUnlimited(s.nonces, r.id), r.id) else s.nonces)
  {
  }

  class NonceStore {
    var nonces: NonceDoc

    constructor ()
      ensures nonces == map[]
    {
      nonces := map[];
    }

    /** Refuses a number of uses that is neither positive nor -1. */
    method AddNonce(id: string, level: nat, maxUses: int) returns (added: bool)
      modifies this
      ensures added <==> maxUses > 0 || maxUses == UNLIMITED
      ensures nonces == if added then old(nonces)[id := NewNonce(level, maxUses)] else old(nonces)
      ensures added ==> nonces[id] == Nonce(level, maxUses, 0, maxUses)
    {
      if maxUses == 0 || maxUses < -1 {
        return false;
      }
      nonces := nonces[id := Nonce(level, maxUses, 0, maxUses)];
      return true;
    }

    /** Fails when there is no such nonce; no other nonce is touched. */
    method DeleteNonce(id: string) returns (found: bool)
      modifies this
      ensures found <==> id in old(nonces)
      ensures id !in nonces && nonces - {id} == old(nonces) - {id}
    {
      found := id in nonces;
      nonces := nonces - {id};
    }

    method CheckAndRedeem(id: string, level: nat) returns (outcome: Outcome)
      modifies this
      ensures outcome == Answer(old(nonces), id, level)
      ensures outcome == NoSuchNonce <==> id !in old(nonces)
      ensures outcome == LevelTooLow <==> id in old(nonces) && level > old(nonces)[id].level
      ensures outcome == Redeemed <==>
                id in old(nonces) && level <= old(nonces)[id].level &&
                (old(nonces)[id].remainingUses == -1 || old(nonces)[id].remainingUses > 0)
      ensures outcome != Redeemed ==> nonces == old(nonces)
      ensures outcome == Redeemed ==>
                var before := old(nonces)[id];
                nonces == old(nonces)[id := before.(
                  currentUses := before.currentUses + 1,
                  remainingUses := if before.remainingUses == UNLIMITED then UNLIMITED else before.remainingUses - 1)]
    {
      if id !in nonces {
        return NoSuchNonce;
      }
      if nonces[id].level < level {
        return LevelTooLow;
      }
      if nonces[id].remainingUses == UNLIMITED {
        nonces := nonces[id := nonces[id].(currentUses := nonces[id].currentUses + 1)];
        return Redeemed;
      }
      if nonces[id].remainingUses > 0 {
        var nonce := nonces[id];
        nonces := nonces[id := nonce.(currentUses := nonce.currentUses + 1, remainingUses := nonce.remainingUses - 1)];
        return Redeemed;
      }
      return NoUsesLeft;
    }
  }
}
