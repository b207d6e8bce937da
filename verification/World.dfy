/**
 What the workers share: the tables, the vector store, the clock, and where every delivery is. A worker
 sees it change only where it awaits.
 */
module Worlds {
  import opened Identifiers
  import opened Tables
  import opened VectorIndex
  import opened Pipeline
  import opened PipelineTheorems
  import PipelineAlone

  /** Another delivery's event, the reaper's, a user's or the clock's. */
  predicate FromOthers(e: Event, w: nat) {
    e.Step? || e.Cancel? || e.Kill? ==> e.delivery != w
  }

  predicate AllFromOthers(events: seq<Event>, w: nat) {
    forall i | 0 <= i < |events| :: FromOthers(events[i], w)
  }

  lemma OtherLeaves(env: Env, s: State, e: Event, w: nat)
    requires w in s.deliveries && FromOthers(e, w)
    ensures w in Apply(env, s, e).deliveries && Apply(env, s, e).deliveries[w] == s.deliveries[w]
  {
    hide StepDelivery, PartialEffect, HeldStage, FailStale, SoftDelete, UniqueContent, NewRow;
    if e.Step? && e.delivery in s.deliveries {
      PipelineAlone.KeepsDeliveries(env, s, e.delivery, e.choice);
    }
  }

  /** What others do leaves a delivery where it is. */
  lemma {:induction false} OthersLeave(env: Env, s: State, events: seq<Event>, w: nat)
    requires w in s.deliveries && AllFromOthers(events, w)
    ensures w in Run(env, s, events).deliveries && Run(env, s, events).deliveries[w] == s.deliveries[w]
    decreases |events|
  {
    hide Apply;
    if events != [] {
      var front := events[..|events| - 1];
      OthersLeave(env, s, front, w);
      OtherLeaves(env, Run(env, s, front), events[|events| - 1], w);
    }
  }

  /** Where `asyncio.CancelledError` takes a delivery. */
  function Interruption(pc: Pc): Pc {
    if HeldStage(pc).Some? then Interrupted(HeldStage(pc).value) else Done(WasCancelled)
  }

  lemma {:induction false} OneMore(env: Env, history: seq<Event>, e: Event)
    ensures Run(env, Empty, history + [e]) == Apply(env, Run(env, Empty, history), e)
  {
    hide Apply;
    assert (history + [e])[..|history|] == history;
  }

  /** One step of delivery `w` leaves these tables and points, and the delivery at `d`. */
  ghost predicate Goes(env: Env, s: State, w: nat, choice: Choice, tables: Tables, points: Points, d: Delivery) {
    && w in s.deliveries
    && StepDelivery(env, s, w, choice) == State(tables, points, s.now, s.deliveries[w := d])
  }

  /** The steps of `events`, the first of which is the `from`th event of all, get what `oracle` answers. */
  predicate Obeys(oracle: nat -> Choice, events: seq<Event>, from: nat) {
    forall k | 0 <= k < |events| && events[k].Step? :: events[k].choice == oracle(from + k)
  }

  lemma ObeysOn(oracle: nat -> Choice, before: seq<Event>, after: seq<Event>)
    requires Obeys(oracle, before, 0)
    ensures Obeys(oracle, after, |before|) ==> Obeys(oracle, before + after, 0)
    ensures (forall k | 0 <= k < |after| :: !after[k].Step?) ==> Obeys(oracle, before + after, 0)
  {
  }

  lemma ObeysNothing(oracle: nat -> Choice, from: nat)
    ensures Obeys(oracle, [], from)
  {
  }

  class World {
    const env: Env
    /** What the call made at each moment does: any function, so any run, but no worker's to choose. */
    const oracle: nat -> Choice
    var moments: nat
    var tables: Tables
    var points: Points
    var now: nat
    var deliveries: map<nat, Delivery>
    ghost var history: seq<Event>

    function Now(): State
      reads this
    {
      State(tables, points, now, deliveries)
    }

    /** `history` leads from the empty system to `s`, and every call in it did what the oracle says. */
    ghost predicate LedTo(s: State)
      reads this`history, this`moments
    {
      s == Run(env, Empty, history) && moments == |history| && Obeys(oracle, history, 0)
    }

    ghost predicate Valid()
      reads this
    {
      LedTo(Now())
    }

    constructor (env: Env, oracle: nat -> Choice)
      ensures Valid() && Now() == Empty && this.env == env && this.oracle == oracle && history == []
    {
      this.env, this.oracle := env, oracle;
      tables, points, now, deliveries, history, moments := map[], map[], 0, map[], [], 0;
    }

    /** A job is delivered to a worker. */
    method Deliver(w: nat, job: Job, config: Config, finalAttempt: bool)
      requires Valid() && w !in deliveries
      modifies this`deliveries, this`history, this`moments
      ensures Valid() && old(history) <= history
      ensures deliveries == old(deliveries)[w := Delivery(job, config, finalAttempt, now, None, Begin)]
    {
      hide Run, Apply;
      ghost var s, e := Now(), Event.Deliver(w, job, config, finalAttempt);
      OneMore(env, history, e);
      DeliverIs(env, s, w, job, config, finalAttempt);
      deliveries := deliveries[w := Delivery(job, config, finalAttempt, now, None, Begin)];
      history, moments := history + [e], moments + 1;
    }

    /**
     Delivery `w` waits. Anything others do may happen before it goes on, and it may be cancelled: then
     part of a vector-store call may have been applied. A shielded wait is not cancelled.
     */
    method Await(w: nat, shielded: bool) returns (cancelled: bool)
      requires Valid() && w in deliveries && !deliveries[w].pc.Done?
      modifies this
      ensures Valid() && old(history) <= history
      ensures shielded ==> !cancelled
      ensures w in deliveries
      ensures deliveries[w] == if cancelled then old(deliveries[w]).(pc := Interruption(old(deliveries[w]).pc))
                               else old(deliveries[w])
    {
      hide Run, Apply, PartialEffect, HeldStage, Obeys;
      ObeysNothing(oracle, moments);
      var others: seq<Event> := *;
      if !AllFromOthers(others, w) || !Obeys(oracle, others, moments) {
        others := [];
      }
      ObeysOn(oracle, history, others);
      OthersLeave(env, Now(), others, w);
      RunGoesOn(env, Empty, history, others);
      Become(Run(env, Now(), others));
      history, moments := history + others, moments + |others|;
      cancelled := *;
      cancelled := cancelled && !shielded;
      if cancelled {
        var took: set<ChunkId> := *;
        OneMore(env, history, Cancel(w, took));
        ObeysOn(oracle, history, [Cancel(w, took)]);
        CancelIs(env, Now(), w, took);
        Become(CancelDelivery(Now(), w, took));
        history, moments := history + [Cancel(w, took)], moments + 1;
      }
    }

    method Become(s: State)
      modifies this`tables, this`points, this`now, this`deliveries
      ensures Now() == s
    {
      tables, points, now, deliveries := s.tables, s.points, s.now, s.deliveries;
    }

    /** Delivery `w` has done to the stores what one step of it does, and is now at `d`. */
    method Took(ghost s: State, w: nat, ghost choice: Choice, d: Delivery)
      requires LedTo(s) && Goes(env, s, w, choice, tables, points, d) && choice == oracle(moments)
      requires now == s.now && deliveries == s.deliveries
      modifies this`deliveries, this`history, this`moments
      ensures Valid() && old(history) <= history
      ensures deliveries == old(deliveries)[w := d]
    {
      hide Run, Apply, StepDelivery;
      OneMore(env, history, Step(w, choice));
      StepIs(env, s, w, choice);
      deliveries := deliveries[w := d];
      history, moments := history + [Step(w, choice)], moments + 1;
    }
  }

  lemma DeliverIs(env: Env, s: State, w: nat, job: Job, config: Config, finalAttempt: bool)
    requires w !in s.deliveries
    ensures Apply(env, s, Deliver(w, job, config, finalAttempt))
            == s.(deliveries := s.deliveries[w := Delivery(job, config, finalAttempt, s.now, None, Begin)])
  {
  }

  lemma CancelIs(env: Env, s: State, w: nat, took: set<ChunkId>)
    requires w in s.deliveries && !s.deliveries[w].pc.Done?
    ensures Apply(env, s, Cancel(w, took)) == CancelDelivery(s, w, took)
    ensures w in CancelDelivery(s, w, took).deliveries
    ensures CancelDelivery(s, w, took).deliveries[w] == s.deliveries[w].(pc := Interruption(s.deliveries[w].pc))
  {
    hide PartialEffect, HeldStage;
  }

  lemma StepIs(env: Env, s: State, w: nat, choice: Choice)
    requires w in s.deliveries
    ensures Apply(env, s, Step(w, choice)) == StepDelivery(env, s, w, choice)
  {
    hide StepDelivery;
  }
}
