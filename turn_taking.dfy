/**
 * The WAIT_FOR_TURN state: every robot keeps a registry of the distinct
 * robot ids announced on the `task_state` topic, and waits until the
 * registry holds exactly as many ids as its own index.
 *
 * Defects of the source that this model corrects to the evident intent:
 * - `callback` is declared without `self` (statemachine.py:135); here it is
 *   a method of the object whose registry it updates.
 * - the registry field is created as `turn__state` (127) but read and
 *   appended to as `task_state` (143, 150); here both are `registry`.
 * - the wait loop compares the bound method `self.turn_number` with the
 *   index instead of calling it (161), so as written it never ends; here
 *   the loop calls `TurnNumber`.
 * The lock around the registry is left out: deliveries are sequential.
 */
module TurnTaking {
  import opened Common

  /** The ids a registry holds, as a set. */
  function Ids(s: seq<int>): set<int>
  {
    set x | x in s
  }

  predicate NoDuplicates(s: seq<int>)
  {
    forall i, j :: 0 <= i < j < |s| ==> s[i] != s[j]
  }

  /**
   * One run of the receive handler: the id is appended only when absent.
   * The registry only grows, by at most one id, keeps its old entries in
   * place and never gains a duplicate.
   */
  function Insert(registry: seq<int>, id: int): (r: seq<int>)
    ensures Ids(r) == Ids(registry) + {id}
    ensures |registry| <= |r| <= |registry| + 1
    ensures r[..|registry|] == registry
    ensures id in registry ==> r == registry
    ensures NoDuplicates(registry) ==> NoDuplicates(r)
  {
    if id in registry then registry else registry + [id]
  }

  /**
   * The registry after the announcements `anns` reached an empty one, in
   * that order. It holds at most one entry per announcement.
   */
  function Received(anns: seq<int>): (r: seq<int>)
    ensures |r| <= |anns|
  {
    if anns == [] then [] else Insert(Received(anns[..|anns| - 1]), anns[|anns| - 1])
  }

  /** Announcements delivered during successive sleeps of the wait loop, in delivery order. */
  function Flatten(ticks: seq<seq<int>>): seq<int>
  {
    if ticks == [] then [] else Flatten(ticks[..|ticks| - 1]) + ticks[|ticks| - 1]
  }

  lemma FlattenSnoc(ticks: seq<seq<int>>, t: nat)
    requires t < |ticks|
    ensures Flatten(ticks[..t + 1]) == Flatten(ticks[..t]) + ticks[t]
  {
    assert ticks[..t + 1][..t] == ticks[..t];
  }

  /** Robot `index` may approach once the registry holds `index` ids. */
  predicate Released(index: int, anns: seq<int>)
  {
    |Received(anns)| == index
  }

  lemma IdsSnoc(s: seq<int>, x: int)
    ensures Ids(s + [x]) == Ids(s) + {x}
  {
  }

  lemma {:induction false} DistinctCardinality(s: seq<int>)
    requires NoDuplicates(s)
    ensures |Ids(s)| == |s|
  {
    if s != [] {
      var init := s[..|s| - 1];
      var last := s[|s| - 1];
      assert NoDuplicates(init);
      DistinctCardinality(init);
      assert s == init + [last];
      assert Ids(s) == Ids(init) + {last};
      assert last !in Ids(init);
    }
  }

  /**
   * The registry holds each announced id exactly once, whatever the order
   * and the repetitions of the announcements; so its length, the value of
   * `turn_number`, is the number of distinct ids received.
   */
  lemma {:induction false} ReceivedDistinct(anns: seq<int>)
    ensures NoDuplicates(Received(anns))
    ensures Ids(Received(anns)) == Ids(anns)
    ensures |Received(anns)| == |Ids(anns)|
  {
    ReceivedNoDuplicates(anns);
    ReceivedIds(anns);
    DistinctCardinality(Received(anns));
  }

  lemma {:induction false} ReceivedNoDuplicates(anns: seq<int>)
    ensures NoDuplicates(Received(anns))
  {
    if anns != [] {
      ReceivedNoDuplicates(anns[..|anns| - 1]);
    }
  }

  lemma {:induction false} ReceivedIds(anns: seq<int>)
    ensures Ids(Received(anns)) == Ids(anns)
  {
    if anns != [] {
      var init, last := anns[..|anns| - 1], anns[|anns| - 1];
      ReceivedIds(init);
      assert anns == init + [last];
      IdsSnoc(init, last);
    }
  }

  /** Receiving an id already announced leaves the registry as it was. */
  lemma {:induction false} RepeatIgnored(anns: seq<int>, id: int)
    requires id in anns
    ensures Received(anns + [id]) == Received(anns)
  {
    assert (anns + [id])[..|anns|] == anns;
    ReceivedDistinct(anns);
    assert id in Ids(anns);
  }

  /**
   * The registry seen after any prefix of the announcements is a prefix of
   * the registry seen after all of them: it only grows, one id at a time.
   */
  lemma {:induction false} ReceivedMonotone(anns: seq<int>, m: nat)
    requires m <= |anns|
    ensures Received(anns[..m]) <= Received(anns)
    ensures |Received(anns)| <= |Received(anns[..m])| + (|anns| - m)
    decreases |anns| - m
  {
    if m < |anns| {
      var init := anns[..|anns| - 1];
      assert init[..m] == anns[..m];
      ReceivedMonotone(init, m);
      var before, after := Received(init), Received(anns);
      assert after == Insert(before, anns[|anns| - 1]);
      assert before <= after;
    } else {
      assert anns[..m] == anns;
    }
  }

  /**
   * Turn order: when every robot announces itself once, robot `k` is
   * released after exactly `k` announcements, and at no other point.
   * In particular robot 0 is released before any announcement.
   */
  lemma TurnOrdering(anns: seq<int>, k: int, t: nat)
    requires NoDuplicates(anns)
    requires t <= |anns|
    ensures Released(k, anns[..t]) <==> t == k
  {
    assert NoDuplicates(anns[..t]);
    ReceivedDistinct(anns[..t]);
    DistinctCardinality(anns[..t]);
  }

  /**
   * The three-robot scenario: announcements arrive in the order 1, 0, 2.
   * Robot 0 goes with an empty registry and is no longer released once an
   * id has arrived, robot 1 goes after the first announcement, robot 2
   * after the second and no longer after the third.
   */
  lemma ThreeRobotScenario()
    ensures Released(0, []) && !Released(0, [1])
    ensures Released(1, [1]) && !Released(1, [])
    ensures Released(2, [1, 0]) && !Released(2, [1])
    ensures !Released(2, [1, 0, 2])
  {
    var anns := [1, 0, 2];
    assert NoDuplicates(anns);
    assert anns[..1] == [1] && anns[..2] == [1, 0];
    TurnOrdering(anns, 1, 0);
    TurnOrdering(anns, 1, 1);
    TurnOrdering(anns, 2, 1);
    TurnOrdering(anns, 2, 2);
    assert anns[..3] == anns;
    TurnOrdering(anns, 2, 3);
  }

  /** The WAIT_FOR_TURN state of one robot. */
  class WaitForTurn {
    const controllerIndex: int
    /** The distinct ids announced so far, in arrival order (`turn_state`). */
    var registry: seq<int>
    /** Every announcement delivered to the handler so far, repetitions included. */
    ghost var received: seq<int>

    ghost predicate Valid()
      reads this
    {
      registry == Received(received)
    }

    constructor (controllerIndex: int)
      ensures Valid()
      ensures this.controllerIndex == controllerIndex
      ensures registry == [] && received == []
    {
      this.controllerIndex := controllerIndex;
      registry := [];
      received := [];
    }

    /** The `task_state` receive handler. */
    method Callback(robotId: int)
      requires Valid()
      modifies this
      ensures Valid()
      ensures received == old(received) + [robotId]
      ensures registry == Insert(old(registry), robotId)
    {
      if robotId !in registry {
        registry := registry + [robotId];
      }
      received := received + [robotId];
      assert received[..|received| - 1] == old(received);
    }

    /** `turn_number`: the number of distinct robots announced so far. */
    method TurnNumber() returns (n: nat)
      requires Valid()
      ensures n == |registry|
      ensures n == |Ids(received)|
    {
      ReceivedDistinct(received);
      n := |registry|;
    }

    /** The announcements that reach the handler during one sleep, in arrival order. */
    method Deliver(batch: seq<int>)
      requires Valid()
      modifies this
      ensures Valid()
      ensures received == old(received) + batch
    {
      var k := 0;
      while k < |batch|
        invariant 0 <= k <= |batch|
        invariant Valid()
        invariant received == old(received) + batch[..k]
      {
        Callback(batch[k]);
        assert batch[..k + 1] == batch[..k] + [batch[k]];
        k := k + 1;
      }
      assert batch[..k] == batch;
    }

    /** The release test of the wait loop: the registry holds exactly `k` ids. */
    predicate Ready(k: int): (b: bool)
      reads this
      ensures Valid() ==> (b <==> Released(k, received))
      ensures Valid() ==> (b <==> |Ids(received)| == k)
    {
      ReceivedDistinct(received);
      |registry| == k
    }

    /**
     * The polling loop. Between two polls the robot sleeps, and the
     * announcements of `ticks[t]` arrive during the t-th sleep. The source
     * polls forever; the model stops with `None` once `ticks` is used up.
     * The robot is released at the first poll at which the distinct ids
     * received number exactly `controllerIndex`.
     */
    method Execute(ticks: seq<seq<int>>) returns (outcome: Option<Outcome>, waited: nat)
      requires Valid()
      modifies this
      ensures Valid()
      ensures waited <= |ticks|
      ensures received == old(received) + Flatten(ticks[..waited])
      ensures outcome == Some(MyTurn) || outcome == None
      ensures outcome.Some? <==> Released(controllerIndex, received)
      ensures outcome.Some? ==> Ready(controllerIndex)
      ensures outcome.None? ==> waited == |ticks|
      ensures forall t :: 0 <= t < waited ==> !Released(controllerIndex, old(received) + Flatten(ticks[..t]))
    {
      ghost var prior := received;
      waited := 0;
      var number := TurnNumber();
      while number != controllerIndex
        invariant Valid()
        invariant waited <= |ticks|
        invariant received == prior + Flatten(ticks[..waited])
        invariant number == |registry|
        invariant forall t :: 0 <= t < waited ==> !Released(controllerIndex, prior + Flatten(ticks[..t]))
        decreases |ticks| - waited
      {
        if waited == |ticks| {
          return None, waited;
        }
        assert !Released(controllerIndex, received);
        // The sleep: this tick's announcements reach the handler.
        var batch := ticks[waited];
        FlattenSnoc(ticks, waited);
        assert received + batch == prior + Flatten(ticks[..waited + 1]);
        Deliver(batch);
        waited := waited + 1;
        number := TurnNumber();
      }
      outcome := Some(MyTurn);
    }
  }
}
