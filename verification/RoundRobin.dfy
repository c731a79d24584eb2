/** Assignment in rotation: the active agents in the order of their ids, and the agent assigned last. */
module RoundRobin {
  import opened Common

  type AgentId = nat

  // ---------------------------------------------------------------- one call

  /** The query: the active agents by ascending id. */
  predicate Listed(agents: seq<AgentId>) {
    forall i, j :: 0 <= i < j < |agents| ==> agents[i] < agents[j]
  }

  /** Python's `index`: the first place of an element of the list. */
  function IndexOf(agents: seq<AgentId>, agent: AgentId): (i: nat)
    requires agent in agents
    ensures i < |agents| && agents[i] == agent
  {
    if agents[0] == agent then 0 else IndexOf(agents[1..], agent) + 1
  }

  /** The place in the list the next pick comes from. */
  function Start(agents: seq<AgentId>, last: Option<AgentId>): (start: nat)
    requires agents != []
    ensures start < |agents|
  {
    if last.Some? && last.value in agents then (IndexOf(agents, last.value) + 1) % |agents| else 0
  }

  function Pick(agents: seq<AgentId>, last: Option<AgentId>): AgentId
    requires agents != []
  {
    agents[Start(agents, last)]
  }

  /** The agent assigned last after some picks. */
  function LastOf(picks: seq<AgentId>, last: Option<AgentId>): Option<AgentId> {
    if picks == [] then last else Some(picks[|picks| - 1])
  }

  /** The picks of n calls in a row while the list of agents does not change. */
  function Picks(agents: seq<AgentId>, last: Option<AgentId>, n: nat): (picks: seq<AgentId>)
    requires agents != []
    ensures |picks| == n
  {
    if n == 0 then []
    else
      var before := Picks(agents, last, n - 1);
      before + [Pick(agents, LastOf(before, last))]
  }

  // ---------------------------------------------------------------- picks go round

  /** The place after `place` in a round of `size`. */
  function After(place: nat, size: nat): (next: nat)
    requires place < size
    ensures next < size
  {
    if place + 1 == size then 0 else place + 1
  }

  /** Rounds completed and the next place, after n picks from `start`. */
  function Progress(start: nat, size: nat, n: nat): (p: (nat, nat))
    requires start < size
    ensures p.1 < size
  {
    if n == 0 then (0, start)
    else
      var p := Progress(start, size, n - 1);
      var place := After(p.1, size);
      (if place == start then p.0 + 1 else p.0, place)
  }

  lemma {:induction false} PlaceIsUnique(agents: seq<AgentId>, i: nat)
    requires Listed(agents) && i < |agents|
    ensures IndexOf(agents, agents[i]) == i
  {
    if i == 0 {
    } else {
      PlaceIsUnique(agents[1..], i - 1);
      assert agents[0] < agents[i];
    }
  }

  lemma NextStart(agents: seq<AgentId>, i: nat)
    requires Listed(agents) && i < |agents|
    ensures Start(agents, Some(agents[i])) == After(i, |agents|)
  {
    hide IndexOf, After;
    PlaceIsUnique(agents, i);
    NextPlace(i, |agents|);
    assert agents[i] in agents;
  }

  lemma NextPlace(i: nat, n: nat)
    requires i < n
    ensures (i + 1) % n == After(i, n)
  {
  }

  /** The place to pick from after n calls. */
  lemma {:induction false} PicksGoRound(agents: seq<AgentId>, last: Option<AgentId>, n: nat)
    requires Listed(agents) && agents != []
    ensures Start(agents, LastOf(Picks(agents, last, n), last)) == Progress(Start(agents, last), |agents|, n).1
  {
    if n == 0 {
    } else {
      PicksGoRound(agents, last, n - 1);
      NextStart(agents, Start(agents, LastOf(Picks(agents, last, n - 1), last)));
    }
  }

  /**
   One pick by the ids: the next higher one after the agent assigned last, and the lowest when there is none or
   that agent is not on the list, or nobody was assigned yet.
   */
  lemma PickIsNextHigherOrLowest(agents: seq<AgentId>, last: Option<AgentId>)
    requires Listed(agents) && agents != []
    ensures Pick(agents, last) in agents
    ensures
      var pick := Pick(agents, last);
      if last.Some? && last.value in agents && exists a | a in agents :: a > last.value then
        pick > last.value && forall a | a in agents && a > last.value :: pick <= a
      else
        forall a | a in agents :: pick <= a
  {
    if last.Some? && last.value in agents {
      var i := IndexOf(agents, last.value);
      NextPlace(i, |agents|);
      assert agents[|agents| - 1] in agents;
    }
  }

  // ---------------------------------------------------------------- fairness

  function Times(picks: seq<AgentId>, agent: AgentId): nat {
    if picks == [] then 0 else Times(picks[..|picks| - 1], agent) + (if picks[|picks| - 1] == agent then 1 else 0)
  }

  /** The current round from `start` has come past k, with `place` next. */
  predicate Passed(start: nat, place: nat, k: nat) {
    if start <= place then start <= k < place else start <= k || k < place
  }

  lemma {:induction false} CountByRounds(agents: seq<AgentId>, last: Option<AgentId>, n: nat, k: nat)
    requires Listed(agents) && k < |agents|
    ensures var start := Start(agents, last);
      var p := Progress(start, |agents|, n);
      Times(Picks(agents, last, n), agents[k]) == p.0 + (if Passed(start, p.1, k) then 1 else 0)
  {
    hide After, IndexOf, Passed;
    if n == 0 {
      NotPassed(Start(agents, last), k);
    } else {
      var before, picks := Picks(agents, last, n - 1), Picks(agents, last, n);
      var p := Progress(Start(agents, last), |agents|, n - 1);
      CountByRounds(agents, last, n - 1, k);
      PicksGoRound(agents, last, n - 1);
      assert picks[..n - 1] == before && picks[n - 1] == agents[p.1];
      assert agents[p.1] == agents[k] <==> p.1 == k;
      RoundStep(Start(agents, last), |agents|, n, k);
    }
  }

  lemma NotPassed(start: nat, k: nat)
    ensures !Passed(start, start, k)
  {
  }

  lemma RoundStep(start: nat, size: nat, n: nat, k: nat)
    requires start < size && k < size && n > 0
    ensures var p, q := Progress(start, size, n - 1), Progress(start, size, n);
      q.0 + (if Passed(start, q.1, k) then 1 else 0)
      == p.0 + (if Passed(start, p.1, k) then 1 else 0) + (if p.1 == k then 1 else 0)
  {
  }

  /** After any number of calls from any state, two agents' counts differ by at most one. */
  lemma CountsDifferByAtMostOne(agents: seq<AgentId>, last: Option<AgentId>, n: nat, a: AgentId, b: AgentId)
    requires Listed(agents) && a in agents && b in agents
    ensures Times(Picks(agents, last, n), a) <= Times(Picks(agents, last, n), b) + 1
  {
    var i: nat :| i < |agents| && agents[i] == a;
    var j: nat :| j < |agents| && agents[j] == b;
    CountByRounds(agents, last, n, i);
    CountByRounds(agents, last, n, j);
  }

  /** How far the current round has come. */
  function Distance(start: nat, place: nat, size: nat): (d: nat)
    requires start < size && place < size
    ensures d < size
  {
    if start <= place then place - start else place + size - start
  }

  lemma {:induction false} PicksAreRoundsAndDistance(start: nat, size: nat, n: nat)
    requires start < size
    ensures var p := Progress(start, size, n);
      p.0 * size + Distance(start, p.1, size) == n
  {
    if n == 0 {
    } else {
      PicksAreRoundsAndDistance(start, size, n - 1);
      var p := Progress(start, size, n - 1);
      assert (p.0 + 1) * size == p.0 * size + size;
    }
  }

  lemma OneRound(start: nat, size: nat)
    requires start < size
    ensures Progress(start, size, size) == (1, start)
  {
    PicksAreRoundsAndDistance(start, size, size);
    Multiples(Progress(start, size, size).0, size);
  }

  lemma Multiples(c: nat, n: nat)
    ensures c == 0 ==> c * n == 0
    ensures c >= 2 ==> c * n >= n + n
  {
    if c >= 2 {
      assert (c - 2) * n >= 0;
    }
  }

  lemma {:induction false} LaterPicks(agents: seq<AgentId>, last: Option<AgentId>, a: nat, n: nat)
    requires agents != []
    ensures var first := Picks(agents, last, a);
      Picks(agents, last, a + n) == first + Picks(agents, LastOf(first, last), n)
  {
    if n == 0 {
    } else {
      LaterPicks(agents, last, a, n - 1);
      var first := Picks(agents, last, a);
      var before := Picks(agents, LastOf(first, last), n - 1);
      assert LastOf(first + before, last) == LastOf(before, LastOf(first, last));
    }
  }

  /** As many consecutive picks as there are agents take every agent exactly once, wherever they begin. */
  lemma ConsecutivePicksAreAPermutation(agents: seq<AgentId>, last: Option<AgentId>, a: nat, agent: AgentId)
    requires Listed(agents) && agent in agents
    ensures Times(Picks(agents, last, a + |agents|)[a..], agent) == 1
  {
    var first := Picks(agents, last, a);
    var round := Picks(agents, LastOf(first, last), |agents|);
    LaterPicks(agents, last, a, |agents|);
    assert (first + round)[a..] == round;
    var k: nat :| k < |agents| && agents[k] == agent;
    CountByRounds(agents, LastOf(first, last), |agents|, k);
    OneRound(Start(agents, LastOf(first, last)), |agents|);
  }

  /** Nobody outside the list is picked. */
  lemma {:induction false} OnlyListedAgents(agents: seq<AgentId>, last: Option<AgentId>, n: nat, agent: AgentId)
    requires agents != [] && agent !in agents
    ensures Times(Picks(agents, last, n), agent) == 0
  {
    if n == 0 {
    } else {
      OnlyListedAgents(agents, last, n - 1, agent);
      assert Picks(agents, last, n)[..n - 1] == Picks(agents, last, n - 1);
    }
  }

  // ---------------------------------------------------------------- the mutable state

  class Rotation {
    /** The row, once it exists, and the agent in it. */
    var last: Option<Option<AgentId>>
    /** The list of agents of the latest calls, where their rotation set out from, and what they picked. */
    ghost var roster: seq<AgentId>
    ghost var origin: Option<AgentId>
    ghost var picks: seq<AgentId>

    ghost predicate Valid()
      reads this
    {
      && Listed(roster)
      && (roster != [] ==> picks == Picks(roster, origin, |picks|))
      && (roster == [] ==> picks == [])
      && (if last.None? then None else last.value) == LastOf(picks, origin)
    }

    constructor ()
      ensures Valid() && roster == [] && last == None
    {
      last, roster, origin, picks := None, [], None, [];
    }

    /** None without active agents; else the pick, which continues the picks from an unchanged list. */
    method NextAgent(agents: seq<AgentId>) returns (agent: Option<AgentId>)
      requires Valid() && Listed(agents)
      modifies this
      ensures Valid()
      ensures agent.None? <==> agents == []
      ensures agents == [] ==> last == old(last) && picks == old(picks) && roster == old(roster)
      ensures agents != [] ==> roster == agents && last == Some(agent)
      ensures agents != [] ==> picks == (if agents == old(roster) then old(picks) else []) + [agent.value]
      ensures agents != [] && agents == old(roster) ==> origin == old(origin)
      ensures agents != [] && agents != old(roster)
        ==> Some(origin) == old(last) || (origin == None && old(last) == None)
    {
      if agents == [] {
        return None;
      }
      if last == None {
        last := Some(None);
      }
      var selected;
      if last.value.Some? && last.value.value in agents {
        selected := agents[(IndexOf(agents, last.value.value) + 1) % |agents|];
      } else {
        selected := agents[0];
      }
      if agents != roster {
        roster, origin, picks := agents, last.value, [];
      }
      picks := picks + [selected];
      assert picks[..|picks| - 1] + [selected] == picks;
      last := Some(Some(selected));
      return Some(selected);
    }
  }
}
