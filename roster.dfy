/**
 * Operations on the agent roster, a list of `AgentProfile`s identified by
 * their `id`: the `find`, `filter` and `map` expressions that the app uses to
 * look up, remove and replace agents by id.
 */
module Roster {
  import opened Wrappers
  import opened Types

  /** Some agent in the roster has this id. */
  predicate HasId(agents: seq<AgentProfile>, id: string)
  {
    exists i :: 0 <= i < |agents| && agents[i].id == id
  }

  /** No two agents share an id (the default roster and fresh ids keep this). */
  predicate DistinctIds(agents: seq<AgentProfile>)
  {
    forall i, j :: 0 <= i < j < |agents| ==> agents[i].id != agents[j].id
  }

  /** The position of the first agent with this id, as `Array.prototype.findIndex` gives it. */
  function IndexOfId(agents: seq<AgentProfile>, id: string): (r: Option<nat>)
    ensures r.None? ==> forall j :: 0 <= j < |agents| ==> agents[j].id != id
    ensures r.Some? ==> r.value < |agents| && agents[r.value].id == id
    ensures r.Some? ==> forall j :: 0 <= j < r.value ==> agents[j].id != id
  {
    if agents == [] then None
    else if agents[0].id == id then Some(0)
    else match IndexOfId(agents[1..], id)
      case None => None
      case Some(k) => Some(k + 1)
  }

  /** `agents.find(a => a.id === id)`: the first agent with that id, if any. */
  function FindById(agents: seq<AgentProfile>, id: string): (r: Option<AgentProfile>)
    ensures r.None? <==> !HasId(agents, id)
    ensures r.Some? ==> r.value in agents && r.value.id == id
  {
    match IndexOfId(agents, id)
    case None => None
    case Some(k) => Some(agents[k])
  }

  /** With distinct ids, the agent found is the one at any position holding that id. */
  lemma FindByIdUnique(agents: seq<AgentProfile>, k: nat)
    requires DistinctIds(agents) && k < |agents|
    ensures FindById(agents, agents[k].id) == Some(agents[k])
  {
    var i := IndexOfId(agents, agents[k].id);
    assert i.Some?;
    assert !(i.value < k) && !(k < i.value);
  }

  /** `agents.filter(a => a.id !== id)`: every agent with that id is dropped, the rest keep their order. */
  function WithoutId(agents: seq<AgentProfile>, id: string): (r: seq<AgentProfile>)
    ensures |r| <= |agents|
    ensures forall a :: a in r <==> a in agents && a.id != id
    ensures !HasId(r, id)
  {
    if agents == [] then []
    else (if agents[0].id != id then [agents[0]] else []) + WithoutId(agents[1..], id)
  }

  /** Filtering distributes over concatenation, which is what "keeps the others in order" means. */
  lemma {:induction false} WithoutIdAppend(a: seq<AgentProfile>, b: seq<AgentProfile>, id: string)
    ensures WithoutId(a + b, id) == WithoutId(a, id) + WithoutId(b, id)
  {
    if a == [] {
      assert a + b == b;
    } else {
      assert (a + b)[1..] == a[1..] + b;
      WithoutIdAppend(a[1..], b, id);
    }
  }

  /** Removing an id nobody has changes nothing. */
  lemma {:induction false} WithoutAbsentId(agents: seq<AgentProfile>, id: string)
    requires !HasId(agents, id)
    ensures WithoutId(agents, id) == agents
  {
    if agents != [] {
      assert !HasId(agents[1..], id) by {
        forall j | 0 <= j < |agents[1..]| ensures agents[1..][j].id != id {
          assert agents[1..][j] == agents[j + 1];
        }
      }
      WithoutAbsentId(agents[1..], id);
    }
  }

  /** With distinct ids, removing the agent at position k leaves exactly the agents around it. */
  lemma {:induction false} WithoutIdAt(agents: seq<AgentProfile>, k: nat)
    requires DistinctIds(agents) && k < |agents|
    ensures WithoutId(agents, agents[k].id) == agents[..k] + agents[k + 1..]
  {
    var id, tail := agents[k].id, agents[1..];
    if k == 0 {
      assert !HasId(tail, id) by {
        forall j | 0 <= j < |tail| ensures tail[j].id != id {
          assert tail[j] == agents[j + 1];
        }
      }
      WithoutAbsentId(tail, id);
    } else {
      assert DistinctIds(tail) by {
        forall i, j | 0 <= i < j < |tail| ensures tail[i].id != tail[j].id {
          assert tail[i] == agents[i + 1] && tail[j] == agents[j + 1];
        }
      }
      assert tail[k - 1] == agents[k];
      WithoutIdAt(tail, k - 1);
      assert agents[..k] == [agents[0]] + tail[..k - 1];
      assert agents[k + 1..] == tail[k..];
    }
  }

  /** Removal keeps ids distinct. */
  lemma {:induction false} WithoutIdKeepsDistinct(agents: seq<AgentProfile>, id: string)
    requires DistinctIds(agents)
    ensures DistinctIds(WithoutId(agents, id))
  {
    if agents != [] {
      var rest := WithoutId(agents[1..], id);
      assert DistinctIds(agents[1..]) by {
        forall i, j | 0 <= i < j < |agents[1..]| ensures agents[1..][i].id != agents[1..][j].id {
          assert agents[1..][i] == agents[i + 1] && agents[1..][j] == agents[j + 1];
        }
      }
      WithoutIdKeepsDistinct(agents[1..], id);
      if agents[0].id != id {
        forall a | a in rest ensures a.id != agents[0].id {
          assert a in agents[1..];
          var j :| 0 <= j < |agents[1..]| && agents[1..][j] == a;
          assert agents[j + 1] == a;
        }
      }
    }
  }

  /**
   * The roster cannot become empty by removal: removal is offered only while
   * there is more than one agent, and with distinct ids one removal drops at
   * most one of them.
   */
  lemma RemovalKeepsRosterNonEmpty(agents: seq<AgentProfile>, id: string)
    requires DistinctIds(agents) && |agents| > 1
    ensures |WithoutId(agents, id)| >= |agents| - 1 >= 1
  {
    var i := IndexOfId(agents, id);
    if i.None? {
      WithoutAbsentId(agents, id);
    } else {
      WithoutIdAt(agents, i.value);
    }
  }

  /** `agents.map(a => a.id === updated.id ? updated : a)`. */
  function UpdateById(agents: seq<AgentProfile>, updated: AgentProfile): (r: seq<AgentProfile>)
    ensures |r| == |agents|
    ensures forall i :: 0 <= i < |agents| ==> r[i].id == agents[i].id
    ensures forall i :: 0 <= i < |agents| && agents[i].id != updated.id ==> r[i] == agents[i]
    ensures forall i :: 0 <= i < |agents| && agents[i].id == updated.id ==> r[i] == updated
  {
    seq(|agents|, i requires 0 <= i < |agents| => if agents[i].id == updated.id then updated else agents[i])
  }

  /** An update keeps the ids, and with them their distinctness, and the updated agent is then the one found. */
  lemma UpdateByIdFound(agents: seq<AgentProfile>, updated: AgentProfile)
    requires DistinctIds(agents) && HasId(agents, updated.id)
    ensures DistinctIds(UpdateById(agents, updated))
    ensures FindById(UpdateById(agents, updated), updated.id) == Some(updated)
  {
    var r := UpdateById(agents, updated);
    var k :| 0 <= k < |agents| && agents[k].id == updated.id;
    FindByIdUnique(r, k);
  }

  /** Applying the same update twice is the same as applying it once. */
  lemma UpdateByIdIdempotent(agents: seq<AgentProfile>, updated: AgentProfile)
    ensures UpdateById(UpdateById(agents, updated), updated) == UpdateById(agents, updated)
  {
  }
}
