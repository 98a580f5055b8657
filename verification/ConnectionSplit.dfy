/** How the supervisor splits connections over client processes: bench/http2_remote.py. */
module ConnectionSplit {
  import Arith
  import Tally

  /** Connections of process `i`. */
  function Share(connections: nat, processes: nat, i: nat): nat
    requires processes > 0
  {
    connections / processes + if i < connections % processes then 1 else 0
  }

  function Shares(connections: nat, processes: nat, k: nat): seq<nat>
    requires processes > 0
  {
    if k == 0 then [] else Shares(connections, processes, k - 1) + [Share(connections, processes, k - 1)]
  }

  lemma {:induction false} PrefixSum(connections: nat, processes: nat, k: nat)
    requires processes > 0 && k <= processes
    ensures var extra := connections % processes;
            Tally.Sum(Shares(connections, processes, k)) ==
              k * (connections / processes) + if k < extra then k else extra
  {
    if k > 0 {
      PrefixSum(connections, processes, k - 1);
      Tally.SumAppend(Shares(connections, processes, k - 1), [Share(connections, processes, k - 1)]);
      Arith.Distribute(k - 1, 1, connections / processes);
    }
  }

  /** No connection is lost or doubled, and no process has more than one above another. */
  lemma SplitConserves(connections: nat, processes: nat, i: nat, j: nat)
    requires processes > 0 && i <= j < processes
    ensures Tally.Sum(Shares(connections, processes, processes)) == connections
    ensures Share(connections, processes, j) <= Share(connections, processes, i) <= Share(connections, processes, j) + 1
  {
    PrefixSum(connections, processes, processes);
    Arith.DivMod(connections, processes);
  }
}
