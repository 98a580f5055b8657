/**
 The CPU planner of deploy/worker_cpus.py: workers go to physical cores that share an L3 cache
 with the network card's interrupts but not a core with them, spread over the cache domains.
 The greedy choice is optimal, so its error message is exact.
 */
module WorkerCpus {
  import opened Basics

  type Cpus = set<nat>
  type Siblings = nat -> Cpus

  // ------------------------------------------------------------- selection

  /** CPUs taken once `selected` is chosen: the excluded ones and every sibling of a choice. */
  ghost function Used(sib: Siblings, excluded: Cpus, selected: seq<nat>): Cpus {
    if selected == [] then excluded
    else Used(sib, excluded, selected[..|selected| - 1]) + sib(selected[|selected| - 1])
  }

  /** What each choice was: the lowest free CPU of the group whose turn it was. */
  ghost predicate Picked(sib: Siblings, groups: seq<seq<nat>>, excluded: Cpus, selected: seq<nat>, turn: seq<nat>) {
    && |turn| == |selected|
    && forall k :: PickedNth(sib, groups, excluded, selected, turn, k)
  }

  ghost predicate PickedNth(sib: Siblings, groups: seq<seq<nat>>, excluded: Cpus, selected: seq<nat>, turn: seq<nat>,
                            k: int) {
    0 <= k < |selected| && k < |turn| ==> PickedAt(groups, Used(sib, excluded, selected[..k]), selected[k], turn[k])
  }

  ghost predicate PickedAt(groups: seq<seq<nat>>, used: Cpus, cpu: nat, g: nat) {
    g < |groups| && cpu in groups[g] && cpu !in used && forall x :: x in groups[g] && x < cpu ==> x in used
  }

  ghost predicate Exhausted(group: seq<nat>, used: Cpus) { forall x :: x in group ==> x in used }

  ghost function Turns(turn: seq<nat>, g: nat): nat {
    if turn == [] then 0 else Turns(turn[..|turn| - 1], g) + if turn[|turn| - 1] == g then 1 else 0
  }

  /** In the middle of a round, groups below `i` have had one turn more. */
  ghost predicate Level(groups: seq<seq<nat>>, used: Cpus, turn: seq<nat>, round: nat, i: nat) {
    forall g :: LevelNth(groups, used, turn, round, i, g)
  }

  ghost predicate LevelNth(groups: seq<seq<nat>>, used: Cpus, turn: seq<nat>, round: nat, i: nat, g: int) {
    0 <= g < |groups| ==> LevelAt(groups[g], used, Turns(turn, g), if g < i then round + 1 else round)
  }

  ghost predicate LevelAt(group: seq<nat>, used: Cpus, turns: nat, limit: nat) {
    turns <= limit && (turns == limit || Exhausted(group, used))
  }

  /** A group falls more than one behind another only when it has nothing left. */
  ghost predicate Balanced(groups: seq<seq<nat>>, used: Cpus, turn: seq<nat>) {
    forall a, b :: 0 <= a < |groups| && 0 <= b < |groups| && Turns(turn, a) > Turns(turn, b) + 1 ==>
      Exhausted(groups[b], used)
  }

  ghost predicate Increasing(group: seq<nat>) { forall i, j :: 0 <= i < j < |group| ==> group[i] < group[j] }

  ghost predicate SortedGroups(groups: seq<seq<nat>>) {
    forall g :: 0 <= g < |groups| ==> Increasing(groups[g])
  }

  method FirstFree(group: seq<nat>, used: Cpus) returns (cpu: Option<nat>)
    requires Increasing(group)
    ensures cpu.None? <==> Exhausted(group, used)
    ensures cpu.Some? ==> cpu.value in group && cpu.value !in used && forall x :: x in group && x < cpu.value ==>
              x in used
  {
    for i := 0 to |group|
      invariant forall j :: 0 <= j < i ==> group[j] in used
    {
      if group[i] !in used { return Some(group[i]); }
    }
    return None;
  }

  /** Where the selection stands: before group `i` of a round. */
  ghost predicate Standing(sib: Siblings, groups: seq<seq<nat>>, excluded: Cpus, selected: seq<nat>, used: Cpus,
                           turn: seq<nat>, round: nat, i: nat)
  {
    && used == Used(sib, excluded, selected)
    && Picked(sib, groups, excluded, selected, turn)
    && Level(groups, used, turn, round, i)
  }

  ghost predicate NothingLeft(groups: seq<seq<nat>>, i: nat, used: Cpus) {
    forall g :: 0 <= g < i && g < |groups| ==> Exhausted(groups[g], used)
  }

  /** One round: a CPU for every group that has one, until there are enough. */
  method Round(sib: Siblings, groups: seq<seq<nat>>, ghost excluded: Cpus, workers: nat,
               before: seq<nat>, usedBefore: Cpus, ghost turnBefore: seq<nat>, ghost round: nat)
    returns (selected: seq<nat>, used: Cpus, ghost turn: seq<nat>, ghost i: nat)
    requires SortedGroups(groups) && |before| < workers
    requires Standing(sib, groups, excluded, before, usedBefore, turnBefore, round, 0)
    ensures |before| <= |selected| <= workers
    ensures Standing(sib, groups, excluded, selected, used, turn, round, i)
    ensures |selected| < workers ==> i == |groups|
    ensures |selected| == |before| ==> NothingLeft(groups, |groups|, used)
  {
    selected, used, turn, i := before, usedBefore, turnBefore, 0;
    for j := 0 to |groups|
      invariant |before| <= |selected| < workers && i == j
      invariant Standing(sib, groups, excluded, selected, used, turn, round, j)
      invariant |selected| == |before| ==> NothingLeft(groups, j, used)
    {
      var cpu := FirstFree(groups[j], used);
      i := j + 1;
      if cpu.None? {
        StandSkip(sib, groups, excluded, selected, used, turn, round, j);
        continue;
      }
      StandPick(sib, groups, excluded, selected, used, turn, round, j, cpu.value);
      selected, turn := selected + [cpu.value], turn + [j];
      used := used + sib(cpu.value);
      if |selected| == workers { break; }
    }
  }

  lemma StandSkip(sib: Siblings, groups: seq<seq<nat>>, excluded: Cpus, selected: seq<nat>, used: Cpus,
                  turn: seq<nat>, round: nat, i: nat)
    requires Standing(sib, groups, excluded, selected, used, turn, round, i) && i < |groups|
    requires Exhausted(groups[i], used)
    ensures Standing(sib, groups, excluded, selected, used, turn, round, i + 1)
    ensures NothingLeft(groups, i, used) ==> NothingLeft(groups, i + 1, used)
  {
    LevelSkip(groups, used, turn, round, i);
  }

  lemma StandPick(sib: Siblings, groups: seq<seq<nat>>, excluded: Cpus, selected: seq<nat>, used: Cpus,
                  turn: seq<nat>, round: nat, i: nat, cpu: nat)
    requires Standing(sib, groups, excluded, selected, used, turn, round, i) && PickedAt(groups, used, cpu, i)
    ensures Standing(sib, groups, excluded, selected + [cpu], used + sib(cpu), turn + [i], round, i + 1)
  {
    PickOne(sib, groups, excluded, selected, turn, cpu, i);
    LevelPick(groups, used, used + sib(cpu), turn, round, i);
  }

  /** The selection loop: round after round until there are enough or none is left. */
  method Select(sib: Siblings, groups: seq<seq<nat>>, excluded: Cpus, workers: nat)
    returns (selected: seq<nat>, ghost turn: seq<nat>)
    requires SortedGroups(groups)
    ensures Picked(sib, groups, excluded, selected, turn)
    ensures Balanced(groups, Used(sib, excluded, selected), turn)
    ensures |selected| <= workers
    ensures |selected| < workers ==> forall g :: 0 <= g < |groups| ==>
              Exhausted(groups[g], Used(sib, excluded, selected))
  {
    selected, turn := [], [];
    var used := excluded;
    ghost var round := 0;
    while |selected| < workers
      invariant |selected| <= workers && used == Used(sib, excluded, selected)
      invariant Picked(sib, groups, excluded, selected, turn) && Balanced(groups, used, turn)
      invariant |selected| < workers ==> Level(groups, used, turn, round, 0)
      decreases workers - |selected|
    {
      var before := |selected|;
      ghost var i;
      selected, used, turn, i := Round(sib, groups, excluded, workers, selected, used, turn, round);
      LevelBalanced(groups, used, turn, round, i);
      if |selected| == before { return; }
      if |selected| < workers { LevelRound(groups, used, turn, round); }
      round := round + 1;
    }
  }

  lemma PickOne(sib: Siblings, groups: seq<seq<nat>>, excluded: Cpus, selected: seq<nat>, turn: seq<nat>, cpu: nat,
                g: nat)
    requires Picked(sib, groups, excluded, selected, turn)
    requires PickedAt(groups, Used(sib, excluded, selected), cpu, g)
    ensures Picked(sib, groups, excluded, selected + [cpu], turn + [g])
    ensures Used(sib, excluded, selected + [cpu]) == Used(sib, excluded, selected) + sib(cpu)
  {
    var now := selected + [cpu];
    assert now[..|selected|] == selected;
    forall k ensures PickedNth(sib, groups, excluded, now, turn + [g], k) {
      assert PickedNth(sib, groups, excluded, selected, turn, k);
      if 0 <= k < |now| { assert now[..k] == selected[..k]; }
      if k == |selected| { assert now[..k] == selected; }
    }
  }

  lemma TurnsPush(turn: seq<nat>, i: nat, g: nat)
    ensures Turns(turn + [i], g) == Turns(turn, g) + if i == g then 1 else 0
  {
    assert (turn + [i])[..|turn|] == turn;
  }

  lemma LevelSkip(groups: seq<seq<nat>>, used: Cpus, turn: seq<nat>, round: nat, i: nat)
    requires i < |groups| && Level(groups, used, turn, round, i) && Exhausted(groups[i], used)
    ensures Level(groups, used, turn, round, i + 1)
  {
    var next := i + 1;
    forall g ensures LevelNth(groups, used, turn, round, next, g) {
      assert LevelNth(groups, used, turn, round, i, g);
    }
  }

  lemma LevelPick(groups: seq<seq<nat>>, used: Cpus, more: Cpus, turn: seq<nat>, round: nat, i: nat)
    requires i < |groups| && Level(groups, used, turn, round, i) && !Exhausted(groups[i], used) && used <= more
    ensures Level(groups, more, turn + [i], round, i + 1)
  {
    var next, now := i + 1, turn + [i];
    forall g ensures LevelNth(groups, more, now, round, next, g) {
      assert LevelNth(groups, used, turn, round, i, g);
      if 0 <= g { TurnsPush(turn, i, g); }
    }
  }

  lemma LevelRound(groups: seq<seq<nat>>, used: Cpus, turn: seq<nat>, round: nat)
    requires Level(groups, used, turn, round, |groups|)
    ensures Level(groups, used, turn, round + 1, 0)
  {
    var next := round + 1;
    forall g ensures LevelNth(groups, used, turn, next, 0, g) {
      assert LevelNth(groups, used, turn, round, |groups|, g);
    }
  }

  lemma LevelBalanced(groups: seq<seq<nat>>, used: Cpus, turn: seq<nat>, round: nat, i: nat)
    requires Level(groups, used, turn, round, i)
    ensures Balanced(groups, used, turn)
  {
    forall a, b | 0 <= a < |groups| && 0 <= b < |groups| && Turns(turn, a) > Turns(turn, b) + 1
      ensures Exhausted(groups[b], used)
    {
      assert LevelNth(groups, used, turn, round, i, a) && LevelNth(groups, used, turn, round, i, b);
    }
  }
}
