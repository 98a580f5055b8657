/** The whole plan: what the selection of worker CPUs guarantees about cores, interrupts and cache domains. */
module WorkerPlan {
  import opened Basics
  import opened WorkerCpus
  import Ids

  /** What the kernel says about the machine. */
  datatype Topology = Topology(online: Cpus, siblings: nat -> Cpus, l3: nat -> Option<Cpus>)

  /** Thread siblings split the CPUs into physical cores. */
  ghost predicate Partition(sib: Siblings) {
    && (forall c :: c in sib(c))
    && (forall c, d :: d in sib(c) ==> sib(d) == sib(c))
  }

  datatype Error =
    | WorkersOutOfRange
    | NoIrqs
    | IrqOffline(irq: nat)
    | NoL3(cpu: nat)
    | EmptyDomain
    | OnlyCores(found: nat)
  datatype Plan = Plan(cpus: seq<nat>) | Refused(error: Error)

  // ------------------------------------------------------- what a plan may use

  ghost function IrqCpus(t: Topology, irqs: seq<Cpus>): Cpus {
    set i, c | 0 <= i < |irqs| && c in irqs[i] * t.online :: c
  }

  ghost predicate IrqCore(t: Topology, irqs: seq<Cpus>, c: nat) {
    exists i :: i in IrqCpus(t, irqs) && c in t.siblings(i)
  }

  ghost predicate IrqDomain(t: Topology, irqs: seq<Cpus>, d: Cpus) {
    exists i :: i in IrqCpus(t, irqs) && t.l3(i) == Some(d)
  }

  /** CPUs a worker may run on. */
  ghost predicate Eligible(t: Topology, irqs: seq<Cpus>, allowed: Cpus, c: nat) {
    && c in allowed && c in t.online && c < 1024
    && !IrqCore(t, irqs, c)
    && exists d :: IrqDomain(t, irqs, d) && c in d
  }

  ghost function EligibleCpus(t: Topology, irqs: seq<Cpus>, allowed: Cpus): Cpus {
    set c | c in allowed && Eligible(t, irqs, allowed, c)
  }

  /** The physical cores of some CPUs. */
  ghost function Cores(sib: Siblings, cpus: Cpus): set<Cpus> { set c | c in cpus :: sib(c) }

  /** Inputs that get as far as the selection. */
  ghost predicate Accepts(t: Topology, irqs: seq<Cpus>, workers: int) {
    && 1 <= workers <= 256 && |irqs| > 0
    && (forall i :: 0 <= i < |irqs| ==> irqs[i] * t.online != {})
    && (forall c :: c in IrqCpus(t, irqs) ==> t.l3(c).Some? && t.l3(c).value != {})
  }

  // ------------------------------------------------- counting selected cores

  ghost function CoreSet(sib: Siblings, selected: seq<nat>): set<Cpus> {
    if selected == [] then {} else CoreSet(sib, selected[..|selected| - 1]) + {sib(selected[|selected| - 1])}
  }

  lemma {:induction false} UsedIs(sib: Siblings, excluded: Cpus, selected: seq<nat>, x: nat)
    ensures x in Used(sib, excluded, selected) <==>
              x in excluded || exists k :: 0 <= k < |selected| && x in sib(selected[k])
  {
    if selected != [] {
      var rest, last := selected[..|selected| - 1], |selected| - 1;
      UsedIs(sib, excluded, rest, x);
      if k :| 0 <= k < |selected| && x in sib(selected[k]) { if k < last { assert x in sib(rest[k]); } }
      if k :| 0 <= k < |rest| && x in sib(rest[k]) { assert x in sib(selected[k]); }
    }
  }

  lemma {:induction false} CoreSetIs(sib: Siblings, selected: seq<nat>, core: Cpus)
    ensures core in CoreSet(sib, selected) <==> exists k :: 0 <= k < |selected| && core == sib(selected[k])
  {
    if selected != [] {
      var rest, last := selected[..|selected| - 1], |selected| - 1;
      CoreSetIs(sib, rest, core);
      if k :| 0 <= k < |selected| && core == sib(selected[k]) { if k < last { assert core == sib(rest[k]); } }
      if k :| 0 <= k < |rest| && core == sib(rest[k]) { assert core == sib(selected[k]); }
    }
  }

  lemma PickedPrefix(sib: Siblings, groups: seq<seq<nat>>, excluded: Cpus, selected: seq<nat>, turn: seq<nat>, n: nat)
    requires Picked(sib, groups, excluded, selected, turn) && n <= |selected|
    ensures Picked(sib, groups, excluded, selected[..n], turn[..n])
  {
    var s := selected[..n];
    forall k ensures PickedNth(sib, groups, excluded, s, turn[..n], k) {
      assert PickedNth(sib, groups, excluded, selected, turn, k);
      if 0 <= k < n { assert s[..k] == selected[..k]; }
    }
  }

  /** Every selected CPU brings a core of its own. */
  lemma {:induction false} CoresDistinct(sib: Siblings, groups: seq<seq<nat>>, excluded: Cpus, selected: seq<nat>,
                                         turn: seq<nat>)
    requires Partition(sib) && Picked(sib, groups, excluded, selected, turn)
    ensures |CoreSet(sib, selected)| == |selected|
  {
    if selected != [] {
      var n := |selected| - 1;
      var rest, cpu := selected[..n], selected[n];
      PickedPrefix(sib, groups, excluded, selected, turn, n);
      CoresDistinct(sib, groups, excluded, rest, turn[..n]);
      CoreSetIs(sib, rest, sib(cpu));
      assert PickedNth(sib, groups, excluded, selected, turn, n);
      if k :| 0 <= k < |rest| && sib(cpu) == sib(rest[k]) {
        UsedIs(sib, excluded, rest, cpu);
      }
    }
  }

  ghost predicate Groups(groups: seq<seq<nat>>, eligible: Cpus) {
    forall x :: x in eligible <==> exists g :: 0 <= g < |groups| && x in groups[g]
  }

  lemma SelectedEligible(sib: Siblings, groups: seq<seq<nat>>, eligible: Cpus, excluded: Cpus, selected: seq<nat>,
                         turn: seq<nat>, k: nat)
    requires Groups(groups, eligible) && Picked(sib, groups, excluded, selected, turn) && k < |selected|
    ensures selected[k] in eligible && sib(selected[k]) in Cores(sib, eligible)
  {
    assert PickedNth(sib, groups, excluded, selected, turn, k);
  }

  /** Never more cores than there are. */
  lemma SelectedCores(sib: Siblings, groups: seq<seq<nat>>, eligible: Cpus, excluded: Cpus, selected: seq<nat>,
                      turn: seq<nat>)
    requires Groups(groups, eligible) && Picked(sib, groups, excluded, selected, turn)
    ensures CoreSet(sib, selected) <= Cores(sib, eligible) && |CoreSet(sib, selected)| <= |Cores(sib, eligible)|
  {
    forall core | core in CoreSet(sib, selected) ensures core in Cores(sib, eligible) {
      CoreSetIs(sib, selected, core);
      var k :| 0 <= k < |selected| && core == sib(selected[k]);
      SelectedEligible(sib, groups, eligible, excluded, selected, turn, k);
    }
    Ids.SubsetSize(CoreSet(sib, selected), Cores(sib, eligible));
  }

  /** With every group exhausted, every core that exists is selected. */
  lemma AllCores(sib: Siblings, groups: seq<seq<nat>>, eligible: Cpus, excluded: Cpus, selected: seq<nat>,
                 turn: seq<nat>)
    requires Partition(sib) && Groups(groups, eligible) && Picked(sib, groups, excluded, selected, turn)
    requires eligible !! excluded
    requires forall g :: 0 <= g < |groups| ==> Exhausted(groups[g], Used(sib, excluded, selected))
    ensures |selected| == |Cores(sib, eligible)|
  {
    forall core | core in Cores(sib, eligible) ensures core in CoreSet(sib, selected) {
      var c :| c in eligible && core == sib(c);
      var g :| 0 <= g < |groups| && c in groups[g];
      UsedIs(sib, excluded, selected, c);
      CoreSetIs(sib, selected, core);
    }
    SelectedCores(sib, groups, eligible, excluded, selected, turn);
    assert CoreSet(sib, selected) == Cores(sib, eligible);
    CoresDistinct(sib, groups, excluded, selected, turn);
  }

  // ----------------------------------------------------- domains and balance

  ghost function CountIn(selected: seq<nat>, d: Cpus): nat {
    if selected == [] then 0
    else CountIn(selected[..|selected| - 1], d) + if selected[|selected| - 1] in d then 1 else 0
  }

  ghost predicate Disjoint(domains: seq<Cpus>) {
    forall a, b :: 0 <= a < |domains| && 0 <= b < |domains| && a != b ==> domains[a] !! domains[b]
  }

  ghost predicate GroupOf(group: seq<nat>, domain: Cpus, candidates: Cpus) {
    forall x :: x in group <==> x in domain * candidates
  }

  ghost predicate GroupsOf(groups: seq<seq<nat>>, domains: seq<Cpus>, candidates: Cpus) {
    && |groups| == |domains|
    && (forall g :: 0 <= g < |groups| ==> GroupOf(groups[g], domains[g], candidates))
  }

  /** The turn in which a CPU was selected is the domain it lies in. */
  lemma OneDomain(groups: seq<seq<nat>>, domains: seq<Cpus>, candidates: Cpus, used: Cpus, cpu: nat, turn: nat, g: nat)
    requires Disjoint(domains) && GroupsOf(groups, domains, candidates) && PickedAt(groups, used, cpu, turn)
    requires g < |domains|
    ensures cpu in domains[g] <==> turn == g
  {
    assert GroupOf(groups[turn], domains[turn], candidates);
    if turn != g { assert domains[turn] !! domains[g]; }
  }

  /** With disjoint domains, a domain has as many workers as it had turns. */
  lemma {:induction false} TurnsCount(sib: Siblings, groups: seq<seq<nat>>, domains: seq<Cpus>, candidates: Cpus,
                                      excluded: Cpus, selected: seq<nat>, turn: seq<nat>, g: nat)
    requires Disjoint(domains) && GroupsOf(groups, domains, candidates) && g < |domains|
    requires Picked(sib, groups, excluded, selected, turn)
    ensures CountIn(selected, domains[g]) == Turns(turn, g)
  {
    if selected != [] {
      var n := |selected| - 1;
      PickedPrefix(sib, groups, excluded, selected, turn, n);
      TurnsCount(sib, groups, domains, candidates, excluded, selected[..n], turn[..n], g);
      assert PickedNth(sib, groups, excluded, selected, turn, n);
      OneDomain(groups, domains, candidates, Used(sib, excluded, selected[..n]), selected[n], turn[n], g);
    }
  }

  /** `x` shares a physical core with one of the CPUs. */
  ghost predicate Taken(sib: Siblings, cpus: seq<nat>, x: nat) {
    exists k :: 0 <= k < |cpus| && x in sib(cpus[k])
  }

  /** A domain more than one worker behind another has no free core. */
  ghost predicate Spread(sib: Siblings, domains: seq<Cpus>, candidates: Cpus, cpus: seq<nat>) {
    forall a, b, x ::
      0 <= a < |domains| && 0 <= b < |domains| && CountIn(cpus, domains[a]) > CountIn(cpus, domains[b]) + 1
      && x in domains[b] * candidates
      ==> Taken(sib, cpus, x)
  }

  /** Each choice is the lowest CPU of its domain that was still free. */
  ghost predicate LowestFirst(sib: Siblings, domains: seq<Cpus>, candidates: Cpus, cpus: seq<nat>) {
    forall k, g, x ::
      0 <= k < |cpus| && 0 <= g < |domains| && cpus[k] in domains[g] && x in domains[g] * candidates && x < cpus[k]
      ==> Taken(sib, cpus[..k], x)
  }

  lemma SpreadHolds(sib: Siblings, groups: seq<seq<nat>>, domains: seq<Cpus>, candidates: Cpus,
                    excluded: Cpus, selected: seq<nat>, turn: seq<nat>)
    requires Disjoint(domains) && GroupsOf(groups, domains, candidates) && candidates !! excluded
    requires Picked(sib, groups, excluded, selected, turn) && Balanced(groups, Used(sib, excluded, selected), turn)
    ensures Spread(sib, domains, candidates, selected)
  {
    forall a, b, x | 0 <= a < |domains| && 0 <= b < |domains|
        && CountIn(selected, domains[a]) > CountIn(selected, domains[b]) + 1
        && x in domains[b] * candidates
      ensures Taken(sib, selected, x)
    {
      TurnsCount(sib, groups, domains, candidates, excluded, selected, turn, a);
      TurnsCount(sib, groups, domains, candidates, excluded, selected, turn, b);
      assert Exhausted(groups[b], Used(sib, excluded, selected)) && GroupOf(groups[b], domains[b], candidates);
      UsedIs(sib, excluded, selected, x);
    }
  }

  lemma LowestHolds(sib: Siblings, groups: seq<seq<nat>>, domains: seq<Cpus>, candidates: Cpus,
                    excluded: Cpus, selected: seq<nat>, turn: seq<nat>)
    requires Disjoint(domains) && GroupsOf(groups, domains, candidates) && candidates !! excluded
    requires Picked(sib, groups, excluded, selected, turn)
    ensures LowestFirst(sib, domains, candidates, selected)
  {
    forall k, g, x | 0 <= k < |selected| && 0 <= g < |domains| && selected[k] in domains[g]
        && x in domains[g] * candidates && x < selected[k]
      ensures Taken(sib, selected[..k], x)
    {
      assert PickedNth(sib, groups, excluded, selected, turn, k);
      OneDomain(groups, domains, candidates, Used(sib, excluded, selected[..k]), selected[k], turn[k], g);
      assert GroupOf(groups[g], domains[g], candidates);
      UsedIs(sib, excluded, selected[..k], x);
    }
  }

  /** Two selected CPUs never share a core. */
  lemma Apart(sib: Siblings, groups: seq<seq<nat>>, excluded: Cpus, selected: seq<nat>, turn: seq<nat>, i: nat, j: nat)
    requires Partition(sib) && Picked(sib, groups, excluded, selected, turn) && i < j < |selected|
    ensures sib(selected[i]) !! sib(selected[j])
  {
    var before := selected[..j];
    assert PickedNth(sib, groups, excluded, selected, turn, j);
    UsedIs(sib, excluded, before, selected[j]);
    assert before[i] == selected[i];
    if x :| x in sib(selected[i]) && x in sib(selected[j]) {
      SameCore(sib, selected[i], selected[j], x);
    }
  }

  lemma SameCore(sib: Siblings, a: nat, b: nat, x: nat)
    requires Partition(sib) && x in sib(a) && x in sib(b)
    ensures b in sib(a)
  {
    assert sib(x) == sib(a) && sib(x) == sib(b);
  }

  // ------------------------------------------------------------------ the plan

  /** The union of the interrupts' effective CPUs, or the first interrupt without one. */
  method EffectiveCpus(t: Topology, irqs: seq<Cpus>) returns (cpus: Cpus, offline: Option<nat>)
    ensures offline.None? <==> forall i :: 0 <= i < |irqs| ==> irqs[i] * t.online != {}
    ensures offline.None? ==> cpus == IrqCpus(t, irqs)
    ensures offline.Some? ==> offline.value < |irqs| && irqs[offline.value] * t.online == {}
  {
    cpus := {};
    for i := 0 to |irqs|
      invariant forall j :: 0 <= j < i ==> irqs[j] * t.online != {}
      invariant forall c :: c in cpus <==> exists j :: 0 <= j < i && c in irqs[j] * t.online
    {
      var effective := irqs[i] * t.online;
      if effective == {} { return {}, Some(i); }
      cpus := cpus + effective;
    }
    return cpus, None;
  }

  /** Every CPU that shares a core with an interrupt. */
  method SiblingsOf(sib: Siblings, cpus: Cpus) returns (all: Cpus)
    ensures forall c :: c in all <==> exists i :: i in cpus && c in sib(i)
  {
    all := {};
    var rest := cpus;
    while rest != {}
      invariant rest <= cpus
      invariant forall c :: c in all <==> exists i :: i in cpus - rest && c in sib(i)
      decreases |rest|
    {
      var i :| i in rest;
      all := all + sib(i);
      rest := rest - {i};
    }
  }

  /** The distinct L3 domains of the interrupts' CPUs, or a CPU without one. */
  method DomainsOf(t: Topology, cpus: Cpus) returns (domains: set<Cpus>, missing: Option<nat>)
    ensures missing.None? <==> forall c :: c in cpus ==> t.l3(c).Some?
    ensures missing.None? ==> forall d :: d in domains <==> exists c :: c in cpus && t.l3(c) == Some(d)
    ensures missing.Some? ==> missing.value in cpus && t.l3(missing.value).None?
  {
    domains := {};
    var rest := cpus;
    while rest != {}
      invariant rest <= cpus
      invariant forall c :: c in cpus - rest ==> t.l3(c).Some?
      invariant forall d :: d in domains <==> exists c :: c in cpus - rest && t.l3(c) == Some(d)
      decreases |rest|
    {
      var c :| c in rest;
      if t.l3(c).None? { return {}, Some(c); }
      domains := domains + {t.l3(c).value};
      rest := rest - {c};
    }
    return domains, None;
  }

  function Min(d: Cpus): nat
    requires d != {}
  {
    Ids.LeastExists(d);
    assert Ids.Ascending(d) != [];
    Ids.Ascending(d)[0]
  }

  /** Domain `a` comes before domain `b`. */
  ghost predicate Precedes(a: Cpus, b: Cpus) { a != {} && b != {} && a != b && Min(a) <= Min(b) }

  ghost predicate Ordered(domains: seq<Cpus>) {
    && (forall i :: 0 <= i < |domains| ==> domains[i] != {})
    && (forall i, j :: 0 <= i < j < |domains| ==> Precedes(domains[i], domains[j]))
  }

  method LeastDomain(domains: set<Cpus>) returns (least: Cpus)
    requires domains != {} && {} !in domains
    ensures least in domains && forall d :: d in domains && d != least ==> Precedes(least, d)
  {
    least :| least in domains;
    var rest := domains - {least};
    while rest != {}
      invariant rest <= domains && least in domains
      invariant forall d :: d in domains && d !in rest && d != least ==> Precedes(least, d)
      decreases |rest|
    {
      var d :| d in rest;
      if Min(d) < Min(least) { least := d; }
      rest := rest - {d};
    }
  }

  ghost predicate AllPrecede(sorted: seq<Cpus>, rest: set<Cpus>) {
    forall i, d :: 0 <= i < |sorted| && d in rest ==> Precedes(sorted[i], d)
  }

  lemma OrderedPush(sorted: seq<Cpus>, rest: set<Cpus>, d: Cpus)
    requires Ordered(sorted) && AllPrecede(sorted, rest) && d in rest && d != {}
    requires forall x :: x in rest && x != d ==> Precedes(d, x)
    ensures Ordered(sorted + [d]) && AllPrecede(sorted + [d], rest - {d})
  {
  }

  /** The domains sorted by their lowest CPU. */
  method SortDomains(domains: set<Cpus>) returns (sorted: seq<Cpus>)
    requires {} !in domains
    ensures Ordered(sorted) && forall d :: d in sorted <==> d in domains
  {
    sorted := [];
    var rest := domains;
    while rest != {}
      invariant rest <= domains && Ordered(sorted) && AllPrecede(sorted, rest)
      invariant forall d :: d in domains <==> d in sorted || d in rest
      decreases |rest|
    {
      var d := LeastDomain(rest);
      OrderedPush(sorted, rest, d);
      sorted := sorted + [d];
      rest := rest - {d};
    }
  }

  /** The candidates of each domain, ascending. */
  method MakeGroups(domains: seq<Cpus>, candidates: Cpus) returns (groups: seq<seq<nat>>)
    ensures SortedGroups(groups) && GroupsOf(groups, domains, candidates)
  {
    groups := [];
    for i := 0 to |domains|
      invariant |groups| == i && SortedGroups(groups)
      invariant forall g :: 0 <= g < i ==> GroupOf(groups[g], domains[g], candidates)
    {
      groups := groups + [Ids.Ascending(domains[i] * candidates)];
    }
  }

  /** What a plan promises. */
  ghost predicate Sound(t: Topology, irqs: seq<Cpus>, allowed: Cpus, workers: int, cpus: seq<nat>) {
    && |cpus| == workers
    && (forall k :: 0 <= k < |cpus| ==> Eligible(t, irqs, allowed, cpus[k]))
    && (forall i, j :: 0 <= i < j < |cpus| ==> t.siblings(cpus[i]) !! t.siblings(cpus[j]))
  }

  /** The distinct interrupt domains, by their lowest CPU. */
  ghost predicate DomainList(t: Topology, irqs: seq<Cpus>, domains: seq<Cpus>) {
    Ordered(domains) && forall d :: d in domains <==> IrqDomain(t, irqs, d)
  }

  ghost predicate Fair(t: Topology, irqs: seq<Cpus>, allowed: Cpus, cpus: seq<nat>) {
    exists domains :: DomainList(t, irqs, domains) && (Disjoint(domains) ==>
      && Spread(t.siblings, domains, EligibleCpus(t, irqs, allowed), cpus)
      && LowestFirst(t.siblings, domains, EligibleCpus(t, irqs, allowed), cpus))
  }

  lemma GroupsEligible(t: Topology, irqs: seq<Cpus>, allowed: Cpus, domains: seq<Cpus>, groups: seq<seq<nat>>,
                       candidates: Cpus)
    requires DomainList(t, irqs, domains) && GroupsOf(groups, domains, candidates)
    requires forall c :: c in candidates <==> c in allowed && c in t.online && c < 1024 && !IrqCore(t, irqs, c)
    ensures Groups(groups, EligibleCpus(t, irqs, allowed))
    ensures GroupsOf(groups, domains, EligibleCpus(t, irqs, allowed))
  {
    var eligible := EligibleCpus(t, irqs, allowed);
    forall x ensures x in eligible <==> exists g :: 0 <= g < |groups| && x in groups[g] {
      if x in eligible {
        var d :| IrqDomain(t, irqs, d) && x in d;
        var g :| 0 <= g < |domains| && domains[g] == d;
        assert GroupOf(groups[g], domains[g], candidates);
      }
      if g :| 0 <= g < |groups| && x in groups[g] {
        assert domains[g] in domains && GroupOf(groups[g], domains[g], candidates);
      }
    }
    forall g | 0 <= g < |groups| ensures GroupOf(groups[g], domains[g], eligible) {
      assert domains[g] in domains && GroupOf(groups[g], domains[g], candidates);
    }
  }

  lemma SelectedSound(t: Topology, irqs: seq<Cpus>, allowed: Cpus, groups: seq<seq<nat>>, excluded: Cpus,
                      selected: seq<nat>, turn: seq<nat>)
    requires Partition(t.siblings) && Groups(groups, EligibleCpus(t, irqs, allowed))
    requires Picked(t.siblings, groups, excluded, selected, turn)
    ensures Sound(t, irqs, allowed, |selected|, selected)
  {
    forall k | 0 <= k < |selected| ensures Eligible(t, irqs, allowed, selected[k]) {
      SelectedEligible(t.siblings, groups, EligibleCpus(t, irqs, allowed), excluded, selected, turn, k);
    }
    forall i, j | 0 <= i < j < |selected| ensures t.siblings(selected[i]) !! t.siblings(selected[j]) {
      Apart(t.siblings, groups, excluded, selected, turn, i, j);
    }
  }

  /** With siblings that split the CPUs into cores, the selection fails exactly for lack of cores. */
  ghost predicate Planned(t: Topology, irqs: seq<Cpus>, allowed: Cpus, workers: int, plan: Plan) {
    var cores := |Cores(t.siblings, EligibleCpus(t, irqs, allowed))|;
    if cores < workers then plan == Refused(OnlyCores(cores))
    else plan.Plan? && Sound(t, irqs, allowed, workers, plan.cpus)
  }

  /** Eligible CPUs, none a sibling of an earlier one. */
  ghost predicate Chosen(t: Topology, irqs: seq<Cpus>, allowed: Cpus, cpus: seq<nat>) {
    && (forall k :: 0 <= k < |cpus| ==> Eligible(t, irqs, allowed, cpus[k]))
    && (forall i, j :: 0 <= i < j < |cpus| ==> cpus[j] !in t.siblings(cpus[i]))
  }

  /** `cpus` leave nothing that could be chosen besides them. */
  ghost predicate Maximal(t: Topology, irqs: seq<Cpus>, allowed: Cpus, cpus: seq<nat>) {
    Chosen(t, irqs, allowed, cpus) && forall x :: x in EligibleCpus(t, irqs, allowed) ==> Taken(t.siblings, cpus, x)
  }

  /** For any sibling lists a plan is a fair choice, and a refusal names the size of a maximal one. */
  ghost predicate Usable(t: Topology, irqs: seq<Cpus>, allowed: Cpus, workers: int, plan: Plan) {
    match plan
    case Plan(cpus) => |cpus| == workers && Chosen(t, irqs, allowed, cpus) && Fair(t, irqs, allowed, cpus)
    case Refused(error) =>
      && error.OnlyCores? && error.found < workers
      && exists cpus :: |cpus| == error.found && Maximal(t, irqs, allowed, cpus)
  }

  lemma SelectedChosen(t: Topology, irqs: seq<Cpus>, allowed: Cpus, groups: seq<seq<nat>>, excluded: Cpus,
                       selected: seq<nat>, turn: seq<nat>)
    requires Groups(groups, EligibleCpus(t, irqs, allowed)) && Picked(t.siblings, groups, excluded, selected, turn)
    ensures Chosen(t, irqs, allowed, selected)
  {
    forall k | 0 <= k < |selected| ensures Eligible(t, irqs, allowed, selected[k]) {
      SelectedEligible(t.siblings, groups, EligibleCpus(t, irqs, allowed), excluded, selected, turn, k);
    }
    forall i, j | 0 <= i < j < |selected| ensures selected[j] !in t.siblings(selected[i]) {
      assert PickedNth(t.siblings, groups, excluded, selected, turn, j);
      UsedIs(t.siblings, excluded, selected[..j], selected[j]);
      assert selected[..j][i] == selected[i];
    }
  }

  lemma SelectedMaximal(t: Topology, irqs: seq<Cpus>, allowed: Cpus, groups: seq<seq<nat>>, excluded: Cpus,
                        selected: seq<nat>, turn: seq<nat>)
    requires Groups(groups, EligibleCpus(t, irqs, allowed)) && Picked(t.siblings, groups, excluded, selected, turn)
    requires EligibleCpus(t, irqs, allowed) !! excluded
    requires forall g :: 0 <= g < |groups| ==> Exhausted(groups[g], Used(t.siblings, excluded, selected))
    ensures Maximal(t, irqs, allowed, selected)
  {
    SelectedChosen(t, irqs, allowed, groups, excluded, selected, turn);
    forall x | x in EligibleCpus(t, irqs, allowed) ensures Taken(t.siblings, selected, x) {
      var g :| 0 <= g < |groups| && x in groups[g];
      UsedIs(t.siblings, excluded, selected, x);
    }
  }

  method Choose(t: Topology, ghost irqs: seq<Cpus>, allowed: Cpus, workers: nat, domains: seq<Cpus>, excluded: Cpus)
    returns (plan: Plan)
    requires DomainList(t, irqs, domains)
    requires forall c :: c in excluded <==> IrqCore(t, irqs, c)
    ensures Usable(t, irqs, allowed, workers, plan)
    ensures Partition(t.siblings) ==> Planned(t, irqs, allowed, workers, plan)
  {
    var candidates := set c | c in allowed && c in t.online && c < 1024 && c !in excluded;
    var groups := MakeGroups(domains, candidates);
    ghost var eligible := EligibleCpus(t, irqs, allowed);
    GroupsEligible(t, irqs, allowed, domains, groups, candidates);
    var selected;
    ghost var turn;
    selected, turn := Select(t.siblings, groups, excluded, workers);
    if |selected| < workers {
      SelectedMaximal(t, irqs, allowed, groups, excluded, selected, turn);
      if Partition(t.siblings) { AllCores(t.siblings, groups, eligible, excluded, selected, turn); }
      return Refused(OnlyCores(|selected|));
    }
    SelectedChosen(t, irqs, allowed, groups, excluded, selected, turn);
    if Partition(t.siblings) {
      CoresDistinct(t.siblings, groups, excluded, selected, turn);
      SelectedCores(t.siblings, groups, eligible, excluded, selected, turn);
      SelectedSound(t, irqs, allowed, groups, excluded, selected, turn);
    }
    if Disjoint(domains) {
      SpreadHolds(t.siblings, groups, domains, eligible, excluded, selected, turn);
      LowestHolds(t.siblings, groups, domains, eligible, excluded, selected, turn);
    }
    return Plan(selected);
  }

  /** An error names what was wrong with the inputs. */
  ghost predicate Excuse(t: Topology, irqs: seq<Cpus>, workers: int, error: Error) {
    match error
    case WorkersOutOfRange => workers < 1 || 256 < workers
    case NoIrqs => irqs == []
    case IrqOffline(i) => i < |irqs| && irqs[i] * t.online == {}
    case NoL3(c) => c in IrqCpus(t, irqs) && t.l3(c).None?
    case EmptyDomain => exists c :: c in IrqCpus(t, irqs) && t.l3(c) == Some({})
    case OnlyCores(_) => false
  }

  /**
   The planner.  When the topology is readable and siblings split the CPUs into cores, it fails
   exactly when fewer physical cores are eligible than workers were asked for, and then it names how
   many there are.
   */
  method Suggest(t: Topology, irqs: seq<Cpus>, allowed: Cpus, workers: int) returns (plan: Plan)
    ensures Accepts(t, irqs, workers) ==> Usable(t, irqs, allowed, workers, plan)
    ensures Accepts(t, irqs, workers) && Partition(t.siblings) ==> Planned(t, irqs, allowed, workers, plan)
    ensures !Accepts(t, irqs, workers) ==> plan.Refused? && Excuse(t, irqs, workers, plan.error)
  {
    if !(1 <= workers <= 256) { return Refused(WorkersOutOfRange); }
    if |irqs| == 0 { return Refused(NoIrqs); }
    var irqCpus, offline := EffectiveCpus(t, irqs);
    if offline.Some? { return Refused(IrqOffline(offline.value)); }
    var excluded := SiblingsOf(t.siblings, irqCpus);
    var found, missing := DomainsOf(t, irqCpus);
    if missing.Some? { return Refused(NoL3(missing.value)); }
    if {} in found { return Refused(EmptyDomain); }
    var domains := SortDomains(found);
    plan := Choose(t, irqs, allowed, workers, domains, excluded);
  }
}
