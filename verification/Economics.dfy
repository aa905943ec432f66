/** Recovery costs (economics.cpp): how components are added up, and which alternative is chosen. */
module Economics {
  import opened Prelude
  import opened Records

  const CEILING: u64 := TWO64 - 1

  datatype Aggregation = Sequential | ParallelCriticalPath | UnknownAggregation

  /** The action is kept as its code, by which ties are broken. */
  datatype RecoveryCost = RecoveryCost(
    action: nat, components: seq<CostComponent>, totalNs: u64, parallelBestNs: u64, model: Aggregation,
    measured: bool)

  /** A measured time counts before an estimated one. */
  function Effective(c: CostComponent): u64
  {
    if c.measuredNs != 0 then c.measuredNs else c.estimatedNs
  }

  /** A component counts with its measurement if it has one, and only else with its estimate. */
  lemma MeasurementCounts(c: CostComponent, d: CostComponent)
    requires c.measuredNs == d.measuredNs && (c.measuredNs == 0 ==> c.estimatedNs == d.estimatedNs)
    ensures Effective(c) == Effective(d)
    ensures c.measuredNs > 0 ==> Effective(c) == c.measuredNs
    ensures c.measuredNs == 0 ==> Effective(c) == c.estimatedNs
  {
  }

  /** The sum without any bound. */
  function Sum(cs: seq<CostComponent>): nat
  {
    if cs == [] then 0 else Sum(cs[..|cs| - 1]) + Effective(cs[|cs| - 1])
  }

  /** m is the longest time, 0 when there is none. */
  ghost predicate Longest(cs: seq<CostComponent>, m: u64)
  {
    && (forall c :: c in cs ==> Effective(c) <= m)
    && (m != 0 ==> exists c :: c in cs && Effective(c) == m)
  }

  /** How many components the loop reads: it stops behind the one that makes the sum overflow. */
  ghost predicate ReadsTo(cs: seq<CostComponent>, n: nat)
  {
    && n <= |cs| && (n > 0 ==> Sum(cs[..n - 1]) <= CEILING)
    && (n < |cs| ==> n > 0 && Sum(cs[..n]) > CEILING)
  }

  lemma {:induction false} PrefixSum(cs: seq<CostComponent>, n: nat)
    requires n <= |cs|
    ensures Sum(cs[..n]) <= Sum(cs)
    decreases |cs|
  {
    if n < |cs| {
      assert cs[..|cs| - 1][..n] == cs[..n];
      PrefixSum(cs[..|cs| - 1], n);
    } else {
      assert cs[..n] == cs;
    }
  }

  /** What an aggregated cost says: sequential costs are the sum, cut at the largest 64-bit number, for every
      list; the parallel cost is the longest time of those read, and `measured` tells whether one of these
      was measured. */
  ghost predicate Aggregated(cs: seq<CostComponent>, action: nat, model: Aggregation, cost: RecoveryCost)
  {
    && cost.action == action && cost.components == cs && cost.model == model
    && (model.Sequential? ==> cost.totalNs == (if Sum(cs) <= CEILING then Sum(cs) else CEILING))
    && (model.ParallelCriticalPath? ==> cost.totalNs == cost.parallelBestNs)
    && (model.UnknownAggregation? ==> cost.totalNs == 0 && cost.parallelBestNs == 0 && !cost.measured)
    && (!model.UnknownAggregation? ==> exists n: nat :: ReadFor(cs, n, cost))
  }

  ghost predicate ReadFor(cs: seq<CostComponent>, n: nat, cost: RecoveryCost)
  {
    ReadsTo(cs, n) && Longest(cs[..n], cost.parallelBestNs) && cost.measured == AnyMeasured(cs[..n])
  }

  ghost predicate AnyMeasured(cs: seq<CostComponent>)
  {
    exists c :: c in cs && c.provenance == Measured
  }

  method Aggregate(components: seq<CostComponent>, action: nat, model: Aggregation) returns (cost: RecoveryCost)
    ensures Aggregated(components, action, model, cost)
  {
    var total, longest, measured, n := ReadCosts(components);
    hide Sum, Longest, ReadsTo, AnyMeasured;
    match model {
      case Sequential => cost := RecoveryCost(action, components, total, longest, model, measured);
      case ParallelCriticalPath => cost := RecoveryCost(action, components, longest, longest, model, measured);
      case UnknownAggregation => cost := RecoveryCost(action, components, 0, 0, model, false);
    }
    assert !model.UnknownAggregation? ==> ReadFor(components, n, cost);
  }

  /** The loop over the components, which ends early when the sum overflows. */
  method ReadCosts(components: seq<CostComponent>) returns (total: u64, longest: u64, measured: bool, n: nat)
    ensures ReadsTo(components, n) && Longest(components[..n], longest) && measured == AnyMeasured(components[..n])
    ensures total == if Sum(components) <= CEILING then Sum(components) else CEILING
  {
    total, longest, measured, n := 0, 0, false, 0;
    while n < |components|
      invariant n <= |components| && total == Sum(components[..n]) <= CEILING
      invariant Longest(components[..n], longest) && measured == AnyMeasured(components[..n])
    {
      var c := components[n];
      var eff := Effective(c);
      OneMoreRead(components, n, longest);
      hide Sum, Longest, Effective, AnyMeasured;
      if c.provenance == Measured {
        measured := true;
      }
      longest := if eff > longest then eff else longest;
      n := n + 1;
      if total > CEILING - eff {
        PrefixSum(components, n);
        assert ReadsTo(components, n);
        return CEILING, longest, measured, n;
      }
      total := total + eff;
    }
    assert components[..n] == components;
  }

  lemma OneMoreRead(cs: seq<CostComponent>, i: nat, m: u64)
    requires i < |cs| && Longest(cs[..i], m)
    ensures Longest(cs[..i + 1], if Effective(cs[i]) > m then Effective(cs[i]) else m)
    ensures Sum(cs[..i + 1]) == Sum(cs[..i]) + Effective(cs[i])
    ensures AnyMeasured(cs[..i + 1]) <==> AnyMeasured(cs[..i]) || cs[i].provenance == Measured
  {
    assert cs[..i + 1] == cs[..i] + [cs[i]] && cs[..i + 1][..i] == cs[..i];
    hide Effective;
  }

  /** The parallel cost is the longest time of all components exactly when none behind the overflow of the
      sum is longer; in particular whenever the sum fits. */
  lemma CriticalPathIsExact(cs: seq<CostComponent>, n: nat, m: u64)
    requires ReadsTo(cs, n) && Longest(cs[..n], m)
    ensures Longest(cs, m) <==> forall c :: c in cs[n..] ==> Effective(c) <= m
    ensures Sum(cs) <= CEILING ==> n == |cs| && Longest(cs, m)
  {
    assert cs == cs[..n] + cs[n..];
    if Sum(cs) <= CEILING {
      PrefixSum(cs, n);
      assert cs[..n] == cs;
    }
    hide Sum, Effective;
  }

  /** So it can be too short: two times whose sum overflows hide any longer one behind them. */
  lemma CriticalPathMisses(a: CostComponent, b: CostComponent, c: CostComponent, m: u64)
    requires Effective(a) + Effective(b) > CEILING && Effective(c) > Effective(a) && Effective(c) > Effective(b)
    requires Longest([a, b], m)
    ensures ReadsTo([a, b, c], 2) && [a, b, c][..2] == [a, b] && !Longest([a, b, c], m)
  {
    assert [a, b, c][..2] == [a, b] && [a, b][..1] == [a] && [a][..0] == [] && [a, b, c][..1] == [a];
    assert Sum([a]) == Effective(a) && Sum([a, b]) == Sum([a]) + Effective(b);
    assert m < Effective(c) && c in [a, b, c];
  }

  /* ---- comparing alternatives ---- */

  /** The selected alternative is the first of the best; None when there is none. A measured alternative is
      not preferred, although a comment in the program says so. */
  method Compare(alternatives: seq<RecoveryCost>) returns (selected: Option<nat>)
    ensures selected.None? <==> alternatives == []
    ensures selected.Some? ==> selected.value < |alternatives|
    ensures selected.Some? ==> forall a :: a in alternatives ==> alternatives[selected.value].totalNs <= a.totalNs
    ensures selected.Some? ==> forall a :: a in alternatives && a.totalNs == alternatives[selected.value].totalNs ==>
              alternatives[selected.value].action <= a.action
    ensures selected.Some? ==> forall i :: 0 <= i < selected.value ==>
              alternatives[i].totalNs != alternatives[selected.value].totalNs
              || alternatives[i].action != alternatives[selected.value].action
  {
    if alternatives == [] {
      return None;
    }
    var best := 0;
    for i := 1 to |alternatives|
      invariant best < i
      invariant forall j :: 0 <= j < i ==> alternatives[best].totalNs <= alternatives[j].totalNs
      invariant forall j :: 0 <= j < i && alternatives[j].totalNs == alternatives[best].totalNs ==>
                  alternatives[best].action <= alternatives[j].action
      invariant forall j :: 0 <= j < best ==>
                  alternatives[j].totalNs != alternatives[best].totalNs
                  || alternatives[j].action != alternatives[best].action
    {
      var a, b := alternatives[best], alternatives[i];
      if b.totalNs < a.totalNs {
        best := i;
      } else if b.totalNs == a.totalNs {
        if b.action < a.action {
          best := i;
        }
      }
    }
    selected := Some(best);
  }
}
