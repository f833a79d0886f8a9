/** What the averages over reports and over packs depend on. */
module Averages {
  import opened Common
  import opened Evaluation
  import opened Statistics

  /** The averages `after` are those of one more element than the `n` behind `before`. */
  predicate Extends(before: Means, n: nat, transition: real, compatibility: real, balance: real, after: Means) {
    && after.transition * (n + 1) as real == before.transition * n as real + transition
    && after.compatibility * (n + 1) as real == before.compatibility * n as real + compatibility
    && after.balance * (n + 1) as real == before.balance * n as real + balance
  }

  lemma SeriesOfOne(r: Report)
    ensures SimulateSeries([r]) == Success(Means(r.transitionChannel, r.compatibility, r.balance))
  {
    assert TransitionChannels([r]) == [r.transitionChannel];
    assert Compatibilities([r]) == [r.compatibility] && Balances([r]) == [r.balance];
    MeanNext([0.0], r.transitionChannel);
    MeanNext([0.0], r.compatibility);
    MeanNext([0.0], r.balance);
  }

  /** One more report moves each average by its own reading's share. */
  lemma SeriesNext(reports: seq<Report>, r: Report)
    requires reports != []
    ensures SimulateSeries(reports).Success? && SimulateSeries(reports + [r]).Success?
    ensures Extends(
              SimulateSeries(reports).value, |reports|, r.transitionChannel, r.compatibility, r.balance,
              SimulateSeries(reports + [r]).value)
  {
    assert TransitionChannels(reports + [r]) == TransitionChannels(reports) + [r.transitionChannel];
    assert Compatibilities(reports + [r]) == Compatibilities(reports) + [r.compatibility];
    assert Balances(reports + [r]) == Balances(reports) + [r.balance];
    MeanNext(TransitionChannels(reports), r.transitionChannel);
    MeanNext(Compatibilities(reports), r.compatibility);
    MeanNext(Balances(reports), r.balance);
  }

  lemma PacksOfOne(p: PackResult)
    ensures SummarizePacks([p]) == Success(p.summary)
  {
    assert TransitionMeans([p]) == [p.summary.transition];
    assert CompatibilityMeans([p]) == [p.summary.compatibility] && BalanceMeans([p]) == [p.summary.balance];
    MeanNext([0.0], p.summary.transition);
    MeanNext([0.0], p.summary.compatibility);
    MeanNext([0.0], p.summary.balance);
  }

  /** One more pack moves each mean by its own average's share, however many reports it has. */
  lemma PacksNext(results: seq<PackResult>, p: PackResult)
    requires results != []
    ensures SummarizePacks(results).Success? && SummarizePacks(results + [p]).Success?
    ensures Extends(
              SummarizePacks(results).value, |results|, p.summary.transition, p.summary.compatibility,
              p.summary.balance, SummarizePacks(results + [p]).value)
  {
    var s := p.summary;
    assert TransitionMeans(results + [p]) == TransitionMeans(results) + [s.transition];
    assert CompatibilityMeans(results + [p]) == CompatibilityMeans(results) + [s.compatibility];
    assert BalanceMeans(results + [p]) == BalanceMeans(results) + [s.balance];
    MeanNext(TransitionMeans(results), s.transition);
    MeanNext(CompatibilityMeans(results), s.compatibility);
    MeanNext(BalanceMeans(results), s.balance);
  }

  lemma SameLength<T>(a: seq<T>, b: seq<T>)
    requires multiset(a) == multiset(b)
    ensures |a| == |b|
  {
    assert |multiset(a)| == |a| && |multiset(b)| == |b|;
  }

  /** The averages do not depend on the order of the reports. */
  lemma SeriesInAnyOrder(a: seq<Report>, b: seq<Report>)
    requires multiset(a) == multiset(b)
    ensures SimulateSeries(a) == SimulateSeries(b)
  {
    SameLength(a, b);
    if a != [] {
      MeanInAnyOrder((r: Report) => r.transitionChannel, a, TransitionChannels(a), b, TransitionChannels(b));
      MeanInAnyOrder((r: Report) => r.compatibility, a, Compatibilities(a), b, Compatibilities(b));
      MeanInAnyOrder((r: Report) => r.balance, a, Balances(a), b, Balances(b));
    }
  }

  /** Nor do the means over packs depend on the order of the packs. */
  lemma PacksInAnyOrder(a: seq<PackResult>, b: seq<PackResult>)
    requires multiset(a) == multiset(b)
    ensures SummarizePacks(a) == SummarizePacks(b)
  {
    SameLength(a, b);
    if a != [] {
      MeanInAnyOrder((p: PackResult) => p.summary.transition, a, TransitionMeans(a), b, TransitionMeans(b));
      MeanInAnyOrder((p: PackResult) => p.summary.compatibility, a, CompatibilityMeans(a), b, CompatibilityMeans(b));
      MeanInAnyOrder((p: PackResult) => p.summary.balance, a, BalanceMeans(a), b, BalanceMeans(b));
    }
  }
}
