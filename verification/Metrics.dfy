/**
 The histogram store: per name and label key a count, a sum and bucket counts, kept up to date one
 observation at a time, against the observations themselves.
 */
module Metrics {
  import opened Wrappers
  import opened LabelKeys

  type Name = string
  type Key = string

  datatype Observation = Observation(name: Name, key: Key, value: real)

  // ----------------------------------------------- what the observations say

  predicate Belongs(o: Observation, name: Name, key: Key) {
    o.name == name && o.key == key
  }

  function Total(obs: seq<Observation>, name: Name, key: Key): nat {
    if obs == [] then 0
    else Total(obs[..|obs| - 1], name, key) + if Belongs(obs[|obs| - 1], name, key) then 1 else 0
  }

  function AtMost(obs: seq<Observation>, name: Name, key: Key, bound: real): nat {
    if obs == [] then 0
    else AtMost(obs[..|obs| - 1], name, key, bound)
         + if Belongs(obs[|obs| - 1], name, key) && obs[|obs| - 1].value <= bound then 1 else 0
  }

  function Sum(obs: seq<Observation>, name: Name, key: Key): real {
    if obs == [] then 0.0
    else Sum(obs[..|obs| - 1], name, key) + if Belongs(obs[|obs| - 1], name, key) then obs[|obs| - 1].value else 0.0
  }

  /** Buckets are cumulative, and none exceeds the +Inf bucket, which is the count. */
  lemma {:induction false} BucketsCumulate(obs: seq<Observation>, name: Name, key: Key, low: real, high: real)
    requires low <= high
    ensures AtMost(obs, name, key, low) <= AtMost(obs, name, key, high) <= Total(obs, name, key)
  {
    if obs != [] {
      BucketsCumulate(obs[..|obs| - 1], name, key, low, high);
    }
  }

  lemma Snoc(obs: seq<Observation>, o: Observation, name: Name, key: Key, bound: real)
    ensures Total(obs + [o], name, key) == Total(obs, name, key) + if Belongs(o, name, key) then 1 else 0
    ensures Sum(obs + [o], name, key) == Sum(obs, name, key) + if Belongs(o, name, key) then o.value else 0.0
    ensures AtMost(obs + [o], name, key, bound)
            == AtMost(obs, name, key, bound) + if Belongs(o, name, key) && o.value <= bound then 1 else 0
  {
    assert (obs + [o])[..|obs|] == obs;
  }

  // ------------------------------------------------------------------ the store

  datatype Sample = Sample(count: nat, sum: real, bucketCounts: seq<nat>)
  datatype Histogram = Histogram(help: string, buckets: seq<real>, values: map<Key, Sample>, order: seq<Key>)

  // A rendered line; no bound is the +Inf bucket.
  datatype Line =
    | Bucket(key: Key, le: Option<real>, count: nat)
    | SumOf(key: Key, sum: real)
    | CountOf(key: Key, count: nat)

  function SampleOf(obs: seq<Observation>, name: Name, key: Key, buckets: seq<real>): Sample {
    Sample(Total(obs, name, key), Sum(obs, name, key),
           seq(|buckets|, i requires 0 <= i < |buckets| => AtMost(obs, name, key, buckets[i])))
  }

  ghost predicate Agrees(obs: seq<Observation>, name: Name, h: Histogram) {
    && (forall i, j | 0 <= i < j < |h.order| :: h.order[i] != h.order[j])
    && (forall key :: key in h.order <==> key in h.values)
    && (forall key | key in h.values :: h.values[key] == SampleOf(obs, name, key, h.buckets))
    && (forall key :: key in h.values <==> Total(obs, name, key) > 0)
  }

  ghost predicate Consistent(obs: seq<Observation>, histograms: map<Name, Histogram>) {
    && (forall name | name in histograms :: Agrees(obs, name, histograms[name]))
    && (forall name, key :: Total(obs, name, key) > 0 ==> name in histograms)
  }

  // What one series renders to.
  function SeriesLines(key: Key, s: Sample, buckets: seq<real>): seq<Line>
    requires |s.bucketCounts| == |buckets|
  {
    seq(|buckets|, i requires 0 <= i < |buckets| => Bucket(key, Some(buckets[i]), s.bucketCounts[i]))
    + [Bucket(key, None, s.count), SumOf(key, s.sum), CountOf(key, s.count)]
  }

  function AllLines(obs: seq<Observation>, name: Name, keys: seq<Key>, buckets: seq<real>): seq<Line> {
    if keys == [] then []
    else AllLines(obs, name, keys[..|keys| - 1], buckets)
         + SeriesLines(keys[|keys| - 1], SampleOf(obs, name, keys[|keys| - 1], buckets), buckets)
  }

  // The indices of one series' observations.
  ghost function Of(obs: seq<Observation>, name: Name, key: Key): set<nat> {
    set i: nat | i < |obs| && obs[i].name == name && obs[i].key == key
  }

  ghost function LowOf(obs: seq<Observation>, name: Name, key: Key, bound: real): set<nat> {
    set i: nat | i < |obs| && obs[i].name == name && obs[i].key == key && obs[i].value <= bound
  }

  lemma OfGrows(obs: seq<Observation>, o: Observation, name: Name, key: Key)
    ensures Of(obs + [o], name, key)
            == if Belongs(o, name, key) then Of(obs, name, key) + {|obs|} else Of(obs, name, key)
  {
  }

  lemma LowOfGrows(obs: seq<Observation>, o: Observation, name: Name, key: Key, bound: real)
    ensures LowOf(obs + [o], name, key, bound)
            == if Belongs(o, name, key) && o.value <= bound then LowOf(obs, name, key, bound) + {|obs|}
               else LowOf(obs, name, key, bound)
  {
  }

  lemma {:induction false} TotalIsSize(obs: seq<Observation>, name: Name, key: Key)
    ensures Total(obs, name, key) == |Of(obs, name, key)|
  {
    if obs == [] {
      assert Of(obs, name, key) == {};
    } else {
      var last := |obs| - 1;
      TotalIsSize(obs[..last], name, key);
      OfGrows(obs[..last], obs[last], name, key);
      assert obs == obs[..last] + [obs[last]];
    }
  }

  lemma {:induction false} AtMostIsSize(obs: seq<Observation>, name: Name, key: Key, bound: real)
    ensures AtMost(obs, name, key, bound) == |LowOf(obs, name, key, bound)|
  {
    if obs == [] {
      assert LowOf(obs, name, key, bound) == {};
    } else {
      var last := |obs| - 1;
      AtMostIsSize(obs[..last], name, key, bound);
      LowOfGrows(obs[..last], obs[last], name, key, bound);
      assert obs == obs[..last] + [obs[last]];
    }
  }

  /** One series line by line: each bound with the observations at most it, then +Inf, the sum and the count. */
  lemma SeriesInColumns(obs: seq<Observation>, name: Name, key: Key, buckets: seq<real>, i: nat)
    requires i < |buckets|
    ensures var series := SeriesLines(key, SampleOf(obs, name, key, buckets), buckets);
            && |series| == |buckets| + 3
            && series[i] == Bucket(key, Some(buckets[i]), |LowOf(obs, name, key, buckets[i])|)
            && series[|buckets|] == Bucket(key, None, |Of(obs, name, key)|)
            && series[|buckets| + 1] == SumOf(key, Sum(obs, name, key))
            && series[|buckets| + 2] == CountOf(key, |Of(obs, name, key)|)
  {
    TotalIsSize(obs, name, key);
    AtMostIsSize(obs, name, key, buckets[i]);
  }

  /** The sum is of the series' own values, each once. */
  lemma SumInColumns(obs: seq<Observation>, o: Observation, name: Name, key: Key)
    ensures Sum([], name, key) == 0.0
    ensures Sum(obs + [o], name, key) - Sum(obs, name, key) == if o.name == name && o.key == key then o.value else 0.0
  {
    Snoc(obs, o, name, key, 0.0);
  }

  ghost predicate Ascending(buckets: seq<real>) {
    forall i, j | 0 <= i < j < |buckets| :: buckets[i] <= buckets[j]
  }

  // The lines of one series: counts rise from bound to bound up to the +Inf line, which is the count.
  ghost predicate RisesToCount(series: seq<Line>, n: nat) {
    && |series| == n + 3 && (forall i | 0 <= i <= n :: series[i].Bucket?) && series[n].le.None?
    && (forall i, j | 0 <= i < j <= n :: series[i].count <= series[j].count)
    && series[n + 2].CountOf? && series[n].count == series[n + 2].count
  }

  lemma SeriesRises(obs: seq<Observation>, name: Name, key: Key, buckets: seq<real>)
    requires Ascending(buckets)
    ensures RisesToCount(SeriesLines(key, SampleOf(obs, name, key, buckets), buckets), |buckets|)
  {
    var series := SeriesLines(key, SampleOf(obs, name, key, buckets), buckets);
    forall i, j | 0 <= i < j <= |buckets| ensures series[i].count <= series[j].count {
      BucketsCumulate(obs, name, key, buckets[i], if j < |buckets| then buckets[j] else buckets[i]);
    }
  }

  /** In the rendered histogram every series, in its place, rises with ascending bounds up to its count. */
  lemma {:induction false} RenderedSeriesRise(
    obs: seq<Observation>, name: Name, keys: seq<Key>, buckets: seq<real>, k: nat) returns (rest: seq<Line>)
    requires k < |keys| && Ascending(buckets)
    ensures var series := SeriesLines(keys[k], SampleOf(obs, name, keys[k], buckets), buckets);
            && AllLines(obs, name, keys, buckets) == AllLines(obs, name, keys[..k], buckets) + series + rest
            && RisesToCount(series, |buckets|)
    decreases |keys|
  {
    SeriesRises(obs, name, keys[k], buckets);
    if k == |keys| - 1 {
      rest := [];
    } else {
      var init, last := keys[..|keys| - 1], keys[|keys| - 1];
      rest := RenderedSeriesRise(obs, name, init, buckets, k);
      assert init[..k] == keys[..k];
      rest := rest + SeriesLines(last, SampleOf(obs, name, last, buckets), buckets);
    }
  }

  lemma {:induction false} NoneYet(obs: seq<Observation>, name: Name, key: Key, bound: real)
    requires Total(obs, name, key) == 0
    ensures Sum(obs, name, key) == 0.0 && AtMost(obs, name, key, bound) == 0
  {
    if obs != [] {
      NoneYet(obs[..|obs| - 1], name, key, bound);
    }
  }

  // A series after one more observation of its own.
  lemma OwnSample(obs: seq<Observation>, o: Observation, buckets: seq<real>, s: Sample)
    requires s == SampleOf(obs, o.name, o.key, buckets)
    ensures SampleOf(obs + [o], o.name, o.key, buckets)
            == Sample(s.count + 1, s.sum + o.value,
                      seq(|buckets|, i requires 0 <= i < |buckets| =>
                        s.bucketCounts[i] + if o.value <= buckets[i] then 1 else 0))
  {
    forall i | 0 <= i < |buckets| {
      Snoc(obs, o, o.name, o.key, buckets[i]);
    }
    Snoc(obs, o, o.name, o.key, 0.0);
  }

  lemma OtherSample(obs: seq<Observation>, o: Observation, name: Name, key: Key, buckets: seq<real>)
    requires !Belongs(o, name, key)
    ensures SampleOf(obs + [o], name, key, buckets) == SampleOf(obs, name, key, buckets)
  {
    forall i | 0 <= i < |buckets| {
      Snoc(obs, o, name, key, buckets[i]);
    }
    Snoc(obs, o, name, key, 0.0);
  }

  lemma FirstSample(obs: seq<Observation>, name: Name, key: Key, buckets: seq<real>)
    requires Total(obs, name, key) == 0
    ensures SampleOf(obs, name, key, buckets) == Sample(0, 0.0, seq(|buckets|, i => 0))
  {
    forall i | 0 <= i < |buckets| {
      NoneYet(obs, name, key, buckets[i]);
    }
    NoneYet(obs, name, key, 0.0);
  }

  // The histogram of an observation's name, with its series brought up to date.
  lemma OwnHistogram(obs: seq<Observation>, o: Observation, h: Histogram, h': Histogram)
    requires Agrees(obs, o.name, h) && h'.buckets == h.buckets
    requires h'.values == h.values[o.key := SampleOf(obs + [o], o.name, o.key, h.buckets)]
    requires h'.order == if o.key in h.values then h.order else h.order + [o.key]
    ensures Agrees(obs + [o], o.name, h')
  {
    forall key ensures key in h'.values <==> Total(obs + [o], o.name, key) > 0 {
      Snoc(obs, o, o.name, key, 0.0);
    }
    forall key | key in h'.values ensures h'.values[key] == SampleOf(obs + [o], o.name, key, h.buckets) {
      if key != o.key {
        OtherSample(obs, o, o.name, key, h.buckets);
      }
    }
  }

  lemma OtherHistogram(obs: seq<Observation>, o: Observation, name: Name, h: Histogram)
    requires Agrees(obs, name, h) && o.name != name
    ensures Agrees(obs + [o], name, h)
  {
    forall key ensures Total(obs + [o], name, key) == Total(obs, name, key)
                       && SampleOf(obs + [o], name, key, h.buckets) == SampleOf(obs, name, key, h.buckets) {
      Snoc(obs, o, name, key, 0.0);
      OtherSample(obs, o, name, key, h.buckets);
    }
  }

  // The metric and the sample an observation finds, or starts with.
  lemma SampleBefore(obs: seq<Observation>, histograms: map<Name, Histogram>,
                     name: Name, help: string, key: Key, buckets: seq<real>)
    requires Consistent(obs, histograms) && (name in histograms ==> histograms[name].buckets == buckets)
    ensures var metric := if name in histograms then histograms[name] else Histogram(help, buckets, map[], []);
            && Agrees(obs, name, metric)
            && (if key in metric.values then metric.values[key] else Sample(0, 0.0, seq(|buckets|, i => 0)))
               == SampleOf(obs, name, key, buckets)
  {
    var metric := if name in histograms then histograms[name] else Histogram(help, buckets, map[], []);
    if key !in metric.values {
      FirstSample(obs, name, key, buckets);
    }
  }

  lemma Updated(obs: seq<Observation>, o: Observation, histograms: map<Name, Histogram>, h: Histogram, h': Histogram)
    requires Consistent(obs, histograms) && Agrees(obs, o.name, h) && h'.buckets == h.buckets
    requires h'.values == h.values[o.key := SampleOf(obs + [o], o.name, o.key, h.buckets)]
    requires h'.order == if o.key in h.values then h.order else h.order + [o.key]
    ensures Consistent(obs + [o], histograms[o.name := h'])
  {
    OwnHistogram(obs, o, h, h');
    forall other | other in histograms && other != o.name ensures Agrees(obs + [o], other, histograms[other]) {
      OtherHistogram(obs, o, other, histograms[other]);
    }
    forall n, k | Total(obs + [o], n, k) > 0 ensures n == o.name || n in histograms {
      Snoc(obs, o, n, k, 0.0);
    }
  }

  /** The loop over the bounds: every bucket the value fits in counts one more. */
  method CountInBuckets(counts: seq<nat>, buckets: seq<real>, value: real) returns (updated: seq<nat>)
    requires |counts| == |buckets|
    ensures updated == seq(|buckets|, i requires 0 <= i < |buckets| => counts[i] + if value <= buckets[i] then 1 else 0)
  {
    updated := counts;
    var index := 0;
    while index < |buckets|
      invariant 0 <= index <= |buckets| == |updated|
      invariant forall i | 0 <= i < |buckets| ::
                  updated[i] == counts[i] + if i < index && value <= buckets[i] then 1 else 0
    {
      if value <= buckets[index] {
        updated := updated[index := updated[index] + 1];
      }
      index := index + 1;
    }
  }

  /** The metric of an observation with its sample brought up to date. */
  method Record(ghost obs: seq<Observation>, histograms: map<Name, Histogram>,
                name: Name, help: string, value: real, key: Key, buckets: seq<real>) returns (updated: Histogram)
    requires Consistent(obs, histograms) && (name in histograms ==> histograms[name].buckets == buckets)
    ensures updated.buckets == buckets
    ensures Consistent(obs + [Observation(name, key, value)], histograms[name := updated])
  {
    var metric := if name in histograms then histograms[name] else Histogram(help, buckets, map[], []);
    var sample := if key in metric.values then metric.values[key] else Sample(0, 0.0, seq(|buckets|, i => 0));
    SampleBefore(obs, histograms, name, help, key, buckets);
    var bucketCounts := CountInBuckets(sample.bucketCounts, buckets, value);
    var after := Sample(sample.count + 1, sample.sum + value, bucketCounts);
    OwnSample(obs, Observation(name, key, value), buckets, sample);
    var order := if key in metric.values then metric.order else metric.order + [key];
    updated := metric.(values := metric.values[key := after], order := order);
    Updated(obs, Observation(name, key, value), histograms, metric, updated);
  }

  class Registry {
    // The collation that names are sorted by.
    const before: (string, string) -> bool
    var histograms: map<Name, Histogram>
    ghost var observations: seq<Observation>

    ghost predicate Valid()
      reads this
    {
      Consistent(observations, histograms)
    }

    constructor (before: (string, string) -> bool)
      ensures Valid() && observations == [] && histograms == map[] && this.before == before
    {
      this.before := before;
      histograms, observations := map[], [];
    }

    /** One observation; a name keeps to one list of buckets. */
    method Observe(name: Name, help: string, value: real, labels: seq<Label>, buckets: seq<real>)
      requires Valid() && (name in histograms ==> histograms[name].buckets == buckets)
      modifies this
      ensures Valid() && observations == old(observations) + [Observation(name, LabelsKey(labels, before), value)]
      ensures histograms.Keys == old(histograms).Keys + {name} && histograms[name].buckets == buckets
      ensures forall other | other in old(histograms) && other != name :: histograms[other] == old(histograms)[other]
    {
      var updated := Record(observations, histograms, name, help, value, LabelsKey(labels, before), buckets);
      histograms := histograms[name := updated];
      observations := observations + [Observation(name, LabelsKey(labels, before), value)];
    }

    /** The lines of one histogram say, series by series, what the observations say. */
    method RenderHistogram(name: Name) returns (lines: seq<Line>)
      requires Valid() && name in histograms
      ensures lines == AllLines(observations, name, histograms[name].order, histograms[name].buckets)
      ensures forall key :: key in histograms[name].order <==> Total(observations, name, key) > 0
    {
      var metric := histograms[name];
      assert Agrees(observations, name, metric);
      lines := [];
      var k := 0;
      while k < |metric.order|
        invariant 0 <= k <= |metric.order|
        invariant lines == AllLines(observations, name, metric.order[..k], metric.buckets)
      {
        var key := metric.order[k];
        assert key in metric.order;
        var sample := metric.values[key];
        var series := [];
        var i := 0;
        while i < |metric.buckets|
          invariant 0 <= i <= |metric.buckets|
          invariant series == SeriesLines(key, sample, metric.buckets)[..i]
        {
          series := series + [Bucket(key, Some(metric.buckets[i]), sample.bucketCounts[i])];
          i := i + 1;
        }
        var totals := [Bucket(key, None, sample.count), SumOf(key, sample.sum), CountOf(key, sample.count)];
        lines := lines + (series + totals);
        assert metric.order[..k + 1][..k] == metric.order[..k];
        k := k + 1;
      }
      assert metric.order[..k] == metric.order;
    }
  }
}
