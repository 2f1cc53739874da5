/** The compliance scorer of the accessibility scanner service: the pure
    post-processing (`processAxeResults`) that turns the findings of an axe-core
    run into the service's scan result, with its severity buckets, rule counts
    and weighted 0-100 compliance score. Driving the browser and axe-core is
    outside the model: an axe run enters as an `AxeResults` value. */
module ComplianceScorer {
  import opened Wrappers

  datatype Impact = Minor | Moderate | Serious | Critical

  /** One element an axe-core rule failed on. `failureSummary` is optional in
      axe-core's own type. */
  datatype AxeNode = AxeNode(html: string, target: seq<string>, failureSummary: Option<string>)

  /** One failed axe-core rule. axe-core types `impact` as nullable; the service
      casts it without checking, so `None` survives the mapping. */
  datatype AxeViolation = AxeViolation(
    id: string,
    impact: Option<Impact>,
    description: string,
    help: string,
    helpUrl: string,
    tags: seq<string>,
    nodes: seq<AxeNode>)

  /** What the scorer reads from an axe-core run: the failed rules and the ids
      of the passed rules (only their number is used). */
  datatype AxeResults = AxeResults(violations: seq<AxeViolation>, passes: seq<string>)

  datatype ViolationNode = ViolationNode(html: string, target: seq<string>, failureSummary: string)

  datatype Violation = Violation(
    id: string,
    impact: Option<Impact>,
    description: string,
    help: string,
    helpUrl: string,
    tags: seq<string>,
    nodes: seq<ViolationNode>)

  datatype ViolationCount = ViolationCount(critical: nat, serious: nat, moderate: nat, minor: nat, total: nat)

  /** A JavaScript number as far as the score needs it: an integer, or the NaN
      that `0 / 0` produces when an axe run reports no rule at all. */
  datatype Number = Finite(value: int) | NaN

  datatype WcagLevel = AA | AAA

  /** `AccessibilityScanResult`. `timestamp` is the `new Date()` taken while
      processing, passed in as milliseconds. */
  datatype ScanResult = ScanResult(
    url: string,
    timestamp: int,
    violations: seq<Violation>,
    violationCount: ViolationCount,
    complianceScore: Number,
    wcagLevel: WcagLevel,
    passedRules: nat,
    totalRules: nat,
    scanDuration: int)

  const NoFailureSummary: string := "No failure summary available"

  /** Severity weight of one violation; the rule count is multiplied by the
      largest weight to get the maximum possible score. */
  const CriticalWeight: nat := 4
  const SeriousWeight: nat := 3
  const ModerateWeight: nat := 2
  const MinorWeight: nat := 1

  /** JavaScript's `Array.prototype.map`. */
  function MapSeq<A, B>(f: A -> B, s: seq<A>): (r: seq<B>)
    ensures |r| == |s|
    ensures forall k :: 0 <= k < |s| ==> r[k] == f(s[k])
  {
    if s == [] then [] else [f(s[0])] + MapSeq(f, s[1..])
  }

  /** A node keeps its markup and selector; an absent or empty summary (both
      falsy for `||`) is replaced by the fixed default text. */
  function ToViolationNode(n: AxeNode): (r: ViolationNode)
    ensures r.html == n.html && r.target == n.target
    ensures r.failureSummary != ""
    ensures n.failureSummary.Some? && n.failureSummary.value != "" ==> r.failureSummary == n.failureSummary.value
    ensures n.failureSummary == None || n.failureSummary == Some("") ==> r.failureSummary == NoFailureSummary
  {
    var summary := if n.failureSummary.Some? && n.failureSummary.value != "" then n.failureSummary.value else NoFailureSummary;
    ViolationNode(n.html, n.target, summary)
  }

  function ToViolation(v: AxeViolation): (r: Violation)
    ensures r.id == v.id && r.impact == v.impact && r.description == v.description
    ensures r.help == v.help && r.helpUrl == v.helpUrl && r.tags == v.tags
    ensures |r.nodes| == |v.nodes|
    ensures forall k :: 0 <= k < |v.nodes| ==> r.nodes[k] == ToViolationNode(v.nodes[k])
  {
    Violation(v.id, v.impact, v.description, v.help, v.helpUrl, v.tags, MapSeq(ToViolationNode, v.nodes))
  }

  /** `violations.filter(v => v.impact === i).length`. */
  function CountImpact(vs: seq<Violation>, i: Impact): (n: nat)
    ensures n <= |vs|
  {
    if vs == [] then 0
    else (if vs[0].impact == Some(i) then 1 else 0) + CountImpact(vs[1..], i)
  }

  function Impacts(vs: seq<Violation>): seq<Option<Impact>> {
    MapSeq((v: Violation) => v.impact, vs)
  }

  function CountViolations(vs: seq<Violation>): (c: ViolationCount)
    ensures c.total == |vs|
  {
    ViolationCount(
      CountImpact(vs, Critical),
      CountImpact(vs, Serious),
      CountImpact(vs, Moderate),
      CountImpact(vs, Minor),
      |vs|)
  }

  /** The weighted sum of the buckets: each violation weighs at least 1 and
      at most the critical weight. */
  function WeightedViolations(c: ViolationCount): (w: nat)
    ensures c.critical + c.serious + c.moderate + c.minor <= w
    ensures w <= CriticalWeight * (c.critical + c.serious + c.moderate + c.minor)
  {
    c.critical * CriticalWeight + c.serious * SeriousWeight + c.moderate * ModerateWeight + c.minor * MinorWeight
  }

  /** `Math.round(a / m * 100)` for m > 0, computed exactly: the integer
      nearest to 100a/m, halves rounded up. */
  function RoundPercent(a: int, m: int): (r: int)
    requires m > 0
    ensures 2 * m * r <= 200 * a + m < 2 * m * r + 2 * m
  {
    var d := 2 * m;
    var x := 200 * a + m;
    var q := x / d;
    assert d * q <= x < d * q + d;
    q
  }

  function Max(a: int, b: int): int {
    if a < b then b else a
  }

  /** `Math.max(0, Math.round((actualScore / maxPossibleScore) * 100))` with
      `maxPossibleScore = totalRules * 4`. With no rule at all the division is
      `0 / 0`, and NaN passes through `Math.round` and `Math.max`. */
  function ComplianceScore(totalRules: nat, weighted: nat): (r: Number)
    requires weighted <= CriticalWeight * totalRules
    ensures r.NaN? <==> totalRules == 0
    ensures r.Finite? ==> 0 <= r.value <= 100
    ensures r.Finite? ==>
      var maxPossible := CriticalWeight * totalRules;
      2 * maxPossible * r.value <= 200 * (maxPossible - weighted) + maxPossible < 2 * maxPossible * r.value + 2 * maxPossible
  {
    var maxPossible := totalRules * CriticalWeight;
    var actual := maxPossible - weighted;
    if maxPossible == 0 then NaN
    else
      var rounded := RoundPercent(actual, maxPossible);
      RoundPercentBounds(actual, maxPossible);
      Finite(Max(0, rounded))
  }

  /** `processAxeResults`. */
  function ProcessAxeResults(url: string, axe: AxeResults, scanDuration: int, timestamp: int): (r: ScanResult)
    ensures r.url == url && r.scanDuration == scanDuration && r.timestamp == timestamp
    ensures r.wcagLevel == AA
    ensures |r.violations| == |axe.violations|
    ensures forall k :: 0 <= k < |axe.violations| ==> r.violations[k] == ToViolation(axe.violations[k])
    ensures r.violationCount.total == |axe.violations|
    ensures r.passedRules == |axe.passes|
    ensures r.totalRules == |axe.passes| + |axe.violations|
    ensures r.passedRules <= r.totalRules
    ensures r.complianceScore.NaN? <==> r.totalRules == 0
    ensures r.complianceScore.Finite? ==> 0 <= r.complianceScore.value <= 100
    ensures r.violationCount == CountViolations(r.violations)
    ensures r.totalRules > 0 ==>
      var maxPossible := CriticalWeight * r.totalRules;
      r.complianceScore == Finite(RoundPercent(maxPossible - WeightedViolations(r.violationCount), maxPossible))
  {
    var violations := MapSeq(ToViolation, axe.violations);
    var count := CountViolations(violations);
    var totalRules := |axe.passes| + |violations|;
    var passedRules := |axe.passes|;
    var weighted := WeightedViolations(count);
    WeightedBound(violations);
    assert totalRules > 0 ==> RoundPercent(CriticalWeight * totalRules - weighted, CriticalWeight * totalRules) >= 0 by {
      if totalRules > 0 {
        RoundPercentBounds(CriticalWeight * totalRules - weighted, CriticalWeight * totalRules);
      }
    }
    ScanResult(url, timestamp, violations, count, ComplianceScore(totalRules, weighted), AA, passedRules, totalRules, scanDuration)
  }

  // ---------------------------------------------------------------------------
  // Counting

  /** Each bucket is the number of occurrences of its impact among the
      violations' impacts, an order-independent reference for the filter. */
  lemma {:induction false} CountImpactIsOccurrences(vs: seq<Violation>, i: Impact)
    ensures CountImpact(vs, i) == multiset(Impacts(vs))[Some(i)]
  {
    if vs != [] {
      CountImpactIsOccurrences(vs[1..], i);
      assert Impacts(vs) == [vs[0].impact] + Impacts(vs[1..]);
    }
  }

  lemma {:induction false} CountImpactAppend(vs: seq<Violation>, v: Violation, i: Impact)
    ensures CountImpact(vs + [v], i) == CountImpact(vs, i) + (if v.impact == Some(i) then 1 else 0)
  {
    if vs != [] {
      assert (vs + [v])[1..] == vs[1..] + [v];
      CountImpactAppend(vs[1..], v, i);
    }
  }

  /** Violations without an impact.  */
  function CountUnrated(vs: seq<Violation>): nat {
    if vs == [] then 0 else (if vs[0].impact == None then 1 else 0) + CountUnrated(vs[1..])
  }

  /** The four buckets together with the violations that carry no impact make
      up the total; so the buckets never add up to more than the total, and to
      exactly the total when every violation has an impact. */
  lemma {:induction false} BucketsPartitionTotal(vs: seq<Violation>)
    ensures var c := CountViolations(vs);
      c.critical + c.serious + c.moderate + c.minor + CountUnrated(vs) == c.total
    ensures var c := CountViolations(vs);
      c.critical + c.serious + c.moderate + c.minor <= c.total
    ensures (forall k :: 0 <= k < |vs| ==> vs[k].impact.Some?) ==>
      var c := CountViolations(vs);
      c.critical + c.serious + c.moderate + c.minor == c.total
  {
    if vs != [] {
      BucketsPartitionTotal(vs[1..]);
      match vs[0].impact {
        case None =>
        case Some(i) => assert i == Critical || i == Serious || i == Moderate || i == Minor;
      }
      if forall k :: 0 <= k < |vs| ==> vs[k].impact.Some? {
        assert forall k :: 0 <= k < |vs[1..]| ==> vs[1..][k].impact.Some? by {
          forall k | 0 <= k < |vs[1..]| ensures vs[1..][k].impact.Some? {
            assert vs[1..][k] == vs[k + 1];
          }
        }
        assert vs[0].impact.Some?;
      }
    }
  }

  /** The weighted sum is at most four per violation. */
  lemma {:induction false} WeightedBound(vs: seq<Violation>)
    ensures WeightedViolations(CountViolations(vs)) <= CriticalWeight * |vs|
  {
    if vs != [] {
      WeightedBound(vs[1..]);
    }
  }

  // ---------------------------------------------------------------------------
  // Rounding

  lemma MulLeftMono(k: int, x: int, y: int)
    requires k >= 0 && x <= y
    ensures k * x <= k * y
  {
  }

  /** A percentage of a part between nothing and the whole rounds into 0..100. */
  lemma RoundPercentBounds(a: int, m: int)
    requires m > 0 && 0 <= a <= m
    ensures 0 <= RoundPercent(a, m) <= 100
  {
    var r := RoundPercent(a, m);
    if r < 0 {
      MulLeftMono(2 * m, r, -1);
      assert false;
    }
    if r > 100 {
      MulLeftMono(2 * m, 101, r);
      MulLeftMono(200, a, m);
      assert false;
    }
  }

  lemma MulCancelStrict(k: int, x: int, y: int)
    requires k > 0 && k * x < k * y
    ensures x < y
  {
    if x >= y {
      MulLeftMono(k, y, x);
    }
  }

  /** Rounding preserves the order of the ratios: if a1/m1 <= a2/m2 then the
      rounded percentages are in the same order. */
  lemma RoundPercentMonotone(a1: int, m1: int, a2: int, m2: int)
    requires m1 > 0 && m2 > 0
    requires a1 * m2 <= a2 * m1
    ensures RoundPercent(a1, m1) <= RoundPercent(a2, m2)
  {
    var q1 := RoundPercent(a1, m1);
    var q2 := RoundPercent(a2, m2);
    var k := 2 * m1 * m2;
    // k q1 <= (200 a1 + m1) m2 <= (200 a2 + m2) m1 < k (q2 + 1)
    MulLeftMono(m2, 2 * m1 * q1, 200 * a1 + m1);
    MulLeftMono(200, a1 * m2, a2 * m1);
    MulLeftMono(m1, 200 * a2 + m2, 2 * m2 * q2 + 2 * m2 - 1);
    assert m2 * (2 * m1 * q1) == k * q1;
    assert m2 * (200 * a1 + m1) == 200 * (a1 * m2) + m1 * m2;
    assert m1 * (200 * a2 + m2) == 200 * (a2 * m1) + m1 * m2;
    assert m1 * (2 * m2 * q2 + 2 * m2 - 1) == k * (q2 + 1) - m1;
    MulCancelStrict(k, q1, q2 + 1);
  }

  // ---------------------------------------------------------------------------
  // Properties of the score

  /** With at least one rule evaluated the score is a number in 0..100, and it
      is `round(100 * (maxPossible - weighted) / maxPossible)`, the clamp at 0
      never taking effect. */
  lemma ScoreDefinedWhenRulesExist(url: string, axe: AxeResults, scanDuration: int, timestamp: int)
    requires |axe.passes| + |axe.violations| > 0
    ensures var r := ProcessAxeResults(url, axe, scanDuration, timestamp);
      var maxPossible := CriticalWeight * r.totalRules;
      var weighted := WeightedViolations(r.violationCount);
      && weighted <= maxPossible
      && r.complianceScore == Finite(RoundPercent(maxPossible - weighted, maxPossible))
  {
    var r := ProcessAxeResults(url, axe, scanDuration, timestamp);
    WeightedBound(r.violations);
    RoundPercentBounds(CriticalWeight * r.totalRules - WeightedViolations(r.violationCount), CriticalWeight * r.totalRules);
  }

  /** An axe run that reports neither a pass nor a violation scores NaN, not 0:
      the code divides 0 by 0. */
  lemma EmptyRunScoresNaN(url: string, scanDuration: int, timestamp: int)
    ensures ProcessAxeResults(url, AxeResults([], []), scanDuration, timestamp).complianceScore == NaN
  {
  }

  /** No violations and at least one pass is a perfect score. */
  lemma NoViolationsScoresHundred(url: string, passes: seq<string>, scanDuration: int, timestamp: int)
    requires |passes| > 0
    ensures ProcessAxeResults(url, AxeResults([], passes), scanDuration, timestamp).complianceScore == Finite(100)
  {
    var m := CriticalWeight * |passes|;
    var q := RoundPercent(m, m);
    if q < 100 {
      MulLeftMono(2 * m, q, 99);
    } else if q > 100 {
      MulLeftMono(2 * m, 101, q);
    }
  }

  function Rule(id: string, impact: Impact): AxeViolation {
    AxeViolation(id, Some(impact), "", "", "", [], [])
  }

  /** One critical and two serious violations beside 27 passes: 30 rules,
      weight 10 of a possible 120, score round(100 * 110 / 120) = 92. */
  lemma WorkedExampleScoresNinetyTwo(url: string, passes: seq<string>, scanDuration: int, timestamp: int)
    requires |passes| == 27
    ensures var r := ProcessAxeResults(url, AxeResults([Rule("a", Critical), Rule("b", Serious), Rule("c", Serious)], passes), scanDuration, timestamp);
      && r.violationCount == ViolationCount(1, 2, 0, 0, 3)
      && r.totalRules == 30
      && WeightedViolations(r.violationCount) == 10
      && r.complianceScore == Finite(92)
  {
    var axe := AxeResults([Rule("a", Critical), Rule("b", Serious), Rule("c", Serious)], passes);
    var vs := MapSeq(ToViolation, axe.violations);
    var v1 := vs[1..];
    var v2 := v1[1..];
    assert v2[1..] == [];
    assert vs[0].impact == Some(Critical) && v1[0].impact == Some(Serious) && v2[0].impact == Some(Serious);
    forall i: Impact ensures CountImpact(vs, i) == (if i == Critical then 1 else if i == Serious then 2 else 0) {
      assert CountImpact(v2, i) == (if i == Serious then 1 else 0);
      assert CountImpact(v1, i) == (if i == Serious then 2 else 0);
    }
    var q := RoundPercent(110, 120);
    if q < 92 {
      MulLeftMono(240, q, 91);
    } else if q > 92 {
      MulLeftMono(240, 93, q);
    }
  }

  /** The weights make a minor violation count as a rule more than it costs:
      a run with one critical violation scores 0, and adding a minor violation
      raises it to round(100 * 3 / 8) = 38. */
  lemma MinorViolationCanRaiseScore(url: string)
    ensures ProcessAxeResults(url, AxeResults([Rule("a", Critical)], []), 0, 0).complianceScore == Finite(0)
    ensures ProcessAxeResults(url, AxeResults([Rule("a", Critical), Rule("b", Minor)], []), 0, 0).complianceScore == Finite(38)
  {
    var vs1 := MapSeq(ToViolation, [Rule("a", Critical)]);
    assert vs1[0].impact == Some(Critical) && vs1[1..] == [];
    assert CountViolations(vs1) == ViolationCount(1, 0, 0, 0, 1);
    var q1 := RoundPercent(0, 4);
    if q1 > 0 {
      MulLeftMono(8, 1, q1);
    }
    var vs2 := MapSeq(ToViolation, [Rule("a", Critical), Rule("b", Minor)]);
    var w1 := vs2[1..];
    assert w1[1..] == [];
    assert vs2[0].impact == Some(Critical) && w1[0].impact == Some(Minor);
    forall i: Impact ensures CountImpact(vs2, i) == (if i == Critical || i == Minor then 1 else 0) {
      assert CountImpact(w1, i) == (if i == Minor then 1 else 0);
    }
    var q2 := RoundPercent(3, 8);
    if q2 < 38 {
      MulLeftMono(16, q2, 37);
    } else if q2 > 38 {
      MulLeftMono(16, 39, q2);
    }
  }

  /** One more critical violation adds one rule and the full weight of a rule,
      so the ratio can only fall: the score never rises. */
  lemma CriticalNeverRaisesComplianceScore(totalRules: nat, weighted: nat)
    requires 0 < totalRules && weighted <= CriticalWeight * totalRules
    ensures ComplianceScore(totalRules + 1, weighted + CriticalWeight).value <= ComplianceScore(totalRules, weighted).value
  {
    var m := CriticalWeight * totalRules;
    var a := m - weighted;
    MulLeftMono(a, m, m + 4);
    RoundPercentMonotone(a, m + 4, a, m);
    RoundPercentBounds(a, m);
    RoundPercentBounds(a, m + 4);
  }

  /** One more passed rule adds a rule without weight: the score never falls. */
  lemma PassNeverLowersComplianceScore(totalRules: nat, weighted: nat)
    requires 0 < totalRules && weighted <= CriticalWeight * totalRules
    ensures ComplianceScore(totalRules, weighted).value <= ComplianceScore(totalRules + 1, weighted).value
  {
    var m := CriticalWeight * totalRules;
    var a := m - weighted;
    MulLeftMono(4, a, m);
    assert a * (m + 4) <= (a + 4) * m;
    RoundPercentMonotone(a, m, a + 4, m + 4);
    RoundPercentBounds(a, m);
    RoundPercentBounds(a + 4, m + 4);
  }

  lemma {:induction false} MapSeqAppend<A, B>(f: A -> B, s: seq<A>, x: A)
    ensures MapSeq(f, s + [x]) == MapSeq(f, s) + [f(x)]
  {
    var l := MapSeq(f, s + [x]);
    var r := MapSeq(f, s) + [f(x)];
    assert |l| == |r|;
    forall k | 0 <= k < |l| ensures l[k] == r[k] {
      if k < |s| {
        assert (s + [x])[k] == s[k];
      }
    }
  }

  /** "Higher is better", at the level of whole axe runs: appending a critical
      violation, the passes unchanged, never raises the score. */
  lemma CriticalViolationNeverRaisesScore(axe: AxeResults, v: AxeViolation)
    requires v.impact == Some(Critical)
    requires |axe.passes| + |axe.violations| > 0
    ensures ProcessAxeResults("", AxeResults(axe.violations + [v], axe.passes), 0, 0).complianceScore.value
         <= ProcessAxeResults("", axe, 0, 0).complianceScore.value
  {
    var vs := MapSeq(ToViolation, axe.violations);
    MapSeqAppend(ToViolation, axe.violations, v);
    CountImpactAppend(vs, ToViolation(v), Critical);
    CountImpactAppend(vs, ToViolation(v), Serious);
    CountImpactAppend(vs, ToViolation(v), Moderate);
    CountImpactAppend(vs, ToViolation(v), Minor);
    var c := CountViolations(vs);
    WeightedBound(vs);
    assert WeightedViolations(CountViolations(vs + [ToViolation(v)])) == WeightedViolations(c) + CriticalWeight;
    CriticalNeverRaisesComplianceScore(|axe.passes| + |axe.violations|, WeightedViolations(c));
  }

  /** Appending a passed rule, the violations unchanged, never lowers the score. */
  lemma PassNeverLowersScore(axe: AxeResults, ruleId: string)
    requires |axe.passes| + |axe.violations| > 0
    ensures ProcessAxeResults("", axe, 0, 0).complianceScore.value
         <= ProcessAxeResults("", AxeResults(axe.violations, axe.passes + [ruleId]), 0, 0).complianceScore.value
  {
    var vs := MapSeq(ToViolation, axe.violations);
    WeightedBound(vs);
    PassNeverLowersComplianceScore(|axe.passes| + |axe.violations|, WeightedViolations(CountViolations(vs)));
  }
}
