/** The context manifest of a model call: evidence ranked, deduplicated and fitted into a token budget.
    Evidence stands for its text by the length of the text in bytes. */
module ContextBudget {
  import opened Wrappers
  import opened KeyOrder

  const MAX: nat := 0xFFFF_FFFF

  function SaturatingAdd(a: nat, b: nat): nat {
    if a + b > MAX then MAX else a + b
  }

  function EstimateTokens(bytes: nat): (tokens: nat)
    ensures tokens <= MAX / 4
  {
    SaturatingAdd(if bytes > MAX then MAX else bytes, 3) / 4
  }

  datatype SourceType = MetricRegistry | DbtManifest | ObservedSchema | Freshness | TaskSummary | Fixture

  datatype Evidence = Evidence(source: string, sourceType: SourceType, version: string, age: int,
                               restricted: bool, untrusted: bool, bytes: nat, tokenCost: nat)

  datatype Ranked = Ranked(rank: nat, evidence: Evidence)

  datatype Omission = Omission(uri: string, reason: string)

  datatype Manifest = Manifest(budget: nat, used: nat, included: seq<Evidence>, summaries: seq<nat>,
                               omitted: seq<Omission>)

  datatype Request = Request(budget: nat, ttl: Option<nat>, requiresSchema: bool, requiresFreshness: bool,
                             summary: Option<Summary>)

  /** A recent summary by its length, and whether it is both marked and found relevant. */
  datatype Summary = Summary(bytes: nat, relevant: bool)

  datatype Need = NeedSchema | NeedFreshness

  datatype Error = InvalidInstructionTrust

  // ---------- what the providers returned ----------

  datatype Gathered = Gathered(candidates: seq<Ranked>, omissions: seq<Omission>, hasSchema: bool, hasFreshness: bool)

  function WithinTtl(evidence: Evidence, ttl: Option<nat>): bool {
    ttl.Some? && 0 <= evidence.age <= ttl.value
  }

  function GatherDbt(g: Gathered, evidence: Evidence): Gathered {
    if evidence.sourceType.DbtManifest? then g.(candidates := g.candidates + [Ranked(1, evidence)]) else g
  }

  function Omit(g: Gathered, evidence: Evidence, reason: string): Gathered {
    g.(omissions := g.omissions + [Omission(evidence.source, reason)])
  }

  function GatherRun(g: Gathered, evidence: Evidence, ttl: Option<nat>): Gathered {
    match evidence.sourceType
    case ObservedSchema =>
      if !WithinTtl(evidence, ttl) then Omit(g, evidence, "expired")
      else if evidence.restricted then Omit(g, evidence, "restricted_evidence_not_model_safe")
      else g.(candidates := g.candidates + [Ranked(2, evidence)], hasSchema := true)
    case Freshness =>
      if evidence.restricted then Omit(g, evidence, "restricted_evidence_not_model_safe")
      else g.(candidates := g.candidates + [Ranked(2, evidence)], hasFreshness := true)
    case _ => Omit(g, evidence, "source_not_ranked_here")
  }

  function GatherAllDbt(g: Gathered, dbt: seq<Evidence>): Gathered
    decreases |dbt|
  {
    if dbt == [] then g else GatherAllDbt(GatherDbt(g, dbt[0]), dbt[1..])
  }

  function GatherAllRun(g: Gathered, run: seq<Evidence>, ttl: Option<nat>): Gathered
    decreases |run|
  {
    if run == [] then g else GatherAllRun(GatherRun(g, run[0], ttl), run[1..], ttl)
  }

  function Gather(metric: Option<Evidence>, dbt: seq<Evidence>, run: seq<Evidence>, ttl: Option<nat>): Gathered {
    var start := Gathered(if metric.Some? then [Ranked(0, metric.value)] else [], [], false, false);
    GatherAllRun(GatherAllDbt(start, dbt), run, ttl)
  }

  // ---------- ranking ----------

  predicate Before(a: Ranked, b: Ranked) {
    || a.rank < b.rank
    || (a.rank == b.rank && (|| Less(a.evidence.source, b.evidence.source)
                             || (a.evidence.source == b.evidence.source
                                 && Less(a.evidence.version, b.evidence.version))))
  }

  /** Places a candidate before those that are not before it, so that sorting is stable. */
  function Insert(c: Ranked, sorted: seq<Ranked>): seq<Ranked> {
    if sorted == [] || !Before(sorted[0], c) then [c] + sorted else [sorted[0]] + Insert(c, sorted[1..])
  }

  function Sort(candidates: seq<Ranked>): seq<Ranked> {
    if candidates == [] then [] else Insert(candidates[0], Sort(candidates[1..]))
  }

  lemma {:induction false} InsertHolds(c: Ranked, sorted: seq<Ranked>)
    ensures multiset(Insert(c, sorted)) == multiset(sorted) + multiset{c}
  {
    if sorted != [] {
      assert sorted == [sorted[0]] + sorted[1..];
      InsertHolds(c, sorted[1..]);
    }
  }

  lemma {:induction false} SortHolds(candidates: seq<Ranked>)
    ensures multiset(Sort(candidates)) == multiset(candidates)
  {
    if candidates != [] {
      assert candidates == [candidates[0]] + candidates[1..];
      SortHolds(candidates[1..]);
      InsertHolds(candidates[0], Sort(candidates[1..]));
    }
  }

  ghost predicate Ascending(s: seq<Ranked>) {
    forall i, j | 0 <= i < j < |s| :: Before(s[i], s[j])
  }

  /** No two candidates share rank, source and version. */
  ghost predicate DistinctKeys(s: seq<Ranked>) {
    forall i, j | 0 <= i < j < |s| :: Before(s[i], s[j]) || Before(s[j], s[i])
  }

  lemma BeforeTransitive(a: Ranked, b: Ranked, c: Ranked)
    requires Before(a, b) && Before(b, c)
    ensures Before(a, c)
  {
    if a.rank == b.rank == c.rank {
      if Less(a.evidence.source, b.evidence.source) && Less(b.evidence.source, c.evidence.source) {
        LessTransitive(a.evidence.source, b.evidence.source, c.evidence.source);
      } else if a.evidence.source == b.evidence.source == c.evidence.source {
        LessTransitive(a.evidence.version, b.evidence.version, c.evidence.version);
      }
    }
  }

  lemma BeforeAsymmetric(a: Ranked, b: Ranked)
    ensures !(Before(a, b) && Before(b, a)) && !Before(a, a)
  {
    LessTotal(a.evidence.source, b.evidence.source);
    LessTotal(a.evidence.version, b.evidence.version);
    LessIrreflexive(a.evidence.source);
    LessIrreflexive(a.evidence.version);
  }

  lemma {:induction false} InsertAscends(c: Ranked, sorted: seq<Ranked>)
    requires Ascending(sorted) && forall s | s in sorted :: Before(s, c) || Before(c, s)
    ensures Ascending(Insert(c, sorted))
  {
    var r := Insert(c, sorted);
    if sorted == [] {
    } else if Before(sorted[0], c) {
      InsertAscends(c, sorted[1..]);
      InsertHolds(c, sorted[1..]);
      forall j | 0 < j < |r| ensures Before(r[0], r[j]) {
        assert r[j] in multiset(Insert(c, sorted[1..]));
      }
    } else {
      forall j | 0 < j < |r| ensures Before(r[0], r[j]) {
        assert r[j] == sorted[j - 1];
        assert sorted[0] in sorted;
        if j > 1 { BeforeTransitive(c, sorted[0], sorted[j - 1]); }
      }
    }
  }

  lemma {:induction false} SortAscends(candidates: seq<Ranked>)
    requires DistinctKeys(candidates)
    ensures Ascending(Sort(candidates))
  {
    if candidates != [] {
      SortAscends(candidates[1..]);
      SortHolds(candidates[1..]);
      forall s | s in Sort(candidates[1..]) ensures Before(s, candidates[0]) || Before(candidates[0], s) {
        assert s in multiset(candidates[1..]);
        var i :| 0 <= i < |candidates[1..]| && candidates[1..][i] == s;
        assert candidates[i + 1] == s;
      }
      InsertAscends(candidates[0], Sort(candidates[1..]));
    }
  }

  lemma HeadIsLeast(s: seq<Ranked>, c: Ranked)
    requires Ascending(s) && c in multiset(s)
    ensures c == s[0] || Before(s[0], c)
  {
    var i :| 0 <= i < |s| && s[i] == c;
  }

  lemma TailHolds(s: seq<Ranked>)
    requires s != []
    ensures multiset(s[1..]) == multiset(s) - multiset{s[0]}
  {
    assert s == [s[0]] + s[1..];
  }

  /** An ascending list is determined by what it holds. */
  lemma {:induction false} AscendingUnique(a: seq<Ranked>, b: seq<Ranked>)
    requires Ascending(a) && Ascending(b) && multiset(a) == multiset(b) && |a| == |b|
    ensures a == b
  {
    if a != [] {
      HeadIsLeast(a, b[0]);
      HeadIsLeast(b, a[0]);
      BeforeAsymmetric(a[0], b[0]);
      TailHolds(a);
      TailHolds(b);
      AscendingUnique(a[1..], b[1..]);
      assert a == [a[0]] + a[1..] && b == [b[0]] + b[1..];
    }
  }

  /** Candidates without a common key rank alike in whatever order they came. */
  lemma SortIgnoresOrder(a: seq<Ranked>, b: seq<Ranked>)
    requires DistinctKeys(a) && DistinctKeys(b) && multiset(a) == multiset(b)
    ensures Sort(a) == Sort(b)
  {
    SortAscends(a);
    SortAscends(b);
    SortHolds(a);
    SortHolds(b);
    assert |Sort(a)| == |multiset(Sort(a))| == |multiset(Sort(b))| == |Sort(b)|;
    AscendingUnique(Sort(a), Sort(b));
  }

  // ---------- fitting the budget ----------

  /** What happens to the next candidate. */
  function Consider(m: Manifest, seen: set<(string, string)>, e: Evidence): Result<Manifest, Error> {
    if (e.source, e.version) in seen then Ok(Leave(m, e.source, "duplicate"))
    else if !e.untrusted then Err(InvalidInstructionTrust)
    else if e.restricted then Ok(Leave(m, e.source, "restricted_evidence_not_model_safe"))
    else if SaturatingAdd(m.used, EstimateTokens(e.bytes)) > m.budget then Ok(Leave(m, e.source, "token_budget"))
    else Ok(m.(used := AddU32(m.used, EstimateTokens(e.bytes)),
               included := m.included + [e.(tokenCost := EstimateTokens(e.bytes))]))
  }

  function Leave(m: Manifest, uri: string, reason: string): Manifest {
    m.(omitted := m.omitted + [Omission(uri, reason)])
  }

  /** Plain 32-bit addition, which wraps around. */
  function AddU32(a: nat, b: nat): nat { (a + b) % (MAX + 1) }

  function Fit(m: Manifest, seen: set<(string, string)>, candidates: seq<Ranked>): Result<Manifest, Error>
    decreases |candidates|
  {
    if candidates == [] then Ok(m)
    else
      var e := candidates[0].evidence;
      var next := Consider(m, seen, e);
      if next.Err? then next else Fit(next.value, seen + {(e.source, e.version)}, candidates[1..])
  }

  const SUMMARY_URI := "task-summary://recent"

  function AddSummary(m: Manifest, summary: Option<Summary>): Manifest {
    if summary.None? then m
    else if !summary.value.relevant then Leave(m, SUMMARY_URI, "summary_not_explicitly_relevant")
    else if SaturatingAdd(m.used, EstimateTokens(summary.value.bytes)) > m.budget
    then Leave(m, SUMMARY_URI, "token_budget")
    else m.(used := AddU32(m.used, EstimateTokens(summary.value.bytes)),
            summaries := m.summaries + [summary.value.bytes])
  }

  datatype Assembled = Assembled(manifest: Manifest, needs: seq<Need>)

  function Needs(request: Request, g: Gathered): seq<Need> {
    (if request.requiresSchema && !g.hasSchema then [NeedSchema] else [])
    + (if request.requiresFreshness && !g.hasFreshness then [NeedFreshness] else [])
  }

  function Assemble(request: Request, metric: Option<Evidence>, dbt: seq<Evidence>, run: seq<Evidence>)
    : Result<Assembled, Error>
  {
    var g := Gather(metric, dbt, run, request.ttl);
    var fitted := Fit(Manifest(request.budget, 0, [], [], g.omissions), {}, Sort(g.candidates));
    if fitted.Err? then Err(fitted.error)
    else Ok(Assembled(AddSummary(fitted.value, request.summary), Needs(request, g)))
  }

  // ---------- budget ----------

  function Costs(included: seq<Evidence>): nat {
    if included == [] then 0
    else Costs(included[..|included| - 1]) + EstimateTokens(included[|included| - 1].bytes)
  }

  function SummaryCosts(summaries: seq<nat>): nat {
    if summaries == [] then 0
    else SummaryCosts(summaries[..|summaries| - 1]) + EstimateTokens(summaries[|summaries| - 1])
  }

  function FoldCosts(total: nat, included: seq<Evidence>): nat
    decreases |included|
  {
    if included == [] then total else FoldCosts(SaturatingAdd(total, EstimateTokens(included[0].bytes)), included[1..])
  }

  function FoldSummaries(total: nat, summaries: seq<nat>): nat
    decreases |summaries|
  {
    if summaries == [] then total else FoldSummaries(SaturatingAdd(total, EstimateTokens(summaries[0])), summaries[1..])
  }

  /** Recounts the tokens and checks them against the record and the budget. */
  predicate ValidBudget(m: Manifest) {
    var calculated := SaturatingAdd(FoldCosts(0, m.included), FoldSummaries(0, m.summaries));
    calculated == m.used && calculated <= m.budget
  }

  function Capped(n: nat): nat { if n > MAX then MAX else n }

  lemma {:induction false} FoldCostsIs(total: nat, included: seq<Evidence>)
    requires total <= MAX
    ensures FoldCosts(total, included) == Capped(total + Costs(included))
    decreases |included|
  {
    if included != [] {
      FoldCostsIs(SaturatingAdd(total, EstimateTokens(included[0].bytes)), included[1..]);
      CostsFromFront(included);
    }
  }

  lemma {:induction false} CostsFromFront(included: seq<Evidence>)
    requires included != []
    ensures Costs(included) == EstimateTokens(included[0].bytes) + Costs(included[1..])
  {
    if |included| > 1 {
      CostsFromFront(included[..|included| - 1]);
      assert included[1..][..|included| - 2] == included[..|included| - 1][1..];
    }
  }

  lemma {:induction false} FoldSummariesIs(total: nat, summaries: seq<nat>)
    requires total <= MAX && |summaries| <= 1
    ensures FoldSummaries(total, summaries) == Capped(total + SummaryCosts(summaries))
  {
    if summaries != [] { assert FoldSummaries(SaturatingAdd(total, EstimateTokens(summaries[0])), summaries[1..])
                                == SaturatingAdd(total, EstimateTokens(summaries[0])); }
  }

  /** The record counts exactly what was taken and stays within the budget. */
  ghost predicate Accounted(m: Manifest) {
    && m.used == Costs(m.included) + SummaryCosts(m.summaries) && m.used <= m.budget < MAX
  }

  lemma AccountedIsValid(m: Manifest)
    requires Accounted(m) && |m.summaries| <= 1
    ensures ValidBudget(m)
  {
    FoldCostsIs(0, m.included);
    FoldSummariesIs(0, m.summaries);
  }

  lemma {:induction false} FitAccounts(m: Manifest, seen: set<(string, string)>, candidates: seq<Ranked>)
    requires Accounted(m) && m.summaries == []
    ensures var fitted := Fit(m, seen, candidates);
            fitted.Ok? ==> Accounted(fitted.value) && fitted.value.summaries == [] && fitted.value.budget == m.budget
    decreases |candidates|
  {
    if candidates != [] {
      var e := candidates[0].evidence;
      var next := Consider(m, seen, e);
      if next.Ok? {
        if next.value.included != m.included { assert next.value.included[..|m.included|] == m.included; }
        FitAccounts(next.value, seen + {(e.source, e.version)}, candidates[1..]);
      }
    }
  }

  /** Below the greatest budget every assembled manifest passes the budget check. */
  lemma AssembledIsValid(request: Request, metric: Option<Evidence>, dbt: seq<Evidence>, run: seq<Evidence>)
    requires request.budget < MAX && Assemble(request, metric, dbt, run).Ok?
    ensures ValidBudget(Assemble(request, metric, dbt, run).value.manifest)
  {
    var g := Gather(metric, dbt, run, request.ttl);
    var start := Manifest(request.budget, 0, [], [], g.omissions);
    FitAccounts(start, {}, Sort(g.candidates));
    var fitted := Fit(start, {}, Sort(g.candidates)).value;
    SummaryAccounts(fitted, request.summary);
    AccountedIsValid(AddSummary(fitted, request.summary));
  }

  lemma OneSummary(bytes: nat)
    ensures SummaryCosts([bytes]) == EstimateTokens(bytes)
  {
    assert [bytes][..0] == [];
  }

  lemma SummaryAccounts(m: Manifest, summary: Option<Summary>)
    requires Accounted(m) && m.summaries == []
    ensures Accounted(AddSummary(m, summary)) && |AddSummary(m, summary).summaries| <= 1
  {
    if summary.Some? { OneSummary(summary.value.bytes); }
  }

  function Cheap(version: string): Evidence {
    Evidence("", DbtManifest, version, 0, false, true, MAX, 0)
  }

  const Five := [Cheap("a"), Cheap("b"), Cheap("c"), Cheap("d"), Cheap("e")]

  lemma FiveSorted()
    ensures var s := [Ranked(1, Five[0]), Ranked(1, Five[1]), Ranked(1, Five[2]), Ranked(1, Five[3]),
                      Ranked(1, Five[4])];
            Gather(None, Five, [], None) == Gathered(s, [], false, false) && Sort(s) == s
  {
    var r0, r1, r2, r3, r4 :=
      Ranked(1, Five[0]), Ranked(1, Five[1]), Ranked(1, Five[2]), Ranked(1, Five[3]), Ranked(1, Five[4]);
    var start := Gathered([], [], false, false);
    assert GatherAllDbt(start, Five) == GatherAllDbt(start.(candidates := [r0]), Five[1..]);
    assert GatherAllDbt(start.(candidates := [r0]), Five[1..])
           == GatherAllDbt(start.(candidates := [r0, r1]), Five[2..]);
    assert GatherAllDbt(start.(candidates := [r0, r1]), Five[2..])
           == GatherAllDbt(start.(candidates := [r0, r1, r2]), Five[3..]);
    assert GatherAllDbt(start.(candidates := [r0, r1, r2]), Five[3..])
           == GatherAllDbt(start.(candidates := [r0, r1, r2, r3]), Five[4..]);
    assert GatherAllDbt(start.(candidates := [r0, r1, r2, r3]), Five[4..])
           == GatherAllDbt(start.(candidates := [r0, r1, r2, r3, r4]), []);
    SortedStays([r0, r1, r2, r3, r4]);
  }

  /** Sorting an ascending list leaves it alone. */
  lemma {:induction false} SortedStays(s: seq<Ranked>)
    requires forall i | 0 <= i < |s| - 1 :: Before(s[i], s[i + 1])
    ensures Sort(s) == s
  {
    if |s| > 1 {
      SortedStays(s[1..]);
      BeforeAsymmetric(s[0], s[1]);
      assert s[1..][0] == s[1];
    }
    if s != [] { assert s == [s[0]] + s[1..]; }
  }

  lemma Wraps(a: nat, b: nat, c: nat)
    ensures AddU32(AddU32(a, b), c) == AddU32(a, b + c)
  {
  }

  /** The cost of that many items, each as dear as an item can be. */
  function DearCosts(n: nat): nat {
    if n == 0 then 0 else MAX / 4 + DearCosts(n - 1)
  }

  ghost predicate AllCheap(s: seq<Ranked>) {
    && (forall i | 0 <= i < |s| :: s[i].evidence == Cheap(s[i].evidence.version))
    && (forall i, j | 0 <= i < j < |s| :: s[i].evidence.version != s[j].evidence.version)
  }

  ghost predicate Unseen(seen: set<(string, string)>, s: seq<Ranked>) {
    forall i | 0 <= i < |s| :: (s[i].evidence.source, s[i].evidence.version) !in seen
  }

  lemma UnseenTail(seen: set<(string, string)>, s: seq<Ranked>)
    requires s != [] && AllCheap(s) && Unseen(seen, s)
    ensures AllCheap(s[1..]) && Unseen(seen + {(s[0].evidence.source, s[0].evidence.version)}, s[1..])
  {
    forall i | 0 <= i < |s[1..]| ensures s[1..][i].evidence.version != s[0].evidence.version {
      assert s[1..][i] == s[i + 1];
    }
  }

  lemma FitOne(m: Manifest, seen: set<(string, string)>, s: seq<Ranked>)
    requires s != [] && Consider(m, seen, s[0].evidence).Ok?
    ensures Fit(m, seen, s)
            == Fit(Consider(m, seen, s[0].evidence).value, seen + {(s[0].evidence.source, s[0].evidence.version)},
                   s[1..])
  {
  }

  /** At the greatest budget nothing is ever too expensive, and the plain sum wraps around. */
  lemma {:induction false} GreatestBudgetTakesAll(m: Manifest, seen: set<(string, string)>, s: seq<Ranked>)
    requires m.budget == MAX && m.used <= MAX && AllCheap(s) && Unseen(seen, s)
    ensures var r := Fit(m, seen, s);
            && r.Ok? && r.value.used == AddU32(m.used, DearCosts(|s|))
            && Costs(r.value.included) == Costs(m.included) + DearCosts(|s|)
    decreases |s|
  {
    if s != [] {
      UnseenTail(seen, s);
      TakesOne(m, seen, s[0].evidence);
      FitOne(m, seen, s);
      GreatestBudgetTakesAll(Consider(m, seen, s[0].evidence).value,
                             seen + {(s[0].evidence.source, s[0].evidence.version)}, s[1..]);
      Wraps(m.used, MAX / 4, DearCosts(|s| - 1));
    }
  }

  lemma TakesOne(m: Manifest, seen: set<(string, string)>, e: Evidence)
    requires m.budget == MAX && e == Cheap(e.version) && ("", e.version) !in seen
    ensures var next := Consider(m, seen, e);
            && next.Ok? && next.value == m.(used := AddU32(m.used, MAX / 4), included := next.value.included)
            && Costs(next.value.included) == Costs(m.included) + MAX / 4
  {
    var taken := m.included + [e.(tokenCost := EstimateTokens(e.bytes))];
    assert EstimateTokens(e.bytes) == MAX / 4;
    assert taken[..|m.included|] == m.included;
  }

  lemma FiveCheap()
    ensures exists s ::
              Gather(None, Five, [], None) == Gathered(s, [], false, false) && Sort(s) == s && |s| == 5 && AllCheap(s)
  {
    FiveSorted();
    var s := [Ranked(1, Five[0]), Ranked(1, Five[1]), Ranked(1, Five[2]), Ranked(1, Five[3]), Ranked(1, Five[4])];
    assert AllCheap(s) by { AscendingVersions(s); }
  }

  lemma AscendingVersions(s: seq<Ranked>)
    requires forall i | 0 <= i < |s| :: s[i] == Ranked(1, Cheap(s[i].evidence.version)) && |s[i].evidence.version| == 1
    requires forall i, j | 0 <= i < j < |s| :: s[i].evidence.version[0] < s[j].evidence.version[0]
    ensures AllCheap(s)
  {
  }

  lemma MismatchIsInvalid(m: Manifest)
    requires m.used == AddU32(0, DearCosts(5)) && Costs(m.included) == DearCosts(5)
    ensures !ValidBudget(m)
  {
    assert DearCosts(3) == 3 * (MAX / 4);
    FoldCostsIs(0, m.included);
  }

  /** Five gigantic items overflow the greatest budget, and the record no longer matches. */
  lemma GreatestBudgetOverflows()
    ensures var r := Assemble(Request(MAX, None, false, false, None), None, Five, []);
            r.Ok? && !ValidBudget(r.value.manifest)
  {
    FiveCheap();
    var s :| Gather(None, Five, [], None) == Gathered(s, [], false, false) && Sort(s) == s && |s| == 5 && AllCheap(s);
    var start := Manifest(MAX, 0, [], [], []);
    GreatestBudgetTakesAll(start, {}, s);
    MismatchIsInvalid(Fit(start, {}, s).value);
  }

  /** The budgets whose manifests always pass the check are exactly those below the greatest one. */
  lemma BudgetIsKeptExactly(budget: nat)
    requires budget <= MAX
    ensures (forall request: Request, metric, dbt, run
               | request.budget == budget && Assemble(request, metric, dbt, run).Ok? ::
               ValidBudget(Assemble(request, metric, dbt, run).value.manifest))
            <==> budget < MAX
  {
    if budget < MAX {
      forall request: Request, metric, dbt, run | request.budget == budget && Assemble(request, metric, dbt, run).Ok?
        ensures ValidBudget(Assemble(request, metric, dbt, run).value.manifest)
      {
        AssembledIsValid(request, metric, dbt, run);
      }
    } else {
      GreatestBudgetOverflows();
    }
  }

  lemma {:induction false} FitKeepsSummaries(m: Manifest, seen: set<(string, string)>, candidates: seq<Ranked>)
    ensures Fit(m, seen, candidates).Ok? ==> Fit(m, seen, candidates).value.summaries == m.summaries
    decreases |candidates|
  {
    if candidates != [] {
      var e := candidates[0].evidence;
      var next := Consider(m, seen, e);
      if next.Ok? { FitKeepsSummaries(next.value, seen + {(e.source, e.version)}, candidates[1..]); }
    }
  }

  // ---------- what becomes of each candidate ----------

  /** An earlier candidate has the same source and version. */
  predicate Repeated(cs: seq<Ranked>, i: nat)
    requires i < |cs|
  {
    exists j | 0 <= j < i ::
      cs[j].evidence.source == cs[i].evidence.source && cs[j].evidence.version == cs[i].evidence.version
  }

  /** At the greatest budget there is always room. */
  predicate Room(budget: nat, spent: nat, cost: nat) {
    budget >= MAX || spent + cost <= budget
  }

  /** Why a candidate is left out, when so much has been spent on the ones before it; or that it is not. */
  function Verdict(budget: nat, cs: seq<Ranked>, i: nat, spent: nat): Option<string>
    requires i < |cs|
  {
    if Repeated(cs, i) then Some("duplicate")
    else if cs[i].evidence.restricted then Some("restricted_evidence_not_model_safe")
    else if !Room(budget, spent, EstimateTokens(cs[i].evidence.bytes)) then Some("token_budget")
    else None
  }

  /** The cost of those of the first candidates that are included. */
  function Spent(budget: nat, cs: seq<Ranked>, n: nat): nat
    requires n <= |cs|
  {
    if n == 0 then 0
    else
      var spent := Spent(budget, cs, n - 1);
      spent + if Verdict(budget, cs, n - 1, spent).None? then EstimateTokens(cs[n - 1].evidence.bytes) else 0
  }

  function Decision(budget: nat, cs: seq<Ranked>, i: nat): Option<string>
    requires i < |cs|
  {
    Verdict(budget, cs, i, Spent(budget, cs, i))
  }

  /** Those of the first candidates that are included, in their order. */
  function Included(budget: nat, cs: seq<Ranked>, n: nat): seq<Evidence>
    requires n <= |cs|
  {
    if n == 0 then []
    else
      var e := cs[n - 1].evidence;
      Included(budget, cs, n - 1)
      + if Decision(budget, cs, n - 1).None? then [e.(tokenCost := EstimateTokens(e.bytes))] else []
  }

  /** The others, in their order, each with its reason. */
  function LeftOut(budget: nat, cs: seq<Ranked>, n: nat): seq<Omission>
    requires n <= |cs|
  {
    if n == 0 then []
    else
      var decision := Decision(budget, cs, n - 1);
      LeftOut(budget, cs, n - 1)
      + if decision.Some? then [Omission(cs[n - 1].evidence.source, decision.value)] else []
  }

  function Keys(cs: seq<Ranked>, n: nat): set<(string, string)>
    requires n <= |cs|
  {
    set j | 0 <= j < n :: (cs[j].evidence.source, cs[j].evidence.version)
  }

  /** A candidate that would be an instruction: trusted, and not a repetition. */
  predicate Instructs(cs: seq<Ranked>, i: nat)
    requires i < |cs|
  {
    !Repeated(cs, i) && !cs[i].evidence.untrusted
  }

  /** The manifest after the first candidates. */
  ghost predicate Halfway(m: Manifest, budget: nat, omitted: seq<Omission>, cs: seq<Ranked>, n: nat)
    requires n <= |cs|
  {
    && m.budget == budget && m.summaries == []
    && (budget < MAX ==> m.used == Spent(budget, cs, n) <= budget)
    && m.included == Included(budget, cs, n) && m.omitted == omitted + LeftOut(budget, cs, n)
  }

  lemma KeysGrow(cs: seq<Ranked>, i: nat)
    requires i < |cs|
    ensures var key := (cs[i].evidence.source, cs[i].evidence.version);
            Keys(cs, i + 1) == Keys(cs, i) + {key} && (key in Keys(cs, i) <==> Repeated(cs, i))
  {
  }

  /** One candidate is settled as decided. */
  lemma ConsiderDecides(m: Manifest, budget: nat, omitted: seq<Omission>, cs: seq<Ranked>, i: nat)
    requires i < |cs| && Halfway(m, budget, omitted, cs, i)
    ensures var next := Consider(m, Keys(cs, i), cs[i].evidence);
            if Instructs(cs, i) then next == Err(InvalidInstructionTrust)
            else next.Ok? && Halfway(next.value, budget, omitted, cs, i + 1)
  {
    KeysGrow(cs, i);
    var e := cs[i].evidence;
    var decision := Decision(budget, cs, i);
    if decision.Some? {
      assert omitted + LeftOut(budget, cs, i) + [Omission(e.source, decision.value)]
             == omitted + LeftOut(budget, cs, i + 1);
    } else {
      assert LeftOut(budget, cs, i + 1) == LeftOut(budget, cs, i);
    }
  }

  /** The candidates from here on are settled as decided, unless one of them instructs. */
  lemma {:induction false} FitDecides(m: Manifest, budget: nat, omitted: seq<Omission>, cs: seq<Ranked>, i: nat)
    requires i <= |cs| && Halfway(m, budget, omitted, cs, i)
    ensures var fitted := Fit(m, Keys(cs, i), cs[i..]);
            if exists j | i <= j < |cs| :: Instructs(cs, j) then fitted == Err(InvalidInstructionTrust)
            else fitted.Ok? && Halfway(fitted.value, budget, omitted, cs, |cs|)
    decreases |cs| - i
  {
    if i < |cs| {
      assert cs[i..][0] == cs[i] && cs[i..][1..] == cs[i + 1..];
      ConsiderDecides(m, budget, omitted, cs, i);
      KeysGrow(cs, i);
      if !Instructs(cs, i) {
        FitDecides(Consider(m, Keys(cs, i), cs[i].evidence).value, budget, omitted, cs, i + 1);
      }
    }
  }

  /** Ranked from the first to the last. */
  ghost predicate InRankOrder(s: seq<Ranked>) {
    forall i, j | 0 <= i < j < |s| :: !Before(s[j], s[i])
  }

  lemma NotBeforeTransitive(a: Ranked, b: Ranked, c: Ranked)
    requires !Before(b, a) && !Before(c, b)
    ensures !Before(c, a)
  {
    if Before(c, a) {
      LessTotal(a.evidence.source, b.evidence.source);
      LessTotal(b.evidence.source, c.evidence.source);
      LessTotal(a.evidence.version, b.evidence.version);
      LessTotal(b.evidence.version, c.evidence.version);
      if Before(a, b) { BeforeTransitive(c, a, b); }
      if Before(b, c) { BeforeTransitive(b, c, a); }
    }
  }

  lemma {:induction false} InsertRanks(c: Ranked, sorted: seq<Ranked>)
    requires InRankOrder(sorted)
    ensures InRankOrder(Insert(c, sorted))
  {
    var r := Insert(c, sorted);
    if sorted != [] && Before(sorted[0], c) {
      InsertRanks(c, sorted[1..]);
      InsertHolds(c, sorted[1..]);
      BeforeAsymmetric(sorted[0], c);
      forall j | 0 < j < |r| ensures !Before(r[j], r[0]) {
        assert r[j] in multiset(Insert(c, sorted[1..]));
        if r[j] != c { assert r[j] in sorted[1..]; }
      }
    } else {
      forall j | 0 < j < |r| ensures !Before(r[j], r[0]) {
        if j > 1 { NotBeforeTransitive(c, sorted[0], sorted[j - 1]); }
      }
    }
  }

  lemma {:induction false} SortRanks(candidates: seq<Ranked>)
    ensures InRankOrder(Sort(candidates))
  {
    if candidates != [] {
      SortRanks(candidates[1..]);
      InsertRanks(candidates[0], Sort(candidates[1..]));
    }
  }

  predicate SameKey(a: Ranked, b: Ranked) {
    a.rank == b.rank && a.evidence.source == b.evidence.source && a.evidence.version == b.evidence.version
  }

  /** Those that rank equal to a candidate, in their order. */
  function Equals(s: seq<Ranked>, c: Ranked): seq<Ranked> {
    if s == [] then [] else (if SameKey(s[0], c) then [s[0]] else []) + Equals(s[1..], c)
  }

  lemma {:induction false} InsertKeepsEquals(x: Ranked, sorted: seq<Ranked>, c: Ranked)
    ensures Equals(Insert(x, sorted), c) == (if SameKey(x, c) then [x] else []) + Equals(sorted, c)
  {
    if sorted != [] && Before(sorted[0], x) {
      BeforeAsymmetric(sorted[0], x);
      LessIrreflexive(c.evidence.source);
      LessIrreflexive(c.evidence.version);
      InsertKeepsEquals(x, sorted[1..], c);
    } else {
      assert Insert(x, sorted)[1..] == sorted;
    }
  }

  lemma {:induction false} SortKeepsEquals(s: seq<Ranked>, c: Ranked)
    ensures Equals(Sort(s), c) == Equals(s, c)
  {
    if s != [] {
      SortKeepsEquals(s[1..], c);
      InsertKeepsEquals(s[0], Sort(s[1..]), c);
    }
  }

  /** The candidates of a request in rank order. */
  function Ranking(request: Request, metric: Option<Evidence>, dbt: seq<Evidence>, run: seq<Evidence>): seq<Ranked> {
    Sort(Gather(metric, dbt, run, request.ttl).candidates)
  }

  /** How often an item is a candidate at a rank: the metric at the first, a dbt manifest at the second, and
      unrestricted run evidence that is a fresh observed schema or a freshness at the third. */
  ghost function Candidacies(request: Request, metric: Option<Evidence>, dbt: seq<Evidence>, run: seq<Evidence>,
                             c: Ranked): nat
  {
    (if metric.Some? && c == Ranked(0, metric.value) then 1 else 0)
    + (if c.rank == 1 && c.evidence.sourceType.DbtManifest? then multiset(dbt)[c.evidence] else 0)
    + (if c.rank == 2 && Taken(c.evidence, request.ttl) then multiset(run)[c.evidence] else 0)
  }

  lemma RankingHolds(request: Request, metric: Option<Evidence>, dbt: seq<Evidence>, run: seq<Evidence>, c: Ranked)
    ensures multiset(Ranking(request, metric, dbt, run))[c] == Candidacies(request, metric, dbt, run, c)
    ensures InRankOrder(Ranking(request, metric, dbt, run))
    ensures Equals(Ranking(request, metric, dbt, run), c)
            == Equals(Gather(metric, dbt, run, request.ttl).candidates, c)
  {
    var start := Gathered(if metric.Some? then [Ranked(0, metric.value)] else [], [], false, false);
    DbtCounts(start, dbt, c);
    RunCounts(GatherAllDbt(start, dbt), run, request.ttl, c);
    SortHolds(Gather(metric, dbt, run, request.ttl).candidates);
    SortRanks(Gather(metric, dbt, run, request.ttl).candidates);
    SortKeepsEquals(Gather(metric, dbt, run, request.ttl).candidates, c);
  }

  /** Why an item of run evidence is no candidate. */
  function Refusal(e: Evidence, ttl: Option<nat>): seq<Omission> {
    if Taken(e, ttl) then []
    else if e.sourceType.ObservedSchema? && !WithinTtl(e, ttl) then [Omission(e.source, "expired")]
    else if e.sourceType.ObservedSchema? || e.sourceType.Freshness?
    then [Omission(e.source, "restricted_evidence_not_model_safe")]
    else [Omission(e.source, "source_not_ranked_here")]
  }

  lemma GatherRunRefuses(g: Gathered, e: Evidence, ttl: Option<nat>)
    ensures GatherRun(g, e, ttl).omissions == g.omissions + Refusal(e, ttl)
  {
  }

  /** The run evidence that is no candidate, in its order, each with its reason. */
  function Unranked(run: seq<Evidence>, ttl: Option<nat>): seq<Omission> {
    if run == [] then [] else Unranked(run[..|run| - 1], ttl) + Refusal(run[|run| - 1], ttl)
  }

  lemma {:induction false} GatherRunAppend(g: Gathered, a: seq<Evidence>, e: Evidence, ttl: Option<nat>)
    ensures GatherAllRun(g, a + [e], ttl) == GatherRun(GatherAllRun(g, a, ttl), e, ttl)
    decreases |a|
  {
    if a == [] {
      assert [e][1..] == [] && a + [e] == [e];
    } else {
      assert (a + [e])[0] == a[0] && (a + [e])[1..] == a[1..] + [e];
      GatherRunAppend(GatherRun(g, a[0], ttl), a[1..], e, ttl);
    }
  }

  lemma {:induction false} RunLeaves(g: Gathered, run: seq<Evidence>, ttl: Option<nat>)
    ensures GatherAllRun(g, run, ttl).omissions == g.omissions + Unranked(run, ttl)
  {
    if run != [] {
      var front, e := run[..|run| - 1], run[|run| - 1];
      assert run == front + [e];
      GatherRunAppend(g, front, e, ttl);
      RunLeaves(g, front, ttl);
      GatherRunRefuses(GatherAllRun(g, front, ttl), e, ttl);
    }
  }

  lemma {:induction false} DbtLeavesNothing(g: Gathered, dbt: seq<Evidence>)
    ensures GatherAllDbt(g, dbt).omissions == g.omissions
    decreases |dbt|
  {
    if dbt != [] { DbtLeavesNothing(GatherDbt(g, dbt[0]), dbt[1..]); }
  }

  /** What the recent summary adds to the omissions. */
  function SummaryLeft(request: Request, m: Manifest): seq<Omission> {
    if request.summary.None? || m.summaries != [] then []
    else [Omission(SUMMARY_URI, if request.summary.value.relevant then "token_budget"
                                else "summary_not_explicitly_relevant")]
  }

  /** For every request: assembling fails exactly when some candidate that is no repetition is trusted as
      an instruction. Otherwise the manifest includes, in rank order and with their own text and version,
      exactly the candidates that repeat no earlier one, are unrestricted, and found room after the costs of
      those included before them; and everything else is omitted, in order, for exactly that reason. */
  lemma EveryItemIsSettled(request: Request, metric: Option<Evidence>, dbt: seq<Evidence>, run: seq<Evidence>)
    ensures var cs := Ranking(request, metric, dbt, run);
            var assembled := Assemble(request, metric, dbt, run);
            && (assembled.Err? <==> exists i | 0 <= i < |cs| :: Instructs(cs, i))
            && (assembled.Ok? ==>
                  && assembled.value.manifest.included == Included(request.budget, cs, |cs|)
                  && assembled.value.manifest.omitted
                     == Unranked(run, request.ttl) + LeftOut(request.budget, cs, |cs|)
                        + SummaryLeft(request, assembled.value.manifest))
  {
    var g := Gather(metric, dbt, run, request.ttl);
    var cs := Ranking(request, metric, dbt, run);
    var empty := Manifest(request.budget, 0, [], [], g.omissions);
    var start := Gathered(if metric.Some? then [Ranked(0, metric.value)] else [], [], false, false);
    DbtLeavesNothing(start, dbt);
    RunLeaves(GatherAllDbt(start, dbt), run, request.ttl);
    assert g.omissions == Unranked(run, request.ttl);
    assert Keys(cs, 0) == {} && cs[0..] == cs;
    assert empty.omitted == g.omissions + LeftOut(request.budget, cs, 0);
    FitDecides(empty, request.budget, g.omissions, cs, 0);
    if Assemble(request, metric, dbt, run).Ok? { SummaryLeaves(request, metric, dbt, run); }
  }

  lemma SummaryLeaves(request: Request, metric: Option<Evidence>, dbt: seq<Evidence>, run: seq<Evidence>)
    requires Assemble(request, metric, dbt, run).Ok?
    ensures var g := Gather(metric, dbt, run, request.ttl);
            var fitted := Fit(Manifest(request.budget, 0, [], [], g.omissions), {},
                              Ranking(request, metric, dbt, run)).value;
            var m := Assemble(request, metric, dbt, run).value.manifest;
            m.included == fitted.included && m.omitted == fitted.omitted + SummaryLeft(request, m)
  {
    var g := Gather(metric, dbt, run, request.ttl);
    FitKeepsSummaries(Manifest(request.budget, 0, [], [], g.omissions), {}, Ranking(request, metric, dbt, run));
  }

  // ---------- conservation ----------

  /** The first candidates as they were provided: those that are included, or those that are left out. */
  function Decided(budget: nat, cs: seq<Ranked>, n: nat, kept: bool): seq<Ranked>
    requires n <= |cs|
  {
    if n == 0 then []
    else Decided(budget, cs, n - 1, kept) + if Decision(budget, cs, n - 1).None? == kept then [cs[n - 1]] else []
  }

  lemma DecidedNext(budget: nat, cs: seq<Ranked>, n: nat)
    requires 0 < n <= |cs|
    ensures var x, kept, passed := cs[n - 1], Decided(budget, cs, n - 1, true), Decided(budget, cs, n - 1, false);
            if Decision(budget, cs, n - 1).None?
            then Decided(budget, cs, n, true) == kept + [x] && Decided(budget, cs, n, false) == passed
            else Decided(budget, cs, n, true) == kept && Decided(budget, cs, n, false) == passed + [x]
  {
  }

  /** Two lists hold between them what a third one holds. */
  ghost predicate Split(s: seq<Ranked>, a: seq<Ranked>, b: seq<Ranked>) {
    multiset(a) + multiset(b) == multiset(s)
  }

  lemma SplitMore(s: seq<Ranked>, a: seq<Ranked>, b: seq<Ranked>, x: Ranked)
    requires Split(s, a, b)
    ensures Split(s + [x], a + [x], b) && Split(s + [x], a, b + [x])
  {
  }

  lemma FrontGrows(cs: seq<Ranked>, n: nat)
    requires 0 < n <= |cs|
    ensures cs[..n] == cs[..n - 1] + [cs[n - 1]]
  {
  }

  lemma {:induction false} DecidedOnce(budget: nat, cs: seq<Ranked>, n: nat)
    requires n <= |cs|
    ensures Split(cs[..n], Decided(budget, cs, n, true), Decided(budget, cs, n, false))
  {
    if n == 0 {
      assert Split([], [], []);
    } else {
      var x, front := cs[n - 1], cs[..n - 1];
      var kept, passed := Decided(budget, cs, n - 1, true), Decided(budget, cs, n - 1, false);
      DecidedOnce(budget, cs, n - 1);
      SplitMore(front, kept, passed, x);
      FrontGrows(cs, n);
      DecidedNext(budget, cs, n);
    }
  }

  /** An included item is its candidate at the cost of its own text. */
  ghost predicate Shows(included: seq<Evidence>, kept: seq<Ranked>) {
    && |included| == |kept|
    && forall i | 0 <= i < |kept| ::
         included[i] == kept[i].evidence.(tokenCost := EstimateTokens(kept[i].evidence.bytes))
  }

  ghost predicate Names(omitted: seq<Omission>, items: seq<Evidence>) {
    |omitted| == |items| && forall i | 0 <= i < |items| :: omitted[i].uri == items[i].source
  }

  lemma NamesAppend(omitted: seq<Omission>, items: seq<Evidence>, o: Omission, e: Evidence)
    requires Names(omitted, items) && o.uri == e.source
    ensures Names(omitted + [o], items + [e])
  {
  }

  function Evidences(cs: seq<Ranked>): (items: seq<Evidence>)
    ensures |items| == |cs| && forall i | 0 <= i < |cs| :: items[i] == cs[i].evidence
  {
    if cs == [] then [] else [cs[0].evidence] + Evidences(cs[1..])
  }

  lemma {:induction false} KeptShow(budget: nat, cs: seq<Ranked>, n: nat)
    requires n <= |cs|
    ensures Shows(Included(budget, cs, n), Decided(budget, cs, n, true))
  {
    if n > 0 {
      KeptShow(budget, cs, n - 1);
      DecidedNext(budget, cs, n);
      if Decision(budget, cs, n - 1).Some? { assert Included(budget, cs, n) == Included(budget, cs, n - 1); }
    }
  }

  lemma {:induction false} PassedNamed(budget: nat, cs: seq<Ranked>, n: nat)
    requires n <= |cs|
    ensures Names(LeftOut(budget, cs, n), Evidences(Decided(budget, cs, n, false)))
  {
    if n > 0 {
      PassedNamed(budget, cs, n - 1);
      DecidedNext(budget, cs, n);
      var x, passed, decision := cs[n - 1], Decided(budget, cs, n - 1, false), Decision(budget, cs, n - 1);
      if decision.Some? {
        assert Evidences(passed + [x]) == Evidences(passed) + [x.evidence];
        NamesAppend(LeftOut(budget, cs, n - 1), Evidences(passed), Omission(x.evidence.source, decision.value),
                    x.evidence);
      } else {
        assert LeftOut(budget, cs, n) == LeftOut(budget, cs, n - 1);
      }
    }
  }

  /** The run evidence that is no candidate, in its order. */
  function Refused(run: seq<Evidence>, ttl: Option<nat>): seq<Evidence> {
    if run == [] then []
    else Refused(run[..|run| - 1], ttl) + if Taken(run[|run| - 1], ttl) then [] else [run[|run| - 1]]
  }

  lemma {:induction false} RefusedCounts(run: seq<Evidence>, ttl: Option<nat>, e: Evidence)
    ensures multiset(Refused(run, ttl))[e] == if Taken(e, ttl) then 0 else multiset(run)[e]
  {
    if run != [] {
      var front, last := run[..|run| - 1], run[|run| - 1];
      RefusedCounts(front, ttl, e);
      assert multiset(run) == multiset(front) + multiset{last} by { assert run == front + [last]; }
      if Taken(last, ttl) {
        assert Refused(run, ttl) == Refused(front, ttl);
      } else {
        assert Refused(run, ttl) == Refused(front, ttl) + [last];
      }
    }
  }

  lemma {:induction false} RefusedNamed(run: seq<Evidence>, ttl: Option<nat>)
    ensures Names(Unranked(run, ttl), Refused(run, ttl))
  {
    if run != [] {
      var front, last := run[..|run| - 1], run[|run| - 1];
      RefusedNamed(front, ttl);
      if Taken(last, ttl) {
        assert Refused(run, ttl) == Refused(front, ttl) && Unranked(run, ttl) == Unranked(front, ttl);
      } else {
        NamesAppend(Unranked(front, ttl), Refused(front, ttl), Refusal(last, ttl)[0], last);
      }
    }
  }

  /** Every item provided ends up in the manifest once: each candidate, as often as it was provided, is
      included at the cost of its own text or omitted by name, each other item of run evidence is omitted
      by name, and the recent summary is taken over or omitted. */
  lemma NothingIsLost(request: Request, metric: Option<Evidence>, dbt: seq<Evidence>, run: seq<Evidence>, c: Ranked)
    requires Assemble(request, metric, dbt, run).Ok?
    ensures var m := Assemble(request, metric, dbt, run).value.manifest;
            var cs := Ranking(request, metric, dbt, run);
            var kept, passed := Decided(request.budget, cs, |cs|, true), Decided(request.budget, cs, |cs|, false);
            var refused := Refused(run, request.ttl);
            && multiset(kept)[c] + multiset(passed)[c] == Candidacies(request, metric, dbt, run, c)
            && multiset(refused)[c.evidence]
               == (if Taken(c.evidence, request.ttl) then 0 else multiset(run)[c.evidence])
            && Shows(m.included, kept)
            && |m.omitted| == |refused| + |passed| + |SummaryLeft(request, m)|
            && Names(m.omitted[..|refused|], refused)
            && Names(m.omitted[|refused|..|refused| + |passed|], Evidences(passed))
            && (m.summaries == [] || (request.summary.Some? && m.summaries == [request.summary.value.bytes]))
  {
    var cs := Ranking(request, metric, dbt, run);
    EveryItemIsSettled(request, metric, dbt, run);
    RankingHolds(request, metric, dbt, run, c);
    DecidedOnce(request.budget, cs, |cs|);
    assert cs[..|cs|] == cs;
    KeptShow(request.budget, cs, |cs|);
    PassedNamed(request.budget, cs, |cs|);
    RefusedCounts(run, request.ttl, c.evidence);
    RefusedNamed(run, request.ttl);
    SummaryTaken(request, metric, dbt, run);
  }

  lemma SummaryTaken(request: Request, metric: Option<Evidence>, dbt: seq<Evidence>, run: seq<Evidence>)
    requires Assemble(request, metric, dbt, run).Ok?
    ensures var m := Assemble(request, metric, dbt, run).value.manifest;
            m.summaries == [] || (request.summary.Some? && m.summaries == [request.summary.value.bytes])
  {
    var g := Gather(metric, dbt, run, request.ttl);
    FitKeepsSummaries(Manifest(request.budget, 0, [], [], g.omissions), {}, Sort(g.candidates));
  }

  // ---------- independence of provider order ----------

  predicate Taken(e: Evidence, ttl: Option<nat>) {
    !e.restricted && (e.sourceType.Freshness? || (e.sourceType.ObservedSchema? && WithinTtl(e, ttl)))
  }

  lemma {:induction false} DbtCounts(g: Gathered, dbt: seq<Evidence>, c: Ranked)
    ensures multiset(GatherAllDbt(g, dbt).candidates)[c]
            == multiset(g.candidates)[c]
               + if c.rank == 1 && c.evidence.sourceType.DbtManifest? then multiset(dbt)[c.evidence] else 0
    decreases |dbt|
  {
    if dbt != [] {
      assert dbt == [dbt[0]] + dbt[1..];
      DbtCounts(GatherDbt(g, dbt[0]), dbt[1..], c);
    }
  }

  lemma RunCountsOne(g: Gathered, e: Evidence, ttl: Option<nat>)
    ensures GatherRun(g, e, ttl).candidates == if Taken(e, ttl) then g.candidates + [Ranked(2, e)] else g.candidates
    ensures if Taken(e, ttl) then GatherRun(g, e, ttl).omissions == g.omissions
            else exists reason :: GatherRun(g, e, ttl).omissions == g.omissions + [Omission(e.source, reason)]
    ensures GatherRun(g, e, ttl).hasSchema == (g.hasSchema || (Taken(e, ttl) && e.sourceType.ObservedSchema?))
    ensures GatherRun(g, e, ttl).hasFreshness == (g.hasFreshness || (Taken(e, ttl) && e.sourceType.Freshness?))
  {
  }

  lemma {:induction false} RunCounts(g: Gathered, run: seq<Evidence>, ttl: Option<nat>, c: Ranked)
    ensures multiset(GatherAllRun(g, run, ttl).candidates)[c]
            == multiset(g.candidates)[c]
               + if c.rank == 2 && Taken(c.evidence, ttl) then multiset(run)[c.evidence] else 0
    decreases |run|
  {
    if run != [] {
      assert run == [run[0]] + run[1..];
      RunCountsOne(g, run[0], ttl);
      RunCounts(GatherRun(g, run[0], ttl), run[1..], ttl, c);
    }
  }

  lemma {:induction false} RunFlags(g: Gathered, run: seq<Evidence>, ttl: Option<nat>)
    ensures var after := GatherAllRun(g, run, ttl);
            && (after.hasSchema
                <==> g.hasSchema || exists e | e in multiset(run) :: Taken(e, ttl) && e.sourceType.ObservedSchema?)
            && (after.hasFreshness
                <==> g.hasFreshness || exists e | e in multiset(run) :: Taken(e, ttl) && e.sourceType.Freshness?)
    decreases |run|
  {
    if run != [] {
      assert run == [run[0]] + run[1..];
      assert forall e :: e in multiset(run) <==> e == run[0] || e in multiset(run[1..]);
      RunCountsOne(g, run[0], ttl);
      RunFlags(GatherRun(g, run[0], ttl), run[1..], ttl);
    }
  }

  lemma {:induction false} DbtFlags(g: Gathered, dbt: seq<Evidence>)
    ensures GatherAllDbt(g, dbt).hasSchema == g.hasSchema && GatherAllDbt(g, dbt).hasFreshness == g.hasFreshness
    decreases |dbt|
  {
    if dbt != [] { DbtFlags(GatherDbt(g, dbt[0]), dbt[1..]); }
  }

  lemma GatherIgnoresOrder(metric: Option<Evidence>, dbt: seq<Evidence>, run: seq<Evidence>, ttl: Option<nat>,
                           dbt': seq<Evidence>, run': seq<Evidence>)
    requires multiset(dbt) == multiset(dbt') && multiset(run) == multiset(run')
    ensures var g, g' := Gather(metric, dbt, run, ttl), Gather(metric, dbt', run', ttl);
            && multiset(g.candidates) == multiset(g'.candidates)
            && g.hasSchema == g'.hasSchema && g.hasFreshness == g'.hasFreshness
  {
    var start := Gathered(if metric.Some? then [Ranked(0, metric.value)] else [], [], false, false);
    var g, g' := Gather(metric, dbt, run, ttl), Gather(metric, dbt', run', ttl);
    forall c ensures multiset(g.candidates)[c] == multiset(g'.candidates)[c] {
      DbtCounts(start, dbt, c);
      DbtCounts(start, dbt', c);
      RunCounts(GatherAllDbt(start, dbt), run, ttl, c);
      RunCounts(GatherAllDbt(start, dbt'), run', ttl, c);
    }
    DbtFlags(start, dbt);
    DbtFlags(start, dbt');
    RunFlags(GatherAllDbt(start, dbt), run, ttl);
    RunFlags(GatherAllDbt(start, dbt'), run', ttl);
  }

  /** What was omitted before plays no part. */
  lemma {:induction false} FitIgnoresOmitted(m: Manifest, n: Manifest, seen: set<(string, string)>,
                                             candidates: seq<Ranked>)
    requires m == n.(omitted := m.omitted)
    ensures var a, b := Fit(m, seen, candidates), Fit(n, seen, candidates);
            if a.Ok? then b.Ok? && a.value == b.value.(omitted := a.value.omitted) else a == b
    decreases |candidates|
  {
    if candidates != [] {
      var e := candidates[0].evidence;
      if Consider(m, seen, e).Ok? {
        FitIgnoresOmitted(Consider(m, seen, e).value, Consider(n, seen, e).value, seen + {(e.source, e.version)},
                          candidates[1..]);
      }
    }
  }

  /** When no two candidates share rank, source and version, the order in which the providers return
      their evidence changes nothing but the order of the omissions. */
  lemma AssembleIgnoresOrder(request: Request, metric: Option<Evidence>, dbt: seq<Evidence>, run: seq<Evidence>,
                             dbt': seq<Evidence>, run': seq<Evidence>)
    requires multiset(dbt) == multiset(dbt') && multiset(run) == multiset(run')
    requires DistinctKeys(Gather(metric, dbt, run, request.ttl).candidates)
    requires DistinctKeys(Gather(metric, dbt', run', request.ttl).candidates)
    ensures var a, b := Assemble(request, metric, dbt, run), Assemble(request, metric, dbt', run');
            if a.Ok?
            then b.Ok? && a.value == b.value.(manifest := b.value.manifest.(omitted := a.value.manifest.omitted))
            else a == b
  {
    var g, g' := Gather(metric, dbt, run, request.ttl), Gather(metric, dbt', run', request.ttl);
    GatherIgnoresOrder(metric, dbt, run, request.ttl, dbt', run');
    SortIgnoresOrder(g.candidates, g'.candidates);
    FitIgnoresOmitted(Manifest(request.budget, 0, [], [], g.omissions),
                      Manifest(request.budget, 0, [], [], g'.omissions),
                      {}, Sort(g.candidates));
  }

  // ---------- assembling in place ----------

  method AssembleContext(request: Request, metric: Option<Evidence>, dbt: seq<Evidence>, run: seq<Evidence>)
    returns (result: Result<Assembled, Error>)
    ensures result == Assemble(request, metric, dbt, run)
  {
    var g := Gathered(if metric.Some? then [Ranked(0, metric.value)] else [], [], false, false);
    ghost var start := g;
    for i := 0 to |dbt|
      invariant GatherAllDbt(start, dbt) == GatherAllDbt(g, dbt[i..])
    {
      assert dbt[i..][1..] == dbt[i + 1..];
      if dbt[i].sourceType.DbtManifest? { g := g.(candidates := g.candidates + [Ranked(1, dbt[i])]); }
    }
    ghost var afterDbt := g;
    for i := 0 to |run|
      invariant GatherAllRun(afterDbt, run, request.ttl) == GatherAllRun(g, run[i..], request.ttl)
    {
      assert run[i..][1..] == run[i + 1..];
      g := GatherRun(g, run[i], request.ttl);
    }
    var candidates := Sort(g.candidates);
    var manifest := Manifest(request.budget, 0, [], [], g.omissions);
    var seen: set<(string, string)> := {};
    ghost var empty := manifest;
    for i := 0 to |candidates|
      invariant Fit(empty, {}, candidates) == Fit(manifest, seen, candidates[i..])
    {
      assert candidates[i..][1..] == candidates[i + 1..];
      var e := candidates[i].evidence;
      var next := Consider(manifest, seen, e);
      if next.Err? { return Err(next.error); }
      seen := seen + {(e.source, e.version)};
      manifest := next.value;
    }
    manifest := AddSummary(manifest, request.summary);
    result := Ok(Assembled(manifest, Needs(request, g)));
  }

  // ---------- what may be included ----------

  /** Nothing restricted or trusted as an instruction is included, nothing twice, and each item at the
      cost of its own text. */
  ghost predicate SafelyIncluded(m: Manifest) {
    && (forall i | 0 <= i < |m.included| ::
          !m.included[i].restricted && m.included[i].untrusted
          && m.included[i].tokenCost == EstimateTokens(m.included[i].bytes))
    && (forall i, j | 0 <= i < j < |m.included| ::
          (m.included[i].source, m.included[i].version) != (m.included[j].source, m.included[j].version))
  }

  ghost predicate AllSeen(m: Manifest, seen: set<(string, string)>) {
    forall i | 0 <= i < |m.included| :: (m.included[i].source, m.included[i].version) in seen
  }

  lemma {:induction false} FitIncludesSafely(m: Manifest, seen: set<(string, string)>, candidates: seq<Ranked>)
    requires SafelyIncluded(m) && AllSeen(m, seen)
    ensures Fit(m, seen, candidates).Ok? ==> SafelyIncluded(Fit(m, seen, candidates).value)
    decreases |candidates|
  {
    if candidates != [] {
      var e := candidates[0].evidence;
      var next := Consider(m, seen, e);
      if next.Ok? { FitIncludesSafely(next.value, seen + {(e.source, e.version)}, candidates[1..]); }
    }
  }

  lemma AssembledIsSafe(request: Request, metric: Option<Evidence>, dbt: seq<Evidence>, run: seq<Evidence>)
    requires Assemble(request, metric, dbt, run).Ok?
    ensures SafelyIncluded(Assemble(request, metric, dbt, run).value.manifest)
  {
    var g := Gather(metric, dbt, run, request.ttl);
    FitIncludesSafely(Manifest(request.budget, 0, [], [], g.omissions), {}, Sort(g.candidates));
  }
}
