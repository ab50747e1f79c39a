/** What becomes of everything provided for a context manifest, told of the manifest itself. */
module ContextOutcomes {
  import opened Wrappers
  import opened KeyOrder
  import opened ContextBudget

  // ---------- costs and order ----------

  /** A text costs a token for every four bytes begun; one too long to be counted costs the most. */
  lemma TokensAreQuarters(bytes: nat)
    ensures bytes <= 0xFFFF_FFFC ==> bytes <= 4 * EstimateTokens(bytes) < bytes + 4
    ensures bytes > 0xFFFF_FFFC ==> EstimateTokens(bytes) == 0x3FFF_FFFF
  {
  }

  /** Candidates are ranked by their rank, then their source, then their version. */
  lemma RankedInOrder(request: Request, metric: Option<Evidence>, dbt: seq<Evidence>, run: seq<Evidence>, i: nat,
                      j: nat)
    requires i < j < |Ranking(request, metric, dbt, run)|
    ensures var a, b := Ranking(request, metric, dbt, run)[i], Ranking(request, metric, dbt, run)[j];
            || a.rank < b.rank
            || (a.rank == b.rank && Less(a.evidence.source, b.evidence.source))
            || (a.rank == b.rank && a.evidence.source == b.evidence.source
                && (Less(a.evidence.version, b.evidence.version) || a.evidence.version == b.evidence.version))
  {
    var a, b := Ranking(request, metric, dbt, run)[i], Ranking(request, metric, dbt, run)[j];
    RankingHolds(request, metric, dbt, run, a);
    LessTotal(a.evidence.source, b.evidence.source);
    LessTotal(a.evidence.version, b.evidence.version);
  }

  // ---------- run evidence ----------

  /** An observed schema is fresh when it was observed neither in the future nor longer ago than allowed. */
  ghost predicate Fresh(e: Evidence, ttl: Option<nat>) {
    ttl.Some? && 0 <= e.age && e.age <= ttl.value
  }

  /** Why a piece of run evidence is no candidate, if it is none. */
  ghost function WhyNot(e: Evidence, ttl: Option<nat>): (reason: Option<string>)
    ensures reason == Some("expired") <==> e.sourceType.ObservedSchema? && !Fresh(e, ttl)
    ensures reason == Some("restricted_evidence_not_model_safe")
            <==> e.restricted && (e.sourceType.Freshness? || (e.sourceType.ObservedSchema? && Fresh(e, ttl)))
    ensures reason == Some("source_not_ranked_here") <==> !e.sourceType.Freshness? && !e.sourceType.ObservedSchema?
    ensures reason.None? <==> Taken(e, ttl)
  {
    if Taken(e, ttl) then None else Some(Refusal(e, ttl)[0].reason)
  }

  lemma {:induction false} RefusalsListed(run: seq<Evidence>, ttl: Option<nat>, i: nat)
    requires i < |run| && WhyNot(run[i], ttl).Some?
    ensures Omission(run[i].source, WhyNot(run[i], ttl).value) in Unranked(run, ttl)
    decreases |run|
  {
    if i < |run| - 1 {
      var front := run[..|run| - 1];
      RefusalsListed(front, ttl, i);
      assert front[i] == run[i];
      assert forall o | o in Unranked(front, ttl) :: o in Unranked(run, ttl);
    } else {
      assert Omission(run[i].source, WhyNot(run[i], ttl).value) in Refusal(run[i], ttl);
    }
  }

  /** Every piece of run evidence that is no candidate is omitted for its reason, and any other is one. */
  lemma RunEvidenceIsSettled(request: Request, metric: Option<Evidence>, dbt: seq<Evidence>, run: seq<Evidence>, i: nat)
    requires Assemble(request, metric, dbt, run).Ok? && i < |run|
    ensures var m := Assemble(request, metric, dbt, run).value.manifest;
            if WhyNot(run[i], request.ttl).Some?
            then Omission(run[i].source, WhyNot(run[i], request.ttl).value) in m.omitted
            else Ranked(2, run[i]) in Ranking(request, metric, dbt, run)
  {
    if WhyNot(run[i], request.ttl).Some? {
      RefusalsListed(run, request.ttl, i);
      EveryItemIsSettled(request, metric, dbt, run);
    } else {
      RankingHolds(request, metric, dbt, run, Ranked(2, run[i]));
      assert run[i] in multiset(run);
      assert Ranked(2, run[i]) in multiset(Ranking(request, metric, dbt, run));
    }
  }

  // ---------- what is still needed ----------

  /** What the model call needs and nobody provided is asked for, and nothing else: an unrestricted fresh schema when
      a schema is required, an unrestricted freshness when that is. */
  lemma NeedsExactly(request: Request, metric: Option<Evidence>, dbt: seq<Evidence>, run: seq<Evidence>)
    requires Assemble(request, metric, dbt, run).Ok?
    ensures var schema := request.requiresSchema
                          && forall e | e in run ::
                             !(e.sourceType.ObservedSchema? && !e.restricted && Fresh(e, request.ttl));
            var freshness := request.requiresFreshness
                             && forall e | e in run :: !(e.sourceType.Freshness? && !e.restricted);
            Assemble(request, metric, dbt, run).value.needs
            == if schema && freshness then [NeedSchema, NeedFreshness]
               else if schema then [NeedSchema] else if freshness then [NeedFreshness] else []
  {
    var start := Gathered(if metric.Some? then [Ranked(0, metric.value)] else [], [], false, false);
    DbtFlags(start, dbt);
    RunFlags(GatherAllDbt(start, dbt), run, request.ttl);
    assert forall e :: e in run <==> e in multiset(run);
    forall e ensures Taken(e, request.ttl) <==> WhyNot(e, request.ttl).None? {
      assert WhyNot(e, request.ttl).None? <==> Taken(e, request.ttl);
    }
  }

  // ---------- candidates ----------

  ghost predicate SameItem(a: Evidence, b: Evidence) { a.source == b.source && a.version == b.version }

  /** Each of these items is one of these candidates. */
  ghost predicate From(items: seq<Evidence>, cs: seq<Ranked>) {
    forall k | 0 <= k < |items| :: exists j :: 0 <= j < |cs| && SameItem(items[k], cs[j].evidence)
  }

  /** What becomes of a candidate when these items were taken before it and these after. */
  ghost predicate Settled(m: Manifest, budget: nat, earlier: seq<Ranked>, e: Evidence, taken: nat)
    requires taken <= |m.included|
  {
    if exists j :: 0 <= j < |earlier| && SameItem(e, earlier[j].evidence)
    then Omission(e.source, "duplicate") in m.omitted
    else if e.restricted then Omission(e.source, "restricted_evidence_not_model_safe") in m.omitted
    else if budget >= 0xFFFF_FFFF || Costs(m.included[..taken]) + EstimateTokens(e.bytes) <= budget
    then taken < |m.included| && m.included[taken] == e.(tokenCost := EstimateTokens(e.bytes))
    else Omission(e.source, "token_budget") in m.omitted
  }

  lemma {:induction false} IncludedGrows(budget: nat, cs: seq<Ranked>, i: nat, n: nat)
    requires i <= n <= |cs|
    ensures Included(budget, cs, i) <= Included(budget, cs, n)
    ensures LeftOut(budget, cs, i) <= LeftOut(budget, cs, n)
  {
    if i < n { IncludedGrows(budget, cs, i, n - 1); }
  }

  lemma {:induction false} SpentIsCosts(budget: nat, cs: seq<Ranked>, n: nat)
    requires n <= |cs|
    ensures Costs(Included(budget, cs, n)) == Spent(budget, cs, n)
  {
    if n > 0 {
      SpentIsCosts(budget, cs, n - 1);
      if Decision(budget, cs, n - 1).None? {
        assert Included(budget, cs, n)[..|Included(budget, cs, n)| - 1] == Included(budget, cs, n - 1);
      } else {
        assert Included(budget, cs, n) == Included(budget, cs, n - 1);
      }
    }
  }

  lemma {:induction false} IncludedFrom(budget: nat, cs: seq<Ranked>, i: nat, n: nat)
    requires i <= n <= |cs|
    ensures Included(budget, cs, i) <= Included(budget, cs, n)
    ensures From(Included(budget, cs, n)[|Included(budget, cs, i)|..], cs[i..n])
  {
    if i < n {
      IncludedFrom(budget, cs, i, n - 1);
      var before, now := Included(budget, cs, n - 1)[|Included(budget, cs, i)|..],
                         Included(budget, cs, n)[|Included(budget, cs, i)|..];
      FromMore(before, cs[i..n - 1], cs[n - 1]);
      assert cs[i..n] == cs[i..n - 1] + [cs[n - 1]];
      if Decision(budget, cs, n - 1).None? {
        assert now == before + [cs[n - 1].evidence.(tokenCost := EstimateTokens(cs[n - 1].evidence.bytes))];
      } else {
        assert now == before;
      }
    }
  }

  lemma FromMore(items: seq<Evidence>, cs: seq<Ranked>, c: Ranked)
    requires From(items, cs)
    ensures From(items, cs + [c])
    ensures forall e | SameItem(e, c.evidence) :: From(items + [e], cs + [c])
  {
    forall k | 0 <= k < |items| ensures exists j :: 0 <= j < |cs + [c]| && SameItem(items[k], (cs + [c])[j].evidence) {
      var j :| 0 <= j < |cs| && SameItem(items[k], cs[j].evidence);
      assert (cs + [c])[j] == cs[j];
    }
    assert (cs + [c])[|cs|] == c;
  }

  /** Every candidate is settled in its turn: some of the included items come from the candidates before it and all
      others from itself and those after, and it is omitted as a repetition of an earlier one, or because it is
      restricted, or because it costs more than those before it left of the budget; or else it is the next one
      included, at the cost of its own text. Unless it repeats an earlier one, it is data that is not trusted. */
  lemma CandidateIsSettled(request: Request, metric: Option<Evidence>, dbt: seq<Evidence>, run: seq<Evidence>, i: nat)
    requires Assemble(request, metric, dbt, run).Ok? && i < |Ranking(request, metric, dbt, run)|
    ensures var m, cs := Assemble(request, metric, dbt, run).value.manifest, Ranking(request, metric, dbt, run);
            && (exists taken | 0 <= taken <= |m.included| ::
                  && From(m.included[..taken], cs[..i]) && From(m.included[taken..], cs[i..])
                  && Settled(m, request.budget, cs[..i], cs[i].evidence, taken))
            && (cs[i].evidence.untrusted || exists j :: 0 <= j < i && SameItem(cs[i].evidence, cs[j].evidence))
  {
    var m, cs, budget := Assemble(request, metric, dbt, run).value.manifest, Ranking(request, metric, dbt, run),
                         request.budget;
    EveryItemIsSettled(request, metric, dbt, run);
    var taken := |Included(budget, cs, i)|;
    IncludedFrom(budget, cs, 0, i);
    IncludedFrom(budget, cs, i, |cs|);
    assert m.included[..taken] == Included(budget, cs, i);
    assert Included(budget, cs, i)[0..] == Included(budget, cs, i) && cs[0..i] == cs[..i] && cs[i..|cs|] == cs[i..];
    SettledInTurn(m, budget, cs, i, Unranked(run, request.ttl));
    assert !Instructs(cs, i);
    assert Settled(m, budget, cs[..i], cs[i].evidence, taken);
  }

  lemma SettledInTurn(m: Manifest, budget: nat, cs: seq<Ranked>, i: nat, before: seq<Omission>)
    requires i < |cs| && m.included == Included(budget, cs, |cs|)
    requires before + LeftOut(budget, cs, |cs|) <= m.omitted
    ensures |Included(budget, cs, i)| <= |m.included|
    ensures Settled(m, budget, cs[..i], cs[i].evidence, |Included(budget, cs, i)|)
  {
    var e := cs[i].evidence;
    IncludedGrows(budget, cs, i + 1, |cs|);
    IncludedGrows(budget, cs, i, |cs|);
    SpentIsCosts(budget, cs, i);
    assert m.included[..|Included(budget, cs, i)|] == Included(budget, cs, i);
    assert Repeated(cs, i) <==> exists j :: 0 <= j < |cs[..i]| && SameItem(e, cs[..i][j].evidence);
    var decision := Decision(budget, cs, i);
    if decision.Some? {
      var o := Omission(e.source, decision.value);
      assert o == LeftOut(budget, cs, i + 1)[|LeftOut(budget, cs, i)|];
      var k :| 0 <= k < |LeftOut(budget, cs, |cs|)| && LeftOut(budget, cs, |cs|)[k] == o;
      assert m.omitted[|before| + k] == (before + LeftOut(budget, cs, |cs|))[|before| + k] == o;
    } else {
      assert Included(budget, cs, i + 1)[|Included(budget, cs, i)|] == e.(tokenCost := EstimateTokens(e.bytes));
    }
  }

  // ---------- the recent summary ----------

  /** The recent summary is taken over exactly when it is relevant and the rest of the budget pays for it; otherwise
      it is omitted for that reason. */
  lemma SummaryIsSettled(request: Request, metric: Option<Evidence>, dbt: seq<Evidence>, run: seq<Evidence>)
    requires Assemble(request, metric, dbt, run).Ok? && request.budget < MAX
    ensures var m := Assemble(request, metric, dbt, run).value.manifest;
            match request.summary
            case None => m.summaries == []
            case Some(summary) =>
              if !summary.relevant
              then && m.summaries == []
                   && Omission("task-summary://recent", "summary_not_explicitly_relevant") in m.omitted
              else if Costs(m.included) + EstimateTokens(summary.bytes) <= request.budget
              then m.summaries == [summary.bytes]
              else m.summaries == [] && Omission("task-summary://recent", "token_budget") in m.omitted
  {
    var g := Gather(metric, dbt, run, request.ttl);
    var empty := Manifest(request.budget, 0, [], [], g.omissions);
    FitAccounts(empty, {}, Sort(g.candidates));
    var fitted := Fit(empty, {}, Sort(g.candidates)).value;
    var m := AddSummary(fitted, request.summary);
    assert m.included == fitted.included;
    if m.omitted != fitted.omitted { assert m.omitted[|fitted.omitted|] in m.omitted; }
  }
}
