/**
 * What every run of main promises, whatever the outside world does: each step
 * comes from the attempt in the same position; a restart stays on its query while a
 * completed pass moves to the next, so the queries from the start index are saved
 * once each and in order; every step types its query and presses ENTER; and only
 * the first saving step of a new file writes the CSV header.
 *
 * Each property is proved once for main's control flow (Loop) under a small
 * hypothesis about the loop body, and then for the scraper's own loop body.
 */
module WorkflowProps {
  import opened Wrappers
  import opened Proxy
  import opened Typing
  import opened Challenge
  import opened Results
  import opened Csv
  import opened Workflow

  /** The query indices of the steps that saved their results, in order. */
  function Saved(steps: seq<Step>): seq<nat>
  {
    if steps == [] then []
    else (if steps[0].verdict == Unresolved then [] else [steps[0].index]) + Saved(steps[1..])
  }

  /** i, i + 1, ..., i + n - 1 */
  function Range(i: nat, n: nat): seq<nat>
  {
    seq(n, k requires 0 <= k < n => i + k)
  }

  predicate Took(p: Pass)
  {
    p.Restarted? || p.Completed?
  }

  // ---------------------------------------------------------------------------
  // What one pass promises
  // ---------------------------------------------------------------------------

  /** A pass for query number `i` records that index, and restarts exactly on an unresolved challenge. */
  predicate PassAt(p: Pass, i: nat)
  {
    Took(p) ==> p.step.index == i && (p.Restarted? <==> p.step.verdict == Unresolved)
  }

  /** A step is the attempt's: its navigation succeeded, and proxy, profile and verdict are the attempt's. */
  predicate StepFrom(s: Step, cfg: Config, a: Attempt)
  {
    a.navigated && Admitted(cfg, a) == Some(s.payload) && s.profileId == a.profileId &&
    s.verdict == CheckRecaptcha(a.challenge).verdict
  }

  /** A pass is decided by its attempt: the proxy check, the navigation and the challenge. */
  predicate FromAttempt(p: Pass, cfg: Config, a: Attempt)
  {
    (p.ProxyFailed? <==> Admitted(cfg, a).None?) &&
    (p.NavigationFailed? ==> Admitted(cfg, a).Some? && !a.navigated && p.profileId == a.profileId) &&
    (Took(p) ==> StepFrom(p.step, cfg, a))
  }

  /** The keys of a step leave exactly the query in the search box, and ENTER is pressed once, last. */
  predicate StepTypes(s: Step, query: string)
  {
    s.keys != [] && s.keys[|s.keys| - 1] == Enter && Enter !in s.keys[..|s.keys| - 1] && Replay(s.keys) == query
  }

  /** The rows save_to_csv appends for `query` when the attempt's page is saved into a file that `existed` or not. */
  function SaveOf(existed: bool, query: string, a: Attempt): seq<Row>
  {
    var hits := PageHits(a.page);
    SavedRows(existed, a.date, a.time, query, Titles(hits), Urls(hits))
  }

  /**
   * What a step appends: nothing on a restart; otherwise exactly the rows of the
   * attempt's page for its query, which begin with the header exactly when the file
   * did not exist.
   */
  predicate StepWrites(s: Step, existed: bool, query: string, a: Attempt)
  {
    (s.header <==> !existed && s.verdict != Unresolved) &&
    (s.verdict == Unresolved ==> s.rows == []) &&
    (s.verdict != Unresolved ==> s.rows == SaveOf(existed, query, a)) &&
    (s.header ==> s.rows != [] && s.rows[0] == Header)
  }

  // ---------------------------------------------------------------------------
  // What a whole run promises
  // ---------------------------------------------------------------------------

  /**
   * Step k works on the query after all those saved before it; the saved queries
   * are i, i + 1, ... in order; a run that stops early stops at the next query to
   * save, and a finished run saved every query from i on.
   */
  ghost predicate Progress(r: Run, queries: seq<string>, i: nat)
  {
    (forall k :: 0 <= k < |r.steps| ==> r.steps[k].index == i + |Saved(r.steps[..k])| < |queries|) &&
    Saved(r.steps) == Range(i, |Saved(r.steps)|) &&
    (!r.outcome.Finished? ==> r.outcome.at == i + |Saved(r.steps)| < |queries|) &&
    (r.outcome.Finished? ==> if i < |queries| then i + |Saved(r.steps)| == |queries| else r.steps == [])
  }

  /**
   * Step k comes from attempt k. A crash comes from the attempt right after the
   * last step; running out of attempts means every attempt produced a step.
   */
  ghost predicate FollowsAttempts(r: Run, cfg: Config, attempts: seq<Attempt>)
  {
    var n := |r.steps|;
    n <= |attempts| &&
    (forall k :: 0 <= k < n ==> StepFrom(r.steps[k], cfg, attempts[k])) &&
    (r.outcome.OutOfAttempts? ==> n == |attempts|) &&
    (r.outcome.ProxyCrash? ==> n < |attempts| && FromAttempt(ProxyFailed, cfg, attempts[n])) &&
    (r.outcome.NavigationCrash? ==> n < |attempts| && FromAttempt(NavigationFailed(r.outcome.profileId), cfg, attempts[n]))
  }

  /** Every step leaves its own query in the search box and presses ENTER. */
  ghost predicate TypesQueries(r: Run, queries: seq<string>)
  {
    forall k :: 0 <= k < |r.steps| ==> r.steps[k].index < |queries| && StepTypes(r.steps[k], queries[r.steps[k].index])
  }

  /**
   * Restarted steps write nothing; a saving step writes exactly the rows of its
   * attempt's page for its query, and only the first saving step, and only when the
   * file did not exist, writes the header.
   */
  ghost predicate HeaderOnce(r: Run, queries: seq<string>, attempts: seq<Attempt>, existed: bool)
  {
    forall k :: 0 <= k < |r.steps| ==> WritesAt(r, queries, attempts, existed, k)
  }

  /** Step k of the run writes as StepWrites says for its query and attempt k. */
  ghost predicate WritesAt(r: Run, queries: seq<string>, attempts: seq<Attempt>, existed: bool, k: int)
    requires 0 <= k < |r.steps|
  {
    k < |attempts| && r.steps[k].index < |queries| &&
    StepWrites(r.steps[k], existed || Saved(r.steps[..k]) != [], queries[r.steps[k].index], attempts[k])
  }

  // ---------------------------------------------------------------------------
  // Each promise survives putting one more step in front of a run
  // ---------------------------------------------------------------------------

  lemma SavedCons(s: Step, t: seq<Step>)
    ensures Saved([s] + t) == (if s.verdict == Unresolved then [] else [s.index]) + Saved(t)
  {
    assert ([s] + t)[1..] == t;
  }

  lemma RangeCons(i: nat, n: nat)
    ensures [i] + Range(i + 1, n) == Range(i, n + 1)
  {
    var front, whole := [i] + Range(i + 1, n), Range(i, n + 1);
    forall k | 0 <= k < n + 1
      ensures front[k] == whole[k]
    {
      if k > 0 {
        assert front[k] == Range(i + 1, n)[k - 1];
      }
    }
  }

  /** The steps of Prepend(s, t) before position k + 1, and the step at k + 1. */
  lemma PrefixCons(s: Step, t: seq<Step>, k: nat)
    requires k < |t|
    ensures ([s] + t)[..k + 1] == [s] + t[..k]
    ensures ([s] + t)[k + 1] == t[k]
  {
  }

  lemma ProgressEmpty(queries: seq<string>, i: nat, outcome: Outcome)
    requires outcome.Finished? ==> i >= |queries|
    requires !outcome.Finished? ==> outcome.at == i < |queries|
    ensures Progress(Run([], outcome), queries, i)
  {
    assert Range(i, 0) == [];
  }

  lemma ProgressCons(s: Step, t: Run, queries: seq<string>, i: nat)
    requires s.index == i < |queries|
    requires Progress(t, queries, if s.verdict == Unresolved then i else i + 1)
    ensures Progress(Prepend(s, t), queries, i)
  {
    var r := Prepend(s, t);
    SavedCons(s, t.steps);
    forall k | 0 <= k < |r.steps|
      ensures r.steps[k].index == i + |Saved(r.steps[..k])| < |queries|
    {
      if k == 0 {
        assert r.steps[..0] == [];
      } else {
        PrefixCons(s, t.steps, k - 1);
        SavedCons(s, t.steps[..k - 1]);
      }
    }
    if s.verdict != Unresolved {
      RangeCons(i, |Saved(t.steps)|);
    }
  }

  lemma FollowsCons(s: Step, t: Run, cfg: Config, attempts: seq<Attempt>)
    requires attempts != [] && StepFrom(s, cfg, attempts[0])
    requires FollowsAttempts(t, cfg, attempts[1..])
    ensures FollowsAttempts(Prepend(s, t), cfg, attempts)
  {
    var r := Prepend(s, t);
    forall k | 0 <= k < |r.steps|
      ensures StepFrom(r.steps[k], cfg, attempts[k])
    {
      if k > 0 {
        PrefixCons(s, t.steps, k - 1);
        assert attempts[k] == attempts[1..][k - 1];
      }
    }
    var n := |t.steps|;
    if n < |attempts[1..]| {
      assert attempts[n + 1] == attempts[1..][n];
    }
  }

  lemma TypesCons(s: Step, t: Run, queries: seq<string>)
    requires s.index < |queries| && StepTypes(s, queries[s.index])
    requires TypesQueries(t, queries)
    ensures TypesQueries(Prepend(s, t), queries)
  {
    var r := Prepend(s, t);
    forall k | 0 <= k < |r.steps|
      ensures r.steps[k].index < |queries| && StepTypes(r.steps[k], queries[r.steps[k].index])
    {
      if k > 0 {
        PrefixCons(s, t.steps, k - 1);
      }
    }
  }

  lemma HeaderCons(s: Step, t: Run, queries: seq<string>, attempts: seq<Attempt>, existed: bool)
    requires attempts != [] && s.index < |queries|
    requires StepWrites(s, existed, queries[s.index], attempts[0])
    requires HeaderOnce(t, queries, attempts[1..], existed || s.verdict != Unresolved)
    ensures HeaderOnce(Prepend(s, t), queries, attempts, existed)
  {
    var r := Prepend(s, t);
    forall k | 0 <= k < |r.steps|
      ensures WritesAt(r, queries, attempts, existed, k)
    {
      if k == 0 {
        assert r.steps[..0] == [];
      } else {
        PrefixCons(s, t.steps, k - 1);
        SavedCons(s, t.steps[..k - 1]);
        assert WritesAt(t, queries, attempts[1..], existed || s.verdict != Unresolved, k - 1);
        assert attempts[k] == attempts[1..][k - 1];
      }
    }
  }

  // ---------------------------------------------------------------------------
  // Main's control flow, for any loop body that keeps the promise of one pass
  // ---------------------------------------------------------------------------

  lemma {:induction false} LoopProgress(body: Body, queries: seq<string>, i: nat, attempts: seq<Attempt>, existed: bool)
    requires forall q, j, a, e :: PassAt(body(q, j, a, e), j)
    ensures Progress(Loop(body, queries, i, attempts, existed), queries, i)
    decreases |attempts|
  {
    if i < |queries| && attempts != [] {
      var p := body(queries[i], i, attempts[0], existed);
      LoopAfterPass(body, queries, i, attempts, existed);
      assert PassAt(p, i);
      if p.Restarted? {
        LoopProgress(body, queries, i, attempts[1..], existed);
        ProgressCons(p.step, Loop(body, queries, i, attempts[1..], existed), queries, i);
      } else if p.Completed? {
        LoopProgress(body, queries, i + 1, attempts[1..], true);
        ProgressCons(p.step, Loop(body, queries, i + 1, attempts[1..], true), queries, i);
      } else {
        ProgressEmpty(queries, i, Loop(body, queries, i, attempts, existed).outcome);
      }
    } else {
      ProgressEmpty(queries, i, Loop(body, queries, i, attempts, existed).outcome);
    }
  }

  lemma {:induction false} LoopFollowsAttempts(cfg: Config, body: Body, queries: seq<string>, i: nat, attempts: seq<Attempt>, existed: bool)
    requires forall q, j, a, e :: FromAttempt(body(q, j, a, e), cfg, a)
    ensures FollowsAttempts(Loop(body, queries, i, attempts, existed), cfg, attempts)
    decreases |attempts|
  {
    if i < |queries| && attempts != [] {
      var p := body(queries[i], i, attempts[0], existed);
      LoopAfterPass(body, queries, i, attempts, existed);
      assert FromAttempt(p, cfg, attempts[0]);
      if p.Restarted? {
        LoopFollowsAttempts(cfg, body, queries, i, attempts[1..], existed);
        FollowsCons(p.step, Loop(body, queries, i, attempts[1..], existed), cfg, attempts);
      } else if p.Completed? {
        LoopFollowsAttempts(cfg, body, queries, i + 1, attempts[1..], true);
        FollowsCons(p.step, Loop(body, queries, i + 1, attempts[1..], true), cfg, attempts);
      }
    }
  }

  lemma {:induction false} LoopTypesQueries(body: Body, queries: seq<string>, i: nat, attempts: seq<Attempt>, existed: bool)
    requires forall q, j, a, e :: PassAt(body(q, j, a, e), j) && (Took(body(q, j, a, e)) ==> StepTypes(body(q, j, a, e).step, q))
    ensures TypesQueries(Loop(body, queries, i, attempts, existed), queries)
    decreases |attempts|
  {
    if i < |queries| && attempts != [] {
      var p := body(queries[i], i, attempts[0], existed);
      LoopAfterPass(body, queries, i, attempts, existed);
      assert PassAt(p, i) && (Took(p) ==> StepTypes(p.step, queries[i]));
      if p.Restarted? {
        LoopTypesQueries(body, queries, i, attempts[1..], existed);
        TypesCons(p.step, Loop(body, queries, i, attempts[1..], existed), queries);
      } else if p.Completed? {
        LoopTypesQueries(body, queries, i + 1, attempts[1..], true);
        TypesCons(p.step, Loop(body, queries, i + 1, attempts[1..], true), queries);
      }
    }
  }

  lemma {:induction false} LoopHeaderOnce(body: Body, queries: seq<string>, i: nat, attempts: seq<Attempt>, existed: bool)
    requires forall q, j, a, e :: Took(body(q, j, a, e)) ==> StepWrites(body(q, j, a, e).step, e, q, a)
    requires forall q, j, a, e :: PassAt(body(q, j, a, e), j)
    ensures HeaderOnce(Loop(body, queries, i, attempts, existed), queries, attempts, existed)
    decreases |attempts|
  {
    if i < |queries| && attempts != [] {
      var p := body(queries[i], i, attempts[0], existed);
      LoopAfterPass(body, queries, i, attempts, existed);
      assert PassAt(p, i) && (Took(p) ==> StepWrites(p.step, existed, queries[i], attempts[0]));
      if p.Restarted? {
        LoopHeaderOnce(body, queries, i, attempts[1..], existed);
        HeaderCons(p.step, Loop(body, queries, i, attempts[1..], existed), queries, attempts, existed);
      } else if p.Completed? {
        LoopHeaderOnce(body, queries, i + 1, attempts[1..], true);
        HeaderCons(p.step, Loop(body, queries, i + 1, attempts[1..], true), queries, attempts, existed);
      }
    }
  }

  // ---------------------------------------------------------------------------
  // The scraper's own loop body
  // ---------------------------------------------------------------------------

  /** One pass of the scraper keeps the promise of one pass. */
  lemma PassKeepsPromises(cfg: Config, query: string, i: nat, a: Attempt, existed: bool)
    ensures var p := PassSpec(cfg, query, i, a, existed);
      PassAt(p, i) && FromAttempt(p, cfg, a) &&
      (Took(p) ==> StepTypes(p.step, query) && StepWrites(p.step, existed, query, a))
  {
    var p := PassSpec(cfg, query, i, a, existed);
    if Took(p) {
      var typed := TypedKeys(query, a.coins);
      assert p.step.keys == typed + [Enter];
      ReplayTyped([], query, a.coins);
      assert [] + typed == typed && Replay([]) + query == query;
      ReplayAppendOne(typed, Enter);
      NoEnterTyped(query, a.coins);
      assert p.step.keys[..|p.step.keys| - 1] == typed;
      if p.Completed? && !existed {
        var hits := PageHits(a.page);
        SavedRowsShape(existed, a.date, a.time, query, Titles(hits), Urls(hits));
      }
    }
  }

  /** The scraper's loop body keeps the promise of one pass, for every query, index, attempt and file state. */
  lemma BodyKeepsPromises(cfg: Config, body: Body)
    requires Realizes(cfg, body)
    ensures forall q, j, a, e :: PassAt(body(q, j, a, e), j)
    ensures forall q, j, a, e :: FromAttempt(body(q, j, a, e), cfg, a)
    ensures forall q, j, a, e :: Took(body(q, j, a, e)) ==> StepTypes(body(q, j, a, e).step, q)
    ensures forall q, j, a, e :: Took(body(q, j, a, e)) ==> StepWrites(body(q, j, a, e).step, e, q, a)
  {
    forall q, j, a, e
      ensures PassAt(body(q, j, a, e), j) && FromAttempt(body(q, j, a, e), cfg, a)
      ensures Took(body(q, j, a, e)) ==> StepTypes(body(q, j, a, e).step, q) && StepWrites(body(q, j, a, e).step, e, q, a)
    {
      PassKeepsPromises(cfg, q, j, a, e);
      assert body(q, j, a, e) == PassSpec(cfg, q, j, a, e);
    }
  }

  /**
   * Every run of main on the scraper's loop body: it progresses through the
   * queries in order, follows the attempts one by one, types each query and
   * writes the header at most once, on the first save into a new file.
   */
  lemma RunKeepsPromises(cfg: Config, body: Body, queries: seq<string>, i: nat, attempts: seq<Attempt>, existed: bool)
    requires Realizes(cfg, body)
    ensures Progress(Loop(body, queries, i, attempts, existed), queries, i)
    ensures FollowsAttempts(Loop(body, queries, i, attempts, existed), cfg, attempts)
    ensures TypesQueries(Loop(body, queries, i, attempts, existed), queries)
    ensures HeaderOnce(Loop(body, queries, i, attempts, existed), queries, attempts, existed)
  {
    BodyKeepsPromises(cfg, body);
    LoopProgress(body, queries, i, attempts, existed);
    LoopFollowsAttempts(cfg, body, queries, i, attempts, existed);
    LoopTypesQueries(body, queries, i, attempts, existed);
    LoopHeaderOnce(body, queries, i, attempts, existed);
  }
}
