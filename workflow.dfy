/**
 * The per-query workflow (main in google_scrapping.py): for each query in order,
 * provision a proxy, start a profile, type the query, check for a challenge and
 * either restart the same query or save its results and stop the profile.
 *
 * Everything the outside world decides is one Attempt per pass through the loop
 * body, taken in order from a finite oracle; the run stops with OutOfAttempts when
 * the oracle is exhausted, which is what gives the restart recursion a measure.
 */
module Workflow {
  import opened Wrappers
  import opened Proxy
  import opened Profile
  import opened Typing
  import opened Challenge
  import opened Results
  import opened Csv
  import opened Seqs

  /** PROTOCOL, BROWSER_TYPE and OPERATIONAL_SYSTEM from config.json. */
  datatype Config = Config(protocol: string, browserType: string, osType: string)

  /** What the outside world does during one pass for one query. */
  datatype Attempt = Attempt(
    proxyItem: Option<string>,        // what get_proxy() returned
    proxyAccepted: bool,              // check_proxy's validator answered 200 or 401
    profileId: string,                // the id start_qbp got for the quick profile
    navigated: bool,                  // browser_to_google and find_google_search did not time out
    coins: seq<Option<Letter>>,       // the random draws of human_typing
    challenge: Observations,          // what check_recaptcha's waits observed
    page: Option<seq<Anchor>>,        // the result anchors find_elements sees
    date: string,                     // datetime.now() in save_to_csv, formatted
    time: string)

  /**
   * A pass that reached the challenge check: the query index, the profile it started
   * and the proxy descriptor that profile was given, the keys sent to the search box,
   * the verdict, and (when it did not restart) whether it wrote the CSV header and the
   * rows it appended. Its profile was stopped at its end.
   */
  datatype Step = Step(
    index: nat,
    profileId: string,
    payload: ProxyPayload,
    keys: seq<Key>,
    verdict: Verdict,
    header: bool,
    rows: seq<Row>)

  /**
   * How the run ended: all queries done; the TypeError raised by buid_qbp_payload
   * when no validated proxy is available (before any profile starts); an uncaught
   * timeout while navigating, which leaves `profileId` running; or the oracle ran out.
   */
  datatype Outcome = Finished | ProxyCrash(at: nat) | NavigationCrash(at: nat, profileId: string) | OutOfAttempts(at: nat)

  datatype Run = Run(steps: seq<Step>, outcome: Outcome)

  datatype Pass = ProxyFailed | NavigationFailed(profileId: string) | Restarted(step: Step) | Completed(step: Step)

  /** check_proxy: the payload when it exists and the validator accepts it, otherwise None. */
  function CheckProxy(payload: Option<ProxyPayload>, accepted: bool): Option<ProxyPayload>
  {
    if payload.Some? && accepted then payload else None
  }

  /** The proxy check_proxy hands on for the attempt, if any. */
  function Admitted(cfg: Config, a: Attempt): Option<ProxyPayload>
  {
    CheckProxy(BuildProxyPayload(a.proxyItem, cfg.protocol), a.proxyAccepted)
  }

  /**
   * One pass of the loop body for query number `i`, the file existing or not. The
   * profile receives the checked descriptor itself (BuildQbpPayload only restates its
   * kind as the protocol it was parsed under).
   */
  function PassSpec(cfg: Config, query: string, i: nat, a: Attempt, existed: bool): Pass
  {
    var checked := Admitted(cfg, a);
    if checked.None? then ProxyFailed
    else
      if !a.navigated then NavigationFailed(a.profileId)
      else
        var keys := TypedKeys(query, a.coins) + [Enter];
        var report := CheckRecaptcha(a.challenge);
        if Restart(report) then Restarted(Step(i, a.profileId, checked.value, keys, report.verdict, false, []))
        else
          var hits := PageHits(a.page);
          var rows := SavedRows(existed, a.date, a.time, query, Titles(hits), Urls(hits));
          Completed(Step(i, a.profileId, checked.value, keys, report.verdict, !existed, rows))
  }

  function Prepend(s: Step, r: Run): Run
  {
    Run([s] + r.steps, r.outcome)
  }

  /** What one pass through main's loop body does, given the query, its index, the attempt and whether the CSV file existed. */
  type Body = (string, nat, Attempt, bool) -> Pass

  /** `body` is main's loop body as the scraper runs it under configuration `cfg`: one pass is PassSpec. */
  ghost predicate Realizes(cfg: Config, body: Body)
  {
    forall query, i, a, existed {:trigger PassSpec(cfg, query, i, a, existed)} ::
      body(query, i, a, existed) == PassSpec(cfg, query, i, a, existed)
  }

  /** PassSpec as a loop body. */
  function BodyOf(cfg: Config): (body: Body)
    ensures Realizes(cfg, body)
  {
    (query: string, i: nat, a: Attempt, existed: bool) => PassSpec(cfg, query, i, a, existed)
  }

  /**
   * main(queries, i) with the loop body `body`: queries from `i` on, one attempt per
   * pass; a restart calls main again at the same index, a completed pass moves on.
   */
  function Loop(body: Body, queries: seq<string>, i: nat, attempts: seq<Attempt>, existed: bool): Run
    decreases |attempts|
  {
    if i >= |queries| then Run([], Finished)
    else if attempts == [] then Run([], OutOfAttempts(i))
    else
      match body(queries[i], i, attempts[0], existed)
      case ProxyFailed => Run([], ProxyCrash(i))
      case NavigationFailed(id) => Run([], NavigationCrash(i, id))
      case Restarted(s) => Prepend(s, Loop(body, queries, i, attempts[1..], existed))
      case Completed(s) => Prepend(s, Loop(body, queries, i + 1, attempts[1..], true))
  }

  /** Some step saved its results: its challenge did not call for a restart. */
  predicate SavedAny(steps: seq<Step>)
  {
    exists s :: s in steps && s.verdict != Unresolved
  }

  /** All rows the steps appended to the CSV file, in order. */
  function AllRows(steps: seq<Step>): seq<Row>
  {
    if steps == [] then [] else steps[0].rows + AllRows(steps[1..])
  }

  lemma {:induction false} AllRowsAppend(a: seq<Step>, b: seq<Step>)
    ensures AllRows(a + b) == AllRows(a) + AllRows(b)
  {
    if a != [] {
      assert (a + b)[0] == a[0];
      assert (a + b)[1..] == a[1..] + b;
      AllRowsAppend(a[1..], b);
    } else {
      assert a + b == b;
    }
  }

  /** The run `r` preceded by the steps already taken. */
  function Compose(done: seq<Step>, r: Run): Run
  {
    Run(done + r.steps, r.outcome)
  }

  /**
   * search_box.click(), human_typing(search_box, query), search_box.send_keys(ENTER):
   * the keys the search box receives.
   */
  method TypeQuery(query: string, coins: seq<Option<Letter>>) returns (keys: seq<Key>)
    ensures keys == TypedKeys(query, coins) + [Enter]
  {
    var box := new SearchBox();
    HumanTyping(box, query, coins);
    box.SendKeys(Enter);
    keys := box.keys;
  }

  /**
   * find_elements(driver) then save_to_csv(query, titles, urls): whether the header
   * was written and the rows appended.
   */
  method Collect(file: CsvFile, query: string, a: Attempt) returns (header: bool, rows: seq<Row>)
    requires file.Valid()
    modifies file
    ensures header == !old(file.present)
    ensures rows == SavedRows(old(file.present), a.date, a.time, query, Titles(PageHits(a.page)), Urls(PageHits(a.page)))
    ensures file.Valid() && file.present && file.rows == old(file.rows) + rows
  {
    var titles, urls := FindElements(a.page);
    var before := file.rows;
    header := !file.present;
    SaveToCsv(file, query, titles, urls, a.date, a.time);
    rows := file.rows[|before|..];
  }

  /**
   * One pass through main's loop body for query number `i`: check and build the
   * proxy, start the profile, navigate, type the query and press ENTER, check for a
   * challenge and, unless it must restart, find the results and save them.
   */
  method Visit(cfg: Config, query: string, i: nat, a: Attempt, file: CsvFile, ghost body: Body) returns (pass: Pass)
    requires file.Valid() && Realizes(cfg, body)
    modifies file
    ensures pass == body(query, i, a, old(file.present))
    ensures pass.Restarted? ==> pass.step.rows == [] && pass.step.verdict == Unresolved
    ensures pass.Completed? ==> pass.step.verdict != Unresolved
    ensures file.Valid() && file.present == (old(file.present) || pass.Completed?)
    ensures file.rows == old(file.rows) + (if pass.Completed? then pass.step.rows else [])
  {
    var checked := Admitted(cfg, a);
    ghost var expected := PassSpec(cfg, query, i, a, file.present);  // what `body` yields here
    if checked.None? {
      return ProxyFailed;
    }
    var payload := BuildQbpPayload(checked.value, cfg.browserType, cfg.osType, cfg.protocol);
    if !a.navigated {
      return NavigationFailed(a.profileId);
    }
    var keys := TypeQuery(query, a.coins);
    var report := CheckRecaptcha(a.challenge);
    if Restart(report) {
      return Restarted(Step(i, a.profileId, payload.parameters.proxy, keys, report.verdict, false, []));
    }
    var header, rows := Collect(file, query, a);
    pass := Completed(Step(i, a.profileId, payload.parameters.proxy, keys, report.verdict, header, rows));
  }

  lemma ComposePrepend(done: seq<Step>, s: Step, r: Run)
    ensures Compose(done, Prepend(s, r)) == Compose(done + [s], r)
    ensures Compose(done + [s], r) == Run(done + [s] + r.steps, r.outcome)
  {
    assert done + ([s] + r.steps) == done + [s] + r.steps;
  }

  lemma RowsAfter(base: seq<Row>, done: seq<Step>, s: Step, more: seq<Step>, mid: seq<Row>, end: seq<Row>)
    requires mid == base + AllRows(done)
    requires end == mid + s.rows + AllRows(more)
    ensures end == base + AllRows(done + [s] + more)
  {
    var tail := [s] + more;
    assert tail[0] == s && tail[1..] == more;
    var a, b, c := AllRows(done), s.rows, AllRows(more);
    assert AllRows(tail) == b + c;
    AllRowsAppend(done, tail);
    assert done + tail == done + [s] + more;
    assert AllRows(done + [s] + more) == a + (b + c);
    ConcatAssoc(base, a, b + c);
    ConcatAssoc(base + a, b, c);
  }

  /** How the run continues after the first pass. */
  lemma LoopAfterPass(body: Body, queries: seq<string>, i: nat, rest: seq<Attempt>, existed: bool)
    requires i < |queries| && rest != []
    ensures var pass := body(queries[i], i, rest[0], existed);
      var r := Loop(body, queries, i, rest, existed);
      (pass.ProxyFailed? ==> r == Run([], ProxyCrash(i))) &&
      (pass.NavigationFailed? ==> r == Run([], NavigationCrash(i, pass.profileId))) &&
      (pass.Restarted? ==> r == Prepend(pass.step, Loop(body, queries, i, rest[1..], existed))) &&
      (pass.Completed? ==> r == Prepend(pass.step, Loop(body, queries, i + 1, rest[1..], true)))
  {
  }

  /**
   * main(args_list, start_index): the queries from `start` on, in order; an
   * unresolved challenge stops the profile and calls main again at the same index.
   * The ghost `body` names the loop body PassSpec (see Realizes), so the run is the
   * one Loop describes.
   */
  method RunQueries(cfg: Config, queries: seq<string>, start: nat, attempts: seq<Attempt>, file: CsvFile, ghost body: Body)
    returns (steps: seq<Step>, outcome: Outcome)
    requires file.Valid() && Realizes(cfg, body)
    modifies file
    decreases |attempts|
    ensures Run(steps, outcome) == Loop(body, queries, start, attempts, old(file.present))
    ensures file.Valid() && file.rows == old(file.rows) + AllRows(steps)
    ensures file.present == (old(file.present) || SavedAny(steps))
  {
    steps := [];
    var i := start;
    var rest := attempts;
    ghost var whole := Loop(body, queries, start, attempts, file.present);
    assert [] + whole.steps == whole.steps;
    while i < |queries|
      invariant |rest| <= |attempts|
      invariant file.Valid() && file.rows == old(file.rows) + AllRows(steps)
      invariant file.present == (old(file.present) || SavedAny(steps))
      invariant Compose(steps, Loop(body, queries, i, rest, file.present)) == whole
      decreases |queries| - i
    {
      if rest == [] {
        outcome := OutOfAttempts(i);
        return;
      }
      ghost var existed := file.present;
      var pass := Visit(cfg, queries[i], i, rest[0], file, body);
      LoopAfterPass(body, queries, i, rest, existed);
      match pass
      case ProxyFailed =>
        outcome := ProxyCrash(i);
        return;
      case NavigationFailed(id) =>
        outcome := NavigationCrash(i, id);
        return;
      case Restarted(s) =>
        // The profile is stopped and the same index is run again.
        ghost var rowsBefore := file.rows;
        var more;
        more, outcome := RunQueries(cfg, queries, i, rest[1..], file, body);
        ComposePrepend(steps, s, Run(more, outcome));
        RowsAfter(old(file.rows), steps, s, more, rowsBefore, file.rows);
        assert forall t :: t in steps + [s] + more <==> t in steps || t == s || t in more;
        steps := steps + [s] + more;
        return;
      case Completed(s) =>
        // The profile is stopped and the next index is run.
        ComposePrepend(steps, s, Loop(body, queries, i + 1, rest[1..], true));
        assert AllRows([]) == [] && file.rows == file.rows + [];
        RowsAfter(old(file.rows), steps, s, [], old(file.rows) + AllRows(steps), file.rows);
        assert steps + [s] + [] == steps + [s];
        assert s in steps + [s];
        steps := steps + [s];
        rest := rest[1..];
        i := i + 1;
    }
    outcome := Finished;
  }
}
