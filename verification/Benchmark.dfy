/** The benchmark's `main`: two calibration calls a model, then load phases of growing concurrency for the models that
    passed. What the Gateway answers is a parameter; a load phase may return whatever some run of it can end with. */
module Benchmark {
  import opened Sequences
  import opened StreamRows
  import opened StreamMetrics
  import LoadPhase

  const CONCURRENCIES: seq<nat> := [1, 4, 8, 16]
  const LIMITS: seq<nat> := [16, 24, 32, 48]
  const PER_MODEL_REQUEST_MAXIMUM: nat := 122

  /** `call(m, j)` is the j-th calibration call of the m-th catalog entry, `phase(m, k)` the rows of its k-th load phase. */
  datatype Answers = Answers(call: (nat, nat) -> Row, phase: (nat, nat) -> seq<Row>)

  datatype Request = Request(model: nat, row: Row)

  function Level(k: nat, seconds: real): LoadPhase.Config
    requires k < 4
  {
    LoadPhase.Config(CONCURRENCIES[k], LIMITS[k], seconds)
  }

  /** Some interleaving of the phase joins with these rows. */
  ghost predicate Possible(c: LoadPhase.Config, rows: seq<Row>) {
    exists states, steps :: EndsWith(c, states, steps, rows)
  }

  ghost predicate EndsWith(c: LoadPhase.Config, states: seq<LoadPhase.State>, steps: seq<LoadPhase.Step>, rows: seq<Row>) {
    LoadPhase.Run(c, states, steps) && states[|steps|].main.Finished? && states[|steps|].rows == rows
  }

  ghost predicate Real(answers: Answers, seconds: real) {
    forall m: nat, k: nat :: k < 4 ==> Possible(Level(k, seconds), answers.phase(m, k))
  }

  /** A phase whose calls return sound rows reports nested counts. */
  lemma PhaseMetrics(c: LoadPhase.Config, states: seq<LoadPhase.State>, steps: seq<LoadPhase.Step>, rows: seq<Row>)
    requires EndsWith(c, states, steps, rows)
    requires forall i :: 0 <= i < |steps| && steps[i].Return? ==> RowSound(steps[i].row)
    ensures Nested(rows)
  {
    assert steps[..|steps|] == steps;
    forall r | r in rows ensures RowSound(r) {
      assert r in multiset(rows);
      LoadPhase.JoinedRows(c, states, steps, |steps|, r);
      LoadPhase.ReturnedFrom(steps, r);
    }
    MetricsNested(rows);
  }

  /** Some interleaving of every phase joins. */
  lemma PhaseEnds(c: LoadPhase.Config, reply: Row) returns (rows: seq<Row>)
    ensures Possible(c, rows)
  {
    var start := LoadPhase.State(LoadPhase.Submitting, [], 0, None, 0.0, 0, false, []);
    assert LoadPhase.Run(c, [start], []);
    var states, steps := LoadPhase.Completes(c, [start], [], reply);
    rows := states[|steps|].rows;
    assert EndsWith(c, states, steps, rows);
  }

  ghost function SomeEnd(c: LoadPhase.Config, reply: Row): (rows: seq<Row>)
    ensures Possible(c, rows)
  {
    assert exists rows :: Possible(c, rows) by {
      var rows := PhaseEnds(c, reply);
    }
    var rows :| Possible(c, rows);
    rows
  }

  /** What the bounds assume of the answers can be met. */
  lemma RealIsConsistent(seconds: real, reply: Row) returns (answers: Answers)
    ensures Real(answers, seconds)
  {
    answers := Answers((m: nat, j: nat) => reply, (m: nat, k: nat) => if k < 4 then SomeEnd(Level(k, seconds), reply) else []);
  }

  // ---- What is issued, model by model ----

  function Calibration(answers: Answers, m: nat): seq<Row> {
    [answers.call(m, 0)] + if answers.call(m, 0).qualityPass then [answers.call(m, 1)] else []
  }

  predicate Eligible(answers: Answers, m: nat) {
    answers.call(m, 0).qualityPass && answers.call(m, 1).qualityPass
  }

  predicate AllPass(rows: seq<Row>) {
    forall r :: r in rows ==> r.qualityPass
  }

  /** The rows of the load phases from level `k` on: a phase with a failed check is the last. */
  function Phases(answers: Answers, m: nat, k: nat): seq<Row>
    requires k <= 4
    decreases 4 - k
  {
    if k == 4 then []
    else answers.phase(m, k) + if AllPass(answers.phase(m, k)) then Phases(answers, m, k + 1) else []
  }

  function Tag(m: nat, rows: seq<Row>): seq<Request> {
    MapRows(rows, (r: Row) => Request(m, r))
  }

  function Calibrations(answers: Answers, n: nat): seq<Request> {
    if n == 0 then [] else Calibrations(answers, n - 1) + Tag(n - 1, Calibration(answers, n - 1))
  }

  function EligibleModels(answers: Answers, n: nat): seq<nat> {
    if n == 0 then [] else EligibleModels(answers, n - 1) + if Eligible(answers, n - 1) then [n - 1] else []
  }

  /** The load rows of the listed models, in order. */
  function LoadTests(load: nat -> seq<Row>, models: seq<nat>): seq<Request> {
    if models == [] then []
    else
      var m := models[|models| - 1];
      LoadTests(load, models[..|models| - 1]) + Tag(m, load(m))
  }

  function Load(answers: Answers): nat -> seq<Row> {
    (m: nat) => Phases(answers, m, 0)
  }

  function Requests(answers: Answers, n: nat): seq<Request> {
    Calibrations(answers, n) + LoadTests(Load(answers), EligibleModels(answers, n))
  }

  // ---- The loops ----

  method Calibrate(answers: Answers, m: nat) returns (rows: seq<Row>, passed: bool)
    ensures rows == Calibration(answers, m) && passed == Eligible(answers, m)
  {
    rows := [];
    for j := 0 to 2
      invariant |rows| == j && AllPass(rows)
      invariant forall i :: 0 <= i < j ==> rows[i] == answers.call(m, i)
    {
      var row := answers.call(m, j);
      rows := rows + [row];
      if !row.qualityPass {
        break;
      }
    }
    assert rows[0] in rows && rows[|rows| - 1] in rows;
    passed := |rows| == 2 && AllPass(rows);
  }

  lemma PhaseStep(answers: Answers, m: nat, k: nat, rows: seq<Row>)
    requires k < 4
    ensures rows + Phases(answers, m, k)
         == rows + answers.phase(m, k) + if AllPass(answers.phase(m, k)) then Phases(answers, m, k + 1) else []
  {
    Associate(rows, answers.phase(m, k), if AllPass(answers.phase(m, k)) then Phases(answers, m, k + 1) else []);
  }

  /** Whether a phase reports a quality failure. */
  method Passed(rows: seq<Row>) returns (passed: bool)
    ensures passed == AllPass(rows)
  {
    var report := MetricsOf(rows);
    PassesAll(rows);
    passed := report.qualityFailure == 0;
  }

  /** The phases of one eligible model, until one of them reports a quality failure. */
  method RunPhases(answers: Answers, m: nat) returns (rows: seq<Row>)
    ensures rows == Phases(answers, m, 0)
  {
    rows := [];
    for k := 0 to 4
      invariant rows + Phases(answers, m, k) == Phases(answers, m, 0)
    {
      PhaseStep(answers, m, k, rows);
      rows := rows + answers.phase(m, k);
      var passed := Passed(answers.phase(m, k));
      if !passed {
        return;
      }
    }
  }

  method RunBenchmark(answers: Answers, models: seq<string>) returns (requests: seq<Request>)
    ensures requests == Requests(answers, |models|)
  {
    var eligible: seq<nat>;
    requests, eligible := CalibrateAll(answers, |models|);
    for i := 0 to |eligible|
      invariant requests == Calibrations(answers, |models|) + LoadTests(Load(answers), eligible[..i])
    {
      var rows := RunPhases(answers, eligible[i]);
      LoadedStep(answers, eligible, i);
      requests := requests + Tag(eligible[i], rows);
    }
    assert eligible[..|eligible|] == eligible;
  }

  lemma LoadTestsMore(load: nat -> seq<Row>, models: seq<nat>, x: nat)
    ensures LoadTests(load, models + [x]) == LoadTests(load, models) + Tag(x, load(x))
  {
    assert (models + [x])[..|models|] == models;
  }

  lemma LoadedStep(answers: Answers, models: seq<nat>, i: nat)
    requires i < |models|
    ensures LoadTests(Load(answers), models[..i + 1])
         == LoadTests(Load(answers), models[..i]) + Tag(models[i], Phases(answers, models[i], 0))
  {
    assert models[..i + 1] == models[..i] + [models[i]];
    LoadTestsMore(Load(answers), models[..i], models[i]);
  }

  /** The calibration of every catalog entry, and the entries that pass it. */
  method CalibrateAll(answers: Answers, n: nat) returns (requests: seq<Request>, eligible: seq<nat>)
    ensures requests == Calibrations(answers, n) && eligible == EligibleModels(answers, n)
  {
    requests, eligible := [], [];
    for i := 0 to n
      invariant requests == Calibrations(answers, i) && eligible == EligibleModels(answers, i)
    {
      var rows, passed := Calibrate(answers, i);
      requests := requests + Tag(i, rows);
      if passed {
        eligible := eligible + [i];
      }
    }
  }

  // ---- How much is issued ----

  lemma PhaseBound(c: LoadPhase.Config, rows: seq<Row>)
    requires Possible(c, rows)
    ensures |rows| <= c.limit
  {
    var states, steps :| EndsWith(c, states, steps, rows);
    LoadPhase.JoinedReport(c, states, steps, |steps|);
  }

  function LimitsFrom(k: nat): nat
    requires k <= 4
    decreases 4 - k
  {
    if k == 4 then 0 else LIMITS[k] + LimitsFrom(k + 1)
  }

  lemma {:induction false} PhasesBound(answers: Answers, seconds: real, m: nat, k: nat)
    requires Real(answers, seconds) && k <= 4
    ensures |Phases(answers, m, k)| <= LimitsFrom(k)
    decreases 4 - k
  {
    if k < 4 {
      PhaseBound(Level(k, seconds), answers.phase(m, k));
      PhasesBound(answers, seconds, m, k + 1);
    }
  }

  function Of(m: nat): Request -> bool {
    (r: Request) => r.model == m
  }

  /** The rows the catalog entry `m` answered with, in the order of the report. */
  function SentTo(requests: seq<Request>, m: nat): seq<Row> {
    if requests == [] then []
    else
      var last := requests[|requests| - 1];
      SentTo(requests[..|requests| - 1], m) + if last.model == m then [last.row] else []
  }

  lemma {:induction false} SentIsCount(requests: seq<Request>, m: nat)
    ensures Count(requests, Of(m)) == |SentTo(requests, m)|
  {
    if requests != [] {
      SentIsCount(requests[..|requests| - 1], m);
    }
  }

  lemma {:induction false} SentAppend(a: seq<Request>, b: seq<Request>, m: nat)
    ensures SentTo(a + b, m) == SentTo(a, m) + SentTo(b, m)
  {
    if b == [] {
      assert a + b == a;
    } else {
      var n := |b| - 1;
      assert (a + b)[..|a + b| - 1] == a + b[..n];
      SentAppend(a, b[..n], m);
      Associate(SentTo(a, m), SentTo(b[..n], m), if b[n].model == m then [b[n].row] else []);
    }
  }

  lemma {:induction false} SentTag(x: nat, rows: seq<Row>, m: nat)
    ensures SentTo(Tag(x, rows), m) == if x == m then rows else []
  {
    if rows != [] {
      var n := |rows| - 1;
      SentTag(x, rows[..n], m);
      assert Tag(x, rows)[..n] == Tag(x, rows[..n]);
      assert rows == rows[..n] + [rows[n]];
    }
  }

  lemma SentTagged(was: seq<Request>, x: nat, rows: seq<Row>, m: nat)
    ensures SentTo(was + Tag(x, rows), m) == SentTo(was, m) + if x == m then rows else []
  {
    SentAppend(was, Tag(x, rows), m);
    SentTag(x, rows, m);
  }

  /** What `m` answered while the first `n` entries were calibrated. */
  ghost function Calibrated(answers: Answers, n: nat, m: nat): seq<Row> {
    SentTo(Calibrations(answers, n), m)
  }

  lemma CalibratedStep(answers: Answers, n: nat, m: nat)
    ensures Calibrated(answers, n + 1, m) == Calibrated(answers, n, m) + if n == m then Calibration(answers, n) else []
  {
    SentTagged(Calibrations(answers, n), n, Calibration(answers, n), m);
  }

  lemma {:induction false} SentCalibrations(answers: Answers, n: nat, m: nat)
    ensures Calibrated(answers, n, m) == if m < n then Calibration(answers, m) else []
  {
    if n > 0 {
      SentCalibrations(answers, n - 1, m);
      CalibratedStep(answers, n - 1, m);
    }
  }

  /** The load rows of `m`, by the models that were loaded. */
  ghost function Loads(load: nat -> seq<Row>, m: nat, models: seq<nat>): seq<Row> {
    SentTo(LoadTests(load, models), m)
  }

  lemma LoadsStep(load: nat -> seq<Row>, m: nat, was: seq<nat>, now: seq<nat>, x: nat, more: bool)
    requires now == if more then was + [x] else was
    ensures Loads(load, m, now) == Loads(load, m, was) + if more && x == m then load(m) else []
  {
    if more {
      LoadTestsMore(load, was, x);
      SentTagged(LoadTests(load, was), x, load(x), m);
    }
  }

  lemma EligibleStep(answers: Answers, n: nat)
    ensures EligibleModels(answers, n + 1)
         == if Eligible(answers, n) then EligibleModels(answers, n) + [n] else EligibleModels(answers, n)
  {
  }

  lemma {:induction false} SentLoads(answers: Answers, load: nat -> seq<Row>, n: nat, m: nat)
    ensures Loads(load, m, EligibleModels(answers, n)) == if m < n && Eligible(answers, m) then load(m) else []
  {
    if n > 0 {
      SentLoads(answers, load, n - 1, m);
      EligibleStep(answers, n - 1);
      LoadsStep(load, m, EligibleModels(answers, n - 1), EligibleModels(answers, n), n - 1, Eligible(answers, n - 1));
    }
  }

  /** What the report declares: no catalog entry receives more than 122 requests, and none without passing calibration
      more than two. */
  lemma RequestMaximum(answers: Answers, seconds: real, n: nat, m: nat)
    requires Real(answers, seconds) && m < n
    ensures 1 <= Count(Requests(answers, n), Of(m)) <= PER_MODEL_REQUEST_MAXIMUM
    ensures !answers.call(m, 0).qualityPass || !answers.call(m, 1).qualityPass ==> Count(Requests(answers, n), Of(m)) <= 2
  {
    SentIsCount(Requests(answers, n), m);
    SentCalibrations(answers, n, m);
    SentLoads(answers, Load(answers), n, m);
    SentAppend(Calibrations(answers, n), LoadTests(Load(answers), EligibleModels(answers, n)), m);
    PhasesBound(answers, seconds, m, 0);
    assert LimitsFrom(0) == 16 + LimitsFrom(1) && LimitsFrom(1) == 24 + LimitsFrom(2);
    assert LimitsFrom(2) == 32 + LimitsFrom(3) && LimitsFrom(3) == 48 + LimitsFrom(4);
  }

  // ---- The bound by model id ----

  /** A request to one of the first `k` catalog entries named `id`. */
  function Named(models: seq<string>, id: string, k: nat): Request -> bool {
    (r: Request) => r.model < k && r.model < |models| && models[r.model] == id
  }

  function Listed(models: seq<string>, id: string): nat {
    Count(models, x => x == id)
  }

  lemma NamedStep(requests: seq<Request>, models: seq<string>, id: string, k: nat)
    requires k < |models|
    ensures Count(requests, Named(models, id, k + 1))
         == Count(requests, Named(models, id, k)) + if models[k] == id then Count(requests, Of(k)) else 0
  {
    if models[k] == id {
      CountSplit(requests, Named(models, id, k + 1), Named(models, id, k), Of(k));
    } else {
      FilterSame(requests, Named(models, id, k + 1), Named(models, id, k));
    }
  }

  lemma ListedStep(models: seq<string>, id: string, k: nat)
    requires k < |models|
    ensures Listed(models[..k + 1], id) == Listed(models[..k], id) + if models[k] == id then 1 else 0
  {
    FilterPrefix(models, x => x == id, k);
  }

  lemma {:induction false} NamedBound(answers: Answers, seconds: real, models: seq<string>, id: string, k: nat)
    requires Real(answers, seconds) && k <= |models|
    ensures Count(Requests(answers, |models|), Named(models, id, k)) <= PER_MODEL_REQUEST_MAXIMUM * Listed(models[..k], id)
  {
    var requests := Requests(answers, |models|);
    if k == 0 {
      CountZero(requests, Named(models, id, 0));
    } else {
      NamedBound(answers, seconds, models, id, k - 1);
      NamedStep(requests, models, id, k - 1);
      ListedStep(models, id, k - 1);
      RequestMaximum(answers, seconds, |models|, k - 1);
    }
  }

  lemma ListedOnce(models: seq<string>, id: string)
    requires UniqueBy(models, x => x)
    ensures Listed(models, id) <= 1
  {
    if id in models {
      CountOne(models, x => x, x => x == id, id);
    } else {
      CountZero(models, x => x == id);
    }
  }

  /** A model id receives at most 122 requests for every time the catalog lists it: exactly the declared maximum when the
      catalog has no repeats. */
  lemma ModelMaximum(answers: Answers, seconds: real, models: seq<string>, id: string)
    requires Real(answers, seconds)
    ensures Count(Requests(answers, |models|), Named(models, id, |models|)) <= PER_MODEL_REQUEST_MAXIMUM * Listed(models, id)
    ensures UniqueBy(models, x => x) ==>
              Count(Requests(answers, |models|), Named(models, id, |models|)) <= PER_MODEL_REQUEST_MAXIMUM
  {
    NamedBound(answers, seconds, models, id, |models|);
    assert models[..|models|] == models;
    if UniqueBy(models, x => x) {
      ListedOnce(models, id);
    }
  }

  // ---- The order of the report ----

  /** Requests to the first `n` catalog entries, entry by entry. */
  ghost predicate InCatalogOrder(requests: seq<Request>, n: nat) {
    && (forall i :: 0 <= i < |requests| ==> requests[i].model < n)
    && (forall i, j :: 0 <= i <= j < |requests| ==> requests[i].model <= requests[j].model)
  }

  lemma TagInOrder(was: seq<Request>, x: nat, rows: seq<Row>)
    requires InCatalogOrder(was, x)
    ensures InCatalogOrder(was + Tag(x, rows), x + 1)
  {
  }

  lemma {:induction false} CalibrationsInOrder(answers: Answers, n: nat)
    ensures InCatalogOrder(Calibrations(answers, n), n)
  {
    if n > 0 {
      CalibrationsInOrder(answers, n - 1);
      TagInOrder(Calibrations(answers, n - 1), n - 1, Calibration(answers, n - 1));
    }
  }

  lemma LoadsInOrderStep(load: nat -> seq<Row>, was: seq<nat>, now: seq<nat>, x: nat, more: bool)
    requires now == if more then was + [x] else was
    requires InCatalogOrder(LoadTests(load, was), x)
    ensures InCatalogOrder(LoadTests(load, now), x + 1)
  {
    if more {
      LoadTestsMore(load, was, x);
      TagInOrder(LoadTests(load, was), x, load(x));
    }
  }

  ghost predicate LoadsOrdered(load: nat -> seq<Row>, models: seq<nat>, n: nat) {
    InCatalogOrder(LoadTests(load, models), n)
  }

  lemma {:induction false} LoadsInOrder(answers: Answers, load: nat -> seq<Row>, n: nat)
    ensures LoadsOrdered(load, EligibleModels(answers, n), n)
  {
    if n > 0 {
      LoadsInOrder(answers, load, n - 1);
      EligibleStep(answers, n - 1);
      LoadsInOrderStep(load, EligibleModels(answers, n - 1), EligibleModels(answers, n), n - 1, Eligible(answers, n - 1));
    }
  }

  /** The rows of the first `n` levels. */
  function FirstPhases(answers: Answers, m: nat, k: nat, n: nat): seq<Row>
    requires k <= n <= 4
    decreases n - k
  {
    if k == n then [] else answers.phase(m, k) + FirstPhases(answers, m, k + 1, n)
  }

  /** A model's load stops with the first phase that has a failed check: every earlier phase passed entirely. */
  lemma {:induction false} LoadStopsAtFailure(answers: Answers, m: nat, k: nat) returns (last: nat)
    requires k <= 4
    ensures k <= last <= 4 && Phases(answers, m, k) == FirstPhases(answers, m, k, last)
    ensures forall i :: k <= i < last - 1 ==> AllPass(answers.phase(m, i))
    ensures last < 4 ==> last > k && !AllPass(answers.phase(m, last - 1))
    decreases 4 - k
  {
    if k == 4 {
      last := 4;
    } else if AllPass(answers.phase(m, k)) {
      last := LoadStopsAtFailure(answers, m, k + 1);
    } else {
      last := k + 1;
      assert FirstPhases(answers, m, k + 1, last) == [];
    }
  }

  /** `rows` are the phases of `m` in order, up to and with the first that has a row without `qualityPass`. */
  ghost predicate StopsAtFailure(answers: Answers, m: nat, rows: seq<Row>) {
    exists last :: 1 <= last <= 4 && LastPhase(answers, m, rows, last)
  }

  ghost predicate LastPhase(answers: Answers, m: nat, rows: seq<Row>, last: nat)
    requires 1 <= last <= 4
  {
    && rows == FirstPhases(answers, m, 0, last)
    && (forall i, r :: 0 <= i < last - 1 && r in answers.phase(m, i) ==> r.qualityPass)
    && (last < 4 ==> exists r :: r in answers.phase(m, last - 1) && !r.qualityPass)
  }

  /** What one entry received: in `early` one call where the first fails the check and two otherwise, in `late` its load
      when both passed. */
  ghost predicate Received(answers: Answers, m: nat, early: seq<Request>, late: seq<Request>) {
    var first, second := answers.call(m, 0), answers.call(m, 1);
    && SentTo(early, m) == (if first.qualityPass then [first, second] else [first])
    && if first.qualityPass && second.qualityPass then StopsAtFailure(answers, m, SentTo(late, m)) else SentTo(late, m) == []
  }

  lemma EntryReceived(answers: Answers, n: nat, m: nat)
    requires m < n
    ensures Received(answers, m, Calibrations(answers, n), LoadTests(Load(answers), EligibleModels(answers, n)))
  {
    SentCalibrations(answers, n, m);
    SentLoads(answers, Load(answers), n, m);
    LoadStops(answers, m);
  }

  /** The report in full: first every catalog entry's calibration, in catalog order; then, again in catalog order, the
      load of every entry that passed it. */
  lemma ReportTells(answers: Answers, n: nat) returns (cut: nat)
    ensures cut <= |Requests(answers, n)|
    ensures InCatalogOrder(Requests(answers, n)[..cut], n) && InCatalogOrder(Requests(answers, n)[cut..], n)
    ensures forall m :: 0 <= m < n ==> Received(answers, m, Requests(answers, n)[..cut], Requests(answers, n)[cut..])
  {
    var calibrations, loads := Calibrations(answers, n), LoadTests(Load(answers), EligibleModels(answers, n));
    cut := |calibrations|;
    assert Requests(answers, n)[..cut] == calibrations && Requests(answers, n)[cut..] == loads;
    CalibrationsInOrder(answers, n);
    LoadsInOrder(answers, Load(answers), n);
    forall m | 0 <= m < n ensures Received(answers, m, calibrations, loads) {
      EntryReceived(answers, n, m);
    }
  }

  lemma LoadStops(answers: Answers, m: nat)
    ensures StopsAtFailure(answers, m, Phases(answers, m, 0))
  {
    var last := LoadStopsAtFailure(answers, m, 0);
    assert LastPhase(answers, m, Phases(answers, m, 0), last);
  }

  /** The phases of one entry have 1, 4, 8 and 16 workers and hold at most 16, 24, 32 and 48 rows. */
  lemma LevelsTell(answers: Answers, seconds: real, m: nat)
    requires Real(answers, seconds)
    ensures Possible(LoadPhase.Config(1, 16, seconds), answers.phase(m, 0)) && |answers.phase(m, 0)| <= 16
    ensures Possible(LoadPhase.Config(4, 24, seconds), answers.phase(m, 1)) && |answers.phase(m, 1)| <= 24
    ensures Possible(LoadPhase.Config(8, 32, seconds), answers.phase(m, 2)) && |answers.phase(m, 2)| <= 32
    ensures Possible(LoadPhase.Config(16, 48, seconds), answers.phase(m, 3)) && |answers.phase(m, 3)| <= 48
  {
    PhaseBound(Level(0, seconds), answers.phase(m, 0));
    PhaseBound(Level(1, seconds), answers.phase(m, 1));
    PhaseBound(Level(2, seconds), answers.phase(m, 2));
    PhaseBound(Level(3, seconds), answers.phase(m, 3));
  }
}
