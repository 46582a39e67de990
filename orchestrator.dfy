/**
  `get_lfg_df`: the attempt loop that loads a stored result, downloading or
  generating it first when an attempt asks for that, and wraps whatever it
  found in an LFG object. Loading, downloading and the generator are foreign
  calls: the model takes, for each attempt, what `load_preprocessed_output`
  returned at that point, and records the foreign calls it makes as a trace.
*/
module Orchestrator {
  import opened Wrappers
  import opened Frames
  import opened LfgEngine

  datatype Attempt = ImportLocal | Download | Generate

  /** The foreign calls of the loop, in the order it makes them. */
  datatype Call = DownloadFromRemote | RunGenerator | LoadPreprocessedOutput

  /** The package's attempt list: a download is never tried, whatever `download_ok` says. */
  const PackageAttempts: seq<Attempt> := [ImportLocal, Generate]

  /** The WARM script's attempt list. */
  function WarmAttempts(downloadOk: bool): (r: seq<Attempt>)
    ensures downloadOk ==> r == [ImportLocal, Download, Generate]
    ensures !downloadOk ==> r == [ImportLocal, Generate]
    ensures r[0] == ImportLocal && r[|r| - 1] == Generate
  {
    if downloadOk then [ImportLocal, Download, Generate] else [ImportLocal, Generate]
  }

  /** The download or the generation an attempt makes before it loads. */
  function PrepCalls(a: Attempt): seq<Call> {
    match a
    case ImportLocal => []
    case Download => [DownloadFromRemote]
    case Generate => [RunGenerator]
  }

  /** The calls one attempt makes: its download or generation, then the load. */
  function CallsOf(a: Attempt): seq<Call> {
    PrepCalls(a) + [LoadPreprocessedOutput]
  }

  /**
    What the foreign calls of one attempt do: `prepared` is how the download
    or the generator ended (unused by "import local"), `loaded` what
    `load_preprocessed_output` returned or raised.
  */
  datatype Outcome<T> = Outcome(prepared: Result<()>, loaded: Result<Option<T>>)

  /** An attempt either raises (the loop does not catch) or yields the loaded frame, None when missing. */
  function AttemptResult<T>(a: Attempt, o: Outcome<T>): (r: Result<Option<T>>)
    ensures a == ImportLocal ==> r == o.loaded
    ensures a != ImportLocal ==> r == (if o.prepared.Err? then Err(o.prepared.error) else o.loaded)
  {
    if a != ImportLocal && o.prepared.Err? then Err(o.prepared.error) else o.loaded
  }

  /** The calls an attempt makes: a download or generation that raises is its last. */
  function CallsMade<T>(a: Attempt, o: Outcome<T>): (r: seq<Call>)
    ensures a != ImportLocal && o.prepared.Err? ==> r == PrepCalls(a)
    ensures a == ImportLocal || o.prepared.Ok? ==> r == CallsOf(a)
  {
    if a != ImportLocal && o.prepared.Err? then PrepCalls(a) else CallsOf(a)
  }

  /** The result of every attempt, had the loop made it. */
  function Results<T>(attempts: seq<Attempt>, outcomes: seq<Outcome<T>>): (r: seq<Result<Option<T>>>)
    requires |outcomes| == |attempts|
    ensures |r| == |attempts|
    ensures forall i :: 0 <= i < |r| ==> r[i] == AttemptResult(attempts[i], outcomes[i])
  {
    seq(|attempts|, i requires 0 <= i < |attempts| => AttemptResult(attempts[i], outcomes[i]))
  }

  /**
    The number of attempts the loop makes: up to and including the first one
    that loads a frame or raises.
  */
  function AttemptsMade<T>(results: seq<Result<Option<T>>>): (n: nat)
    ensures n <= |results|
    ensures forall i :: 0 <= i < n - 1 ==> results[i] == Ok(None)
    ensures n < |results| ==> n > 0 && results[n - 1] != Ok(None)
    decreases |results|
  {
    if results == [] then 0
    else if results[0] != Ok(None) then 1
    else 1 + AttemptsMade(results[1..])
  }

  /** The calls of the first n attempts. */
  function Trace<T>(attempts: seq<Attempt>, outcomes: seq<Outcome<T>>, n: nat): seq<Call>
    requires n <= |attempts| == |outcomes|
  {
    if n == 0 then [] else Trace(attempts, outcomes, n - 1) + CallsMade(attempts[n - 1], outcomes[n - 1])
  }

  /**
    How the loop ends: the exception of the first attempt that raises, the
    first frame loaded, or the last load's None when every attempt misses.
  */
  function Found<T>(results: seq<Result<Option<T>>>): (r: Result<Option<T>>)
    ensures r == Ok(None) <==> forall i :: 0 <= i < |results| ==> results[i] == Ok(None)
  {
    if results == [] then Ok(None)
    else if results[0] != Ok(None) then results[0]
    else
      var r := Found(results[1..]);
      assert forall i :: 1 <= i < |results| ==> results[i] == results[1..][i - 1];
      r
  }

  /**
    The attempt loop: `outcomes[i]` is what the foreign calls of attempt i
    do; a found frame breaks the loop, an exception leaves it, and when
    every attempt misses only an error is logged.
  */
  method RunAttempts<T>(attempts: seq<Attempt>, outcomes: seq<Outcome<T>>) returns (df: Result<Option<T>>, trace: seq<Call>)
    requires |outcomes| == |attempts| > 0
    ensures df == Found(Results(attempts, outcomes))
    ensures trace == Trace(attempts, outcomes, AttemptsMade(Results(attempts, outcomes)))
  {
    var i := 0;
    trace := [];
    df := Ok(None);
    while i < |attempts|
      invariant 0 <= i <= |attempts|
      invariant forall j :: 0 <= j < i ==> AttemptResult(attempts[j], outcomes[j]) == Ok(None)
      invariant df == Ok(None)
      invariant trace == Trace(attempts, outcomes, i)
    {
      var attempt := attempts[i];
      var calls: seq<Call> := [];
      var prepared: Result<()> := Ok(());
      if attempt == Download {
        calls := calls + [DownloadFromRemote];
        prepared := outcomes[i].prepared;
      }
      if attempt == Generate {
        calls := calls + [RunGenerator];
        prepared := outcomes[i].prepared;
      }
      AttemptStep(attempt, outcomes[i], calls, prepared);
      if prepared.Err? {
        df := Err(prepared.error);
        StopsHere(attempts, outcomes, i);
        TraceStep(attempts, outcomes, i, trace, calls);
        trace := trace + calls;
        return;
      }
      calls := calls + [LoadPreprocessedOutput];
      TraceStep(attempts, outcomes, i, trace, calls);
      trace := trace + calls;
      df := outcomes[i].loaded;
      if df != Ok(None) {
        StopsHere(attempts, outcomes, i);
        return;
      }
      MissStep(attempts, outcomes, i);
      assert trace == Trace(attempts, outcomes, i + 1);
      i := i + 1;
    }
    AllMiss(attempts, outcomes);
  }

  /** One pass of the loop body: its calls and its result are those of the attempt. */
  lemma AttemptStep<T>(a: Attempt, o: Outcome<T>, calls: seq<Call>, prepared: Result<()>)
    requires calls == (if a == Download then [DownloadFromRemote] else []) + (if a == Generate then [RunGenerator] else [])
    requires prepared == (if a == ImportLocal then Ok(()) else o.prepared)
    ensures prepared.Err? ==> CallsMade(a, o) == calls && AttemptResult(a, o) == Err(prepared.error)
    ensures prepared.Ok? ==> CallsMade(a, o) == calls + [LoadPreprocessedOutput] && AttemptResult(a, o) == o.loaded
  {
  }

  /** Attempt i misses after attempts 0..i-1 did. */
  lemma MissStep<T>(attempts: seq<Attempt>, outcomes: seq<Outcome<T>>, i: nat)
    requires i < |attempts| == |outcomes|
    requires forall j :: 0 <= j < i ==> AttemptResult(attempts[j], outcomes[j]) == Ok(None)
    requires AttemptResult(attempts[i], outcomes[i]) == Ok(None)
    ensures forall j :: 0 <= j < i + 1 ==> AttemptResult(attempts[j], outcomes[j]) == Ok(None)
  {
  }

  /** The calls of attempt i extend the trace of the attempts before it. */
  lemma TraceStep<T>(attempts: seq<Attempt>, outcomes: seq<Outcome<T>>, i: nat, trace: seq<Call>, calls: seq<Call>)
    requires i < |attempts| == |outcomes|
    requires trace == Trace(attempts, outcomes, i) && calls == CallsMade(attempts[i], outcomes[i])
    ensures trace + calls == Trace(attempts, outcomes, i + 1)
  {
  }

  /**
    When attempts 0..i-1 miss and attempt i raises or loads a frame, the loop
    ends there: with that exception or frame, after exactly i + 1 attempts.
  */
  lemma {:induction false} StopsHere<T>(attempts: seq<Attempt>, outcomes: seq<Outcome<T>>, i: nat)
    requires |outcomes| == |attempts| && i < |attempts|
    requires AttemptResult(attempts[i], outcomes[i]) != Ok(None)
    requires forall j :: 0 <= j < i ==> AttemptResult(attempts[j], outcomes[j]) == Ok(None)
    ensures Found(Results(attempts, outcomes)) == AttemptResult(attempts[i], outcomes[i])
    ensures AttemptsMade(Results(attempts, outcomes)) == i + 1
    ensures Trace(attempts, outcomes, AttemptsMade(Results(attempts, outcomes))) == Trace(attempts, outcomes, i + 1)
  {
    FoundIsFirst(Results(attempts, outcomes), i);
    AttemptsMadeIsFirst(Results(attempts, outcomes), i);
  }

  /** The loop runs out with the result and trace that `Found` and `Trace` give. */
  lemma {:induction false} AllMiss<T>(attempts: seq<Attempt>, outcomes: seq<Outcome<T>>)
    requires |outcomes| == |attempts|
    requires forall j :: 0 <= j < |attempts| ==> AttemptResult(attempts[j], outcomes[j]) == Ok(None)
    ensures Found(Results(attempts, outcomes)) == Ok(None)
    ensures AttemptsMade(Results(attempts, outcomes)) == |attempts|
    ensures Trace(attempts, outcomes, AttemptsMade(Results(attempts, outcomes))) == Trace(attempts, outcomes, |attempts|)
  {
    AttemptsMadeAllMiss(Results(attempts, outcomes));
  }

  /** When attempts 0..i-1 miss and attempt i does not, its result is the loop's. */
  lemma {:induction false} FoundIsFirst<T>(results: seq<Result<Option<T>>>, i: nat)
    requires i < |results| && results[i] != Ok(None)
    requires forall j :: 0 <= j < i ==> results[j] == Ok(None)
    ensures Found(results) == results[i]
  {
    if i > 0 {
      FoundIsFirst(results[1..], i - 1);
    }
  }

  /** When attempts 0..i-1 miss and attempt i does not, the loop makes exactly i + 1 attempts. */
  lemma {:induction false} AttemptsMadeIsFirst<T>(results: seq<Result<Option<T>>>, i: nat)
    requires i < |results| && results[i] != Ok(None)
    requires forall j :: 0 <= j < i ==> results[j] == Ok(None)
    ensures AttemptsMade(results) == i + 1
  {
    if i > 0 {
      AttemptsMadeIsFirst(results[1..], i - 1);
    }
  }

  /** When every attempt misses the loop makes them all, and nothing is raised. */
  lemma {:induction false} AttemptsMadeAllMiss<T>(results: seq<Result<Option<T>>>)
    requires forall j :: 0 <= j < |results| ==> results[j] == Ok(None)
    ensures AttemptsMade(results) == |results|
  {
    if results != [] {
      AttemptsMadeAllMiss(results[1..]);
    }
  }

  /**
    `get_lfg_df`: the attempt loop, then `cls(df, full_name=full_name or '',
    config=config or {})`. A missing (None) config becomes the empty one; an
    exception of the loop leaves `get_lfg_df` with no object made.
  */
  method GetLfgDf(attempts: seq<Attempt>, outcomes: seq<Outcome<Frame>>, fullName: Option<string>, config: Option<Config>)
    returns (r: Result<LFG>, trace: seq<Call>)
    requires |outcomes| == |attempts| > 0
    ensures r.Ok? <==> Found(Results(attempts, outcomes)).Ok?
    ensures r.Err? ==> r.error == Found(Results(attempts, outcomes)).error
    ensures r.Ok? ==> fresh(r.value)
    ensures r.Ok? ==> r.value.data == Found(Results(attempts, outcomes)).value
    ensures r.Ok? ==> r.value.fullName == (if fullName.Some? then fullName.value else "")
    ensures r.Ok? ==> r.value.config == (if config.Some? then config.value else EmptyConfig)
    ensures trace == Trace(attempts, outcomes, AttemptsMade(Results(attempts, outcomes)))
  {
    var df;
    df, trace := RunAttempts(attempts, outcomes);
    if df.Err? {
      return Err(df.error), trace;
    }
    var lfg := new LFG(df.value, true, None, None, if fullName.Some? then fullName.value else "",
                       if config.Some? then config.value else EmptyConfig);
    r := Ok(lfg);
  }

  /** The package loop runs the generator exactly when the local import loads nothing and raises nothing. */
  lemma PackageGeneratesOnlyAfterLocalMiss(outcomes: seq<Outcome<Frame>>)
    requires |outcomes| == |PackageAttempts|
    ensures RunGenerator in Trace(PackageAttempts, outcomes, AttemptsMade(Results(PackageAttempts, outcomes)))
            <==> outcomes[0].loaded == Ok(None)
  {
    var results := Results(PackageAttempts, outcomes);
    var n := AttemptsMade(results);
    assert Trace(PackageAttempts, outcomes, 1) == [LoadPreprocessedOutput];
    if outcomes[0].loaded == Ok(None) {
      assert n == 2;
      assert RunGenerator in CallsMade(Generate, outcomes[1]);
    } else {
      assert n == 1;
    }
  }

  /**
    In the WARM variant the generator runs only when the local import and,
    if tried, the download both missed without raising.
  */
  lemma WarmGeneratesOnlyAfterMisses(downloadOk: bool, outcomes: seq<Outcome<Frame>>)
    requires |outcomes| == |WarmAttempts(downloadOk)|
    ensures var results := Results(WarmAttempts(downloadOk), outcomes);
      RunGenerator in Trace(WarmAttempts(downloadOk), outcomes, AttemptsMade(results))
      <==> forall i :: 0 <= i < |results| - 1 ==> results[i] == Ok(None)
    ensures var results := Results(WarmAttempts(downloadOk), outcomes);
      DownloadFromRemote in Trace(WarmAttempts(downloadOk), outcomes, AttemptsMade(results))
      <==> downloadOk && results[0] == Ok(None)
  {
    var attempts := WarmAttempts(downloadOk);
    var results := Results(attempts, outcomes);
    var n := AttemptsMade(results);
    assert Trace(attempts, outcomes, 1) == [LoadPreprocessedOutput];
    if downloadOk {
      assert DownloadFromRemote in CallsMade(Download, outcomes[1]);
      assert RunGenerator !in CallsMade(Download, outcomes[1]);
      assert RunGenerator in CallsMade(Generate, outcomes[2]);
      if results[0] != Ok(None) {
        assert n == 1;
      } else if results[1] != Ok(None) {
        assert n == 2;
      } else {
        assert n == 3;
      }
    } else {
      assert RunGenerator in CallsMade(Generate, outcomes[1]);
      assert DownloadFromRemote !in CallsMade(Generate, outcomes[1]);
      if results[0] != Ok(None) {
        assert n == 1;
      } else {
        assert n == 2;
      }
    }
  }

  /** Nothing is raised when every attempt misses: every attempt is made and the object wraps no data. */
  lemma AllAttemptsFail(attempts: seq<Attempt>, outcomes: seq<Outcome<Frame>>)
    requires |outcomes| == |attempts|
    requires forall i :: 0 <= i < |attempts| ==> AttemptResult(attempts[i], outcomes[i]) == Ok(None)
    ensures Found(Results(attempts, outcomes)) == Ok(None)
    ensures Trace(attempts, outcomes, AttemptsMade(Results(attempts, outcomes))) == Trace(attempts, outcomes, |attempts|)
  {
    AllMiss(attempts, outcomes);
  }
}
