/** internal/sync/build.go: what the endpoint goroutines contribute to the shared result slices. */
module Build {
  import opened Bags
  import opened Wrappers
  import FanOut

  // ----- error texts of internal/sync/util.go -----

  /** A provider response: its error reason, if it carries an error. */
  datatype Response = Response(error: Option<string>)

  function GetProtoWorkerError(prefix: string, err: Option<string>, resp: Option<Response>): string {
    var shown := if err.Some? then err.value else "<nil>";
    if resp.None? then prefix + ": Worker build error: " + shown
    else if resp.value.error.Some? then prefix + ": Worket build error: " + resp.value.error.value
    else if err.Some? then prefix + ": Worker build error: proto server error: " + err.value
    else ""
  }

  // ----- one endpoint -----

  /** How BuildRepository ends on one endpoint, its connection having succeeded. */
  datatype BuildResult =
    | SyncFailed(reason: string)
    | WorktreeRefused(reason: string)
    | CommandsFailed(output: string, reason: string)
    | Built(output: string)

  datatype Entry = Entry(worker: string, output: string, error: Option<string>)

  /** Whether BuildRepository also returns an error; a refused worktree is reported in the output only. */
  predicate ReturnsError(r: BuildResult) {
    r.SyncFailed? || r.CommandsFailed?
  }

  function Output(worker: string, r: BuildResult): Entry {
    match r
    case SyncFailed(reason) => Entry(worker, "", Some("Error syncing repository: " + reason))
    case WorktreeRefused(reason) =>
      Entry(worker, "", Some(GetProtoWorkerError("Error creating work tree", None, Some(Response(Some(reason))))))
    case CommandsFailed(output, reason) =>
      Entry(worker, output, Some(GetProtoWorkerError("Error running commands", Some(reason), Some(Response(None)))))
    case Built(output) => Entry(worker, output, None)
  }

  /** What the endpoint's goroutine of BuildAllEndpoints appends: its output, preceded by the error if there is one. */
  function Contribution(worker: string, r: BuildResult): seq<Entry> {
    (if ReturnsError(r)
     then [Entry(worker, "", Some(GetProtoWorkerError("Error Building repository", Some(r.reason), None)))]
     else [])
    + [Output(worker, r)]
  }

  // ----- all endpoints -----

  datatype Endpoint = Endpoint(name: string, result: BuildResult)

  function EndpointJob(ep: Endpoint): seq<Entry> {
    Contribution(ep.name, ep.result)
  }

  function ErrorsOf(ep: Endpoint): nat {
    if ReturnsError(ep.result) then 1 else 0
  }

  function JobBag(ep: Endpoint): multiset<Entry> {
    multiset(EndpointJob(ep))
  }

  /** The text ends with the cause. */
  predicate EndsWith(text: string, cause: string) {
    |cause| <= |text| && text[|text| - |cause|..] == cause
  }

  lemma Ends(a: string, b: string)
    ensures EndsWith(a + b, b)
  {
  }

  /** What an error text names: the response's reason, else the call's error; there is none only without either. */
  lemma ErrorNamesCause(prefix: string, err: Option<string>, resp: Option<Response>)
    ensures var text := GetProtoWorkerError(prefix, err, resp);
            && (resp.Some? && resp.value.error.Some? ==> EndsWith(text, resp.value.error.value))
            && ((resp.Some? ==> resp.value.error.None?) && err.Some? ==> EndsWith(text, err.value))
            && (text != "" ==> prefix <= text)
            && (text == "" <==> resp.Some? && resp.value.error.None? && err.None?)
  {
    var text := GetProtoWorkerError(prefix, err, resp);
    if resp.Some? && resp.value.error.Some? {
      Ends(prefix + ": Worket build error: ", resp.value.error.value);
    } else if resp.Some? && err.Some? {
      Ends(prefix + ": Worker build error: proto server error: ", err.value);
    } else if err.Some? {
      Ends(prefix + ": Worker build error: ", err.value);
    }
  }

  /**
   * The entry reports the endpoint's build: it has its name, the output of its commands if they ran, and an error
   * that ends with the reason, unless everything went well.
   */
  predicate Reports(e: Entry, ep: Endpoint) {
    && e.worker == ep.name
    && e.output == (if ep.result.Built? || ep.result.CommandsFailed? then ep.result.output else "")
    && (e.error.None? <==> ep.result.Built?)
    && (!ep.result.Built? ==> EndsWith(e.error.value, ep.result.reason))
  }

  /**
   * The entry is about this endpoint: it has its name, no output but that of its commands, and an error only if the
   * build went wrong, and then one that ends with the reason.
   */
  predicate About(ep: Endpoint, e: Entry) {
    && e.worker == ep.name
    && (e.output != "" ==> (ep.result.Built? || ep.result.CommandsFailed?) && e.output == ep.result.output)
    && (e.error.Some? ==> !ep.result.Built? && EndsWith(e.error.value, ep.result.reason))
  }

  /** The entry is about one of the endpoints. */
  predicate Known(eps: seq<Endpoint>, e: Entry) {
    exists g :: 0 <= g < |eps| && About(eps[g], e)
  }

  predicate Reported(entries: seq<Entry>, ep: Endpoint) {
    exists e :: e in entries && Reports(e, ep)
  }

  lemma OutputReports(ep: Endpoint)
    ensures Reports(Output(ep.name, ep.result), ep)
  {
    match ep.result {
      case SyncFailed(reason) => Ends("Error syncing repository: ", reason);
      case WorktreeRefused(reason) => ErrorNamesCause("Error creating work tree", None, Some(Response(Some(reason))));
      case CommandsFailed(_, reason) => ErrorNamesCause("Error running commands", Some(reason), Some(Response(None)));
      case Built(_) =>
    }
  }

  /** How many entries with an error an endpoint adds: two where the build returns an error, one where git refuses. */
  function ErrorEntries(ep: Endpoint): nat {
    match ep.result
    case SyncFailed(_) => 2
    case WorktreeRefused(_) => 1
    case CommandsFailed(_, _) => 2
    case Built(_) => 0
  }

  /** 1 for an entry with an error. */
  function ErrorOf(e: Entry): nat {
    if e.error.Some? then 1 else 0
  }

  lemma JobErrors(ep: Endpoint)
    ensures Total(EndpointJob(ep), ErrorOf) == ErrorEntries(ep)
    ensures forall e :: e in EndpointJob(ep) ==> About(ep, e)
  {
    OutputReports(ep);
    var output := Output(ep.name, ep.result);
    TotalOne(output, ErrorOf);
    if ReturnsError(ep.result) {
      var first := EndpointJob(ep)[0];
      ErrorNamesCause("Error Building repository", Some(ep.result.reason), None);
      TotalOne(first, ErrorOf);
      TotalConcat([first], [output], ErrorOf);
    } else {
      assert EndpointJob(ep) == [output];
    }
  }

  /** All entries of all endpoints, one endpoint after the other. */
  function AllEntries(eps: seq<Endpoint>): seq<Entry> {
    if eps == [] then [] else AllEntries(eps[..|eps| - 1]) + EndpointJob(eps[|eps| - 1])
  }

  lemma {:induction false} AllEntriesBag(eps: seq<Endpoint>)
    ensures multiset(AllEntries(eps)) == Gather(eps, JobBag)
    ensures Total(AllEntries(eps), ErrorOf) == Total(eps, ErrorEntries)
  {
    if eps != [] {
      var last := |eps| - 1;
      AllEntriesBag(eps[..last]);
      JobErrors(eps[last]);
      TotalConcat(AllEntries(eps[..last]), EndpointJob(eps[last]), ErrorOf);
    }
  }

  lemma {:induction false} JobsSize(eps: seq<Endpoint>)
    ensures |Gather(eps, JobBag)| == |eps| + Total(eps, ErrorsOf)
  {
    if eps != [] {
      var last := |eps| - 1;
      JobsSize(eps[..last]);
      assert |multiset(EndpointJob(eps[last]))| == |EndpointJob(eps[last])|;
    }
  }

  /**
   * What BuildAllEndpoints returns, under any interleaving of its goroutines: exactly the contributions of all
   * endpoints, one entry per endpoint and one more per build that returned an error, with every endpoint's output.
   */
  lemma BuildAllEndpointsComplete(eps: seq<Endpoint>, steps: seq<FanOut.Step>, t: FanOut.State<Entry>)
    requires FanOut.Runs(FanOut.Init(Map(eps, EndpointJob)), steps, t, true) && t.wg == 0
    ensures multiset(t.slice) == Gather(eps, JobBag)
    ensures |t.slice| == |eps| + Total(eps, ErrorsOf)
    ensures forall g :: 0 <= g < |eps| ==> Output(eps[g].name, eps[g].result) in t.slice
  {
    FanOut.NoLostUpdate(Map(eps, EndpointJob), steps, t);
    GatherMap(eps, EndpointJob, FanOut.JobOf, JobBag);
    JobsSize(eps);
    assert |multiset(t.slice)| == |t.slice|;
    forall g | 0 <= g < |eps| ensures Output(eps[g].name, eps[g].result) in t.slice {
      GatherUpdate(eps, g, eps[g], JobBag);
      assert Output(eps[g].name, eps[g].result) in JobBag(eps[g]);
      assert Output(eps[g].name, eps[g].result) in multiset(t.slice);
    }
  }

  /** Under any interleaving the returned list reports every endpoint, and says nothing about any other. */
  lemma BuildsReported(eps: seq<Endpoint>, steps: seq<FanOut.Step>, t: FanOut.State<Entry>)
    requires FanOut.Runs(FanOut.Init(Map(eps, EndpointJob)), steps, t, true) && t.wg == 0
    ensures forall g :: 0 <= g < |eps| ==> Reported(t.slice, eps[g])
    ensures forall e :: e in t.slice ==> Known(eps, e)
  {
    AllReported(eps, steps, t);
    OnlyKnown(eps, steps, t);
  }

  lemma AllReported(eps: seq<Endpoint>, steps: seq<FanOut.Step>, t: FanOut.State<Entry>)
    requires FanOut.Runs(FanOut.Init(Map(eps, EndpointJob)), steps, t, true) && t.wg == 0
    ensures forall g :: 0 <= g < |eps| ==> Reported(t.slice, eps[g])
  {
    BuildAllEndpointsComplete(eps, steps, t);
    EveryEndpointReported(eps, t.slice);
  }

  lemma OnlyKnown(eps: seq<Endpoint>, steps: seq<FanOut.Step>, t: FanOut.State<Entry>)
    requires FanOut.Runs(FanOut.Init(Map(eps, EndpointJob)), steps, t, true) && t.wg == 0
    ensures forall e :: e in t.slice ==> Known(eps, e)
  {
    BuildAllEndpointsComplete(eps, steps, t);
    NoStrangeEntry(eps, t.slice);
  }

  /**
   * The errors in the list are two for every build that returned one and one for every refused worktree; so there are
   * some exactly when some build went wrong.
   */
  lemma BuildErrorsReported(eps: seq<Endpoint>, steps: seq<FanOut.Step>, t: FanOut.State<Entry>)
    requires FanOut.Runs(FanOut.Init(Map(eps, EndpointJob)), steps, t, true) && t.wg == 0
    ensures Total(t.slice, ErrorOf) == Total(eps, ErrorEntries)
    ensures (exists e :: e in t.slice && e.error.Some?) <==> exists g :: 0 <= g < |eps| && !eps[g].result.Built?
  {
    BuildAllEndpointsComplete(eps, steps, t);
    ErrorsCounted(eps, t.slice);
    ErrorsShowFailures(eps, t.slice);
  }

  lemma ErrorsCounted(eps: seq<Endpoint>, entries: seq<Entry>)
    requires multiset(entries) == Gather(eps, JobBag)
    ensures Total(entries, ErrorOf) == Total(eps, ErrorEntries)
  {
    AllEntriesBag(eps);
    TotalBag(entries, AllEntries(eps), ErrorOf);
  }

  lemma EveryEndpointReported(eps: seq<Endpoint>, entries: seq<Entry>)
    requires forall g :: 0 <= g < |eps| ==> Output(eps[g].name, eps[g].result) in entries
    ensures forall g :: 0 <= g < |eps| ==> Reported(entries, eps[g])
  {
    forall g | 0 <= g < |eps| ensures Reported(entries, eps[g]) {
      OutputReports(eps[g]);
      var e := Output(eps[g].name, eps[g].result);
      assert e in entries && Reports(e, eps[g]);
    }
  }

  lemma NoStrangeEntry(eps: seq<Endpoint>, entries: seq<Entry>)
    requires multiset(entries) == Gather(eps, JobBag)
    ensures forall e :: e in entries ==> Known(eps, e)
  {
    forall e | e in entries ensures Known(eps, e) {
      assert e in multiset(entries);
      var g := GatherMember(eps, JobBag, e);
      JobErrors(eps[g]);
    }
  }

  lemma ErrorsShowFailures(eps: seq<Endpoint>, entries: seq<Entry>)
    requires Total(entries, ErrorOf) == Total(eps, ErrorEntries)
    ensures (exists e :: e in entries && e.error.Some?) <==> exists g :: 0 <= g < |eps| && !eps[g].result.Built?
  {
    if Total(entries, ErrorOf) > 0 {
      var k := SomePositive(entries, ErrorOf);
      var g := SomePositive(eps, ErrorEntries);
      assert entries[k] in entries && !eps[g].result.Built?;
    } else {
      TotalZero(entries, ErrorOf);
      TotalZero(eps, ErrorEntries);
      forall e | e in entries ensures e.error.None? {
        var k :| 0 <= k < |entries| && entries[k] == e;
        assert ErrorOf(entries[k]) == 0;
      }
      forall g | 0 <= g < |eps| ensures eps[g].result.Built? {
        assert ErrorEntries(eps[g]) == 0;
      }
    }
  }

  // ----- removing the worktrees -----

  /**
   * How a provider's RemoveWorkTree ends for one endpoint: the call fails, or git refuses to remove the worktree,
   * which the provider reports in the response and with a nil error.
   */
  datatype Removal = Removed | Refused(reason: string) | CallFailed(reason: string)

  /** RemoveRepositoryWorkspace looks at the error of the call only. */
  function RemovalError(r: Removal): Option<string> {
    if r.CallFailed? then Some(GetProtoWorkerError("Error removing work tree", Some(r.reason), None)) else None
  }

  lemma RemovalErrorNamesCause(r: Removal)
    ensures RemovalError(r).Some? <==> r.CallFailed?
    ensures r.CallFailed? ==> EndsWith(RemovalError(r).value, r.reason)
  {
    if r.CallFailed? { ErrorNamesCause("Error removing work tree", Some(r.reason), None); }
  }

  /** The goroutine of RemoveAllRepositoryWorkspaces appends the error of its removal, nil or not. */
  function RemovalJob(r: Removal): seq<Option<string>> {
    [RemovalError(r)]
  }

  function ErrorBag(r: Removal): multiset<Option<string>> {
    multiset{RemovalError(r)}
  }

  function FailedOf(r: Removal): nat { if r.Removed? then 0 else 1 }

  function CallFailedOf(r: Removal): nat { if r.CallFailed? then 1 else 0 }

  function RefusedOf(r: Removal): nat { if r.Refused? then 1 else 0 }

  lemma {:induction false} RemovalCounts(removals: seq<Removal>)
    ensures |Gather(removals, ErrorBag)| == |removals|
    ensures Gather(removals, ErrorBag)[None] + Total(removals, CallFailedOf) == |removals|
    ensures Total(removals, FailedOf) == Total(removals, CallFailedOf) + Total(removals, RefusedOf)
  {
    if removals != [] {
      var last := |removals| - 1;
      RemovalCounts(removals[..last]);
    }
  }

  /** The errors in a list of results. */
  function ErrorCount(errs: seq<Option<string>>): nat {
    |errs| - multiset(errs)[None]
  }

  lemma RemovalResult(removals: seq<Removal>, steps: seq<FanOut.Step>, t: FanOut.State<Option<string>>)
    requires FanOut.Runs(FanOut.Init(Map(removals, RemovalJob)), steps, t, true) && t.wg == 0
    ensures multiset(t.slice) == Gather(removals, ErrorBag) && |t.slice| == |removals|
    ensures ErrorCount(t.slice) == Total(removals, CallFailedOf)
  {
    FanOut.NoLostUpdate(Map(removals, RemovalJob), steps, t);
    GatherMap(removals, RemovalJob, FanOut.JobOf, ErrorBag);
    RemovalCounts(removals);
    assert |multiset(t.slice)| == |t.slice|;
  }

  /**
   * The returned list has one element per endpoint, and as many errors as calls failed. It has as many errors as
   * worktrees were left in place if and only if git refused none of the removals.
   */
  lemma RemovalsReported(removals: seq<Removal>, steps: seq<FanOut.Step>, t: FanOut.State<Option<string>>)
    requires FanOut.Runs(FanOut.Init(Map(removals, RemovalJob)), steps, t, true) && t.wg == 0
    ensures multiset(t.slice) == Gather(removals, ErrorBag) && |t.slice| == |removals|
    ensures ErrorCount(t.slice) == Total(removals, CallFailedOf)
    ensures ErrorCount(t.slice) == Total(removals, FailedOf)
       <==> forall g :: 0 <= g < |removals| ==> !removals[g].Refused?
  {
    RemovalResult(removals, steps, t);
    RemovalCounts(removals);
    if Total(removals, RefusedOf) == 0 {
      TotalZero(removals, RefusedOf);
      forall g | 0 <= g < |removals| ensures !removals[g].Refused? {
        assert RefusedOf(removals[g]) == 0;
      }
    } else {
      var g := SomePositive(removals, RefusedOf);
      assert removals[g].Refused?;
    }
  }

  lemma CallBehind(removals: seq<Removal>, errs: seq<Option<string>>, e: Option<string>) returns (g: nat)
    requires multiset(errs) == Gather(removals, ErrorBag) && e in errs && e.Some?
    ensures g < |removals| && removals[g].CallFailed?
  {
    assert e in multiset(errs);
    g := GatherMember(removals, ErrorBag, e);
  }

  lemma FailureListed(removals: seq<Removal>, errs: seq<Option<string>>, g: nat)
    requires multiset(errs) == Gather(removals, ErrorBag) && g < |removals| && removals[g].CallFailed?
    ensures RemovalError(removals[g]) in errs
    ensures RemovalError(removals[g]).Some? && EndsWith(RemovalError(removals[g]).value, removals[g].reason)
  {
    RemovalErrorNamesCause(removals[g]);
    GatherWithinAt(removals, g, ErrorBag, RemovalError(removals[g]));
    assert RemovalError(removals[g]) in multiset(errs);
  }

  /** The list holds an error if and only if some call failed. */
  lemma ErrorsMeanFailedCalls(removals: seq<Removal>, steps: seq<FanOut.Step>, t: FanOut.State<Option<string>>)
    requires FanOut.Runs(FanOut.Init(Map(removals, RemovalJob)), steps, t, true) && t.wg == 0
    ensures (exists e :: e in t.slice && e.Some?) <==> exists g :: 0 <= g < |removals| && removals[g].CallFailed?
  {
    RemovalResult(removals, steps, t);
    if e :| e in t.slice && e.Some? {
      var g := CallBehind(removals, t.slice, e);
    }
    if g :| 0 <= g < |removals| && removals[g].CallFailed? {
      FailureListed(removals, t.slice, g);
    }
  }

  /** Witness: when git refuses every removal, the list says that nothing went wrong. */
  lemma RefusalsUnreported(removals: seq<Removal>)
    returns (steps: seq<FanOut.Step>, t: FanOut.State<Option<string>>)
    requires forall g :: 0 <= g < |removals| ==> removals[g].Refused?
    ensures FanOut.Runs(FanOut.Init(Map(removals, RemovalJob)), steps, t, true) && t.wg == 0
    ensures |t.slice| == |removals| && forall e :: e in t.slice ==> e == None
  {
    FanOut.InitInv(Map(removals, RemovalJob));
    steps, t := FanOut.CanFinish(Map(removals, RemovalJob), FanOut.Init(Map(removals, RemovalJob)));
    RemovalResult(removals, steps, t);
    ErrorsMeanFailedCalls(removals, steps, t);
  }
}
