/**
 * The malware-scanning service's `POST /scan` route and its two helpers,
 * `moveProcessedFile` and `deleteLocalCopy`.
 *
 * One request names an object of the unscanned bucket. The handler downloads
 * it to a local staging path, scans that path, classifies the scanner's reply,
 * moves the object to the clean or the quarantined bucket and replies; in
 * every case it then tries to delete the staged copy.
 *
 * The storage buckets and the local staging directory are the state of a
 * `ScanServer` object. The storage client, the scanner daemon and the file
 * system are oracles: an `Env` value says, for one request, which of their
 * calls fail and what the scanner answers. `Handle` is the pure description of
 * one request; `ScanServer.HandleScan` performs the same request step by step
 * on the object and is proved to agree with it.
 */
module ScanService {
  import opened Wrappers
  import opened Strings

  /** Directory of the container in which objects are staged while they are scanned. */
  const StagingDir: string := "/unscanned_files/"

  /** The scanner's reply contains this token exactly when the file is clean. */
  const CleanToken: string := "OK"

  /** The local path an object is downloaded to, scanned at and deleted from. */
  function StagingPath(filename: string): (path: string)
    ensures StagingDir <= path && path[|StagingDir|..] == filename
  {
    StagingDir + filename
  }

  /** Distinct filenames are staged at distinct path strings (the route does not normalise names such as `a/../b`). */
  lemma StagingPathInjective(a: string, b: string)
    ensures StagingPath(a) == StagingPath(b) <==> a == b
  {
    if StagingPath(a) == StagingPath(b) {
      assert a == StagingPath(a)[|StagingDir|..];
    }
  }

  /** Bucket names, read once from the environment (UNSCANNED_BUCKET, CLEAN_BUCKET, QUARANTINED_BUCKET). */
  datatype Config = Config(unscannedBucket: string, cleanBucket: string, quarantinedBucket: string)

  /** The bucket name `moveProcessedFile` hands to the storage client as the move destination. */
  function DestinationBucketName(cfg: Config, isClean: bool): (name: string)
    ensures "gs://" <= name
    ensures name[|"gs://"|..] == if isClean then cfg.cleanBucket else cfg.quarantinedBucket
  {
    "gs://" + if isClean then cfg.cleanBucket else cfg.quarantinedBucket
  }

  /** When the clean and quarantined buckets differ, so do the two move destinations. */
  lemma DestinationsDistinct(cfg: Config)
    requires cfg.cleanBucket != cfg.quarantinedBucket
    ensures DestinationBucketName(cfg, true) != DestinationBucketName(cfg, false)
  {
    assert DestinationBucketName(cfg, true)[5..] == cfg.cleanBucket;
  }

  /**
   * A JavaScript `Error`: its `name` and `message`.
   * `ToString` is `Error.prototype.toString`, which builds the text of an error reply.
   */
  datatype Error = Error(name: string, message: string)
  {
    function ToString(): (text: string)
      ensures text == "" <==> name == "" && message == ""
      ensures name == "" ==> text == message
      ensures message == "" ==> text == name
      ensures name <= text
      ensures |message| <= |text| && text[|text| - |message|..] == message
      ensures name != "" && message != "" ==> |text| == |name| + 2 + |message| && text[|name|..|name| + 2] == ": "
    {
      if name == "" then message
      else if message == "" then name
      else name + ": " + message
    }
  }

  /** The error the storage client reports for an object that is not in a bucket (a stand-in text). */
  function NoSuchObject(bucket: string, filename: string): Error
  {
    Error("Error", "No such object: " + bucket + "/" + filename)
  }

  /** The scanner's verdict on a staged file; an infected verdict carries the scanner's reply. */
  datatype Verdict = Clean | Infected(finding: string)

  /** `result.indexOf('OK') > -1` decides the verdict. */
  function Classify(result: string): (v: Verdict)
    ensures v.Clean? <==> Contains(result, CleanToken)
    ensures v.Infected? ==> v.finding == result
  {
    if IndexOf(result, CleanToken) > -1 then Clean else Infected(result)
  }

  /** What the route sends back: the JSON body's `status` and optional `message`, and the HTTP status code. */
  datatype Outcome = Outcome(status: string, message: Option<string>, httpCode: nat)

  const CleanOutcome: Outcome := Outcome("clean", None, 200)

  function InfectedOutcome(result: string): Outcome
  {
    Outcome("infected", Some(result), 200)
  }

  function ErrorOutcome(e: Error): Outcome
  {
    Outcome("error", Some(e.ToString()), 500)
  }

  /** The external calls the route issues, in the order it issues them. */
  datatype Effect =
    | DownloadCall(bucket: string, name: string, destination: string)
    | ScanCall(path: string)
    | MoveCall(sourceBucket: string, name: string, destinationBucket: string)
    | UnlinkCall(path: string)

  /** The oracles for one request: which calls fail, and the scanner's reply. */
  datatype Env = Env(
    downloadFault: Option<Error>,
    scanResult: Result<string, Error>,
    moveFault: Option<Error>,
    unlinkFails: bool)

  /** Contents of the three buckets (object names) and of the staging directory (local paths). */
  datatype Store = Store(unscanned: set<string>, clean: set<string>, quarantined: set<string>, staged: set<string>)
  {
    /** Every object held in some bucket. */
    function Objects(): set<string>
    {
      unscanned + clean + quarantined
    }
  }

  /** The states one request passes through. */
  datatype Route = ToClean | ToQuarantine
  datatype Phase = Received | Downloading | Scanning | Routing(route: Route) | Done | Errored

  function RouteOf(v: Verdict): Route
  {
    if v.Clean? then ToClean else ToQuarantine
  }

  /** The transitions of the request state machine; `Done` and `Errored` have none. */
  predicate Next(p: Phase, q: Phase)
  {
    match p
    case Received => q == Downloading || q == Errored
    case Downloading => q == Scanning || q == Errored
    case Scanning => q.Routing? || q == Errored
    case Routing(_) => q == Done || q == Errored
    case Done => false
    case Errored => false
  }

  predicate Terminal(p: Phase)
  {
    p == Done || p == Errored
  }

  /** A complete run of the state machine: it starts at `Received`, follows `Next`, and ends in a terminal state. */
  predicate IsCompleteRun(phases: seq<Phase>)
  {
    |phases| >= 2 && phases[0] == Received &&
    (forall i :: 0 <= i < |phases| - 1 ==> Next(phases[i], phases[i + 1])) &&
    Terminal(phases[|phases| - 1])
  }

  /** A step that either yields the new store or fails with an error and changes nothing. */
  function Settle(st: Store, step: Result<Store, Error>): Store
  {
    if step.Success? then step.value else st
  }

  function FailureOf(step: Result<Store, Error>): Option<Error>
  {
    if step.Failure? then Some(step.error) else None
  }

  /** Downloading `filename` from the unscanned bucket writes the file `destination`. */
  function DownloadStep(st: Store, cfg: Config, filename: string, destination: string, fault: Option<Error>): (r: Result<Store, Error>)
  {
    if fault.Some? then Failure(fault.value)
    else if filename !in st.unscanned then Failure(NoSuchObject(cfg.unscannedBucket, filename))
    else Success(st.(staged := st.staged + {destination}))
  }

  /** `moveProcessedFile(filename, isClean)`: the object leaves the unscanned bucket for the clean or the quarantined one. */
  function MoveStep(st: Store, cfg: Config, filename: string, isClean: bool, fault: Option<Error>): (r: Result<Store, Error>)
  {
    if fault.Some? then Failure(fault.value)
    else if filename !in st.unscanned then Failure(NoSuchObject(cfg.unscannedBucket, filename))
    else Success(st.(unscanned := st.unscanned - {filename},
                     clean := if isClean then st.clean + {filename} else st.clean,
                     quarantined := if isClean then st.quarantined else st.quarantined + {filename}))
  }

  /** `deleteLocalCopy(loc, ...)`: the staged file is removed unless the unlink fails (which is only logged). */
  function UnlinkStep(st: Store, loc: string, fails: bool): Store
  {
    if fails then st else st.(staged := st.staged - {loc})
  }

  /** The `try` block alone: where the store is when it ends, and what it produced or threw. */
  datatype Attempt = Attempt(store: Store, result: Result<Outcome, Error>, effects: seq<Effect>, phases: seq<Phase>)

  function TryBlock(st: Store, cfg: Config, filename: string, env: Env): (a: Attempt)
    ensures a.result.Success? <==> Scanned(st, filename, env) && env.moveFault.None?
    ensures a.result.Success? ==>
              a.result.value == if ScannedClean(st, filename, env) then CleanOutcome else InfectedOutcome(env.scanResult.value)
    ensures a.result.Failure? ==>
              a.store.unscanned == st.unscanned && a.store.clean == st.clean && a.store.quarantined == st.quarantined
    ensures a.result.Success? && ScannedClean(st, filename, env) ==>
              a.store.unscanned == st.unscanned - {filename} && a.store.clean == st.clean + {filename} &&
              a.store.quarantined == st.quarantined
    ensures a.result.Success? && !ScannedClean(st, filename, env) ==>
              a.store.unscanned == st.unscanned - {filename} && a.store.quarantined == st.quarantined + {filename} &&
              a.store.clean == st.clean
    ensures a.store.staged == if DownloadSucceeds(st, filename, env) then st.staged + {StagingPath(filename)} else st.staged
    ensures |a.effects| >= 1 && a.effects[0] == DownloadCall(cfg.unscannedBucket, filename, StagingPath(filename))
  {
    var path := StagingPath(filename);
    var download := DownloadCall(cfg.unscannedBucket, filename, path);
    match DownloadStep(st, cfg, filename, path, env.downloadFault)
    case Failure(e) =>
      Attempt(st, Failure(e), [download], [Received, Downloading])
    case Success(staged) =>
      match env.scanResult
      case Failure(e) =>
        Attempt(staged, Failure(e), [download, ScanCall(path)], [Received, Downloading, Scanning])
      case Success(result) =>
        var verdict := Classify(result);
        var isClean := verdict.Clean?;
        var effects := [download, ScanCall(path), MoveCall(cfg.unscannedBucket, filename, DestinationBucketName(cfg, isClean))];
        var phases := [Received, Downloading, Scanning, Routing(RouteOf(verdict))];
        match MoveStep(staged, cfg, filename, isClean, env.moveFault)
        case Failure(e) => Attempt(staged, Failure(e), effects, phases)
        case Success(moved) => Attempt(moved, Success(if isClean then CleanOutcome else InfectedOutcome(result)), effects, phases)
  }

  /** The whole of one request: the final store, the reply, the calls issued and the states passed through. */
  datatype Run = Run(store: Store, outcome: Outcome, effects: seq<Effect>, phases: seq<Phase>)

  /** The download succeeds: no injected fault, and the object is in the unscanned bucket. */
  predicate DownloadSucceeds(st: Store, filename: string, env: Env)
  {
    env.downloadFault.None? && filename in st.unscanned
  }

  /** Download and scan both succeed, so a verdict is reached (on the reply `env.scanResult.value`). */
  predicate Scanned(st: Store, filename: string, env: Env)
  {
    DownloadSucceeds(st, filename, env) && env.scanResult.Success?
  }

  /** A verdict is reached, and the scanner's reply contains "OK". */
  predicate ScannedClean(st: Store, filename: string, env: Env)
  {
    Scanned(st, filename, env) && Contains(env.scanResult.value, CleanToken)
  }

  /**
   * One request, with `filename` fixed for the whole request.
   *
   * The source declares `filename` with `let` inside the `try` block and reads
   * it again in `catch` and in `finally`, where it is out of scope. This
   * function models the evident intent: the error reply and the cleanup use
   * the request's filename. `HandleAsWritten` below models the code as written.
   */
  function Handle(st: Store, cfg: Config, filename: string, env: Env): (r: Run)
    // the reply: clean, infected with the scanner's reply verbatim, or a 500 error
    ensures r.outcome == CleanOutcome <==>
              ScannedClean(st, filename, env) && env.moveFault.None?
    ensures r.outcome.status == "infected" <==>
              Scanned(st, filename, env) && !ScannedClean(st, filename, env) && env.moveFault.None?
    ensures r.outcome.status == "infected" ==> r.outcome == InfectedOutcome(env.scanResult.value)
    ensures r.outcome.status == "error" <==> r.outcome.httpCode == 500
    ensures r.outcome.status == "error" <==>
              !DownloadSucceeds(st, filename, env) || env.scanResult.Failure? || env.moveFault.Some?
    // routing: where the object ends up
    ensures r.outcome == CleanOutcome ==>
              r.store.unscanned == st.unscanned - {filename} && r.store.clean == st.clean + {filename} &&
              r.store.quarantined == st.quarantined
    ensures r.outcome.status == "infected" ==>
              r.store.unscanned == st.unscanned - {filename} && r.store.quarantined == st.quarantined + {filename} &&
              r.store.clean == st.clean
    ensures r.outcome.status == "error" ==>
              r.store.unscanned == st.unscanned && r.store.clean == st.clean && r.store.quarantined == st.quarantined
    // cleanup is attempted last on every path, at the path the object was staged at
    ensures |r.effects| >= 2 && r.effects[0] == DownloadCall(cfg.unscannedBucket, filename, StagingPath(filename))
    ensures r.effects[|r.effects| - 1] == UnlinkCall(StagingPath(filename))
    ensures !env.unlinkFails ==> r.store.staged == st.staged - {StagingPath(filename)}
    ensures env.unlinkFails ==>
              r.store.staged == if DownloadSucceeds(st, filename, env) then st.staged + {StagingPath(filename)} else st.staged
  {
    var a := TryBlock(st, cfg, filename, env);
    var path := StagingPath(filename);
    var outcome := match a.result case Success(o) => o case Failure(e) => ErrorOutcome(e);
    Run(UnlinkStep(a.store, path, env.unlinkFails), outcome, a.effects + [UnlinkCall(path)],
        a.phases + [if a.result.Success? then Done else Errored])
  }

  /** An error reply carries the text of the first error raised, and says which one it was. */
  lemma ErrorReplyText(st: Store, cfg: Config, filename: string, env: Env)
    ensures env.downloadFault.Some? ==> Handle(st, cfg, filename, env).outcome == ErrorOutcome(env.downloadFault.value)
    ensures env.downloadFault.None? && filename !in st.unscanned ==>
              Handle(st, cfg, filename, env).outcome == ErrorOutcome(NoSuchObject(cfg.unscannedBucket, filename))
    ensures DownloadSucceeds(st, filename, env) && env.scanResult.Failure? ==>
              Handle(st, cfg, filename, env).outcome == ErrorOutcome(env.scanResult.error)
    ensures DownloadSucceeds(st, filename, env) && env.scanResult.Success? && env.moveFault.Some? ==>
              Handle(st, cfg, filename, env).outcome == ErrorOutcome(env.moveFault.value)
  {
  }

  /** The same staging path is used to download, to scan and to delete. */
  lemma OneStagingPath(st: Store, cfg: Config, filename: string, env: Env)
    ensures forall e :: e in Handle(st, cfg, filename, env).effects ==>
              match e
              case DownloadCall(b, n, dest) => b == cfg.unscannedBucket && n == filename && dest == StagingPath(filename)
              case ScanCall(p) => p == StagingPath(filename)
              case UnlinkCall(p) => p == StagingPath(filename)
              case MoveCall(src, n, _) => src == cfg.unscannedBucket && n == filename
  {
  }

  /** The calls one request issues, for each way it can go. */
  function Calls(st: Store, cfg: Config, filename: string, env: Env): seq<Effect>
  {
    var path := StagingPath(filename);
    var download := DownloadCall(cfg.unscannedBucket, filename, path);
    if Scanned(st, filename, env) then
      [download, ScanCall(path),
       MoveCall(cfg.unscannedBucket, filename, DestinationBucketName(cfg, ScannedClean(st, filename, env))),
       UnlinkCall(path)]
    else if DownloadSucceeds(st, filename, env) then [download, ScanCall(path), UnlinkCall(path)]
    else [download, UnlinkCall(path)]
  }

  /** `Handle` issues exactly those calls. */
  lemma HandleCalls(st: Store, cfg: Config, filename: string, env: Env)
    ensures Handle(st, cfg, filename, env).effects == Calls(st, cfg, filename, env)
  {
  }

  /**
   * At most one move is issued, always out of the unscanned bucket, towards
   * `gs://` + the clean bucket exactly when the scanner's reply contains "OK".
   * No move is issued when the download or the scan failed.
   */
  lemma RoutingDecision(st: Store, cfg: Config, filename: string, env: Env)
    ensures var r := Handle(st, cfg, filename, env);
            (forall i, j :: 0 <= i < j < |r.effects| && r.effects[i].MoveCall? ==> !r.effects[j].MoveCall?) &&
            (Scanned(st, filename, env) <==> exists e :: e in r.effects && e.MoveCall?)
    ensures Scanned(st, filename, env) ==>
              MoveCall(cfg.unscannedBucket, filename, DestinationBucketName(cfg, ScannedClean(st, filename, env)))
                in Handle(st, cfg, filename, env).effects
  {
    HandleCalls(st, cfg, filename, env);
    var calls := Calls(st, cfg, filename, env);
    if Scanned(st, filename, env) {
      assert calls[2].MoveCall?;
    }
  }

  /** A request never loses an object name and never makes one up: it only moves objects between buckets. */
  lemma ObjectsPreserved(st: Store, cfg: Config, filename: string, env: Env)
    ensures Handle(st, cfg, filename, env).store.Objects() == st.Objects()
  {
  }

  /** A request places its object in at most one of the clean and quarantined buckets. */
  lemma AtMostOneDestination(st: Store, cfg: Config, filename: string, env: Env)
    ensures var r := Handle(st, cfg, filename, env);
            r.store.clean == st.clean || r.store.quarantined == st.quarantined
    ensures var r := Handle(st, cfg, filename, env);
            r.store.clean - st.clean <= {filename} && r.store.quarantined - st.quarantined <= {filename}
  {
  }

  /** The states one request passes through, on each path. */
  lemma PhasesOfEachPath(st: Store, cfg: Config, filename: string, env: Env)
    ensures !DownloadSucceeds(st, filename, env) ==>
              Handle(st, cfg, filename, env).phases == [Received, Downloading, Errored]
    ensures DownloadSucceeds(st, filename, env) && env.scanResult.Failure? ==>
              Handle(st, cfg, filename, env).phases == [Received, Downloading, Scanning, Errored]
    ensures Scanned(st, filename, env) ==>
              Handle(st, cfg, filename, env).phases ==
                [Received, Downloading, Scanning, Routing(if ScannedClean(st, filename, env) then ToClean else ToQuarantine),
                 if env.moveFault.None? then Done else Errored]
  {
  }

  /**
   * Every request runs the state machine from `Received` to `Done` or `Errored`;
   * it errs exactly when the reply is an error, and its routing state follows the verdict.
   */
  lemma RunFollowsStateMachine(st: Store, cfg: Config, filename: string, env: Env)
    ensures var r := Handle(st, cfg, filename, env);
            IsCompleteRun(r.phases) && (r.phases[|r.phases| - 1] == Errored <==> r.outcome.status == "error")
    ensures Routing(ToClean) in Handle(st, cfg, filename, env).phases <==> ScannedClean(st, filename, env)
    ensures Routing(ToQuarantine) in Handle(st, cfg, filename, env).phases <==>
              Scanned(st, filename, env) && !ScannedClean(st, filename, env)
  {
    PhasesOfEachPath(st, cfg, filename, env);
  }

  /** Requests handled one after another, from one store. */
  function Serve(st: Store, cfg: Config, requests: seq<(string, Env)>): Store
    decreases |requests|
  {
    if requests == [] then st
    else Serve(Handle(st, cfg, requests[0].0, requests[0].1).store, cfg, requests[1..])
  }

  /** Over any sequence of requests the set of stored object names is unchanged. */
  lemma {:induction false} ServePreservesObjects(st: Store, cfg: Config, requests: seq<(string, Env)>)
    ensures Serve(st, cfg, requests).Objects() == st.Objects()
    decreases |requests|
  {
    if requests != [] {
      ObjectsPreserved(st, cfg, requests[0].0, requests[0].1);
      ServePreservesObjects(Handle(st, cfg, requests[0].0, requests[0].1).store, cfg, requests[1..]);
    }
  }

  /** Starting with an empty staging directory, requests whose unlink succeeds leave it empty. */
  lemma {:induction false} ServeLeavesNoStagedFiles(st: Store, cfg: Config, requests: seq<(string, Env)>)
    requires st.staged == {}
    requires forall i :: 0 <= i < |requests| ==> !requests[i].1.unlinkFails
    ensures Serve(st, cfg, requests).staged == {}
    decreases |requests|
  {
    if requests != [] {
      var next := Handle(st, cfg, requests[0].0, requests[0].1).store;
      assert next.staged == {};
      ServeLeavesNoStagedFiles(next, cfg, requests[1..]);
    }
  }

  /** The route's reply as the code is written: sent, or never sent because the handler threw. */
  datatype Reply = Sent(outcome: Outcome) | NoReply

  datatype RunAsWritten = RunAsWritten(store: Store, reply: Reply, effects: seq<Effect>)

  /**
   * One request as the code is written. `filename` is declared with `let`
   * inside the `try` block, so reading it in `catch` and in `finally` throws
   * a ReferenceError: the `catch` block throws before it sends the error
   * reply, and the `finally` block throws before it calls `deleteLocalCopy`.
   */
  function HandleAsWritten(st: Store, cfg: Config, filename: string, env: Env): (r: RunAsWritten)
    // the same calls as the intended route, except the final unlink
    ensures r.effects + [UnlinkCall(StagingPath(filename))] == Handle(st, cfg, filename, env).effects
    // the buckets end as in the intended route; a reply, when sent, is the intended one
    ensures r.store.Objects() == st.Objects()
    ensures r.store.unscanned == Handle(st, cfg, filename, env).store.unscanned
    ensures r.store.clean == Handle(st, cfg, filename, env).store.clean
    ensures r.store.quarantined == Handle(st, cfg, filename, env).store.quarantined
    ensures r.reply.Sent? ==> r.reply.outcome == Handle(st, cfg, filename, env).outcome
  {
    var a := TryBlock(st, cfg, filename, env);
    RunAsWritten(a.store, if a.result.Success? then Sent(a.result.value) else NoReply, a.effects)
  }

  /** As written, the staged copy is never deleted and every failing request gets no reply. */
  lemma AsWrittenNeverCleansUp(st: Store, cfg: Config, filename: string, env: Env)
    ensures var r := HandleAsWritten(st, cfg, filename, env);
            (forall e :: e in r.effects ==> !e.UnlinkCall?) &&
            (DownloadSucceeds(st, filename, env) ==> StagingPath(filename) in r.store.staged) &&
            (!DownloadSucceeds(st, filename, env) ==> r.reply == NoReply)
    ensures HandleAsWritten(st, cfg, filename, env).reply == NoReply <==>
              Handle(st, cfg, filename, env).outcome.status == "error"
  {
  }

  /** The example of a clean upload: as written its staged copy stays behind; with the intended scoping it is deleted. */
  lemma CleanUploadLeavesStagedCopy()
    ensures var cfg := Config("unscanned", "clean", "quarantined");
            var st := Store({"invoice.pdf"}, {}, {}, {});
            var env := Env(None, Success("stream: OK"), None, false);
            HandleAsWritten(st, cfg, "invoice.pdf", env).store.staged == {"/unscanned_files/invoice.pdf"} &&
            Handle(st, cfg, "invoice.pdf", env).store.staged == {} &&
            Handle(st, cfg, "invoice.pdf", env).outcome == CleanOutcome
  {
    assert OccursAt("stream: OK", CleanToken, 8);
    assert StagingPath("invoice.pdf") == "/unscanned_files/invoice.pdf";
  }

  /** The buckets and the staging directory of one running service, and the calls it has issued. */
  class ScanServer {
    const config: Config
    var unscanned: set<string>
    var clean: set<string>
    var quarantined: set<string>
    var staged: set<string>
    var effects: seq<Effect>
    var phase: Phase

    function State(): Store
      reads this
    {
      Store(unscanned, clean, quarantined, staged)
    }

    constructor (config: Config, unscanned: set<string>, clean: set<string>, quarantined: set<string>)
      ensures this.config == config
      ensures State() == Store(unscanned, clean, quarantined, {}) && effects == [] && phase == Received
    {
      this.config := config;
      this.unscanned, this.clean, this.quarantined := unscanned, clean, quarantined;
      staged, effects, phase := {}, [], Received;
    }

    /** `storage.bucket(UNSCANNED).file(filename).download({destination})`. */
    method DownloadFile(filename: string, destination: string, fault: Option<Error>) returns (failure: Option<Error>)
      modifies this`staged, this`effects
      ensures var step := DownloadStep(old(State()), config, filename, destination, fault);
              failure == FailureOf(step) && State() == Settle(old(State()), step)
      ensures effects == old(effects) + [DownloadCall(config.unscannedBucket, filename, destination)]
    {
      effects := effects + [DownloadCall(config.unscannedBucket, filename, destination)];
      if fault.Some? {
        failure := fault;
      } else if filename !in unscanned {
        failure := Some(NoSuchObject(config.unscannedBucket, filename));
      } else {
        staged := staged + {destination};
        failure := None;
      }
    }

    /** `scanner.scanFile(path)`: the scanner's reply, or the error it fails with. */
    method ScanFile(path: string, reply: Result<string, Error>) returns (result: Result<string, Error>)
      modifies this`effects
      ensures result == reply
      ensures effects == old(effects) + [ScanCall(path)]
    {
      effects := effects + [ScanCall(path)];
      result := reply;
    }

    /** `moveProcessedFile(filename, isClean)`. */
    method MoveProcessedFile(filename: string, isClean: bool, fault: Option<Error>) returns (failure: Option<Error>)
      modifies this`unscanned, this`clean, this`quarantined, this`effects
      ensures var step := MoveStep(old(State()), config, filename, isClean, fault);
              failure == FailureOf(step) && State() == Settle(old(State()), step)
      ensures effects == old(effects) + [MoveCall(config.unscannedBucket, filename, DestinationBucketName(config, isClean))]
    {
      var destinationBucketName := if isClean then "gs://" + config.cleanBucket else "gs://" + config.quarantinedBucket;
      effects := effects + [MoveCall(config.unscannedBucket, filename, destinationBucketName)];
      if fault.Some? {
        failure := fault;
      } else if filename !in unscanned {
        failure := Some(NoSuchObject(config.unscannedBucket, filename));
      } else {
        unscanned := unscanned - {filename};
        if isClean {
          clean := clean + {filename};
        } else {
          quarantined := quarantined + {filename};
        }
        failure := None;
      }
    }

    /** `deleteLocalCopy(loc, filename)`: a failed unlink is logged and otherwise ignored. */
    method DeleteLocalCopy(loc: string, fails: bool)
      modifies this`staged, this`effects
      ensures State() == UnlinkStep(old(State()), loc, fails)
      ensures effects == old(effects) + [UnlinkCall(loc)]
    {
      effects := effects + [UnlinkCall(loc)];
      if !fails {
        staged := staged - {loc};
      }
    }

    /**
     * The `try` block of the `POST /scan` route: download, scan and move, in
     * order, until one step fails. The result is the reply it builds or the
     * error it throws.
     */
    method TryScan(filename: string, env: Env) returns (result: Result<Outcome, Error>)
      modifies this
      ensures var a := TryBlock(old(State()), config, filename, env);
              State() == a.store && result == a.result && effects == old(effects) + a.effects &&
              phase == a.phases[|a.phases| - 1]
    {
      phase := Received;
      var path := StagingPath(filename);
      phase := Downloading;
      var failure := DownloadFile(filename, path, env.downloadFault);
      if failure.Some? {
        return Failure(failure.value);
      }
      phase := Scanning;
      var scanned := ScanFile(path, env.scanResult);
      if scanned.Failure? {
        return Failure(scanned.error);
      }
      var reply := scanned.value;
      var isClean := IndexOf(reply, CleanToken) > -1;
      phase := Routing(if isClean then ToClean else ToQuarantine);
      failure := MoveProcessedFile(filename, isClean, env.moveFault);
      if failure.Some? {
        return Failure(failure.value);
      }
      result := Success(if isClean then CleanOutcome else InfectedOutcome(reply));
    }

    /**
     * The `POST /scan` route for one request body's `filename`.
     * The `try` block's steps run in order until one fails; the `catch` turns
     * the failure into a 500 reply; the `finally` deletes the staged copy.
     * As in `Handle`, `filename` is fixed for the whole request (the source's
     * `catch` and `finally` read it out of scope; see `HandleAsWritten`).
     */
    method HandleScan(filename: string, env: Env) returns (out: Outcome)
      modifies this
      ensures var r := Handle(old(State()), config, filename, env);
              State() == r.store && out == r.outcome && effects == old(effects) + r.effects &&
              phase == r.phases[|r.phases| - 1]
    {
      var result := TryScan(filename, env);
      if result.Success? {
        out := result.value;
        phase := Done;
      } else {
        out := ErrorOutcome(result.error);
        phase := Errored;
      }
      DeleteLocalCopy(StagingPath(filename), env.unlinkFails);
    }
  }
}
