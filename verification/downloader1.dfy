/** FileDownloader: one shared queue of manifest lines. Workers claim part
    lines from its head; a header line at the head (or an empty queue) sends
    every worker to the barrier, whose action merges the current file,
    deletes its parts and moves to the next header.

    Every step is atomic and the pool is not modelled: the claim guard and
    the barrier action are the only transitions, and the barrier action is
    enabled exactly when the claim guard is false. */
module Downloader1 {
  import opened Common
  import opened Text
  import opened Jobs

  /** The fields of a FileDownloader the core reads and writes:
      downloadsList, partsFile, currentDownload and processFinished, plus
      the log of effects on the outside world. */
  datatype State = State(
    pending: seq<string>,
    parts: seq<string>,
    current: string,
    finished: bool,
    log: seq<Event>)

  /** After a worker step the worker either loops again or its thread ends
      with an exception (caught and printed by the thread's body). */
  datatype Step = Continue(state: State) | WorkerDied(state: State, fault: Fault)

  /** How a sequential run of the protocol ends: with processFinished set,
      or with a worker thread dead, after which the barrier can never again
      gather all its parties. */
  datatype Outcome = Finished(state: State) | Crashed(state: State)

  /** nextFileToDownload: remove the head of the queue and keep the text after
      its last ':' as the current file name. */
  function NextFile(s: State): (r: Result<State>)
    ensures r.Err? <==> s.pending == []
    ensures r.Err? ==> r.fault == NoSuchElement
    ensures r.Ok? ==> r.value.pending == s.pending[1..]
    ensures r.Ok? ==> r.value.current == NameAfterColon(s.pending[0])
    ensures r.Ok? ==> r.value.parts == s.parts && r.value.finished == s.finished && r.value.log == s.log
  {
    if s.pending == [] then Err(NoSuchElement)
    else Ok(s.(pending := s.pending[1..], current := NameAfterColon(s.pending[0])))
  }

  /** The state the workers start from: the first line taken as the current
      file name, the rest of the lines queued, nothing recorded or logged. */
  function Start(lines: seq<string>): (r: State)
    requires lines != []
    ensures r.pending == lines[1..] && r.current == NameAfterColon(lines[0])
    ensures r.parts == [] && !r.finished && r.log == []
  {
    State(lines[1..], [], NameAfterColon(lines[0]), false, [])
  }

  /** `process` after the manifest has been fetched: read the cleaned lines
      into the queue, then take the first file name. An empty manifest makes
      that first removal throw before any worker starts. */
  function Init(raw: seq<string>): (r: Result<State>)
    ensures r.Err? <==> raw == []
    ensures r.Err? ==> r.fault == NoSuchElement
    ensures r.Ok? ==> r.value == Start(CleanLines(raw))
  {
    NextFile(State(CleanLines(raw), [], "", false, []))
  }

  /** The guard of the claiming branch of the worker loop. */
  predicate CanClaim(s: State) {
    !s.finished && s.pending != [] && !IsHeader(s.pending[0])
  }

  /** One pass of the claiming branch: remove the head, take its link, fetch
      it (with outcome `ok`) and record the link. The head is removed before
      the link is taken, so a line without '/' is lost together with the
      worker that claimed it. */
  function Claim(s: State, ok: bool): (r: Step)
    requires CanClaim(s)
    ensures r.state.pending == s.pending[1..]
    ensures r.state.current == s.current && r.state.finished == s.finished
    ensures CountHeaders(r.state.pending) == CountHeaders(s.pending)
    ensures r.WorkerDied? <==> '/' !in s.pending[0]
    ensures r.WorkerDied? ==>
      r.fault == StringIndexOutOfBounds && r.state.parts == s.parts && r.state.log == s.log
    ensures r.Continue? ==>
      && |r.state.parts| == |s.parts| + 1
      && r.state.parts[..|s.parts|] == s.parts
      && Link(s.pending[0]) == Ok(r.state.parts[|s.parts|])
      && r.state.log == s.log + [Fetch(s.pending[0], DownloadsPath + r.state.parts[|s.parts|], ok)]
  {
    var line := s.pending[0];
    var rest := s.pending[1..];
    match Link(line)
    case Err(e) => WorkerDied(s.(pending := rest), e)
    case Ok(link) =>
      assert (s.parts + [link])[..|s.parts|] == s.parts;
      Continue(s.(pending := rest, parts := s.parts + [link],
                  log := s.log + [Fetch(line, DownloadsPath + link, ok)]))
  }

  /** The link is recorded whatever the download returned: two claims that
      differ only in the outcome differ only in the outcome logged. */
  lemma ClaimIgnoresOutcome(s: State)
    requires CanClaim(s)
    ensures Claim(s, true).state.(log := []) == Claim(s, false).state.(log := [])
    ensures Claim(s, true).WorkerDied? == Claim(s, false).WorkerDied?
  {
  }

  /** downloadCompleted, the barrier action: merge the current file, delete
      every recorded part in order, clear the record, then finish if the
      queue is empty or take the next file name otherwise. */
  function Rendezvous(s: State): (r: State)
    ensures r.parts == []
    ensures r.log == s.log + [Merge(DownloadsPath, Some(s.current))] + DeleteAll(s.parts)
    ensures r.finished <==> s.finished || s.pending == []
    ensures s.pending == [] ==> r.pending == [] && r.current == s.current
    ensures s.pending != [] ==> r.pending == s.pending[1..] && r.current == NameAfterColon(s.pending[0])
    ensures s.pending != [] && IsHeader(s.pending[0]) ==>
      CountHeaders(r.pending) + 1 == CountHeaders(s.pending)
  {
    var cleaned := s.(parts := [], log := s.log + [Merge(DownloadsPath, Some(s.current))] + DeleteAll(s.parts));
    if s.pending == [] then cleaned.(finished := true)
    else NextFile(cleaned).value
  }

  /** The barrier action runs only when no part can be claimed; the queue head
      is then a header, and the action is the only way a header leaves it. */
  lemma RendezvousTakesHeader(s: State)
    requires !s.finished && !CanClaim(s) && s.pending != []
    ensures IsHeader(s.pending[0])
    ensures CountHeaders(Rendezvous(s).pending) + 1 == CountHeaders(s.pending)
    ensures !Rendezvous(s).finished
  {
  }

  /** Nothing ever resets processFinished: once finished, no part is claimed
      and the barrier action leaves the flag set. */
  lemma FinishedIsTerminal(s: State)
    requires s.finished
    ensures !CanClaim(s)
    ensures Rendezvous(s).finished
  {
  }

  /** Each transition from a running state lowers this. */
  function Measure(s: State): nat {
    |s.pending| + (if s.finished then 0 else 1)
  }

  /** The protocol run to its end, one atomic step at a time: a claim
      whenever the claim guard holds, the barrier action otherwise. Download
      outcomes come from `succeeds`, a function of the part's locator. */
  function Run(s: State, succeeds: string -> bool): (r: Outcome)
    ensures r.Finished? <==> r.state.finished
    ensures r.Finished? && !s.finished ==> r.state.pending == [] && r.state.parts == []
    ensures s.log <= r.state.log
    decreases Measure(s)
  {
    if s.finished then Finished(s)
    else if CanClaim(s) then
      var c := Claim(s, succeeds(s.pending[0]));
      if c.WorkerDied? then Crashed(c.state) else Run(c.state, succeeds)
    else Run(Rendezvous(s), succeeds)
  }

  /** A claim of a fetchable line, spelled out. */
  lemma ClaimFetchable(s: State, ok: bool)
    requires CanClaim(s) && Fetchable(s.pending[0])
    ensures Claim(s, ok) == Continue(s.(
      pending := s.pending[1..],
      parts := s.parts + [LinkOf(s.pending[0])],
      log := s.log + [Fetch(s.pending[0], DownloadsPath + LinkOf(s.pending[0]), ok)]))
  {
  }

  /** The run goes on from the state a successful claim leaves. */
  lemma RunAfterClaim(s: State, succeeds: string -> bool)
    requires CanClaim(s) && Claim(s, succeeds(s.pending[0])).Continue?
    ensures Run(s, succeeds) == Run(Claim(s, succeeds(s.pending[0])).state, succeeds)
  {
  }

  /** The run goes on from the state the barrier action leaves. */
  lemma RunAfterRendezvous(s: State, succeeds: string -> bool)
    requires !s.finished && !CanClaim(s)
    ensures Run(s, succeeds) == Run(Rendezvous(s), succeeds)
  {
  }

  /** The part lines after the head of a queue are fetchable when those of
      the whole queue are. */
  lemma FetchableTail(lines: seq<string>)
    requires lines != [] && PartsFetchable(lines)
    ensures PartsFetchable(lines[1..])
  {
    var tail := lines[1..];
    forall i | 0 <= i < |tail| && !IsHeader(tail[i]) ensures Fetchable(tail[i]) {
      assert tail[i] == lines[i + 1];
    }
  }

  /** From a running state in which the parts `xs` of the current file have
      been claimed (their links recorded, their fetches logged after `prior`),
      the protocol finishes, and its log is `prior` followed by the log of
      the jobs still described: the current file with `xs` in front of the
      parts up to the next header, then one job per later header. */
  lemma {:induction false} RunFrom(s: State, xs: seq<string>, prior: seq<Event>, succeeds: string -> bool)
    requires !s.finished && PartsFetchable(s.pending)
    requires s.parts == Links(xs) && s.log == prior + FetchLog(xs, succeeds)
    ensures Run(s, succeeds).Finished?
    ensures Run(s, succeeds).state.log
         == prior + ExpectedLog(Extend(JobsFrom(s.current, s.pending), xs), succeeds)
    decreases |s.pending|
  {
    if CanClaim(s) {
      var p := s.pending[0];
      assert Fetchable(p);
      ClaimFetchable(s, succeeds(p));
      RunAfterClaim(s, succeeds);
      var t := Claim(s, succeeds(p)).state;
      Snoc(xs, p, succeeds);
      Assoc(prior, FetchLog(xs, succeeds), [FetchOf(p, succeeds)]);
      FetchableTail(s.pending);
      RunFrom(t, xs + [p], prior, succeeds);
      ExtendTwice(JobsFrom(s.current, s.pending[1..]), xs, [p]);
    } else {
      RunAfterRendezvous(s, succeeds);
      var t := Rendezvous(s);
      var job := Job(s.current, xs);
      var fetches := FetchLog(xs, succeeds);
      var merge := [Merge(DownloadsPath, Some(s.current))];
      var deletes := DeleteAll(Links(xs));
      assert t.log == ((prior + fetches) + merge) + deletes;
      Assoc(prior, fetches, merge);
      Assoc(prior, fetches + merge, deletes);
      assert t.log == prior + JobLog(job, succeeds);
      assert xs + [] == xs;
      if s.pending == [] {
        assert Extend(JobsFrom(s.current, s.pending), xs) == [job];
        ExpectedLogCons(job, [], succeeds);
        assert JobLog(job, succeeds) + [] == JobLog(job, succeeds);
      } else {
        var next := NameAfterColon(s.pending[0]);
        var later := JobsFrom(next, s.pending[1..]);
        FetchableTail(s.pending);
        assert t.log == (prior + JobLog(job, succeeds)) + FetchLog([], succeeds);
        RunFrom(t, [], prior + JobLog(job, succeeds), succeeds);
        ExtendNothing(later);
        assert Extend(JobsFrom(s.current, s.pending), xs) == [job] + later;
        ExpectedLogCons(job, later, succeeds);
        Assoc(prior, JobLog(job, succeeds), ExpectedLog(later, succeeds));
      }
    }
  }

  /** From a running state with nothing claimed and nothing logged, the
      protocol finishes with the log of the jobs the queue describes. */
  lemma RunFromFresh(s: State, succeeds: string -> bool)
    requires !s.finished && PartsFetchable(s.pending) && s.parts == [] && s.log == []
    ensures Run(s, succeeds).Finished?
    ensures Run(s, succeeds).state.log == ExpectedLog(JobsFrom(s.current, s.pending), succeeds)
  {
    var jobs := JobsFrom(s.current, s.pending);
    assert s.parts == Links([]);
    assert s.log == [] + FetchLog([], succeeds);
    RunFrom(s, [], [], succeeds);
    ExtendNothing(jobs);
    assert [] + ExpectedLog(jobs, succeeds) == ExpectedLog(jobs, succeeds);
  }

  /** A queue whose part lines all carry a link is downloaded completely:
      the run finishes, and its log is, job after job, the fetch of every part
      in queue order, one merge of the job's name and the deletion of every
      part. */
  lemma RunQueue(lines: seq<string>, succeeds: string -> bool)
    requires lines != [] && PartsFetchable(lines[1..])
    ensures Run(Start(lines), succeeds).Finished?
    ensures Run(Start(lines), succeeds).state.log == ExpectedLog(SplitJobs(lines), succeeds)
  {
    RunFromFresh(Start(lines), succeeds);
  }

  /** A queue with an unfetchable part line still has one after a head that
      is a header or is fetchable. */
  lemma UnfetchableTail(lines: seq<string>)
    requires lines != [] && !PartsFetchable(lines)
    requires IsHeader(lines[0]) || Fetchable(lines[0])
    ensures !PartsFetchable(lines[1..])
  {
    var i :| 0 <= i < |lines| && !IsHeader(lines[i]) && !Fetchable(lines[i]);
    assert lines[1..][i - 1] == lines[i];
  }

  /** A part line without '/' kills the worker that claims it, and the run
      never finishes. */
  lemma {:induction false} RunCrashes(s: State, succeeds: string -> bool)
    requires !s.finished && !PartsFetchable(s.pending)
    ensures Run(s, succeeds).Crashed?
    decreases |s.pending|
  {
    if CanClaim(s) {
      if Fetchable(s.pending[0]) {
        UnfetchableTail(s.pending);
        RunAfterClaim(s, succeeds);
        RunCrashes(Claim(s, succeeds(s.pending[0])).state, succeeds);
      }
    } else {
      UnfetchableTail(s.pending);
      RunAfterRendezvous(s, succeeds);
      RunCrashes(Rendezvous(s), succeeds);
    }
  }

  /** `process` once the manifest has been fetched: its cleaned lines become
      the queue, the first name is taken and the workers run to the end. An
      empty manifest throws before any worker starts; any other is
      downloaded to the end exactly when every part line after its first
      line carries a '/', and then leaves the reference log of its jobs. */
  method Process(raw: seq<string>, succeeds: string -> bool) returns (queue: seq<string>, r: Result<Outcome>)
    ensures queue == CleanLines(raw)
    ensures r.Err? <==> queue == []
    ensures r.Err? ==> r.fault == NoSuchElement
    ensures r.Ok? ==> (r.value.Finished? <==> PartsFetchable(queue[1..]))
    ensures r.Ok? && r.value.Finished? ==> r.value.state.log == ExpectedLog(SplitJobs(queue), succeeds)
  {
    queue := CleanLines(raw);
    match Init(raw)
    case Err(e) =>
      r := Err(e);
    case Ok(s) =>
      r := Ok(Run(s, succeeds));
      if PartsFetchable(queue[1..]) {
        RunQueue(queue, succeeds);
      } else {
        RunCrashes(s, succeeds);
      }
  }
}
