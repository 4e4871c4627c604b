/** FileDownloader2, as written: the manifest is read into a list of file
    names and one group of part locators per name. Workers claim parts from
    the first group while the name list is non-empty; once that group is
    empty they wait at the barrier, whose action merges the current file,
    deletes what is left of the first group, drops it and polls the next name.

    Every step is atomic and the pool is not modelled: a claim runs whenever
    a name is still queued and the first group has a part, and the barrier
    action runs when a name is queued and the first group has none. */
module Downloader2 {
  import opened Common
  import opened Text
  import opened Jobs
  import opened Grouping

  /** The fields of a FileDownloader2 the core reads and writes: namefiles,
      listalistas, currentDownload (null is `None`) and processFinished, plus
      the log of effects on the outside world. */
  datatype State = State(
    names: seq<string>,
    groups: seq<seq<string>>,
    current: Option<string>,
    finished: bool,
    log: seq<Event>)

  datatype Step = Continue(state: State) | WorkerDied(state: State, fault: Fault)

  /** How a sequential run of the protocol ends: with processFinished set;
      with a thread dead of an exception; or stalled, every worker spinning
      in its outer loop because the name list is empty while
      processFinished is still false. */
  datatype Outcome = Finished(state: State) | Crashed(state: State) | Stalled(state: State)

  /** nextFileToDownload: `namefiles.poll()`, which yields null on an empty list. */
  function Poll(s: State): (r: State)
    ensures s.names == [] ==> r.names == [] && r.current == None
    ensures s.names != [] ==> r.names == s.names[1..] && r.current == Some(s.names[0])
    ensures r.groups == s.groups && r.finished == s.finished && r.log == s.log
  {
    if s.names == [] then s.(current := None)
    else s.(names := s.names[1..], current := Some(s.names[0]))
  }

  /** The state the workers start from once the lists are read: the first
      name polled, nothing logged. */
  function Start(m: Manifest): (r: State)
    ensures r.groups == m.groups && !r.finished && r.log == []
    ensures m.names == [] ==> r.names == [] && r.current == None
    ensures m.names != [] ==> r.names == m.names[1..] && r.current == Some(m.names[0])
  {
    Poll(State(m.names, m.groups, None, false, []))
  }

  /** `process` after the manifest has been fetched: group the cleaned lines,
      then poll the first name. A part line before any header makes the
      reader throw, and no worker starts. */
  function Init(raw: seq<string>): (r: Result<State>)
    ensures r.Err? <==> Parse(CleanLines(raw)).Err?
    ensures r.Err? ==> r.fault == IndexOutOfBounds
    ensures r.Ok? ==> r.value == Start(Parse(CleanLines(raw)).value)
  {
    match Parse(CleanLines(raw))
    case Err(e) => Err(e)
    case Ok(m) => Ok(Start(m))
  }

  /** The guard of the claiming branch: processFinished is false, the name
      list is non-empty (the inner loop's test) and the first group has a part. */
  predicate CanClaim(s: State) {
    !s.finished && s.names != [] && s.groups != [] && s.groups[0] != []
  }

  /** The barrier is awaited when the inner loop runs and the first group is empty. */
  predicate AtBarrier(s: State) {
    !s.finished && s.names != [] && s.groups != [] && s.groups[0] == []
  }

  /** One pass of the claiming branch: remove the first part of the first
      group, take its link and fetch it (with outcome `ok`). The part is
      removed before the link is taken, so a part without '/' is lost
      together with the worker that claimed it. No link is recorded. */
  function Claim(s: State, ok: bool): (r: Step)
    requires CanClaim(s)
    ensures |r.state.groups| == |s.groups| && r.state.groups[1..] == s.groups[1..]
    ensures [s.groups[0][0]] + r.state.groups[0] == s.groups[0]
    ensures r.state.names == s.names && r.state.current == s.current && r.state.finished == s.finished
    ensures r.WorkerDied? <==> '/' !in s.groups[0][0]
    ensures r.WorkerDied? ==> r.fault == StringIndexOutOfBounds && r.state.log == s.log
    ensures r.Continue? ==>
      && Link(s.groups[0][0]).Ok?
      && r.state.log == s.log + [Fetch(s.groups[0][0], DownloadsPath + Link(s.groups[0][0]).value, ok)]
  {
    var part := s.groups[0][0];
    var t := s.(groups := [s.groups[0][1..]] + s.groups[1..]);
    match Link(part)
    case Err(e) => WorkerDied(t, e)
    case Ok(link) => Continue(t.(log := s.log + [Fetch(part, DownloadsPath + link, ok)]))
  }

  /** downloadCompleted, the barrier action: merge the current file, delete
      `downloads/` followed by every locator still in the first group, drop
      that group and poll the next name. With no group at all the merge has
      already happened when `listalistas.get(0)` throws, and the thread that
      ran the action dies. The test that follows, whether the group list is
      empty, comes after `get(0)` has succeeded, so it always takes the
      non-empty branch and processFinished is never set. */
  function Rendezvous(s: State): (r: Step)
    ensures r.WorkerDied? <==> s.groups == []
    ensures r.WorkerDied? ==>
      r.fault == IndexOutOfBounds && r.state == s.(log := s.log + [Merge(DownloadsPath, s.current)])
    ensures r.Continue? ==> r.state.log == s.log + [Merge(DownloadsPath, s.current)] + DeleteAll(s.groups[0])
    ensures r.Continue? ==> r.state.groups == s.groups[1..] && r.state.finished == s.finished
    ensures r.Continue? ==> r.state == Poll(r.state.(names := s.names, current := s.current))
  {
    var merged := s.(log := s.log + [Merge(DownloadsPath, s.current)]);
    if s.groups == [] then WorkerDied(merged, IndexOutOfBounds)
    else Continue(Poll(merged.(groups := s.groups[1..], log := merged.log + DeleteAll(s.groups[0]))))
  }

  /** While there is one more group than queued names, as after the first
      poll, the barrier never trips on the last group, so the test of
      whether the group list is empty always finds it non-empty. */
  lemma BarrierNotOnLastGroup(s: State)
    requires |s.groups| == |s.names| + 1 && AtBarrier(s)
    ensures |s.groups| >= 2 && Rendezvous(s).Continue? && !Rendezvous(s).state.finished
  {
  }

  /** Size of the first group; 0 when there is none. */
  function FirstGroupSize(s: State): nat {
    if s.groups == [] then 0 else |s.groups[0]|
  }

  /** The protocol run to its end, one atomic step at a time. Download
      outcomes come from `succeeds`, a function of the part's locator. With
      the name list empty and processFinished false every worker spins
      without effect, which ends the model's run as `Stalled`. */
  function Run(s: State, succeeds: string -> bool): (r: Outcome)
    ensures r.Finished? ==> s.finished
    ensures r.Stalled? ==> r.state.names == [] && !r.state.finished
    ensures s.log <= r.state.log
    decreases |s.names|, FirstGroupSize(s)
  {
    if s.finished then Finished(s)
    else if s.names == [] then Stalled(s)
    else if s.groups == [] then Crashed(s)
    else if s.groups[0] != [] then
      match Claim(s, succeeds(s.groups[0][0]))
      case Continue(t) => Run(t, succeeds)
      case WorkerDied(t, _) => Crashed(t)
    else
      Run(Rendezvous(s).state, succeeds)
  }

  /** The effects of a job that is downloaded and merged but whose parts are
      never deleted. */
  function MergedJobLog(job: Job, succeeds: string -> bool): seq<Event> {
    FetchLog(job.parts, succeeds) + [Merge(DownloadsPath, Some(job.name))]
  }

  function MergedLog(jobs: seq<Job>, succeeds: string -> bool): seq<Event> {
    if jobs == [] then []
    else MergedJobLog(jobs[0], succeeds) + MergedLog(jobs[1..], succeeds)
  }

  /** The jobs a running state still describes, with the parts `xs` of the
      current file already fetched. */
  function Pending(s: State, xs: seq<string>): seq<Job>
    requires s.current.Some? && |s.groups| == |s.names| + 1
  {
    Remaining(s.current.value, xs, s.names, s.groups)
  }

  /** Every part of every group but the last carries a link. The last
      group is never claimed from, so its parts do not matter. */
  predicate EarlierFetchable(groups: seq<seq<string>>) {
    forall i, j :: 0 <= i < |groups| - 1 && 0 <= j < |groups[i]| ==> Fetchable(groups[i][j])
  }

  /** The same, stated on the groups before the last. */
  lemma EarlierFetchableFront(groups: seq<seq<string>>)
    requires groups != []
    ensures EarlierFetchable(groups) <==> GroupsFetchable(groups[..|groups| - 1])
  {
    var front := groups[..|groups| - 1];
    if GroupsFetchable(front) {
      forall i, j | 0 <= i < |groups| - 1 && 0 <= j < |groups[i]| ensures Fetchable(groups[i][j]) {
        assert groups[i] == front[i];
      }
    }
  }

  /** A claim of a part with a link: the run goes on from a state whose
      first group lost that part and whose log gained its fetch. */
  lemma ClaimStep(s: State, succeeds: string -> bool) returns (t: State)
    requires CanClaim(s) && |s.groups| >= 2 && EarlierFetchable(s.groups)
    ensures Run(s, succeeds) == Run(t, succeeds)
    ensures t == s.(groups := t.groups, log := s.log + [FetchOf(s.groups[0][0], succeeds)])
    ensures |t.groups| == |s.groups| && t.groups[1..] == s.groups[1..]
    ensures [s.groups[0][0]] + t.groups[0] == s.groups[0]
    ensures EarlierFetchable(t.groups)
  {
    var p := s.groups[0][0];
    assert Fetchable(p);
    t := Claim(s, succeeds(p)).state;
    forall i, j | 0 <= i < |t.groups| - 1 && 0 <= j < |t.groups[i]| ensures Fetchable(t.groups[i][j]) {
      if i == 0 {
        assert t.groups[0][j] == s.groups[0][j + 1];
      } else {
        assert t.groups[i] == s.groups[i];
      }
    }
  }

  /** The barrier action from an empty first group: the run goes on from a
      state that logged the merge alone, dropped the group and polled. */
  lemma BarrierStep(s: State, succeeds: string -> bool) returns (t: State)
    requires AtBarrier(s) && EarlierFetchable(s.groups)
    ensures Rendezvous(s) == Continue(t)
    ensures Run(s, succeeds) == Run(t, succeeds)
    ensures t.log == s.log + [Merge(DownloadsPath, s.current)]
    ensures t.groups == s.groups[1..] && t.names == s.names[1..] && t.current == Some(s.names[0])
    ensures !t.finished && EarlierFetchable(t.groups)
  {
    t := Rendezvous(s).state;
    assert DeleteAll(s.groups[0]) == [];
    forall i, j | 0 <= i < |t.groups| - 1 && 0 <= j < |t.groups[i]| ensures Fetchable(t.groups[i][j]) {
      assert t.groups[i] == s.groups[i + 1];
    }
  }

  /** The merged log of all jobs but the last, one job at a time. */
  lemma MergedButLast(job: Job, later: seq<Job>, succeeds: string -> bool)
    requires later != []
    ensures var jobs := [job] + later;
      MergedLog(jobs[..|jobs| - 1], succeeds)
        == MergedJobLog(job, succeeds) + MergedLog(later[..|later| - 1], succeeds)
  {
    var jobs := [job] + later;
    assert jobs[..|jobs| - 1] == [job] + later[..|later| - 1];
    assert ([job] + later[..|later| - 1])[1..] == later[..|later| - 1];
  }

  /** A run over `jobs` that stalls in `e`: every job but the last fetched and
      merged after `prior` and nothing deleted, while the last job's group is
      untouched and its name stays current. */
  predicate StallsBefore(jobs: seq<Job>, prior: seq<Event>, succeeds: string -> bool, e: State) {
    && jobs != []
    && e.groups == [jobs[|jobs| - 1].parts]
    && e.current == Some(jobs[|jobs| - 1].name)
    && e.log == prior + MergedLog(jobs[..|jobs| - 1], succeeds)
  }

  /** The end state `e` a run from `s` stalls in, given the parts `xs` of the
      current file already fetched after `prior`. */
  predicate StallShape(s: State, xs: seq<string>, prior: seq<Event>, succeeds: string -> bool, e: State)
    requires s.current.Some? && |s.groups| == |s.names| + 1
  {
    StallsBefore(Pending(s, xs), prior, succeeds, e)
  }

  /** Stalling before the last of `later`, after one more merged job. */
  lemma StallsBeforeCons(job: Job, later: seq<Job>, prior: seq<Event>, succeeds: string -> bool, e: State)
    requires StallsBefore(later, prior + MergedJobLog(job, succeeds), succeeds, e)
    ensures StallsBefore([job] + later, prior, succeeds, e)
  {
    var jobs := [job] + later;
    assert jobs[|jobs| - 1] == later[|later| - 1];
    MergedButLast(job, later, succeeds);
    Assoc(prior, MergedJobLog(job, succeeds), MergedLog(later[..|later| - 1], succeeds));
  }

  /** A claim keeps the jobs described and moves one part from the group to
      the fetched parts. */
  lemma ClaimCase(s: State, xs: seq<string>, prior: seq<Event>, succeeds: string -> bool, t: State, e: State)
    requires s.groups != [] && s.groups[0] != [] && s.current.Some? && |s.groups| == |s.names| + 1
    requires t == s.(groups := t.groups, log := t.log)
    requires |t.groups| == |s.groups| && t.groups[1..] == s.groups[1..]
    requires [s.groups[0][0]] + t.groups[0] == s.groups[0]
    requires StallShape(t, xs + [s.groups[0][0]], prior, succeeds, e)
    ensures StallShape(s, xs, prior, succeeds, e)
  {
    RemainingClaim(s.current.value, xs, s.names, s.groups, t.groups);
  }

  /** The barrier action closes the first job, which is then merged. */
  lemma BarrierCase(s: State, xs: seq<string>, prior: seq<Event>, succeeds: string -> bool, t: State, e: State)
    requires s.names != [] && s.groups != [] && s.groups[0] == []
    requires s.current.Some? && |s.groups| == |s.names| + 1
    requires t.groups == s.groups[1..] && t.names == s.names[1..] && t.current == Some(s.names[0])
    requires StallShape(t, [], prior + MergedJobLog(Job(s.current.value, xs), succeeds), succeeds, e)
    ensures StallShape(s, xs, prior, succeeds, e)
  {
    RemainingNext(s.current.value, xs, s.names, s.groups);
    var later := Remaining(s.names[0], [], s.names[1..], s.groups[1..]);
    assert Pending(t, []) == later;
    StallsBeforeCons(Job(s.current.value, xs), later, prior, succeeds, e);
  }

  /** From a running state in which the parts `xs` of the current file have
      been fetched (logged after `prior`), the run stalls in the state
      `StallShape` describes. */
  lemma {:induction false} RunStalls(s: State, xs: seq<string>, prior: seq<Event>, succeeds: string -> bool)
    requires !s.finished && s.current.Some? && |s.groups| == |s.names| + 1
    requires EarlierFetchable(s.groups)
    requires s.log == prior + FetchLog(xs, succeeds)
    requires s.names == [] ==> xs == []
    ensures Run(s, succeeds).Stalled?
    ensures StallShape(s, xs, prior, succeeds, Run(s, succeeds).state)
    decreases |s.names|, |s.groups[0]|
  {
    if s.names == [] {
      assert Run(s, succeeds) == Stalled(s);
      assert xs + s.groups[0] == s.groups[0];
      assert s.log == prior + [];
    } else if s.groups[0] != [] {
      var p := s.groups[0][0];
      var t := ClaimStep(s, succeeds);
      Snoc(xs, p, succeeds);
      Assoc(prior, FetchLog(xs, succeeds), [FetchOf(p, succeeds)]);
      RunStalls(t, xs + [p], prior, succeeds);
      ClaimCase(s, xs, prior, succeeds, t, Run(t, succeeds).state);
    } else {
      var t := BarrierStep(s, succeeds);
      var job := Job(s.current.value, xs);
      Assoc(prior, FetchLog(xs, succeeds), [Merge(DownloadsPath, s.current)]);
      var prior' := prior + MergedJobLog(job, succeeds);
      assert t.log == prior' + FetchLog([], succeeds);
      RunStalls(t, [], prior', succeeds);
      BarrierCase(s, xs, prior, succeeds, t, Run(t, succeeds).state);
    }
  }

  /** Lists with at least one name whose parts, in every group but the
      last, carry a link are never completed: the run stalls after fetching
      and merging every file but the last, deletes nothing, and never
      touches the last file's group, whose name stays current. */
  lemma RunLists(m: Manifest, succeeds: string -> bool)
    requires |m.names| == |m.groups| >= 1 && GroupsFetchable(m.groups[..|m.groups| - 1])
    ensures var k := |m.names|;
      var r := Run(Start(m), succeeds);
      && r.Stalled?
      && r.state.groups == [m.groups[k - 1]]
      && r.state.current == Some(m.names[k - 1])
      && r.state.log == MergedLog(JobsOf(m)[..k - 1], succeeds)
  {
    EarlierFetchableFront(m.groups);
    var s := Start(m);
    assert s.log == [] + FetchLog([], succeeds);
    RunStalls(s, [], [], succeeds);
    RemainingStart(m);
    assert Pending(s, []) == JobsOf(m);
    var k := |m.names|;
    assert [] + MergedLog(JobsOf(m)[..k - 1], succeeds) == MergedLog(JobsOf(m)[..k - 1], succeeds);
  }

  /** From a running state, a part without '/' in any group but the last
      is claimed sooner or later, and the worker that claims it dies. */
  lemma {:induction false} RunCrashes(s: State, succeeds: string -> bool)
    requires !s.finished && |s.groups| == |s.names| + 1 && !EarlierFetchable(s.groups)
    ensures Run(s, succeeds).Crashed?
    decreases |s.names|, FirstGroupSize(s)
  {
    var n := |s.groups| - 1;
    var i, j :| 0 <= i < n && 0 <= j < |s.groups[i]| && !Fetchable(s.groups[i][j]);
    if s.groups[0] != [] {
      var step := Claim(s, succeeds(s.groups[0][0]));
      if step.Continue? {
        var t := step.state;
        if i == 0 {
          assert j > 0 && t.groups[0][j - 1] == s.groups[0][j];
        } else {
          assert t.groups[i] == s.groups[i];
        }
        RunCrashes(t, succeeds);
      }
    } else {
      var t := Rendezvous(s).state;
      assert t.groups[i - 1] == s.groups[i];
      RunCrashes(t, succeeds);
    }
  }

  /** No event of the log is a deletion. */
  predicate NoDeletion(log: seq<Event>) {
    forall i :: 0 <= i < |log| ==> !log[i].Delete?
  }

  /** Whatever the manifest and the download outcomes, a run adds no
      deletion to the log: the barrier action deletes only what is left of
      the first group, and the barrier trips only once that group is empty. */
  lemma {:induction false} RunNeverDeletes(s: State, succeeds: string -> bool)
    requires NoDeletion(s.log)
    ensures NoDeletion(Run(s, succeeds).state.log)
    decreases |s.names|, FirstGroupSize(s)
  {
    if !s.finished && s.names != [] && s.groups != [] {
      if s.groups[0] != [] {
        var step := Claim(s, succeeds(s.groups[0][0]));
        if step.Continue? {
          RunNeverDeletes(step.state, succeeds);
        }
      } else {
        var t := Rendezvous(s).state;
        assert DeleteAll(s.groups[0]) == [];
        assert t.log == s.log + [Merge(DownloadsPath, s.current)];
        RunNeverDeletes(t, succeeds);
      }
    }
  }

  /** A manifest of a single file (one header, any parts): the run stalls
      with an empty log, no part fetched and the file never merged. */
  lemma SingleFileNeverDownloaded(m: Manifest, succeeds: string -> bool)
    requires |m.names| == 1 && |m.groups| == 1
    ensures var r := Run(Start(m), succeeds);
      r.Stalled? && r.state.log == [] && r.state.groups == m.groups
  {
    assert GroupsFetchable(m.groups[..0]);
    RunLists(m, succeeds);
    assert JobsOf(m)[..0] == [];
  }

  /** How a run from read lists with at least one name ends, as written:
      when the parts before the last group carry a link, it stalls with
      only the last group left, untouched, its name current, and the
      fetches and merges of every other file logged; otherwise a worker
      dies. */
  predicate EndsAsWritten(m: Manifest, r: Outcome, succeeds: string -> bool)
    requires |m.names| == |m.groups| >= 1
  {
    var k := |m.names|;
    if GroupsFetchable(m.groups[..k - 1]) then
      && r.Stalled?
      && r.state.groups == [m.groups[k - 1]]
      && r.state.current == Some(m.names[k - 1])
      && r.state.log == MergedLog(JobsOf(m)[..k - 1], succeeds)
    else r.Crashed?
  }

  /** The run from lists that were read: it deletes nothing, stalls at once
      when there is no name, and otherwise stalls as `RunLists` describes
      when the parts before the last group carry a link, and crashes when
      one of them does not. */
  lemma RunRead(m: Manifest, succeeds: string -> bool)
    requires |m.names| == |m.groups|
    ensures NoDeletion(Run(Start(m), succeeds).state.log)
    ensures m.names == [] ==> Run(Start(m), succeeds) == Stalled(State([], [], None, false, []))
    ensures m.names != [] ==> EndsAsWritten(m, Run(Start(m), succeeds), succeeds)
  {
    RunNeverDeletes(Start(m), succeeds);
    if m.names == [] {
      assert Start(m) == State([], [], None, false, []);
    } else if GroupsFetchable(m.groups[..|m.groups| - 1]) {
      RunLists(m, succeeds);
    } else {
      EarlierFetchableFront(m.groups);
      RunCrashes(Start(m), succeeds);
    }
  }

  /** `process` once the manifest has been fetched: group its cleaned lines,
      poll the first name and run the workers. A part line before the first
      header makes the reader throw. Every other manifest runs without
      deleting anything. With no name at all it stalls at once with nothing
      done. Otherwise, when the parts before the last group carry a link, it
      stalls after fetching and merging every file but the last, whose group
      is never touched; when one of them does not, a worker dies. */
  method Process(raw: seq<string>, succeeds: string -> bool) returns (lines: seq<string>, r: Result<Outcome>)
    ensures lines == CleanLines(raw)
    ensures r.Err? <==> Parse(lines).Err?
    ensures r.Err? ==> r.fault == IndexOutOfBounds
    ensures r.Ok? ==> NoDeletion(r.value.state.log)
    ensures r.Ok? && Parse(lines).value.names == [] ==> r.value == Stalled(State([], [], None, false, []))
    ensures r.Ok? && Parse(lines).value.names != [] ==> EndsAsWritten(Parse(lines).value, r.value, succeeds)
  {
    lines := CleanLines(raw);
    match Parse(lines)
    case Err(e) =>
      r := Err(e);
    case Ok(m) =>
      assert Parse(lines).value == m;
      RunRead(m, succeeds);
      r := Ok(Run(Start(m), succeeds));
  }
}
