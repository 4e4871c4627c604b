/** FileDownloader2 with its defects corrected. Four things differ from
    the code as written:
    - workers keep claiming from the first group while processFinished is
      false, not only while names remain to be polled, so the last file is
      downloaded too;
    - each claimed link is recorded, as FileDownloader records it in
      partsFile, and the barrier action deletes the recorded links, that is
      the parts it has just merged;
    - the barrier action finishes the run when the group it drops is the
      last one (as written it tests the group list for emptiness before
      dropping, so it never finishes);
    - a manifest with no file name at all finishes at once, with nothing
      done, instead of leaving the workers spinning.
    Reading the manifest, polling names and claiming parts are as written. */
module Downloader2Fixed {
  import opened Common
  import opened Text
  import opened Jobs
  import opened Grouping
  import First = Downloader1

  /** As in FileDownloader2, plus `done`, the links claimed for the current
      file (FileDownloader's partsFile). */
  datatype State = State(
    names: seq<string>,
    groups: seq<seq<string>>,
    current: Option<string>,
    done: seq<string>,
    finished: bool,
    log: seq<Event>)

  datatype Step = Continue(state: State) | WorkerDied(state: State, fault: Fault)

  datatype Outcome = Finished(state: State) | Crashed(state: State)

  /** The state the workers start from once the lists are read: the first
      name polled, or, with no name at all, nothing to do. */
  function Start(m: Manifest): (r: State)
    ensures r.groups == m.groups && r.done == [] && r.log == []
    ensures r.finished <==> m.names == []
    ensures m.names != [] ==> r.names == m.names[1..] && r.current == Some(m.names[0])
  {
    if m.names == [] then State([], m.groups, None, [], true, [])
    else State(m.names[1..], m.groups, Some(m.names[0]), [], false, [])
  }

  /** Read the manifest as FileDownloader2 does, then start. */
  function Init(raw: seq<string>): (r: Result<State>)
    ensures r.Err? <==> Parse(CleanLines(raw)).Err?
    ensures r.Ok? ==> r.value == Start(Parse(CleanLines(raw)).value)
  {
    match Parse(CleanLines(raw))
    case Err(e) => Err(e)
    case Ok(m) => Ok(Start(m))
  }

  predicate CanClaim(s: State) {
    !s.finished && s.groups != [] && s.groups[0] != []
  }

  /** Claim the first part of the first group, fetch it and record its link. */
  function Claim(s: State, ok: bool): (r: Step)
    requires CanClaim(s)
    ensures |r.state.groups| == |s.groups| && r.state.groups[1..] == s.groups[1..]
    ensures [s.groups[0][0]] + r.state.groups[0] == s.groups[0]
    ensures r.state.names == s.names && r.state.current == s.current && r.state.finished == s.finished
    ensures r.WorkerDied? <==> '/' !in s.groups[0][0]
    ensures r.WorkerDied? ==> r.fault == StringIndexOutOfBounds && r.state.log == s.log && r.state.done == s.done
    ensures r.Continue? ==>
      && Link(s.groups[0][0]).Ok?
      && r.state.done == s.done + [Link(s.groups[0][0]).value]
      && r.state.log == s.log + [Fetch(s.groups[0][0], DownloadsPath + Link(s.groups[0][0]).value, ok)]
  {
    var part := s.groups[0][0];
    var t := s.(groups := [s.groups[0][1..]] + s.groups[1..]);
    match Link(part)
    case Err(e) => WorkerDied(t, e)
    case Ok(link) =>
      Continue(t.(done := s.done + [link], log := s.log + [Fetch(part, DownloadsPath + link, ok)]))
  }

  /** The barrier action: merge the current file, delete the recorded links,
      drop the first group, then finish if it was the last or poll the next
      name otherwise. */
  function Rendezvous(s: State): (r: State)
    requires s.groups != []
    ensures r.log == s.log + [Merge(DownloadsPath, s.current)] + DeleteAll(s.done)
    ensures r.groups == s.groups[1..] && r.done == []
    ensures r.finished <==> s.finished || |s.groups| == 1
    ensures |s.groups| > 1 && s.names != [] ==> r.names == s.names[1..] && r.current == Some(s.names[0])
  {
    var t := s.(groups := s.groups[1..], done := [],
                log := s.log + [Merge(DownloadsPath, s.current)] + DeleteAll(s.done));
    if |s.groups| == 1 then t.(finished := true)
    else if s.names == [] then t.(current := None)
    else t.(names := s.names[1..], current := Some(s.names[0]))
  }

  function FirstGroupSize(s: State): nat {
    if s.groups == [] then 0 else |s.groups[0]|
  }

  /** The worker loop run to its end, one atomic step at a time. */
  function Run(s: State, succeeds: string -> bool): (r: Outcome)
    ensures r.Finished? <==> r.state.finished
    ensures s.log <= r.state.log
    decreases |s.groups|, FirstGroupSize(s)
  {
    if s.finished then Finished(s)
    else if s.groups == [] then Crashed(s)
    else if s.groups[0] != [] then
      match Claim(s, succeeds(s.groups[0][0]))
      case Continue(t) => Run(t, succeeds)
      case WorkerDied(t, _) => Crashed(t)
    else Run(Rendezvous(s), succeeds)
  }

  /** The jobs a running state still describes, with the parts `xs` of the
      current file already claimed. */
  function Pending(s: State, xs: seq<string>): seq<Job>
    requires s.current.Some? && |s.groups| == |s.names| + 1
  {
    Remaining(s.current.value, xs, s.names, s.groups)
  }

  /** A claim of a part with a link: the run goes on from a state whose
      first group lost that part, whose record gained its link and whose
      log gained its fetch. */
  lemma ClaimStep(s: State, succeeds: string -> bool) returns (t: State)
    requires CanClaim(s) && GroupsFetchable(s.groups)
    ensures Run(s, succeeds) == Run(t, succeeds)
    ensures t == s.(groups := t.groups, done := s.done + [LinkOf(s.groups[0][0])],
                    log := s.log + [FetchOf(s.groups[0][0], succeeds)])
    ensures |t.groups| == |s.groups| && t.groups[1..] == s.groups[1..]
    ensures [s.groups[0][0]] + t.groups[0] == s.groups[0]
    ensures GroupsFetchable(t.groups)
  {
    var p := s.groups[0][0];
    assert Fetchable(p);
    t := Claim(s, succeeds(p)).state;
    forall i, j | 0 <= i < |t.groups| && 0 <= j < |t.groups[i]| ensures Fetchable(t.groups[i][j]) {
      if i == 0 {
        assert t.groups[0][j] == s.groups[0][j + 1];
      } else {
        assert t.groups[i] == s.groups[i];
      }
    }
  }

  /** The barrier action after the parts `xs` were claimed logs the rest of
      their job: the merge and the deletion of their links. */
  lemma BarrierLog(s: State, xs: seq<string>, prior: seq<Event>, succeeds: string -> bool)
    requires s.groups != [] && s.current.Some?
    requires s.done == Links(xs) && s.log == prior + FetchLog(xs, succeeds)
    ensures Rendezvous(s).log == prior + JobLog(Job(s.current.value, xs), succeeds)
  {
    var fetches := FetchLog(xs, succeeds);
    var merge := [Merge(DownloadsPath, s.current)];
    var deletes := DeleteAll(Links(xs));
    Assoc(prior, fetches, merge);
    Assoc(prior, fetches + merge, deletes);
  }

  /** The parts of every group but the first carry a link when those of all
      groups do. */
  lemma FetchableRest(groups: seq<seq<string>>)
    requires groups != [] && GroupsFetchable(groups)
    ensures GroupsFetchable(groups[1..])
  {
    var rest := groups[1..];
    forall i, j | 0 <= i < |rest| && 0 <= j < |rest[i]| ensures Fetchable(rest[i][j]) {
      assert rest[i] == groups[i + 1];
    }
  }

  /** The barrier action on the last group finishes the run with its job logged. */
  lemma LastBarrier(s: State, xs: seq<string>, prior: seq<Event>, succeeds: string -> bool)
    requires !s.finished && s.current.Some? && s.names == [] && |s.groups| == 1 && s.groups[0] == []
    requires Rendezvous(s).log == prior + JobLog(Job(s.current.value, xs), succeeds)
    ensures Run(s, succeeds).Finished?
    ensures Run(s, succeeds).state.log == prior + ExpectedLog(Pending(s, xs), succeeds)
  {
    var job := Job(s.current.value, xs);
    assert xs + [] == xs;
    assert Pending(s, xs) == [job];
    ExpectedLogCons(job, [], succeeds);
    assert JobLog(job, succeeds) + [] == JobLog(job, succeeds);
  }

  /** The barrier action on any other group closes its job and goes on with the next. */
  lemma NextBarrier(s: State, xs: seq<string>, prior: seq<Event>, succeeds: string -> bool, t: State, e: State)
    requires s.current.Some? && |s.groups| == |s.names| + 1 && s.names != [] && s.groups[0] == []
    requires t.groups == s.groups[1..] && t.names == s.names[1..] && t.current == Some(s.names[0])
    requires e.log == prior + JobLog(Job(s.current.value, xs), succeeds) + ExpectedLog(Pending(t, []), succeeds)
    ensures e.log == prior + ExpectedLog(Pending(s, xs), succeeds)
  {
    var job := Job(s.current.value, xs);
    RemainingNext(s.current.value, xs, s.names, s.groups);
    var later := Remaining(s.names[0], [], s.names[1..], s.groups[1..]);
    assert Pending(t, []) == later;
    ExpectedLogCons(job, later, succeeds);
    Assoc(prior, JobLog(job, succeeds), ExpectedLog(later, succeeds));
  }

  /** From a running state in which the parts `xs` of the current file have
      been claimed (links recorded, fetches logged after `prior`), the run
      finishes, and its log is `prior` followed by the complete log of every
      job still described: fetches, merge and deletions. */
  lemma {:induction false} RunFrom(s: State, xs: seq<string>, prior: seq<Event>, succeeds: string -> bool)
    requires !s.finished && s.current.Some? && |s.groups| == |s.names| + 1
    requires GroupsFetchable(s.groups)
    requires s.done == Links(xs) && s.log == prior + FetchLog(xs, succeeds)
    ensures Run(s, succeeds).Finished?
    ensures Run(s, succeeds).state.log == prior + ExpectedLog(Pending(s, xs), succeeds)
    decreases |s.groups|, |s.groups[0]|
  {
    if s.groups[0] != [] {
      var p := s.groups[0][0];
      var t := ClaimStep(s, succeeds);
      Snoc(xs, p, succeeds);
      Assoc(prior, FetchLog(xs, succeeds), [FetchOf(p, succeeds)]);
      RunFrom(t, xs + [p], prior, succeeds);
      RemainingClaim(s.current.value, xs, s.names, s.groups, t.groups);
      assert Pending(t, xs + [p]) == Pending(s, xs);
    } else {
      BarrierLog(s, xs, prior, succeeds);
      if s.names == [] {
        LastBarrier(s, xs, prior, succeeds);
      } else {
        var t := Rendezvous(s);
        var prior' := prior + JobLog(Job(s.current.value, xs), succeeds);
        assert t.log == prior' + FetchLog([], succeeds);
        FetchableRest(s.groups);
        RunFrom(t, [], prior', succeeds);
        NextBarrier(s, xs, prior, succeeds, t, Run(t, succeeds).state);
      }
    }
  }

  /** Lists whose parts all carry a link are downloaded completely: the run
      finishes and logs, job after job, every part fetched in order, the
      merge of the file and the deletion of every part. */
  lemma RunLists(m: Manifest, succeeds: string -> bool)
    requires |m.names| == |m.groups| && GroupsFetchable(m.groups)
    ensures Run(Start(m), succeeds).Finished?
    ensures Run(Start(m), succeeds).state.log == ExpectedLog(JobsOf(m), succeeds)
  {
    var s := Start(m);
    if m.names != [] {
      assert s.log == [] + FetchLog([], succeeds);
      RunFrom(s, [], [], succeeds);
      RemainingStart(m);
      assert Pending(s, []) == JobsOf(m);
      assert [] + ExpectedLog(JobsOf(m), succeeds) == ExpectedLog(JobsOf(m), succeeds);
    }
  }

  /** A manifest that opens with a header and whose part lines all carry a
      '/' is read without failure, and every part of every group read
      carries a '/'. */
  lemma GroupsOfFetchableLines(lines: seq<string>)
    requires lines != [] && IsHeader(lines[0]) && PartsFetchable(lines[1..])
    ensures Parse(lines).Ok? && GroupsFetchable(Parse(lines).value.groups)
  {
    assert PartLines(lines) == [] + PartLines(lines[1..]);
    PartLinesFetchable(lines[1..]);
    FlattenFetchable(Parse(lines).value.groups);
  }

  /** On a manifest that opens with a header and whose parts all carry a
      link, the corrected FileDownloader2 and FileDownloader both finish and
      leave the same log. */
  lemma AgreesWithFirstVersion(raw: seq<string>, succeeds: string -> bool)
    requires raw != [] && IsHeader(CleanLines(raw)[0]) && PartsFetchable(CleanLines(raw)[1..])
    ensures Init(raw).Ok? && First.Init(raw).Ok?
    ensures Run(Init(raw).value, succeeds).Finished?
    ensures First.Run(First.Init(raw).value, succeeds).Finished?
    ensures Run(Init(raw).value, succeeds).state.log == First.Run(First.Init(raw).value, succeeds).state.log
  {
    var lines := CleanLines(raw);
    GroupsOfFetchableLines(lines);
    RunLists(Parse(lines).value, succeeds);
    ParseMatchesSplit(lines);
    First.RunQueue(lines, succeeds);
  }

  /** The run from cleaned manifest lines that can be read: complete when
      their parts carry a link, and the same as FileDownloader's when they
      also open with a header. */
  lemma RunRead(lines: seq<string>, succeeds: string -> bool)
    ensures Parse(lines).Ok? && GroupsFetchable(Parse(lines).value.groups) ==>
      && Run(Start(Parse(lines).value), succeeds).Finished?
      && Run(Start(Parse(lines).value), succeeds).state.log == ExpectedLog(JobsOf(Parse(lines).value), succeeds)
    ensures lines != [] && IsHeader(lines[0]) && PartsFetchable(lines[1..]) ==>
      && Parse(lines).Ok?
      && Run(Start(Parse(lines).value), succeeds).Finished?
      && Run(Start(Parse(lines).value), succeeds).state.log == ExpectedLog(SplitJobs(lines), succeeds)
  {
    if lines != [] && IsHeader(lines[0]) && PartsFetchable(lines[1..]) {
      GroupsOfFetchableLines(lines);
      ParseMatchesSplit(lines);
    }
    if Parse(lines).Ok? && GroupsFetchable(Parse(lines).value.groups) {
      RunLists(Parse(lines).value, succeeds);
    }
  }

  /** `process` once the manifest has been fetched, corrected: group its
      cleaned lines, poll the first name and run the workers. A part line
      before the first header makes the reader throw; any other manifest
      whose parts carry a link is downloaded completely, and when it opens
      with a header its log is the one FileDownloader leaves. */
  method Process(raw: seq<string>, succeeds: string -> bool) returns (lines: seq<string>, r: Result<Outcome>)
    ensures lines == CleanLines(raw)
    ensures r.Err? <==> Parse(lines).Err?
    ensures r.Err? ==> r.fault == IndexOutOfBounds
    ensures r.Ok? && GroupsFetchable(Parse(lines).value.groups) ==>
      && r.value.Finished?
      && r.value.state.log == ExpectedLog(JobsOf(Parse(lines).value), succeeds)
    ensures lines != [] && IsHeader(lines[0]) && PartsFetchable(lines[1..]) ==>
      && r.Ok? && r.value.Finished?
      && r.value.state.log == ExpectedLog(SplitJobs(lines), succeeds)
  {
    lines := CleanLines(raw);
    RunRead(lines, succeeds);
    match Parse(lines)
    case Err(e) =>
      r := Err(e);
    case Ok(m) =>
      r := Ok(Run(Start(m), succeeds));
  }
}
