/** The reading of a cleaned manifest as a list of jobs (a logical file and
    its ordered part locators), and the log a complete run over those jobs
    is expected to leave: for every job, one fetch per part in order, then
    one merge of the job's name, then one deletion per part. */
module Jobs {
  import opened Common
  import opened Text

  datatype Job = Job(name: string, parts: seq<string>)

  /** Number of header lines. */
  function CountHeaders(lines: seq<string>): nat {
    if lines == [] then 0
    else (if IsHeader(lines[0]) then 1 else 0) + CountHeaders(lines[1..])
  }

  /** The non-header lines, in order. */
  function PartLines(lines: seq<string>): seq<string> {
    if lines == [] then []
    else (if IsHeader(lines[0]) then [] else [lines[0]]) + PartLines(lines[1..])
  }

  /** The file names of the header lines, in order. */
  function HeaderNames(lines: seq<string>): seq<string> {
    if lines == [] then []
    else (if IsHeader(lines[0]) then [NameAfterColon(lines[0])] else []) + HeaderNames(lines[1..])
  }

  /** The names of a job list. */
  function Names(jobs: seq<Job>): seq<string> {
    if jobs == [] then [] else [jobs[0].name] + Names(jobs[1..])
  }

  /** The parts of a job list, job after job. */
  function AllParts(jobs: seq<Job>): seq<string> {
    if jobs == [] then [] else jobs[0].parts + AllParts(jobs[1..])
  }

  /** `jobs` with `prefix` put in front of the parts of its first job. */
  function Extend(jobs: seq<Job>, prefix: seq<string>): (r: seq<Job>)
    requires jobs != []
    ensures |r| == |jobs| && r[1..] == jobs[1..]
    ensures r[0] == Job(jobs[0].name, prefix + jobs[0].parts)
  {
    [Job(jobs[0].name, prefix + jobs[0].parts)] + jobs[1..]
  }

  /** Putting two prefixes in front of the first job, one after the other. */
  lemma ExtendTwice(jobs: seq<Job>, a: seq<string>, b: seq<string>)
    requires jobs != []
    ensures Extend(Extend(jobs, b), a) == Extend(jobs, a + b)
  {
    assert a + (b + jobs[0].parts) == (a + b) + jobs[0].parts;
  }

  /** Putting nothing in front changes nothing. */
  lemma ExtendNothing(jobs: seq<Job>)
    requires jobs != []
    ensures Extend(jobs, []) == jobs
  {
    assert [] + jobs[0].parts == jobs[0].parts;
  }

  /** The jobs of a line list whose current job is called `name` and whose
      remaining lines are `rest`, read one line at a time: a part line
      belongs to the current job, a header closes it and opens a job of its
      own under the name after its last ':'. */
  function JobsFrom(name: string, rest: seq<string>): (r: seq<Job>)
    ensures r != [] && r[0].name == name
    decreases |rest|
  {
    if rest == [] then [Job(name, [])]
    else if IsHeader(rest[0]) then [Job(name, [])] + JobsFrom(NameAfterColon(rest[0]), rest[1..])
    else Extend(JobsFrom(name, rest[1..]), [rest[0]])
  }

  /** One job per header after the current one. */
  lemma {:induction false} JobsFromCount(name: string, rest: seq<string>)
    ensures |JobsFrom(name, rest)| == 1 + CountHeaders(rest)
    decreases |rest|
  {
    if rest != [] {
      if IsHeader(rest[0]) {
        JobsFromCount(NameAfterColon(rest[0]), rest[1..]);
      } else {
        JobsFromCount(name, rest[1..]);
      }
    }
  }

  /** The names are the current name, then the header names in order. */
  lemma {:induction false} JobsFromNames(name: string, rest: seq<string>)
    ensures Names(JobsFrom(name, rest)) == [name] + HeaderNames(rest)
    decreases |rest|
  {
    if rest == [] {
      assert Names([Job(name, [])]) == [name] + Names([]);
    } else if IsHeader(rest[0]) {
      var next := NameAfterColon(rest[0]);
      var later := JobsFrom(next, rest[1..]);
      JobsFromNames(next, rest[1..]);
      assert ([Job(name, [])] + later)[1..] == later;
      Assoc([name], [next], HeaderNames(rest[1..]));
    } else {
      var later := JobsFrom(name, rest[1..]);
      JobsFromNames(name, rest[1..]);
      assert Extend(later, [rest[0]])[1..] == later[1..];
      assert HeaderNames(rest) == [] + HeaderNames(rest[1..]);
    }
  }

  /** The parts, job after job, are exactly the part lines in order. */
  lemma {:induction false} JobsFromParts(name: string, rest: seq<string>)
    ensures AllParts(JobsFrom(name, rest)) == PartLines(rest)
    decreases |rest|
  {
    if rest == [] {
      assert AllParts([Job(name, [])]) == [] + AllParts([]);
    } else if IsHeader(rest[0]) {
      var later := JobsFrom(NameAfterColon(rest[0]), rest[1..]);
      JobsFromParts(NameAfterColon(rest[0]), rest[1..]);
      assert ([Job(name, [])] + later)[1..] == later;
      assert AllParts([Job(name, [])] + later) == [] + AllParts(later);
      assert PartLines(rest) == [] + PartLines(rest[1..]);
    } else {
      var later := JobsFrom(name, rest[1..]);
      JobsFromParts(name, rest[1..]);
      var r := Extend(later, [rest[0]]);
      assert AllParts(r) == ([rest[0]] + later[0].parts) + AllParts(later[1..]);
      Assoc([rest[0]], later[0].parts, AllParts(later[1..]));
    }
  }

  /** The first job's parts are the longest header-free run of lines at the
      front of `rest`: the line after them, if any, is a header. */
  lemma {:induction false} JobsFromFirst(name: string, rest: seq<string>)
    ensures var k := |JobsFrom(name, rest)[0].parts|;
      && k <= |rest|
      && JobsFrom(name, rest)[0].parts == rest[..k]
      && (forall i :: 0 <= i < k ==> !IsHeader(rest[i]))
      && (k < |rest| ==> IsHeader(rest[k]))
    decreases |rest|
  {
    if rest != [] && !IsHeader(rest[0]) {
      JobsFromFirst(name, rest[1..]);
      var p := JobsFrom(name, rest[1..])[0].parts;
      assert [rest[0]] + rest[1..][..|p|] == rest[..|p| + 1];
      forall i | 1 <= i <= |p| ensures !IsHeader(rest[i]) {
        assert rest[i] == rest[1..][i - 1];
      }
    }
  }

  /** The jobs of a whole cleaned manifest. Its first line opens the first job
      whether or not it is a header, as FileDownloader's first
      nextFileToDownload takes it unconditionally. */
  function SplitJobs(lines: seq<string>): (r: seq<Job>)
    ensures lines == [] <==> r == []
  {
    if lines == [] then [] else JobsFrom(NameAfterColon(lines[0]), lines[1..])
  }

  /** A manifest of lines yields one job for its first line and one per later
      header, named after those lines, and its part lines in order. */
  lemma SplitJobsShape(lines: seq<string>)
    requires lines != []
    ensures |SplitJobs(lines)| == 1 + CountHeaders(lines[1..])
    ensures Names(SplitJobs(lines)) == [NameAfterColon(lines[0])] + HeaderNames(lines[1..])
    ensures AllParts(SplitJobs(lines)) == PartLines(lines[1..])
  {
    JobsFromCount(NameAfterColon(lines[0]), lines[1..]);
    JobsFromNames(NameAfterColon(lines[0]), lines[1..]);
    JobsFromParts(NameAfterColon(lines[0]), lines[1..]);
  }

  /** A part can be fetched when its locator has a '/' to take the link from. */
  predicate Fetchable(part: string) {
    '/' in part
  }

  /** Every part line of a line list is fetchable. */
  predicate PartsFetchable(lines: seq<string>) {
    forall i :: 0 <= i < |lines| && !IsHeader(lines[i]) ==> Fetchable(lines[i])
  }

  predicate AllFetchable(parts: seq<string>) {
    forall k :: 0 <= k < |parts| ==> Fetchable(parts[k])
  }

  /** The part lines of a list whose part lines are fetchable are fetchable. */
  lemma {:induction false} PartLinesFetchable(lines: seq<string>)
    requires PartsFetchable(lines)
    ensures AllFetchable(PartLines(lines))
  {
    if lines != [] {
      var tail := lines[1..];
      assert PartsFetchable(tail) by {
        forall i | 0 <= i < |tail| && !IsHeader(tail[i]) ensures Fetchable(tail[i]) {
          assert tail[i] == lines[i + 1];
        }
      }
      PartLinesFetchable(tail);
      var head := if IsHeader(lines[0]) then [] else [lines[0]];
      assert PartLines(lines) == head + PartLines(tail);
    }
  }

  /** The link of a part locator. A locator without '/' never gets as far as
      a fetch (its worker dies first), so what stands in for it is immaterial. */
  function LinkOf(part: string): (r: string)
    ensures Fetchable(part) ==> Link(part) == Ok(r)
  {
    match Link(part)
    case Ok(link) => link
    case Err(_) => ""
  }

  /** The link of each part, in order. */
  function Links(parts: seq<string>): (r: seq<string>)
    ensures |r| == |parts|
  {
    if parts == [] then [] else Links(parts[..|parts| - 1]) + [LinkOf(parts[|parts| - 1])]
  }

  /** The fetch of a part into the downloads directory under its link, with
      the outcome `succeeds` gives its locator. */
  function FetchOf(part: string, succeeds: string -> bool): Event {
    Fetch(part, DownloadsPath + LinkOf(part), succeeds(part))
  }

  /** One fetch per part, in order. */
  function FetchLog(parts: seq<string>, succeeds: string -> bool): (r: seq<Event>)
    ensures |r| == |parts|
  {
    if parts == [] then []
    else FetchLog(parts[..|parts| - 1], succeeds) + [FetchOf(parts[|parts| - 1], succeeds)]
  }

  /** Recording one more part extends the links and the fetches by that part. */
  lemma Snoc(parts: seq<string>, p: string, succeeds: string -> bool)
    ensures Links(parts + [p]) == Links(parts) + [LinkOf(p)]
    ensures FetchLog(parts + [p], succeeds) == FetchLog(parts, succeeds) + [FetchOf(p, succeeds)]
  {
    assert (parts + [p])[..|parts|] == parts;
  }

  /** The effects of one complete job cycle: fetch the parts, merge, delete the parts. */
  function JobLog(job: Job, succeeds: string -> bool): seq<Event> {
    FetchLog(job.parts, succeeds) + [Merge(DownloadsPath, Some(job.name))] + DeleteAll(Links(job.parts))
  }

  /** The effects of a complete run over `jobs`, job after job. */
  function ExpectedLog(jobs: seq<Job>, succeeds: string -> bool): seq<Event> {
    if jobs == [] then []
    else JobLog(jobs[0], succeeds) + ExpectedLog(jobs[1..], succeeds)
  }

  /** A run that goes through the jobs one after the other leaves the
      concatenation of their logs. */
  lemma ExpectedLogCons(job: Job, jobs: seq<Job>, succeeds: string -> bool)
    ensures ExpectedLog([job] + jobs, succeeds) == JobLog(job, succeeds) + ExpectedLog(jobs, succeeds)
  {
    assert ([job] + jobs)[1..] == jobs;
  }
}
