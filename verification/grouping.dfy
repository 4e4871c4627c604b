/** The manifest reader of FileDownloader2 (readTextFile): a left fold over
    the cleaned lines that builds the list of file names (namefiles) and,
    for each name, the group of its part lines (listalistas). */
module Grouping {
  import opened Common
  import opened Text
  import opened Jobs

  /** The two lists the reader builds. The source's running `index` is always
      the position of the last group, so it is not kept separately. */
  datatype Manifest = Manifest(names: seq<string>, groups: seq<seq<string>>)

  const Empty: Manifest := Manifest([], [])

  /** All groups, one after the other. */
  function Flatten(groups: seq<seq<string>>): seq<string> {
    if groups == [] then []
    else Flatten(groups[..|groups| - 1]) + groups[|groups| - 1]
  }

  /** Every part of every group carries a link. */
  predicate GroupsFetchable(groups: seq<seq<string>>) {
    forall i, j :: 0 <= i < |groups| && 0 <= j < |groups[i]| ==> Fetchable(groups[i][j])
  }

  /** The groups of fetchable flattened groups are fetchable. */
  lemma {:induction false} FlattenFetchable(groups: seq<seq<string>>)
    requires AllFetchable(Flatten(groups))
    ensures GroupsFetchable(groups)
  {
    if groups != [] {
      var n := |groups| - 1;
      var front := Flatten(groups[..n]);
      assert AllFetchable(front) by {
        forall k | 0 <= k < |front| ensures Fetchable(front[k]) {
          assert Flatten(groups)[k] == front[k];
        }
      }
      FlattenFetchable(groups[..n]);
      forall i, j | 0 <= i < |groups| && 0 <= j < |groups[i]| ensures Fetchable(groups[i][j]) {
        if i == n {
          assert Flatten(groups)[|front| + j] == groups[i][j];
        } else {
          assert groups[..n][i] == groups[i];
        }
      }
    }
  }

  /** One iteration of the reading loop. A header appends its name and a new
      empty group; any other line goes to the last group, and with no group
      yet the source reads `listalistas.get(-1)` and throws. */
  function AddLine(m: Manifest, line: string): (r: Result<Manifest>)
    ensures r.Err? <==> !IsHeader(line) && m.groups == []
    ensures r.Err? ==> r.fault == IndexOutOfBounds
    ensures r.Ok? && IsHeader(line) ==>
      r.value.names == m.names + [NameAfterColon(line)] && r.value.groups == m.groups + [[]]
    ensures r.Ok? && !IsHeader(line) ==>
      && r.value.names == m.names
      && |r.value.groups| == |m.groups|
      && r.value.groups[..|m.groups| - 1] == m.groups[..|m.groups| - 1]
      && r.value.groups[|m.groups| - 1] == m.groups[|m.groups| - 1] + [line]
  {
    if IsHeader(line) then
      Ok(Manifest(m.names + [NameAfterColon(line)], m.groups + [[]]))
    else if m.groups == [] then
      Err(IndexOutOfBounds)
    else
      var last := |m.groups| - 1;
      Ok(Manifest(m.names, m.groups[..last] + [m.groups[last] + [line]]))
  }

  /** What one line adds to the lists: a header adds one name and one
      group, a part line adds itself to the flattened groups. */
  lemma AddLineEffect(m: Manifest, line: string)
    requires AddLine(m, line).Ok?
    ensures var next := AddLine(m, line).value;
      && |next.names| == |m.names| + (if IsHeader(line) then 1 else 0)
      && |next.groups| == |m.groups| + (if IsHeader(line) then 1 else 0)
      && next.names == m.names + (if IsHeader(line) then [NameAfterColon(line)] else [])
      && Flatten(next.groups) == Flatten(m.groups) + (if IsHeader(line) then [] else [line])
  {
    var next := AddLine(m, line).value;
    if IsHeader(line) {
      assert next.groups[..|next.groups| - 1] == m.groups;
    } else {
      var last := |m.groups| - 1;
      assert next.groups[..last] == m.groups[..last];
      assert Flatten(m.groups) == Flatten(m.groups[..last]) + m.groups[last];
    }
  }

  /** The reading loop from the lists built so far over the remaining lines. */
  function ParseFrom(m: Manifest, lines: seq<string>): (r: Result<Manifest>)
    requires |m.names| == |m.groups|
    ensures r.Ok? <==> (m.groups != [] || lines == [] || IsHeader(lines[0]))
    ensures r.Err? ==> r.fault == IndexOutOfBounds
    ensures r.Ok? ==> |r.value.names| == |r.value.groups| == |m.groups| + CountHeaders(lines)
    ensures r.Ok? ==> r.value.names == m.names + HeaderNames(lines)
    ensures r.Ok? ==> Flatten(r.value.groups) == Flatten(m.groups) + PartLines(lines)
    decreases |lines|
  {
    if lines == [] then Ok(m)
    else
      var line := lines[0];
      var step := AddLine(m, line);
      if step.Err? then Err(step.fault)
      else
        var next := step.value;
        AddLineEffect(m, line);
        var r := ParseFrom(next, lines[1..]);
        if r.Ok? then
          Assoc(m.names, if IsHeader(line) then [NameAfterColon(line)] else [], HeaderNames(lines[1..]));
          Assoc(Flatten(m.groups), if IsHeader(line) then [] else [line], PartLines(lines[1..]));
          r
        else r
  }

  /** readTextFile over the cleaned manifest lines. */
  function Parse(lines: seq<string>): (r: Result<Manifest>)
    ensures r.Ok? <==> lines == [] || IsHeader(lines[0])
    ensures r.Ok? ==> |r.value.names| == |r.value.groups| == CountHeaders(lines)
    ensures r.Ok? ==> r.value.names == HeaderNames(lines)
    ensures r.Ok? ==> Flatten(r.value.groups) == PartLines(lines)
  {
    assert Flatten(Empty.groups) == [] && |Empty.groups| == 0;
    assert [] + HeaderNames(lines) == HeaderNames(lines);
    assert [] + PartLines(lines) == PartLines(lines);
    ParseFrom(Empty, lines)
  }

  /** The lists read as jobs: the i-th name with the i-th group. */
  function JobsOf(m: Manifest): (r: seq<Job>)
    requires |m.names| == |m.groups|
    ensures |r| == |m.names|
    ensures forall i :: 0 <= i < |r| ==> r[i] == Job(m.names[i], m.groups[i])
  {
    seq(|m.names|, i requires 0 <= i < |m.names| => Job(m.names[i], m.groups[i]))
  }

  /** The jobs of the lists are those of all but the last pair, then the last pair. */
  lemma JobsOfLast(m: Manifest)
    requires |m.names| == |m.groups| >= 1
    ensures var k := |m.groups|;
      JobsOf(m) == JobsOf(m)[..k - 1] + [Job(m.names[k - 1], m.groups[k - 1])]
  {
  }

  /** The jobs after reading the rest of the lines, in the terms of the
      lists read so far: those lists with the open group completed by the
      parts up to the next header, then one job per later header. */
  function Completed(m: Manifest, rest: seq<string>): seq<Job>
    requires |m.names| == |m.groups| >= 1
  {
    var k := |m.groups|;
    JobsOf(m)[..k - 1] + Extend(JobsFrom(m.names[k - 1], rest), m.groups[k - 1])
  }

  /** With no lines left, the lists read so far are the jobs. */
  lemma CompletedNil(m: Manifest)
    requires |m.names| == |m.groups| >= 1
    ensures Completed(m, []) == JobsOf(m)
  {
    var k := |m.groups|;
    JobsOfLast(m);
    assert JobsFrom(m.names[k - 1], []) == [Job(m.names[k - 1], [])];
    assert m.groups[k - 1] + [] == m.groups[k - 1];
  }

  /** Appending a name and its group appends one job. */
  lemma JobsOfAppend(m: Manifest, name: string, group: seq<string>)
    requires |m.names| == |m.groups|
    ensures JobsOf(Manifest(m.names + [name], m.groups + [group])) == JobsOf(m) + [Job(name, group)]
  {
  }

  /** A header closes the open group and opens a new one. */
  lemma CompletedHeader(m: Manifest, rest: seq<string>)
    requires |m.names| == |m.groups| >= 1
    requires rest != [] && IsHeader(rest[0])
    ensures AddLine(m, rest[0]).Ok?
    ensures Completed(AddLine(m, rest[0]).value, rest[1..]) == Completed(m, rest)
  {
    var k := |m.groups|;
    var name := NameAfterColon(rest[0]);
    var next := AddLine(m, rest[0]).value;
    var later := JobsFrom(name, rest[1..]);
    JobsOfAppend(m, name, []);
    assert JobsOf(next)[..k] == JobsOf(m);
    ExtendNothing(later);
    JobsOfLast(m);
    var closed := [Job(m.names[k - 1], m.groups[k - 1])];
    assert m.groups[k - 1] + [] == m.groups[k - 1];
    assert Extend(JobsFrom(m.names[k - 1], rest), m.groups[k - 1]) == closed + later;
    Assoc(JobsOf(m)[..k - 1], closed, later);
  }

  /** A part line joins the open group. */
  lemma CompletedPart(m: Manifest, rest: seq<string>)
    requires |m.names| == |m.groups| >= 1
    requires rest != [] && !IsHeader(rest[0])
    ensures AddLine(m, rest[0]).Ok?
    ensures Completed(AddLine(m, rest[0]).value, rest[1..]) == Completed(m, rest)
  {
    var k := |m.groups|;
    var next := AddLine(m, rest[0]).value;
    ExtendTwice(JobsFrom(m.names[k - 1], rest[1..]), m.groups[k - 1], [rest[0]]);
    assert JobsOf(next)[..k - 1] == JobsOf(m)[..k - 1];
  }

  /** Reading the remaining lines never fails once a group is open, and
      completes the lists read so far as `Completed` describes. */
  lemma {:induction false} ParseFromJobs(m: Manifest, rest: seq<string>)
    requires |m.names| == |m.groups| >= 1
    ensures ParseFrom(m, rest).Ok?
    ensures JobsOf(ParseFrom(m, rest).value) == Completed(m, rest)
    decreases |rest|
  {
    if rest == [] {
      CompletedNil(m);
    } else {
      var next := AddLine(m, rest[0]).value;
      assert ParseFrom(m, rest) == ParseFrom(next, rest[1..]);
      ParseFromJobs(next, rest[1..]);
      if IsHeader(rest[0]) {
        CompletedHeader(m, rest);
      } else {
        CompletedPart(m, rest);
      }
    }
  }

  /** The grouping reader agrees with the line-queue reading of the same
      manifest: for a manifest that opens with a header, the i-th group is
      exactly the parts the line queue serves under the i-th header. */
  lemma ParseMatchesSplit(lines: seq<string>)
    requires lines != [] && IsHeader(lines[0])
    ensures Parse(lines).Ok?
    ensures JobsOf(Parse(lines).value) == SplitJobs(lines)
  {
    var first := AddLine(Empty, lines[0]).value;
    assert Parse(lines) == ParseFrom(first, lines[1..]);
    ParseFromJobs(first, lines[1..]);
    ExtendNothing(JobsFrom(first.names[0], lines[1..]));
  }

  /** The jobs still described once the first name has been polled:
      `current` with the parts `xs` already claimed in front of what is left
      of the first group, then each remaining name with its group. */
  function Remaining(current: string, xs: seq<string>, names: seq<string>, groups: seq<seq<string>>): (r: seq<Job>)
    requires |groups| == |names| + 1
    ensures |r| == |groups| && r[0] == Job(current, xs + groups[0])
  {
    JobsOf(Manifest([current] + names, [xs + groups[0]] + groups[1..]))
  }

  /** Polling the first name of freshly read lists leaves their jobs unchanged. */
  lemma RemainingStart(m: Manifest)
    requires |m.names| == |m.groups| >= 1
    ensures Remaining(m.names[0], [], m.names[1..], m.groups) == JobsOf(m)
  {
    var a := Remaining(m.names[0], [], m.names[1..], m.groups);
    assert [] + m.groups[0] == m.groups[0];
    forall i | 0 <= i < |a| ensures a[i] == JobsOf(m)[i] {
      if i > 0 {
        assert m.names[1..][i - 1] == m.names[i];
      }
    }
  }

  /** Claiming the first part of the first group moves it to the claimed
      parts and leaves the jobs unchanged. */
  lemma RemainingClaim(current: string, xs: seq<string>, names: seq<string>,
                       groups: seq<seq<string>>, after: seq<seq<string>>)
    requires |groups| == |names| + 1 && groups[0] != []
    requires |after| == |groups| && after[1..] == groups[1..] && [groups[0][0]] + after[0] == groups[0]
    ensures Remaining(current, xs + [groups[0][0]], names, after) == Remaining(current, xs, names, groups)
  {
    var a := Remaining(current, xs + [groups[0][0]], names, after);
    var b := Remaining(current, xs, names, groups);
    assert (xs + [groups[0][0]]) + after[0] == xs + ([groups[0][0]] + after[0]);
    forall i | 0 <= i < |a| ensures a[i] == b[i] {
      if i > 0 {
        assert after[i] == groups[i];
      }
    }
  }

  /** Once the first group is exhausted, the first job is closed with the
      claimed parts and the next name opens the remaining jobs. */
  lemma RemainingNext(current: string, xs: seq<string>, names: seq<string>, groups: seq<seq<string>>)
    requires |groups| == |names| + 1 && names != [] && groups[0] == []
    ensures Remaining(current, xs, names, groups)
         == [Job(current, xs)] + Remaining(names[0], [], names[1..], groups[1..])
  {
    var a := Remaining(current, xs, names, groups);
    var b := Remaining(names[0], [], names[1..], groups[1..]);
    assert xs + [] == xs && [] + groups[1] == groups[1];
    forall i | 0 <= i < |b| ensures a[1..][i] == b[i] {
      if i > 0 {
        assert names[1..][i - 1] == names[i] && groups[1..][i] == groups[i + 1];
      }
    }
    assert a[1..] == b;
  }
}
