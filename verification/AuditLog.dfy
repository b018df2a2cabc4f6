/**
 * The merged audit stream of a computer and its pruning: files are rewritten one by one, yet what is
 * read back is a suffix of the stream. Models packages/cli/src/audit-log.ts.
 */
module AuditLog {
  import opened Wrappers
  import opened Sorting

  // ----- lines of a file -----

  function TakeLine(text: string): (line: string)
    ensures line <= text
  {
    if text == "" || text[0] == '\n' then "" else [text[0]] + TakeLine(text[1..])
  }

  function AfterLine(text: string): string {
    var line := TakeLine(text);
    if |line| < |text| then text[|line| + 1..] else ""
  }

  /** `current.split('\n').filter(Boolean)`; a missing file reads as the empty text. */
  function Lines(text: string): seq<string>
    decreases |text|
  {
    if text == "" then []
    else (if TakeLine(text) == "" then [] else [TakeLine(text)]) + Lines(AfterLine(text))
  }

  /** What pruning appends: the lines joined by newlines, and a final newline if there are any. */
  function Text(lines: seq<string>): string {
    if lines == [] then "" else lines[0] + "\n" + Text(lines[1..])
  }

  predicate Proper(line: string) {
    line != "" && '\n' !in line
  }

  lemma {:induction false} TakeLineProper(text: string)
    ensures '\n' !in TakeLine(text)
  {
    if text != "" && text[0] != '\n' {
      TakeLineProper(text[1..]);
    }
  }

  lemma {:induction false} LinesProper(text: string)
    ensures forall line :: line in Lines(text) ==> Proper(line)
    decreases |text|
  {
    if text != "" {
      TakeLineProper(text);
      LinesProper(AfterLine(text));
    }
  }

  lemma {:induction false} TakeWholeLine(line: string, rest: string)
    requires '\n' !in line
    ensures TakeLine(line + "\n" + rest) == line
  {
    var text := line + "\n" + rest;
    if line != "" {
      assert text[1..] == line[1..] + "\n" + rest;
      TakeWholeLine(line[1..], rest);
    }
  }

  lemma {:induction false} LinesOfText(lines: seq<string>)
    requires forall line :: line in lines ==> Proper(line)
    ensures Lines(Text(lines)) == lines
  {
    if lines != [] {
      var text := Text(lines);
      assert Proper(lines[0]) && text == lines[0] + "\n" + Text(lines[1..]);
      TakeWholeLine(lines[0], Text(lines[1..]));
      assert AfterLine(text) == Text(lines[1..]);
      LinesOfText(lines[1..]);
    }
  }

  // ----- the merged stream -----

  datatype Record = Record(line: string, source: nat, sequence: nat)

  const STRIDE := 1_000_000_000

  /** `sourceIndex * 1_000_000_000 + lineIndex` */
  function Position(source: nat, index: nat): nat {
    source * STRIDE + index
  }

  function SourceRecords(lines: seq<string>, source: nat): (records: seq<Record>)
    ensures |records| == |lines|
    ensures forall i :: 0 <= i < |lines| ==> records[i] == Record(lines[i], source, Position(source, i))
  {
    seq(|lines|, i requires 0 <= i < |lines| => Record(lines[i], source, Position(source, i)))
  }

  /** The records of the first `n` sources, source by source. */
  function Flat(groups: seq<seq<string>>, n: nat): seq<Record>
    requires n <= |groups|
  {
    if n == 0 then [] else Flat(groups, n - 1) + SourceRecords(groups[n - 1], n - 1)
  }

  /** The time a line states (empty if malformed), and the locale order of two times. */
  datatype Clock = Clock(at: string -> string, le: (string, string) -> bool)

  predicate Tied(clock: Clock, a: string, b: string) {
    clock.le(clock.at(a), clock.at(b)) && clock.le(clock.at(b), clock.at(a))
  }

  predicate RecordLe(clock: Clock, a: Record, b: Record) {
    if Tied(clock, a.line, b.line) then a.sequence <= b.sequence else clock.le(clock.at(a.line), clock.at(b.line))
  }

  function Order(clock: Clock): (Record, Record) -> bool {
    (a, b) => RecordLe(clock, a, b)
  }

  function Groups(files: seq<string>): (groups: seq<seq<string>>)
    ensures |groups| == |files| && forall i :: 0 <= i < |files| ==> groups[i] == Lines(files[i])
  {
    seq(|files|, i requires 0 <= i < |files| => Lines(files[i]))
  }

  /** records: every line of every file, ordered by time and then by position. */
  function Merged(clock: Clock, groups: seq<seq<string>>): seq<Record> {
    Sort(Flat(groups, |groups|), Order(clock))
  }

  function LineOf(record: Record): string { record.line }

  /** The last `keep` records, all of them if there are fewer. */
  function Last(records: seq<Record>, keep: nat): seq<Record> {
    if keep == 0 then [] else if |records| <= keep then records else records[|records| - keep..]
  }

  // ----- what pruning writes -----

  /** The lines of one source among the first `n` retained records, in merged order. */
  function Selected(retained: seq<Record>, n: nat, source: nat): seq<string>
    requires n <= |retained|
  {
    if n == 0 then []
    else Selected(retained, n - 1, source) + if retained[n - 1].source == source then [retained[n - 1].line] else []
  }

  function SelectedGroups(retained: seq<Record>, n: nat, count: nat): (groups: seq<seq<string>>)
    requires n <= |retained|
    ensures |groups| == count && forall i :: 0 <= i < count ==> groups[i] == Selected(retained, n, i)
  {
    seq(count, i requires 0 <= i < count => Selected(retained, n, i))
  }

  /** A retained record at the position it has after rewriting. */
  function Renumber(retained: seq<Record>, k: nat): Record
    requires k < |retained|
  {
    Record(retained[k].line, retained[k].source,
           Position(retained[k].source, |Selected(retained, k, retained[k].source)|))
  }

  function Renumbered(retained: seq<Record>, n: nat): (r: seq<Record>)
    requires n <= |retained|
    ensures |r| == n && forall k :: 0 <= k < n ==> r[k] == Renumber(retained, k)
  {
    if n == 0 then [] else Renumbered(retained, n - 1) + [Renumber(retained, n - 1)]
  }

  function Count(records: seq<Record>, x: Record): nat {
    multiset(records)[x]
  }

  function Once(record: Record, x: Record): nat {
    if record == x then 1 else 0
  }

  lemma AppendedLine(lines: seq<string>, line: string, source: nat, x: Record)
    ensures Count(SourceRecords(lines + [line], source), x)
              == Count(SourceRecords(lines, source), x) + Once(Record(line, source, Position(source, |lines|)), x)
  {
    assert SourceRecords(lines + [line], source)
             == SourceRecords(lines, source) + [Record(line, source, Position(source, |lines|))];
  }

  lemma {:induction false} FlatUnchanged(groups: seq<seq<string>>, longer: seq<seq<string>>, n: nat)
    requires n <= |groups| && n <= |longer| && forall i :: 0 <= i < n ==> longer[i] == groups[i]
    ensures Flat(longer, n) == Flat(groups, n)
    decreases n
  {
    if n > 0 {
      FlatUnchanged(groups, longer, n - 1);
    }
  }

  lemma FlatSplits(groups: seq<seq<string>>, n: nat, x: Record)
    requires 0 < n <= |groups|
    ensures Count(Flat(groups, n), x) == Count(Flat(groups, n - 1), x) + Count(SourceRecords(groups[n - 1], n - 1), x)
  {
  }

  /** Only one source has grown, by one line. */
  predicate Extended(groups: seq<seq<string>>, longer: seq<seq<string>>, n: nat, source: nat, line: string) {
    && source < n <= |groups| == |longer|
    && longer[source] == groups[source] + [line]
    && forall i :: 0 <= i < n && i != source ==> longer[i] == groups[i]
  }

  lemma LastSource(groups: seq<seq<string>>, longer: seq<seq<string>>, n: nat, source: nat, line: string, x: Record)
    requires Extended(groups, longer, n, source, line)
    ensures source < n - 1 ==>
              Extended(groups, longer, n - 1, source, line)
              && Count(SourceRecords(longer[n - 1], n - 1), x) == Count(SourceRecords(groups[n - 1], n - 1), x)
    ensures source == n - 1 ==>
              Count(SourceRecords(longer[n - 1], n - 1), x)
                  == Count(SourceRecords(groups[n - 1], n - 1), x) + Added(groups, source, line, x)
              && Flat(longer, n - 1) == Flat(groups, n - 1)
  {
    if source == n - 1 {
      AppendedLine(groups[source], line, source, x);
      FlatUnchanged(groups, longer, n - 1);
    }
  }

  function Added(groups: seq<seq<string>>, source: nat, line: string, x: Record): nat
    requires source < |groups|
  {
    Once(Record(line, source, Position(source, |groups[source]|)), x)
  }

  /** Rewriting adds each retained record behind the lines of its source. */
  lemma {:induction false} FlatExtends(groups: seq<seq<string>>, longer: seq<seq<string>>, n: nat, source: nat,
                                       line: string, x: Record)
    requires source < n <= |groups| == |longer| && Extended(groups, longer, n, source, line)
    ensures Count(Flat(longer, n), x) == Count(Flat(groups, n), x) + Added(groups, source, line, x)
    decreases n
  {
    FlatSplits(groups, n, x);
    FlatSplits(longer, n, x);
    LastSource(groups, longer, n, source, line, x);
    hide Flat, SourceRecords, Count, Added, Extended;
    if source < n - 1 {
      FlatExtends(groups, longer, n - 1, source, line, x);
    }
  }

  lemma {:induction false} FlatOfEmpty(groups: seq<seq<string>>, n: nat)
    requires n <= |groups| && forall i :: 0 <= i < n ==> groups[i] == []
    ensures Flat(groups, n) == []
    decreases n
  {
    if n > 0 {
      FlatOfEmpty(groups, n - 1);
    }
  }

  lemma RenumberedSplits(retained: seq<Record>, n: nat, x: Record)
    requires 0 < n <= |retained|
    ensures Count(Renumbered(retained, n), x)
              == Count(Renumbered(retained, n - 1), x) + Once(Renumber(retained, n - 1), x)
  {
  }

  lemma OneMoreSelected(retained: seq<Record>, n: nat, count: nat, x: Record)
    requires 0 < n <= |retained| && retained[n - 1].source < count
    ensures var record := retained[n - 1];
            && Extended(SelectedGroups(retained, n - 1, count), SelectedGroups(retained, n, count), count,
                        record.source, record.line)
            && Added(SelectedGroups(retained, n - 1, count), record.source, record.line, x)
                 == Once(Renumber(retained, n - 1), x)
  {
  }

  lemma RewrittenStep(retained: seq<Record>, n: nat, count: nat, x: Record)
    requires 0 < n <= |retained| && retained[n - 1].source < count
    ensures Count(Flat(SelectedGroups(retained, n, count), count), x)
              == Count(Flat(SelectedGroups(retained, n - 1, count), count), x) + Once(Renumber(retained, n - 1), x)
  {
    hide Flat, Count, Once, Added, Extended, Selected;
    var record := retained[n - 1];
    OneMoreSelected(retained, n, count, x);
    FlatExtends(SelectedGroups(retained, n - 1, count), SelectedGroups(retained, n, count), count, record.source,
                record.line, x);
  }

  lemma NothingRewritten(retained: seq<Record>, count: nat)
    ensures Flat(SelectedGroups(retained, 0, count), count) == [] && Renumbered(retained, 0) == []
  {
    FlatOfEmpty(SelectedGroups(retained, 0, count), count);
  }

  lemma {:induction false} RewrittenCounts(retained: seq<Record>, n: nat, count: nat, x: Record)
    requires n <= |retained| && forall k :: 0 <= k < n ==> retained[k].source < count
    ensures Count(Flat(SelectedGroups(retained, n, count), count), x) == Count(Renumbered(retained, n), x)
    decreases n
  {
    hide Flat, Renumbered, Once, Selected, Count, Renumber;
    if n == 0 {
      NothingRewritten(retained, count);
    } else {
      RewrittenCounts(retained, n - 1, count, x);
      RenumberedSplits(retained, n, x);
      RewrittenStep(retained, n, count, x);
    }
  }

  /** Reading the rewritten files finds the retained records, renumbered. */
  lemma RewrittenIsRenumbered(retained: seq<Record>, count: nat)
    requires forall k :: 0 <= k < |retained| ==> retained[k].source < count
    ensures multiset(Flat(SelectedGroups(retained, |retained|, count), count))
              == multiset(Renumbered(retained, |retained|))
  {
    forall x {
      RewrittenCounts(retained, |retained|, count, x);
    }
    forall x
      ensures multiset(Flat(SelectedGroups(retained, |retained|, count), count))[x]
                == multiset(Renumbered(retained, |retained|))[x]
    {
      assert Count(Flat(SelectedGroups(retained, |retained|, count), count), x)
               == Count(Renumbered(retained, |retained|), x);
    }
  }

  // ----- order -----

  lemma OrderIsPreorder(clock: Clock)
    requires Preorder(clock.le)
    ensures Preorder(Order(clock))
  {
    forall x, y, z: Record
      ensures Order(clock)(x, y) || Order(clock)(y, x)
      ensures Order(clock)(x, y) && Order(clock)(y, z) ==> Order(clock)(x, z)
    {
      var a, b, c := clock.at(x.line), clock.at(y.line), clock.at(z.line);
      assert clock.le(a, b) || clock.le(b, a);
      assert clock.le(a, b) && clock.le(b, c) ==> clock.le(a, c);
      assert clock.le(c, b) && clock.le(b, a) ==> clock.le(c, a);
      assert clock.le(b, c) && clock.le(c, a) ==> clock.le(b, a);
      assert clock.le(c, a) && clock.le(a, b) ==> clock.le(c, b);
    }
  }

  /** A record's position is within its source, and positions tell sources apart. */
  predicate Positioned(records: seq<Record>) {
    && (forall r :: r in records ==> r.source * STRIDE <= r.sequence < (r.source + 1) * STRIDE)
    && UniqueBy(records, Sequence)
  }

  lemma StrideSeparates(a: nat, b: nat, x: nat, y: nat)
    requires a * STRIDE <= x < (a + 1) * STRIDE && b * STRIDE <= y < (b + 1) * STRIDE && x <= y
    ensures a <= b
  {
  }

  lemma {:induction false} FlatMembers(groups: seq<seq<string>>, n: nat, r: Record)
    requires n <= |groups| && r in Flat(groups, n) && forall i :: 0 <= i < n ==> |groups[i]| < STRIDE
    ensures r.source < n && r.line in groups[r.source]
    ensures Position(r.source, 0) <= r.sequence < Position(r.source, |groups[r.source]|)
    decreases n
  {
    if r in Flat(groups, n - 1) {
      FlatMembers(groups, n - 1, r);
    } else {
      var i :| 0 <= i < |groups[n - 1]| && SourceRecords(groups[n - 1], n - 1)[i] == r;
    }
  }

  function Sequence(r: Record): nat { r.sequence }

  lemma {:induction false} FlatPositioned(groups: seq<seq<string>>, n: nat)
    requires n <= |groups| && forall i :: 0 <= i < n ==> |groups[i]| < STRIDE
    ensures Positioned(Flat(groups, n))
    decreases n
  {
    forall r | r in Flat(groups, n) {
      FlatMembers(groups, n, r);
    }
    if n > 0 {
      FlatPositioned(groups, n - 1);
      forall r | r in Flat(groups, n - 1)
        ensures r.sequence < (n - 1) * STRIDE
      {
        FlatMembers(groups, n - 1, r);
        StrideBelow(r.source, n - 1);
      }
      JoinUnique(Flat(groups, n - 1), SourceRecords(groups[n - 1], n - 1), (n - 1) * STRIDE);
    }
  }

  lemma StrideBelow(a: nat, b: nat)
    requires a < b
    ensures (a + 1) * STRIDE <= b * STRIDE
  {
  }

  lemma JoinUnique(head: seq<Record>, tail: seq<Record>, bound: nat)
    requires UniqueBy(head, Sequence) && UniqueBy(tail, Sequence)
    requires (forall r :: r in head ==> r.sequence < bound) && forall r :: r in tail ==> bound <= r.sequence
    ensures UniqueBy(head + tail, Sequence)
  {
    var all := head + tail;
    forall i, j | 0 <= i < j < |all|
      ensures Sequence(all[i]) != Sequence(all[j])
    {
      if j < |head| {
        assert Sequence(head[i]) != Sequence(head[j]);
      } else if i >= |head| {
        assert Sequence(tail[i - |head|]) != Sequence(tail[j - |head|]);
      } else {
        assert all[i] in head && all[j] in tail;
      }
    }
  }

  lemma PermutationPositioned(a: seq<Record>, b: seq<Record>)
    requires Positioned(a) && multiset(a) == multiset(b)
    ensures Positioned(b)
  {
    PermutationKeepsKeyUnique(a, b, Sequence);
    forall r | r in b {
      SameElements(a, b, r);
    }
  }

  lemma {:induction false} SelectedGrows(retained: seq<Record>, k: nat, m: nat, source: nat)
    requires k < m <= |retained| && retained[k].source == source
    ensures |Selected(retained, k, source)| < |Selected(retained, m, source)|
    decreases m
  {
    if k < m - 1 {
      SelectedGrows(retained, k, m - 1, source);
    }
  }

  /** Two retained records keep their order under their new positions. */
  lemma RenumberedKeepsOrder(clock: Clock, retained: seq<Record>, k: nat, m: nat)
    requires k < m < |retained| && Positioned(retained)
    requires Renumber(retained, k).sequence < (retained[k].source + 1) * STRIDE
    requires RecordLe(clock, retained[k], retained[m])
    ensures RecordLe(clock, Renumber(retained, k), Renumber(retained, m))
  {
    var a, b := retained[k], retained[m];
    assert a in retained && b in retained;
    if Tied(clock, a.line, b.line) {
      StrideSeparates(a.source, b.source, a.sequence, b.sequence);
      if a.source == b.source {
        SelectedGrows(retained, k, m, a.source);
      } else {
        StrideBelow(a.source, b.source);
      }
    }
  }

  function PositionsOf(retained: seq<Record>, n: nat, source: nat): set<nat>
    requires n <= |retained|
  {
    if n == 0 then {}
    else PositionsOf(retained, n - 1, source)
         + if retained[n - 1].source == source then {retained[n - 1].sequence} else {}
  }

  /** The lines selected for a source are as many as its retained positions. */
  lemma {:induction false} SelectedFits(retained: seq<Record>, n: nat, source: nat)
    requires n <= |retained| && UniqueBy(retained, Sequence)
    ensures |Selected(retained, n, source)| == |PositionsOf(retained, n, source)|
    ensures forall x :: x in PositionsOf(retained, n, source) ==>
              exists k :: 0 <= k < n && retained[k].source == source && retained[k].sequence == x
    decreases n
  {
    if n > 0 {
      SelectedFits(retained, n - 1, source);
      forall k | 0 <= k < n - 1
        ensures retained[k].sequence != retained[n - 1].sequence
      {
        assert Sequence(retained[k]) != Sequence(retained[n - 1]);
      }
    }
  }

  lemma {:induction false} BoundedSet(numbers: set<nat>, low: nat, length: nat)
    requires forall x :: x in numbers ==> low <= x < low + length
    ensures |numbers| <= length
  {
    if numbers != {} {
      var top := low + length - 1;
      BoundedSet(numbers - {top}, low, length - 1);
    }
  }

  /** A rewritten file has no more lines than the original had. */
  lemma SelectedBounded(groups: seq<seq<string>>, retained: seq<Record>, n: nat, source: nat)
    requires n <= |retained| && source < |groups| && UniqueBy(retained, Sequence)
    requires forall i :: 0 <= i < |groups| ==> |groups[i]| < STRIDE
    requires forall r :: r in retained ==> r in Flat(groups, |groups|)
    ensures |Selected(retained, n, source)| <= |groups[source]|
  {
    forall k | 0 <= k < n && retained[k].source == source
      ensures Position(source, 0) <= retained[k].sequence < Position(source, |groups[source]|)
    {
      FlatMembers(groups, |groups|, retained[k]);
    }
    SelectedFits(retained, n, source);
    BoundedSet(PositionsOf(retained, n, source), Position(source, 0), |groups[source]|);
  }

  lemma RetainedPositioned(clock: Clock, groups: seq<seq<string>>, keep: nat, retained: seq<Record>)
    requires Preorder(clock.le) && forall i :: 0 <= i < |groups| ==> |groups[i]| < STRIDE
    requires retained == Last(Merged(clock, groups), keep)
    ensures Positioned(retained) && Sorted(retained, Order(clock))
    ensures forall r :: r in retained ==> r in Flat(groups, |groups|)
    ensures forall r :: r in retained ==> r.source < |groups| && r.line in groups[r.source]
  {
    var all := Merged(clock, groups);
    FlatPositioned(groups, |groups|);
    SortIsPermutation(Flat(groups, |groups|), Order(clock));
    PermutationPositioned(Flat(groups, |groups|), all);
    OrderIsPreorder(clock);
    SortIsSorted(Flat(groups, |groups|), Order(clock));
    SuffixKeeps(clock, all, retained, keep);
    forall r | r in retained
      ensures r in Flat(groups, |groups|) && r.source < |groups| && r.line in groups[r.source]
    {
      SameElements(all, Flat(groups, |groups|), r);
      FlatMembers(groups, |groups|, r);
    }
  }

  lemma SuffixKeeps(clock: Clock, all: seq<Record>, retained: seq<Record>, keep: nat)
    requires Positioned(all) && Sorted(all, Order(clock)) && retained == Last(all, keep)
    ensures Positioned(retained) && Sorted(retained, Order(clock)) && forall r :: r in retained ==> r in all
  {
    var skipped := |all| - |retained|;
    assert forall i :: 0 <= i < |retained| ==> retained[i] == all[skipped + i];
    forall i, j | 0 <= i < j < |retained|
      ensures Sequence(retained[i]) != Sequence(retained[j]) && Order(clock)(retained[i], retained[j])
    {
      assert Sequence(all[skipped + i]) != Sequence(all[skipped + j]);
    }
  }

  lemma RenumberedSorted(clock: Clock, retained: seq<Record>)
    requires Positioned(retained) && Sorted(retained, Order(clock))
    requires forall k :: 0 <= k < |retained| ==> |Selected(retained, k, retained[k].source)| < STRIDE
    ensures Sorted(Renumbered(retained, |retained|), Order(clock))
  {
    forall k, m | 0 <= k < m < |retained|
      ensures RecordLe(clock, Renumber(retained, k), Renumber(retained, m))
    {
      assert Order(clock)(retained[k], retained[m]);
      RenumberedKeepsOrder(clock, retained, k, m);
    }
  }

  lemma PositionedDistinguishes(clock: Clock, records: seq<Record>)
    requires Positioned(records)
    ensures Distinguishes(records, Order(clock))
  {
    forall x, y | x in records && y in records && Order(clock)(x, y) && Order(clock)(y, x)
      ensures x == y
    {
      var i :| 0 <= i < |records| && records[i] == x;
      var j :| 0 <= j < |records| && records[j] == y;
      assert Sequence(records[i]) == Sequence(records[j]);
    }
  }

  /** Records with distinct positions sort to their only sorted permutation. */
  lemma SortsTo(clock: Clock, flat: seq<Record>, target: seq<Record>)
    requires Preorder(clock.le) && Positioned(flat)
    requires multiset(flat) == multiset(target) && Sorted(target, Order(clock))
    ensures Sort(flat, Order(clock)) == target
  {
    hide Positioned;
    OrderIsPreorder(clock);
    SortIsPermutation(flat, Order(clock));
    SortIsSorted(flat, Order(clock));
    PermutationPositioned(flat, Sort(flat, Order(clock)));
    PositionedDistinguishes(clock, Sort(flat, Order(clock)));
    SortedPermutationUnique(Sort(flat, Order(clock)), target, Order(clock));
  }

  lemma SelectedShort(clock: Clock, groups: seq<seq<string>>, keep: nat, retained: seq<Record>, n: nat, source: nat)
    requires Preorder(clock.le) && forall i :: 0 <= i < |groups| ==> |groups[i]| < STRIDE
    requires retained == Last(Merged(clock, groups), keep) && n <= |retained| && source < |groups|
    ensures |Selected(retained, n, source)| < STRIDE
  {
    RetainedPositioned(clock, groups, keep, retained);
    SelectedBounded(groups, retained, n, source);
  }

  /** Merging the rewritten groups gives the retained records in order, renumbered. */
  lemma RewrittenMerges(clock: Clock, groups: seq<seq<string>>, keep: nat, retained: seq<Record>)
    requires Preorder(clock.le) && forall i :: 0 <= i < |groups| ==> |groups[i]| < STRIDE
    requires retained == Last(Merged(clock, groups), keep)
    ensures Merged(clock, SelectedGroups(retained, |retained|, |groups|)) == Renumbered(retained, |retained|)
  {
    hide Flat, Selected, Positioned, Last, Renumbered;
    var rewritten := SelectedGroups(retained, |retained|, |groups|);
    RetainedPositioned(clock, groups, keep, retained);
    forall k | 0 <= k < |retained|
      ensures retained[k].source < |groups| && |Selected(retained, k, retained[k].source)| < STRIDE
    {
      assert retained[k] in retained;
      SelectedShort(clock, groups, keep, retained, k, retained[k].source);
    }
    forall i | 0 <= i < |groups|
      ensures |rewritten[i]| < STRIDE
    {
      SelectedShort(clock, groups, keep, retained, |retained|, i);
    }
    RewrittenIsRenumbered(retained, |groups|);
    FlatPositioned(rewritten, |rewritten|);
    RenumberedSorted(clock, retained);
    SortsTo(clock, Flat(rewritten, |rewritten|), Renumbered(retained, |retained|));
  }

  /** Pruning keeps exactly the last records of the merged stream, in order. */
  lemma PruneIsSuffix(clock: Clock, groups: seq<seq<string>>, keep: nat)
    requires Preorder(clock.le) && forall i :: 0 <= i < |groups| ==> |groups[i]| < STRIDE
    ensures var retained := Last(Merged(clock, groups), keep);
            Map(Merged(clock, SelectedGroups(retained, |retained|, |groups|)), LineOf) == Map(retained, LineOf)
  {
    var retained := Last(Merged(clock, groups), keep);
    RewrittenMerges(clock, groups, keep, retained);
    hide Merged, Selected;
  }

  // ----- the files -----

  lemma {:induction false} SelectedLines(retained: seq<Record>, n: nat, source: nat)
    requires n <= |retained|
    ensures forall line :: line in Selected(retained, n, source) ==> exists r :: r in retained && r.line == line
    ensures (forall r :: r in retained ==> r.source != source) ==> Selected(retained, n, source) == []
    decreases n
  {
    if n > 0 {
      SelectedLines(retained, n - 1, source);
      assert retained[n - 1] in retained;
    }
  }

  /** The audit files of one computer; a missing file is an empty text. */
  class AuditFiles {
    var files: seq<string>

    /** records */
    function Stream(clock: Clock): seq<Record>
      reads this
    {
      Merged(clock, Groups(files))
    }

    /** The prune branch of auditCommand. */
    method Prune(clock: Clock, keep: nat)
      requires Preorder(clock.le) && files != []
      requires forall i :: 0 <= i < |files| ==> |Lines(files[i])| < STRIDE
      modifies this
      ensures |files| == |old(files)|
      ensures Map(Stream(clock), LineOf) == Map(Last(old(Stream(clock)), keep), LineOf)
    {
      hide Merged, Selected;
      var all := Stream(clock);
      var retained := Last(all, keep);
      ghost var groups := Groups(files);
      ghost var rewritten := SelectedGroups(retained, |retained|, |files|);
      forall k, line | 0 <= k < |groups| && line in groups[k]
        ensures Proper(line)
      {
        LinesProper(files[k]);
      }
      var i := 0;
      while i < |files|
        invariant i <= |files| == |old(files)|
        invariant forall k :: 0 <= k < i ==> Lines(files[k]) == rewritten[k]
        invariant forall k :: i <= k < |files| ==> files[k] == old(files)[k]
      {
        var existing := exists r :: r in all && r.source == i;
        RewrittenLines(clock, groups, retained, keep, i);
        if existing || (all == [] && i == 0) {
          files := files[i := Text(Selected(retained, |retained|, i))];
        }
        i := i + 1;
      }
      assert Groups(files) == rewritten;
      PruneIsSuffix(clock, groups, keep);
    }
  }

  /** What pruning appends for a source is read back unchanged; a source without records has no lines. */
  lemma RewrittenLines(clock: Clock, groups: seq<seq<string>>, retained: seq<Record>, keep: nat, source: nat)
    requires Preorder(clock.le) && source < |groups| && forall i :: 0 <= i < |groups| ==> |groups[i]| < STRIDE
    requires forall i, line :: 0 <= i < |groups| && line in groups[i] ==> Proper(line)
    requires retained == Last(Merged(clock, groups), keep)
    ensures Lines(Text(Selected(retained, |retained|, source))) == Selected(retained, |retained|, source)
    ensures (forall r :: r in Merged(clock, groups) ==> r.source != source) ==>
              groups[source] == [] && Selected(retained, |retained|, source) == []
  {
    RetainedPositioned(clock, groups, keep, retained);
    SelectedLines(retained, |retained|, source);
    LinesOfText(Selected(retained, |retained|, source));
    if forall r :: r in Merged(clock, groups) ==> r.source != source {
      EmptySource(clock, groups, source);
      LastIsInside(Merged(clock, groups), keep);
    }
  }

  lemma LastIsInside(records: seq<Record>, keep: nat)
    ensures forall r :: r in Last(records, keep) ==> r in records
  {
  }

  lemma EmptySource(clock: Clock, groups: seq<seq<string>>, source: nat)
    requires source < |groups| && forall r :: r in Merged(clock, groups) ==> r.source != source
    ensures groups[source] == []
  {
    SortKeepsElements(Flat(groups, |groups|), Order(clock));
    if groups[source] != [] {
      FlatHolds(groups, |groups|, source);
    }
  }

  lemma {:induction false} FlatHolds(groups: seq<seq<string>>, n: nat, source: nat)
    requires source < n <= |groups| && groups[source] != []
    ensures exists r :: r in Flat(groups, n) && r.source == source
    decreases n
  {
    if source == n - 1 {
      assert SourceRecords(groups[source], source)[0] in Flat(groups, n);
    } else {
      FlatHolds(groups, n - 1, source);
    }
  }
}
