/** Which lines of a FASTQ file `save_fastq` treats as records, stated
    independently of its loop, and what the loop does record by record. */
module FastqRecords {
  import opened Wrappers
  import opened PyStr
  import opened Transform

  /** The header lines the outer loop reaches, in order, and the header
      left with fewer than three lines after it, if the file ends inside
      a record. */
  datatype Scan = Scan(starts: seq<nat>, truncatedAt: Option<nat>)

  /** The headers from line `i` on: a header takes itself and the next
      three lines; any other line reached is skipped. */
  function Parse(lines: seq<string>, i: nat): Scan
    decreases |lines| - i
  {
    if i >= |lines| then Scan([], None)
    else if !StartsRecord(lines[i]) then Parse(lines, i + 1)
    else if |lines| - i < 4 then Scan([], Some(i))
    else
      var rest := Parse(lines, i + 4);
      Scan([i] + rest.starts, rest.truncatedAt)
  }

  /** Line `j` is one of the three lines taken by `next()` after a header in `starts`. */
  predicate InRecordBody(starts: seq<nat>, j: int) {
    exists k :: 0 <= k < |starts| && starts[k] < j <= starts[k] + 3
  }

  /** Every listed header starts with `@` and has three lines after it. */
  predicate CompleteRecords(lines: seq<string>, starts: seq<nat>) {
    forall k :: 0 <= k < |starts| ==> starts[k] + 3 < |lines| && StartsRecord(lines[starts[k]])
  }

  /** Where the scan stops: at the truncated header, or at the end of the file. */
  function ScanEnd(lines: seq<string>, sc: Scan): int {
    if sc.truncatedAt.Some? then sc.truncatedAt.value else |lines|
  }

  /** The headers come after `i`, each at least four lines after the previous one. */
  predicate Ordered(starts: seq<nat>, i: nat) {
    && (forall k :: 0 <= k < |starts| ==> i <= starts[k])
    && (forall k :: 0 <= k < |starts| - 1 ==> starts[k] + 4 <= starts[k + 1])
  }

  /** A truncated header comes after `i` and after the last record, starts
      with `@`, and has fewer than three lines after it. */
  predicate TruncationAt(lines: seq<string>, i: nat, sc: Scan) {
    sc.truncatedAt.Some? ==>
      var t := sc.truncatedAt.value;
      && i <= t < |lines| && |lines| - t < 4 && StartsRecord(lines[t])
      && (sc.starts != [] ==> sc.starts[|sc.starts| - 1] + 4 <= t)
  }

  /** Among the lines from `i` to the scan's end that are not inside a
      record, exactly the headers start with `@`: every other line the loop
      reaches is skipped. */
  ghost predicate OnlyHeadersStart(lines: seq<string>, i: nat, sc: Scan) {
    forall j :: i <= j < ScanEnd(lines, sc) && j < |lines| && !InRecordBody(sc.starts, j) ==>
      (StartsRecord(lines[j]) <==> j in sc.starts)
  }

  /** `sc` describes the lines from `i` on. */
  ghost predicate IsScanOf(lines: seq<string>, i: nat, sc: Scan) {
    && CompleteRecords(lines, sc.starts)
    && Ordered(sc.starts, i)
    && TruncationAt(lines, i, sc)
    && OnlyHeadersStart(lines, i, sc)
  }

  /** A line the loop skips does not change the description. */
  lemma ScanSkip(lines: seq<string>, i: nat, sc: Scan)
    requires i < |lines| && !StartsRecord(lines[i])
    requires IsScanOf(lines, i + 1, sc)
    ensures IsScanOf(lines, i, sc)
  {
    assert i !in sc.starts;
  }

  /** A line inside a later record is inside it in the longer list too. */
  lemma BodyOfRest(i: nat, rest: seq<nat>, j: int)
    ensures InRecordBody(rest, j) ==> InRecordBody([i] + rest, j)
  {
    if InRecordBody(rest, j) {
      var k :| 0 <= k < |rest| && rest[k] < j <= rest[k] + 3;
      assert ([i] + rest)[k + 1] == rest[k];
    }
  }

  /** A complete record in front of an ordered list keeps it ordered. */
  lemma OrderedRecord(i: nat, rest: seq<nat>)
    requires Ordered(rest, i + 4)
    ensures Ordered([i] + rest, i)
  {
    var starts := [i] + rest;
    if rest != [] {
      assert starts[1] == rest[0];
    }
    forall k | 1 <= k < |starts| - 1 ensures starts[k] + 4 <= starts[k + 1] {
      assert starts[k] == rest[k - 1];
    }
  }

  /** A complete record in front of a description extends it. */
  lemma ScanRecord(lines: seq<string>, i: nat, rest: Scan)
    requires i + 3 < |lines| && StartsRecord(lines[i])
    requires IsScanOf(lines, i + 4, rest)
    ensures IsScanOf(lines, i, Scan([i] + rest.starts, rest.truncatedAt))
  {
    var sc := Scan([i] + rest.starts, rest.truncatedAt);
    assert CompleteRecords(lines, sc.starts);
    OrderedRecord(i, rest.starts);
    assert TruncationAt(lines, i, sc);
    HeadersRecord(lines, i, rest);
  }

  lemma HeadersRecord(lines: seq<string>, i: nat, rest: Scan)
    requires i + 3 < |lines| && StartsRecord(lines[i])
    requires Ordered(rest.starts, i + 4)
    requires OnlyHeadersStart(lines, i + 4, rest)
    ensures OnlyHeadersStart(lines, i, Scan([i] + rest.starts, rest.truncatedAt))
  {
    var sc := Scan([i] + rest.starts, rest.truncatedAt);
    assert forall j :: i < j <= i + 3 ==> InRecordBody(sc.starts, j) by {
      assert sc.starts[0] == i;
    }
    forall j | i <= j < ScanEnd(lines, sc) && j < |lines| && !InRecordBody(sc.starts, j)
      ensures StartsRecord(lines[j]) <==> j in sc.starts
    {
      if j > i + 3 {
        BodyOfRest(i, rest.starts, j);
        assert j in sc.starts <==> j in rest.starts;
      }
    }
  }

  /** `Parse` finds what the description says. */
  lemma {:induction false} ParseIsScan(lines: seq<string>, i: nat)
    ensures IsScanOf(lines, i, Parse(lines, i))
    decreases |lines| - i
  {
    if i >= |lines| {
    } else if !StartsRecord(lines[i]) {
      ParseIsScan(lines, i + 1);
      ScanSkip(lines, i, Parse(lines, i + 1));
    } else if |lines| - i < 4 {
    } else {
      ParseIsScan(lines, i + 4);
      ScanRecord(lines, i, Parse(lines, i + 4));
    }
  }

  /** Each listed header after the first is at least four lines after it. */
  lemma {:induction false} OrderedAfterFirst(starts: seq<nat>, i: nat, k: nat)
    requires Ordered(starts, i) && 0 < k < |starts|
    ensures starts[0] + 4 <= starts[k]
    decreases k
  {
    if k > 1 {
      OrderedAfterFirst(starts, i, k - 1);
    }
  }

  /** A record listed from `i` on needs three lines after `i`. */
  lemma ListedNeedRoom(lines: seq<string>, starts: seq<nat>, i: nat)
    requires CompleteRecords(lines, starts) && Ordered(starts, i)
    ensures starts == [] || i + 3 < |lines|
  {
    if starts != [] {
      assert i <= starts[0] && starts[0] + 3 < |lines|;
    }
  }

  /** Past the end of the file, the only description is the empty one. */
  lemma ScanAtEnd(lines: seq<string>, i: nat, sc: Scan)
    requires i >= |lines| && IsScanOf(lines, i, sc)
    ensures sc == Parse(lines, i)
  {
    ListedNeedRoom(lines, sc.starts, i);
  }

  /** A line that does not start with `@` is in no description. */
  lemma ScanSkipped(lines: seq<string>, i: nat, sc: Scan)
    requires i < |lines| && !StartsRecord(lines[i])
    requires IsScanOf(lines, i, sc)
    ensures IsScanOf(lines, i + 1, sc)
  {
    forall k | 0 <= k < |sc.starts| ensures i + 1 <= sc.starts[k] {
      assert StartsRecord(lines[sc.starts[k]]);
    }
  }

  /** A header with fewer than three lines after it is the truncation point. */
  lemma ScanTruncated(lines: seq<string>, i: nat, sc: Scan)
    requires i < |lines| && StartsRecord(lines[i]) && |lines| - i < 4
    requires IsScanOf(lines, i, sc)
    ensures sc == Parse(lines, i)
  {
    ListedNeedRoom(lines, sc.starts, i);
    assert !InRecordBody(sc.starts, i);
    assert sc.truncatedAt != Some(i) ==> i < ScanEnd(lines, sc);
  }

  /** A header with three lines after it is the first one listed. */
  lemma ScanFirstHeader(lines: seq<string>, i: nat, sc: Scan)
    requires i + 3 < |lines| && StartsRecord(lines[i])
    requires IsScanOf(lines, i, sc)
    ensures sc.starts != [] && sc.starts[0] == i
  {
    assert !InRecordBody(sc.starts, i);
    assert i < ScanEnd(lines, sc);
    assert i in sc.starts;
    var k :| 0 <= k < |sc.starts| && sc.starts[k] == i;
    if k > 0 {
      OrderedAfterFirst(sc.starts, i, k);
    }
  }

  /** The listed headers after the first come four lines or more after it. */
  lemma OrderedRest(starts: seq<nat>, i: nat)
    requires Ordered(starts, i) && starts != [] && starts[0] == i
    ensures Ordered(starts[1..], i + 4)
  {
    forall k | 0 <= k < |starts| - 1 ensures i + 4 <= starts[1..][k] {
      OrderedAfterFirst(starts, i, k + 1);
    }
  }

  /** A line past the first record inside a record of the whole list is
      inside one of the rest. */
  lemma BodyOfFirstRest(starts: seq<nat>, j: int)
    requires starts != [] && starts[0] + 4 <= j
    ensures InRecordBody(starts, j) <==> InRecordBody(starts[1..], j)
  {
    BodyOfRest(starts[0], starts[1..], j);
    assert starts == [starts[0]] + starts[1..];
    if InRecordBody(starts, j) {
      var k :| 0 <= k < |starts| && starts[k] < j <= starts[k] + 3;
      assert k > 0 && starts[k] == starts[1..][k - 1];
    }
  }

  lemma HeadersRest(lines: seq<string>, i: nat, sc: Scan)
    requires sc.starts != [] && sc.starts[0] == i
    requires OnlyHeadersStart(lines, i, sc)
    ensures OnlyHeadersStart(lines, i + 4, Scan(sc.starts[1..], sc.truncatedAt))
  {
    var rest := Scan(sc.starts[1..], sc.truncatedAt);
    forall j | i + 4 <= j < ScanEnd(lines, rest) && j < |lines| && !InRecordBody(rest.starts, j)
      ensures StartsRecord(lines[j]) <==> j in rest.starts
    {
      BodyOfFirstRest(sc.starts, j);
      assert sc.starts == [i] + rest.starts;
    }
  }

  lemma TruncationRest(lines: seq<string>, i: nat, sc: Scan)
    requires sc.starts != [] && sc.starts[0] == i
    requires Ordered(sc.starts, i) && TruncationAt(lines, i, sc)
    ensures TruncationAt(lines, i + 4, Scan(sc.starts[1..], sc.truncatedAt))
  {
    var last := sc.starts[|sc.starts| - 1];
    assert i <= last;
  }

  /** With the first record taken off, the rest describes the lines after it. */
  lemma ScanRest(lines: seq<string>, i: nat, sc: Scan)
    requires i + 3 < |lines| && StartsRecord(lines[i])
    requires IsScanOf(lines, i, sc) && sc.starts != [] && sc.starts[0] == i
    ensures IsScanOf(lines, i + 4, Scan(sc.starts[1..], sc.truncatedAt))
  {
    var rest := Scan(sc.starts[1..], sc.truncatedAt);
    assert CompleteRecords(lines, rest.starts);
    OrderedRest(sc.starts, i);
    TruncationRest(lines, i, sc);
    HeadersRest(lines, i, sc);
  }

  /** The description fixes the scan: `Parse` is the only one that meets it. */
  lemma {:induction false} ScanIsParse(lines: seq<string>, i: nat, sc: Scan)
    requires IsScanOf(lines, i, sc)
    ensures sc == Parse(lines, i)
    decreases |lines| - i
  {
    if i >= |lines| {
      ScanAtEnd(lines, i, sc);
    } else if !StartsRecord(lines[i]) {
      ScanSkipped(lines, i, sc);
      ScanIsParse(lines, i + 1, sc);
    } else if |lines| - i < 4 {
      ScanTruncated(lines, i, sc);
    } else {
      ScanFirstHeader(lines, i, sc);
      ScanRest(lines, i, sc);
      ScanIsParse(lines, i + 4, Scan(sc.starts[1..], sc.truncatedAt));
      assert sc.starts == [i] + sc.starts[1..];
    }
  }

  /** One record as `save_fastq` sees it: its read id, and its vector up
      to the uid write (or the exception building it raised). */
  datatype Record = Record(id: string, prepared: Result<Prepared, SaveError>)

  function RecordAt(lines: seq<string>, layout: Layout, i: nat): Record
    requires i + 3 < |lines| && StartsRecord(lines[i])
  {
    Record(ReadId(lines[i]), PrepareVector(Strip(lines[i + 1]), Strip(lines[i + 3]), layout))
  }

  /** The records at the listed headers. */
  function Records(lines: seq<string>, layout: Layout, starts: seq<nat>): (rs: seq<Record>)
    requires CompleteRecords(lines, starts)
    ensures |rs| == |starts|
    ensures forall k :: 0 <= k < |starts| ==> rs[k] == RecordAt(lines, layout, starts[k])
  {
    seq(|starts|, k requires 0 <= k < |starts| => RecordAt(lines, layout, starts[k]))
  }

  /** The exception building the record's vector raises, if any; the uid
      written does not matter, only whether its slot exists. */
  function RecordError(r: Record): (e: Option<SaveError>)
    ensures forall uid :: e.None? <==> r.prepared.Ok? && WriteUid(r.prepared.value, uid).Ok?
  {
    match r.prepared
    case Err(e) => Some(e)
    case Ok(p) => if WriteUid(p, 0).Err? then Some(IndexOutOfRange) else None
  }

  /** `Run` restated over the records: count the id, then build the vector. */
  function Process(records: seq<Record>, counts: map<string, int>): (o: SaveOutcome)
    ensures o.error.None? ==> |o.written| == |records|
    ensures o.error.Some? ==> |o.written| < |records|
  {
    if records == [] then SaveOutcome(counts, [], None)
    else
      var r := records[0];
      var bumped := Bump(counts, r.id);
      match r.prepared
      case Err(e) => SaveOutcome(bumped, [], Some(e))
      case Ok(p) =>
        match WriteUid(p, Count(bumped, r.id))
        case Err(e) => SaveOutcome(bumped, [], Some(e))
        case Ok(v) => Then([v], Process(records[1..], bumped))
  }

  /** After the records, a truncated header raises, unless an earlier
      record already did. */
  function Finish(o: SaveOutcome, truncatedAt: Option<nat>): SaveOutcome {
    if o.error.None? && truncatedAt.Some? then SaveOutcome(o.counts, o.written, Some(TruncatedRecord)) else o
  }

  /** The records from line `i` on. */
  function RecordsFrom(lines: seq<string>, layout: Layout, i: nat): seq<Record> {
    ParseIsScan(lines, i);
    Records(lines, layout, Parse(lines, i).starts)
  }

  /** The line loop of `save_fastq` is the parsed records processed in
      order, then the truncation check. */
  lemma {:induction false} RunIsProcessOfParse(lines: seq<string>, layout: Layout, i: nat, counts: map<string, int>)
    ensures Run(lines, layout, i, counts) ==
            Finish(Process(RecordsFrom(lines, layout, i), counts), Parse(lines, i).truncatedAt)
    decreases |lines| - i
  {
    if i >= |lines| {
    } else if !StartsRecord(lines[i]) {
      RunIsProcessOfParse(lines, layout, i + 1, counts);
    } else if |lines| - i < 4 {
    } else {
      RunIsProcessOfParse(lines, layout, i + 4, Bump(counts, ReadId(lines[i])));
      RecordThenProcess(lines, layout, i, counts);
      RunAtRecord(lines, layout, i, counts);
    }
  }

  /** A complete record heads the records from its header on. */
  lemma RecordsFromRecord(lines: seq<string>, layout: Layout, i: nat)
    requires i + 3 < |lines| && StartsRecord(lines[i])
    ensures RecordsFrom(lines, layout, i) == [RecordAt(lines, layout, i)] + RecordsFrom(lines, layout, i + 4)
  {
    var rest := Parse(lines, i + 4).starts;
    ParseIsScan(lines, i + 4);
    ParseIsScan(lines, i);
    assert Parse(lines, i).starts == [i] + rest;
    RecordsCons(lines, layout, i, rest);
  }

  lemma RecordsCons(lines: seq<string>, layout: Layout, i: nat, rest: seq<nat>)
    requires i + 3 < |lines| && StartsRecord(lines[i])
    requires CompleteRecords(lines, [i] + rest) && CompleteRecords(lines, rest)
    ensures Records(lines, layout, [i] + rest) == [RecordAt(lines, layout, i)] + Records(lines, layout, rest)
  {
    var l := Records(lines, layout, [i] + rest);
    var r := [RecordAt(lines, layout, i)] + Records(lines, layout, rest);
    forall k | 0 <= k < |l| ensures l[k] == r[k] {
      if k > 0 {
        assert ([i] + rest)[k] == rest[k - 1];
      }
    }
  }

  /** Building a record's vector is preparing it, then writing the uid. */
  lemma RecordVectorSteps(lines: seq<string>, layout: Layout, i: nat, counts: map<string, int>)
    requires i + 3 < |lines| && StartsRecord(lines[i])
    ensures var r := RecordAt(lines, layout, i);
            RecordVector(lines, layout, i, counts) ==
              match r.prepared
              case Err(e) => Err(e)
              case Ok(p) => WriteUid(p, Count(Bump(counts, r.id), r.id))
  {
  }

  /** One record in front of the rest: `Process` then the truncation check
      take the same step as `Run` does at that record. */
  lemma RecordThenProcess(lines: seq<string>, layout: Layout, i: nat, counts: map<string, int>)
    requires i + 3 < |lines| && StartsRecord(lines[i])
    ensures var bumped := Bump(counts, ReadId(lines[i]));
            var built := RecordVector(lines, layout, i, counts);
            var whole := Finish(Process(RecordsFrom(lines, layout, i), counts), Parse(lines, i).truncatedAt);
            var rest := Finish(Process(RecordsFrom(lines, layout, i + 4), bumped), Parse(lines, i + 4).truncatedAt);
            && (built.Err? ==> whole == SaveOutcome(bumped, [], Some(built.error)))
            && (built.Ok? ==> whole == Then([built.value], rest))
  {
    var recs := RecordsFrom(lines, layout, i);
    RecordsFromRecord(lines, layout, i);
    assert recs[1..] == RecordsFrom(lines, layout, i + 4);
    RecordVectorSteps(lines, layout, i, counts);
  }

  /** The read ids of the records, in order. */
  function Ids(records: seq<Record>): (ids: seq<string>)
    ensures |ids| == |records|
    ensures forall k :: 0 <= k < |records| ==> ids[k] == records[k].id
  {
    seq(|records|, k requires 0 <= k < |records| => records[k].id)
  }

  /** How many times `r` occurs in `ids`. */
  function Occurrences(ids: seq<string>, r: string): nat {
    if ids == [] then 0 else (if ids[0] == r then 1 else 0) + Occurrences(ids[1..], r)
  }

  lemma OccurrencesCons(a: string, t: seq<string>, r: string)
    ensures Occurrences([a] + t, r) == (if a == r then 1 else 0) + Occurrences(t, r)
  {
    assert ([a] + t)[1..] == t;
  }

  /** How many of `n` records had their id counted: all of them, unless
      one failed to build, which is counted and ends the run. */
  function Consumed(o: SaveOutcome, n: nat): nat {
    if o.error.None? then n else |o.written| + 1
  }

  /** One vector per record, up to the first record that fails to build;
      the run then raises that record's error. */
  lemma {:induction false} ProcessShape(records: seq<Record>, counts: map<string, int>)
    ensures var o := Process(records, counts);
            && (o.error.Some? ==> o.error == RecordError(records[|o.written|]))
            && (forall k :: 0 <= k < |o.written| ==> RecordError(records[k]).None?)
  {
    if records != [] {
      var r := records[0];
      var bumped := Bump(counts, r.id);
      ProcessShape(records[1..], bumped);
      var o := Process(records, counts);
      if r.prepared.Ok? && WriteUid(r.prepared.value, Count(bumped, r.id)).Ok? {
        var rest := Process(records[1..], bumped);
        assert o.written == [WriteUid(r.prepared.value, Count(bumped, r.id)).value] + rest.written;
        forall k | 1 <= k < |o.written| ensures RecordError(records[k]).None? {
          assert records[k] == records[1..][k - 1];
        }
        if o.error.Some? {
          assert records[|o.written|] == records[1..][|rest.written|];
        }
      }
    }
  }

  /** The counter after each of `ids` in turn has been bumped. */
  function Tally(counts: map<string, int>, ids: seq<string>): map<string, int>
    decreases |ids|
  {
    if ids == [] then counts else Tally(Bump(counts, ids[0]), ids[1..])
  }

  /** Tallying adds each id's number of occurrences to its count, and
      gives a key to exactly the ids tallied. */
  lemma {:induction false} TallyCounts(counts: map<string, int>, ids: seq<string>)
    ensures forall r :: Count(Tally(counts, ids), r) == Count(counts, r) + Occurrences(ids, r)
    ensures Tally(counts, ids).Keys == counts.Keys + Elements(ids)
    decreases |ids|
  {
    if ids != [] {
      var id := ids[0];
      var tail := ids[1..];
      TallyCounts(Bump(counts, id), tail);
      forall r ensures Count(Tally(counts, ids), r) == Count(counts, r) + Occurrences(ids, r) {
        assert ids == [id] + tail;
        OccurrencesCons(id, tail, r);
      }
      ElementsCons(ids);
    }
  }

  /** The ids occurring in a list. */
  function Elements(ids: seq<string>): set<string> {
    set k | 0 <= k < |ids| :: ids[k]
  }

  lemma ElementsCons(ids: seq<string>)
    requires ids != []
    ensures Elements(ids) == {ids[0]} + Elements(ids[1..])
  {
    var tail := ids[1..];
    forall k | 0 <= k < |tail| ensures tail[k] in Elements(ids) {
      assert ids[k + 1] == tail[k];
    }
    assert ids[0] in Elements(ids);
  }

  /** The counter ends as the tally of the ids of the counted records. */
  lemma {:induction false} ProcessCounts(records: seq<Record>, counts: map<string, int>)
    ensures var o := Process(records, counts);
            o.counts == Tally(counts, Ids(records)[..Consumed(o, |records|)])
  {
    if records != [] {
      var o := Process(records, counts);
      var id := records[0].id;
      var bumped := Bump(counts, id);
      var n := Consumed(o, |records|);
      var ids := Ids(records)[..n];
      assert 1 <= n;
      assert ids[0] == id;
      if o.written == [] && o.error.Some? {
        assert ids[1..] == [];
      } else {
        var rest := Process(records[1..], bumped);
        ProcessCounts(records[1..], bumped);
        assert o == Then([o.written[0]], rest);
        var m := Consumed(rest, |records| - 1);
        assert n == m + 1;
        assert ids[1..] == Ids(records[1..])[..m];
      }
    }
  }

  /** The uid each id in turn is given: its count once it has been bumped. */
  function Uids(ids: seq<string>, counts: map<string, int>): (u: seq<int>)
    ensures |u| == |ids|
  {
    if ids == [] then [] else [Count(counts, ids[0]) + 1] + Uids(ids[1..], Bump(counts, ids[0]))
  }

  /** The `k`-th uid is the id's count before the run plus the number of
      times that id occurs among the first `k + 1` ids. */
  lemma {:induction false} UidsCount(ids: seq<string>, counts: map<string, int>)
    ensures forall k :: 0 <= k < |ids| ==>
              Uids(ids, counts)[k] == Count(counts, ids[k]) + Occurrences(ids[..k + 1], ids[k])
  {
    if ids != [] {
      var id := ids[0];
      var tail := ids[1..];
      var bumped := Bump(counts, id);
      UidsCount(tail, bumped);
      forall k | 0 <= k < |ids|
        ensures Uids(ids, counts)[k] == Count(counts, ids[k]) + Occurrences(ids[..k + 1], ids[k])
      {
        if k == 0 {
          assert ids[..1] == [id];
          OccurrencesCons(id, [], id);
        } else {
          assert tail[k - 1] == ids[k];
          UidsStep(ids, counts, k);
        }
      }
    }
  }

  /** One step of `UidsCount`: the `k`-th uid from the `k - 1`-th of the tail. */
  lemma UidsStep(ids: seq<string>, counts: map<string, int>, k: nat)
    requires 0 < k < |ids|
    requires Uids(ids[1..], Bump(counts, ids[0]))[k - 1]
             == Count(Bump(counts, ids[0]), ids[k]) + Occurrences(ids[1..][..k], ids[k])
    ensures Uids(ids, counts)[k] == Count(counts, ids[k]) + Occurrences(ids[..k + 1], ids[k])
  {
    var id, x := ids[0], ids[k];
    var tail, bumped := ids[1..], Bump(counts, ids[0]);
    assert Uids(ids, counts)[k] == Uids(tail, bumped)[k - 1];
    assert Count(bumped, x) == Count(counts, x) + (if id == x then 1 else 0);
    PrefixCons(ids, k);
    OccurrencesCons(id, tail[..k], x);
  }

  lemma PrefixCons(ids: seq<string>, k: nat)
    requires 0 < k < |ids|
    ensures ids[..k + 1] == [ids[0]] + ids[1..][..k]
  {
  }

  /** The `k`-th of `written` is the `k`-th record stamped with the `k`-th uid. */
  predicate Stamped(records: seq<Record>, uids: seq<int>, written: seq<ReadVector>) {
    && |written| <= |records| && |written| <= |uids|
    && forall k :: 0 <= k < |written| ==>
         records[k].prepared.Ok? && Ok(written[k]) == WriteUid(records[k].prepared.value, uids[k])
  }

  lemma StampedCons(records: seq<Record>, uids: seq<int>, v: ReadVector, written: seq<ReadVector>)
    requires records != [] && uids != []
    requires records[0].prepared.Ok? && Ok(v) == WriteUid(records[0].prepared.value, uids[0])
    requires Stamped(records[1..], uids[1..], written)
    ensures Stamped(records, uids, [v] + written)
  {
    var all := [v] + written;
    forall k | 1 <= k < |all|
      ensures records[k].prepared.Ok? && Ok(all[k]) == WriteUid(records[k].prepared.value, uids[k])
    {
      assert all[k] == written[k - 1];
      assert records[k] == records[1..][k - 1];
      assert uids[k] == uids[1..][k - 1];
    }
  }

  /** The `k`-th vector written is the `k`-th record's, with the `k`-th uid. */
  lemma {:induction false} ProcessVectors(records: seq<Record>, counts: map<string, int>)
    ensures Stamped(records, Uids(Ids(records), counts), Process(records, counts).written)
  {
    if records != [] {
      var o := Process(records, counts);
      var id := records[0].id;
      var bumped := Bump(counts, id);
      var rest := Process(records[1..], bumped);
      ProcessVectors(records[1..], bumped);
      var uids := Uids(Ids(records), counts);
      assert Ids(records)[1..] == Ids(records[1..]);
      assert uids[1..] == Uids(Ids(records[1..]), bumped);
      if o.written != [] {
        assert o == Then([o.written[0]], rest);
        StampedCons(records, uids, o.written[0], rest.written);
      }
    }
  }

  /** What `save_fastq` leaves after a file with these records, given
      whether the file ends inside a record:
      - the vectors written are the records' vectors in order, each with
        its uid, and every record before them builds;
      - nothing is raised exactly when every record builds and the file
        does not end inside one, and `StopIteration` exactly when every
        record builds and it does; then one vector is written per record,
        and every record's id is counted;
      - otherwise the first failing record's error is raised, after the ids
        up to and including that record were counted. */
  predicate FileOutcome(records: seq<Record>, counts: map<string, int>, truncated: bool, o: SaveOutcome) {
    var allBuild := forall k :: 0 <= k < |records| ==> RecordError(records[k]).None?;
    && Stamped(records, Uids(Ids(records), counts), o.written)
    && (forall k :: 0 <= k < |o.written| ==> RecordError(records[k]).None?)
    && (o.error.None? <==> allBuild && !truncated)
    && (o.error == Some(TruncatedRecord) <==> allBuild && truncated)
    && (o.error.None? || o.error == Some(TruncatedRecord) ==>
          |o.written| == |records| && o.counts == Tally(counts, Ids(records)))
    && (o.error.Some? && o.error != Some(TruncatedRecord) ==>
          && |o.written| < |records|
          && o.error == RecordError(records[|o.written|])
          && o.counts == Tally(counts, Ids(records)[..|o.written| + 1]))
  }

  /** Processing records that never raise `StopIteration` themselves, then
      the truncation check, gives that outcome. */
  lemma FinishOutcome(records: seq<Record>, counts: map<string, int>, truncatedAt: Option<nat>)
    requires forall k :: 0 <= k < |records| ==> RecordError(records[k]) != Some(TruncatedRecord)
    ensures FileOutcome(records, counts, truncatedAt.Some?, Finish(Process(records, counts), truncatedAt))
  {
    var p := Process(records, counts);
    ProcessShape(records, counts);
    ProcessCounts(records, counts);
    ProcessVectors(records, counts);
    if p.error.None? {
      assert Ids(records)[..|records|] == Ids(records);
    }
  }

  /** `save_fastq` on a whole file, in terms of its records. */
  lemma SaveFastqRun(lines: seq<string>, layout: Layout, counts: map<string, int>)
    ensures FileOutcome(RecordsFrom(lines, layout, 0), counts, Parse(lines, 0).truncatedAt.Some?,
                        Run(lines, layout, 0, counts))
  {
    RunIsProcessOfParse(lines, layout, 0, counts);
    NeverTruncated(lines, layout, 0);
    FinishOutcome(RecordsFrom(lines, layout, 0), counts, Parse(lines, 0).truncatedAt);
  }

  /** Building a record never raises `StopIteration`. */
  lemma NeverTruncated(lines: seq<string>, layout: Layout, i: nat)
    ensures var records := RecordsFrom(lines, layout, i);
            forall k :: 0 <= k < |records| ==> RecordError(records[k]) != Some(TruncatedRecord)
  {
  }
}
