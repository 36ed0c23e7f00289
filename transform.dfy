/** The FASTQ-to-read-vector path of `saradomin/transform.py`: the base
    encoder, the integer part of the average Phred score, the read-vector
    layout and the record loop of `save_fastq`. */
module Transform {
  import opened Wrappers
  import opened PyStr

  // ---------------------------------------------------------------------
  // Base encoder: one_hot_encode_sequence
  // ---------------------------------------------------------------------

  /** `str.upper()` on one character, for ASCII letters. No other character
      upper-cases to A, C, G, T or N, so the table lookup is unaffected. */
  function Upper(c: char): char {
    if 'a' <= c <= 'z' then (c as int - 32) as char else c
  }

  /** The five codes of the table. */
  predicate IsCode(code: string) {
    code == "000" || code == "001" || code == "010" || code == "011" || code == "100"
  }

  /** The base a character stands for once case is ignored: A, C, G or T,
      and N for everything else. */
  function Canonical(c: char): char {
    var u := Upper(c);
    if u == 'A' || u == 'C' || u == 'G' || u == 'T' then u else 'N'
  }

  /** The code of one base (saradomin/transform.py:27-30): the table entry of
      its upper-case form, with "100" for a character not in the table. */
  function BaseCode(c: char): (code: string)
    ensures IsCode(code)
    ensures code == "000" <==> Upper(c) == 'A'
    ensures code == "001" <==> Upper(c) == 'C'
    ensures code == "010" <==> Upper(c) == 'G'
    ensures code == "011" <==> Upper(c) == 'T'
    ensures code == "100" <==> Canonical(c) == 'N'
  {
    match Upper(c)
    case 'A' => "000"
    case 'C' => "001"
    case 'G' => "010"
    case 'T' => "011"
    case 'N' => "100"
    case _ => "100"
  }

  /** The list `one_hot_encode_sequence` returns: one code per character. */
  function EncodeSeq(s: string): (codes: seq<string>)
    ensures |codes| == |s|
    ensures forall i :: 0 <= i < |s| ==> codes[i] == BaseCode(s[i])
  {
    if s == [] then [] else [BaseCode(s[0])] + EncodeSeq(s[1..])
  }

  /** `one_hot_encode_sequence`: the loop appending one code per character. */
  method OneHotEncodeSequence(sequence: string) returns (encoded: seq<string>)
    ensures encoded == EncodeSeq(sequence)
    ensures |encoded| == |sequence|
    ensures forall i :: 0 <= i < |encoded| ==> IsCode(encoded[i])
  {
    encoded := [];
    for i := 0 to |sequence|
      invariant |encoded| == i
      invariant forall k :: 0 <= k < i ==> encoded[k] == BaseCode(sequence[k])
    {
      encoded := encoded + [BaseCode(sequence[i])];
    }
  }

  /** The ASCII upper-case form of a string (saradomin/transform.py:30), one
      character at a time: each ASCII letter upper-cased, every other
      character kept. */
  function UpperString(s: string): (u: string)
    ensures |u| == |s|
    ensures forall i :: 0 <= i < |s| ==> u[i] == Upper(s[i])
  {
    seq(|s|, i requires 0 <= i < |s| => Upper(s[i]))
  }

  /** The lookup is case-insensitive: `.upper()` is applied before it. */
  lemma BaseCodeCaseInsensitive(c: char)
    ensures BaseCode(c) == BaseCode(Upper(c))
    ensures 'a' <= c <= 'z' ==> Upper(c) != c && 'A' <= Upper(c) <= 'Z'
  {
  }

  /** Two characters get the same code exactly when they stand for the same
      base: the encoding forgets case and which unknown character it saw. */
  lemma BaseCodeSameIff(c: char, d: char)
    ensures BaseCode(c) == BaseCode(d) <==> Canonical(c) == Canonical(d)
  {
  }

  /** Encoding works element by element across a concatenation. */
  lemma {:induction false} EncodeConcat(s: string, t: string)
    ensures EncodeSeq(s + t) == EncodeSeq(s) + EncodeSeq(t)
  {
    if s == [] {
      assert s + t == t;
    } else {
      assert (s + t)[1..] == s[1..] + t;
      EncodeConcat(s[1..], t);
    }
  }

  /** Upper-casing every ASCII letter of the sequence first encodes the same. */
  lemma EncodeCaseInsensitive(s: string)
    ensures EncodeSeq(UpperString(s)) == EncodeSeq(s)
  {
    forall i | 0 <= i < |s| ensures EncodeSeq(UpperString(s))[i] == EncodeSeq(s)[i] {
      BaseCodeCaseInsensitive(s[i]);
    }
  }

  /** Two sequences encode alike exactly when they have the same length and
      the same canonical base at every position. */
  lemma EncodeSameIff(s: string, t: string)
    ensures EncodeSeq(s) == EncodeSeq(t) <==>
            |s| == |t| && forall i :: 0 <= i < |s| ==> Canonical(s[i]) == Canonical(t[i])
  {
    if EncodeSeq(s) == EncodeSeq(t) {
      forall i | 0 <= i < |s| ensures Canonical(s[i]) == Canonical(t[i]) {
        assert EncodeSeq(s)[i] == EncodeSeq(t)[i];
        BaseCodeSameIff(s[i], t[i]);
      }
    }
    if |s| == |t| && forall i :: 0 <= i < |s| ==> Canonical(s[i]) == Canonical(t[i]) {
      forall i | 0 <= i < |s| ensures EncodeSeq(s)[i] == EncodeSeq(t)[i] {
        BaseCodeSameIff(s[i], t[i]);
      }
    }
  }

  // ---------------------------------------------------------------------
  // calculate_average_phred
  // ---------------------------------------------------------------------

  /** The quality total (saradomin/transform.py:36): each character scores
      its code point minus 33, and the scores are added up. */
  function PhredTotal(q: string): int {
    if q == [] then 0 else (q[0] as int - 33) + PhredTotal(q[1..])
  }

  /** The total is additive over a concatenation. */
  lemma {:induction false} PhredTotalConcat(q: string, r: string)
    ensures PhredTotal(q + r) == PhredTotal(q) + PhredTotal(r)
  {
    if q == [] {
      assert q + r == r;
    } else {
      assert (q + r)[1..] == q[1..] + r;
      PhredTotalConcat(q[1..], r);
    }
  }

  /** Printable Phred+33 characters ('!' to '~') score between 0 and 93 each. */
  lemma {:induction false} PhredTotalBounds(q: string)
    requires forall i :: 0 <= i < |q| ==> '!' <= q[i] <= '~'
    ensures 0 <= PhredTotal(q) <= 93 * |q|
  {
    if q != [] {
      PhredTotalBounds(q[1..]);
    }
  }

  /** One element of a read vector: a base code, an integer, or the rounded
      average `round(total / count, 2)`, kept as its two integer operands. */
  datatype Slot = Code(bits: string) | Int(value: int) | Average(total: int, count: nat)

  type ReadVector = seq<Slot>

  /** The exceptions `save_fastq` can raise: `next()` running out of lines
      inside a record, the division by an empty quality line, and a list
      assignment outside the vector. */
  datatype SaveError = TruncatedRecord | ZeroDivision | IndexOutOfRange

  /** `calculate_average_phred`: fails on an empty quality string, otherwise
      the average of the per-character scores over their number. */
  function AveragePhred(q: string): (r: Result<Slot, SaveError>)
    ensures r.Err? <==> q == []
    ensures r.Err? ==> r.error == ZeroDivision
    ensures r.Ok? ==> r.value == Average(PhredTotal(q), |q|)
  {
    if |q| == 0 then Err(ZeroDivision) else Ok(Average(PhredTotal(q), |q|))
  }

  // ---------------------------------------------------------------------
  // Read-vector layout
  // ---------------------------------------------------------------------

  /** The schema of the vector and the two positions, counted from the end,
      that `common.get_position_feature` gives for PHRED_SCORE and UID. */
  datatype Layout = Layout(schema: seq<string>, phredPos: int, uidPos: int)

  /** The number of zero slots placed after the codes (saradomin/transform.py:58):
      one fewer than the schema has entries, and none for an empty schema. */
  function TrailingSlots(schema: seq<string>): nat {
    if |schema| == 0 then 0 else |schema| - 1
  }

  function CodeSlots(codes: seq<string>): (v: ReadVector)
    ensures |v| == |codes|
    ensures forall i :: 0 <= i < |codes| ==> v[i] == Code(codes[i])
  {
    seq(|codes|, i requires 0 <= i < |codes| => Code(codes[i]))
  }

  function Zeros(n: nat): (v: ReadVector)
    ensures |v| == n
    ensures forall i :: 0 <= i < n ==> v[i] == Int(0)
  {
    seq(n, i => Int(0))
  }

  /** How Python resolves the index `i` of a list of length `len`: negative
      indices count from the end, anything outside `[-len, len)` fails. */
  function PyIndex(len: nat, i: int): (k: Option<nat>)
    ensures k.Some? <==> -(len as int) <= i < len
    ensures k.Some? ==> k.value < len && (k.value == i || k.value == i + len)
  {
    if 0 <= i < len then Some(i) else if -(len as int) <= i < 0 then Some(i + len) else None
  }

  /** The list index `(len(read_vector) - 1) - pos`. Positions in `[len, 2 * len)`
      wrap round through Python's negative indexing. */
  function SlotFromEnd(len: nat, pos: int): (k: Option<nat>)
    ensures k.Some? <==> 0 <= pos < 2 * len
    ensures 0 <= pos < len ==> k == Some(len - 1 - pos)
    ensures len <= pos < 2 * len ==> k == Some(2 * len - 1 - pos)
  {
    PyIndex(len, (len - 1) - pos)
  }

  /** A vector with the codes, the trailing slots and the average written,
      and the position of its uid slot still to be resolved. */
  datatype Prepared = Prepared(vector: ReadVector, uidPos: int)

  /** Lines 57-62 of `save_fastq` for one record: encode, append the
      trailing slots, compute the average and write it. */
  function PrepareVector(sequence: string, quality: string, layout: Layout): (r: Result<Prepared, SaveError>)
    ensures r.Err? ==> r.error != TruncatedRecord
  {
    var v := CodeSlots(EncodeSeq(sequence)) + Zeros(TrailingSlots(layout.schema));
    match AveragePhred(quality)
    case Err(e) => Err(e)
    case Ok(avg) =>
      match SlotFromEnd(|v|, layout.phredPos)
      case None => Err(IndexOutOfRange)
      case Some(ip) => Ok(Prepared(v[ip := avg], layout.uidPos))
  }

  /** Lines 64-65: the uid is written last. */
  function WriteUid(p: Prepared, uid: int): (r: Result<ReadVector, SaveError>)
    ensures r.Err? <==> SlotFromEnd(|p.vector|, p.uidPos).None?
    ensures r.Err? ==> r.error == IndexOutOfRange
  {
    match SlotFromEnd(|p.vector|, p.uidPos)
    case None => Err(IndexOutOfRange)
    case Some(iu) => Ok(p.vector[iu := Int(uid)])
  }

  /** Lines 57-65 of `save_fastq` for one record. */
  function BuildVector(sequence: string, quality: string, layout: Layout, uid: int): Result<ReadVector, SaveError> {
    match PrepareVector(sequence, quality, layout)
    case Err(e) => Err(e)
    case Ok(p) => WriteUid(p, uid)
  }

  /** The vector's length: one code per base plus the trailing slots. */
  function VectorLength(sequence: string, layout: Layout): nat {
    |sequence| + TrailingSlots(layout.schema)
  }

  /** When the vector cannot be built, and why: an empty quality string fails
      at the division before any index is tried, and otherwise a position
      outside `[0, 2 * len)` fails the list assignment. */
  lemma BuildVectorFails(sequence: string, quality: string, layout: Layout, uid: int)
    ensures var n := VectorLength(sequence, layout);
            var r := BuildVector(sequence, quality, layout, uid);
            && (r.Err? <==> quality == [] || !(0 <= layout.phredPos < 2 * n) || !(0 <= layout.uidPos < 2 * n))
            && (quality == [] ==> r == Err(ZeroDivision))
            && (quality != [] && r.Err? ==> r == Err(IndexOutOfRange))
  {
  }

  /** Whenever the vector is built, the uid slot holds the uid (it is
      written last, so it wins when both positions name the same slot), the
      quality slot holds the average unless the uid took it, and every other
      element is untouched. */
  lemma BuildVectorSlots(sequence: string, quality: string, layout: Layout, uid: int)
    requires BuildVector(sequence, quality, layout, uid).Ok?
    ensures var n := VectorLength(sequence, layout);
            var v := BuildVector(sequence, quality, layout, uid).value;
            var ip := SlotFromEnd(n, layout.phredPos).value;
            var iu := SlotFromEnd(n, layout.uidPos).value;
            && |v| == n
            && v[iu] == Int(uid)
            && (ip != iu ==> v[ip] == Average(PhredTotal(quality), |quality|))
            && (forall k :: 0 <= k < |sequence| && k != ip && k != iu ==> v[k] == Code(BaseCode(sequence[k])))
            && (forall k :: |sequence| <= k < n && k != ip && k != iu ==> v[k] == Int(0))
  {
  }

  /** With both positions inside the trailing slots, the vector has the
      encoded sequence as its prefix, the uid at `(len - 1) - uidPos`, and
      the average at `(len - 1) - phredPos` unless the uid shares it. */
  lemma VectorLayout(sequence: string, quality: string, layout: Layout, uid: int)
    requires quality != []
    requires 0 <= layout.phredPos < TrailingSlots(layout.schema)
    requires 0 <= layout.uidPos < TrailingSlots(layout.schema)
    ensures var r := BuildVector(sequence, quality, layout, uid);
            var n := |sequence| + |layout.schema| - 1;
            && r.Ok? && |r.value| == n
            && r.value[..|sequence|] == CodeSlots(EncodeSeq(sequence))
            && r.value[n - 1 - layout.uidPos] == Int(uid)
            && (layout.phredPos != layout.uidPos ==> r.value[n - 1 - layout.phredPos] == Average(PhredTotal(quality), |quality|))
  {
    var n := VectorLength(sequence, layout);
    BuildVectorSlots(sequence, quality, layout, uid);
    var v := BuildVector(sequence, quality, layout, uid).value;
    assert v[..|sequence|] == CodeSlots(EncodeSeq(sequence));
  }

  // ---------------------------------------------------------------------
  // Records, the read-id counter and save_fastq
  // ---------------------------------------------------------------------

  /** A header line: one whose first character is `@` (saradomin/transform.py:47). */
  predicate StartsRecord(line: string) {
    StartsWith(line, "@")
  }

  /** The read id (saradomin/transform.py:48): the first whitespace-separated word of the
      header line without its leading `@`. */
  function ReadId(header: string): (id: string)
    requires StartsRecord(header)
    ensures |id| < |header| && header[1..|id| + 1] == id
    ensures forall k :: 0 <= k < |id| ==> !IsSpace(id[k])
    ensures |id| + 1 == |header| || IsSpace(header[|id| + 1])
  {
    assert header[0] == '@';
    FirstWord(header)[1..]
  }

  /** The count recorded for `id`, or 0 when it has none (saradomin/transform.py:54). */
  function Count(counts: map<string, int>, id: string): int {
    if id in counts then counts[id] else 0
  }

  /** The counter with one more occurrence of `id` recorded (saradomin/transform.py:54). */
  function Bump(counts: map<string, int>, id: string): (c: map<string, int>)
    ensures c.Keys == counts.Keys + {id}
    ensures Count(c, id) == Count(counts, id) + 1
    ensures forall k :: k != id ==> Count(c, k) == Count(counts, k)
  {
    counts[id := Count(counts, id) + 1]
  }

  /** The `read_id_counter` dictionary that `save_fastq` updates in place. */
  class ReadIdCounter {
    var counts: map<string, int>

    /** An empty counter (saradomin/transform.py:105). */
    constructor ()
      ensures counts == map[]
    {
      counts := map[];
    }

    /** Bumps the count of `id` and returns its new value. */
    method Increment(id: string) returns (n: int)
      modifies this
      ensures counts == Bump(old(counts), id)
      ensures n == Count(old(counts), id) + 1
    {
      counts := Bump(counts, id);
      n := counts[id];
    }
  }

  /** What a call of `save_fastq` leaves behind: the counter, the vectors
      appended to the output file, and the exception it raised, if any. */
  datatype SaveOutcome = SaveOutcome(counts: map<string, int>, written: seq<ReadVector>, error: Option<SaveError>)

  /** Vectors written before the rest of the run. */
  function Then(written: seq<ReadVector>, rest: SaveOutcome): SaveOutcome {
    SaveOutcome(rest.counts, written + rest.written, rest.error)
  }

  /** The record at line `i` is built from these lines and this uid. */
  function RecordVector(lines: seq<string>, layout: Layout, i: nat, counts: map<string, int>): Result<ReadVector, SaveError>
    requires i + 3 < |lines| && StartsRecord(lines[i])
  {
    var id := ReadId(lines[i]);
    BuildVector(Strip(lines[i + 1]), Strip(lines[i + 3]), layout, Count(Bump(counts, id), id))
  }

  /** The `for line in fastq_file` loop from line `i` on, with `next()`
      taking the three lines after a header. */
  function Run(lines: seq<string>, layout: Layout, i: nat, counts: map<string, int>): SaveOutcome
    decreases |lines| - i
  {
    if i >= |lines| then SaveOutcome(counts, [], None)
    else if !StartsRecord(lines[i]) then Run(lines, layout, i + 1, counts)
    else if |lines| - i < 4 then SaveOutcome(counts, [], Some(TruncatedRecord))
    else
      var bumped := Bump(counts, ReadId(lines[i]));
      match RecordVector(lines, layout, i, counts)
      case Err(e) => SaveOutcome(bumped, [], Some(e))
      case Ok(v) => Then([v], Run(lines, layout, i + 4, bumped))
  }

  /** Lines 57-65 of `save_fastq`: the vector is built, then its two slots
      are assigned in place, the quality slot first. */
  method FillReadVector(sequenceLine: string, qualityLine: string, layout: Layout, uid: int)
    returns (r: Result<ReadVector, SaveError>)
    ensures r == BuildVector(sequenceLine, qualityLine, layout, uid)
  {
    var encoded := OneHotEncodeSequence(sequenceLine);
    var vector := CodeSlots(encoded) + Zeros(TrailingSlots(layout.schema));
    var average := AveragePhred(qualityLine);
    if average.Err? {
      return Err(average.error);
    }
    var phredSlot := SlotFromEnd(|vector|, layout.phredPos);
    if phredSlot.None? {
      return Err(IndexOutOfRange);
    }
    vector := vector[phredSlot.value := average.value];
    var uidSlot := SlotFromEnd(|vector|, layout.uidPos);
    if uidSlot.None? {
      return Err(IndexOutOfRange);
    }
    vector := vector[uidSlot.value := Int(uid)];
    return Ok(vector);
  }

  lemma ThenThen(w1: seq<ReadVector>, w2: seq<ReadVector>, rest: SaveOutcome)
    ensures Then(w1, Then(w2, rest)) == Then(w1 + w2, rest)
  {
    assert w1 + (w2 + rest.written) == (w1 + w2) + rest.written;
  }

  /** One record's step of `Run`. */
  lemma RunAtRecord(lines: seq<string>, layout: Layout, i: nat, counts: map<string, int>)
    requires i + 3 < |lines| && StartsRecord(lines[i])
    ensures var bumped := Bump(counts, ReadId(lines[i]));
            var built := RecordVector(lines, layout, i, counts);
            && (built.Err? ==> Run(lines, layout, i, counts) == SaveOutcome(bumped, [], Some(built.error)))
            && (built.Ok? ==> Run(lines, layout, i, counts) == Then([built.value], Run(lines, layout, i + 4, bumped)))
  {
  }

  /** The body of `if line.startswith('@')` for the header at line `i`:
      take the id, bump its count, and build the record's vector. */
  method SaveRecord(lines: seq<string>, layout: Layout, i: nat, counter: ReadIdCounter)
    returns (built: Result<ReadVector, SaveError>)
    requires i + 3 < |lines| && StartsRecord(lines[i])
    modifies counter
    ensures counter.counts == Bump(old(counter.counts), ReadId(lines[i]))
    ensures built == RecordVector(lines, layout, i, old(counter.counts))
  {
    var id := ReadId(lines[i]);
    var sequenceLine := Strip(lines[i + 1]);
    var qualityLine := Strip(lines[i + 3]);
    var uid := counter.Increment(id);
    built := FillReadVector(sequenceLine, qualityLine, layout, uid);
  }

  /** `save_fastq` over the lines of the FASTQ file. */
  method SaveFastq(lines: seq<string>, layout: Layout, counter: ReadIdCounter)
    returns (written: seq<ReadVector>, error: Option<SaveError>)
    modifies counter
    ensures SaveOutcome(counter.counts, written, error) == Run(lines, layout, 0, old(counter.counts))
  {
    written, error := [], None;
    var i := 0;
    while i < |lines|
      invariant i <= |lines|
      invariant Run(lines, layout, 0, old(counter.counts)) == Then(written, Run(lines, layout, i, counter.counts))
      decreases |lines| - i
    {
      var line := lines[i];
      if StartsWith(line, "@") {
        if |lines| - i < 4 {
          error := Some(TruncatedRecord);
          return;
        }
        ghost var before := counter.counts;
        var built := SaveRecord(lines, layout, i, counter);
        RunAtRecord(lines, layout, i, before);
        if built.Err? {
          error := Some(built.error);
          return;
        }
        var vector := built.value;
        ThenThen(written, [vector], Run(lines, layout, i + 4, counter.counts));
        written := written + [vector];
        i := i + 4;
      } else {
        assert Run(lines, layout, i, counter.counts) == Run(lines, layout, i + 1, counter.counts);
        i := i + 1;
      }
    }
  }
}
