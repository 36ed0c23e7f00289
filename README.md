# saradomin: FASTQ records to read vectors

This project models the FASTQ-to-read-vector path of saradomin, plus the
filename helpers that choose its input and output files.

- `save_fastq` walks the lines of a FASTQ file.
  - Every line that starts with `@` and is reached by the loop opens a
    record of four lines: header, sequence, `+` and quality.
  - The read id is the header's first word with the `@` removed.
  - Each record bumps a per-id occurrence counter.
  - The sequence is one-hot encoded, three characters per base.
  - The vector is the encoding followed by `len(schema) - 1` zero slots.
    Two of those slots are then assigned, at positions counted from the end:
    first the average quality, then the id's current count (the uid).
- `add_txt_extension` gives the output name for an input path.
- `find_r1_r2_files` and `find_all_valid_pairs_file` choose files from a
  directory listing.

The model covers `save_fastq`, `one_hot_encode_sequence` and the integer
total of `calculate_average_phred` in `saradomin/transform.py`, and
`add_txt_extension`, `find_r1_r2_files` and `find_all_valid_pairs_file` in
`saradomin/common.py`.

Modules:

- `Wrappers` (`wrappers.dfy`): `Option` and `Result`. They stand for
  Python's `None` and for raised exceptions.
- `PyStr` (`pystr.dfy`): the Python string behaviour the code relies on.
  - `str.isspace`, and `strip()` and `split()[0]` built on it.
  - `startswith`, `endswith`, `in`, and `find` of a single character.
- `Transform` (`transform.dfy`): the code of `saradomin/transform.py`.
  - The base encoder, as a function and as the appending loop.
  - The integer Phred total.
  - The vector layout, including Python's negative list indexing.
  - The counter dictionary, as a class whose `counts` map is updated in
    place.
  - `SaveFastq`, a `while` loop with an explicit line index that consumes
    four lines per record. Its contract ties it to the function `Run` over
    the line index.
- `FastqRecords` (`fastq_records.dfy`): an independent description of the
  same loop, with lemmas about whole files.
  - `Parse` lists the headers the loop reaches, and where the file is
    truncated if it is.
  - `Process` handles the records one after another.
  - `Run` is proved equal to both of them together.
  - Lemmas then state, for a whole file:
    - which vectors are written;
    - what every counter ends at;
    - which exception is raised.
- `Common` (`common.dfy`): the code of `saradomin/common.py`, over a given
  list of names.

Exceptions become `SaveError` values:

- `StopIteration` from `next()` becomes `TruncatedRecord`.
- `ZeroDivisionError` on an empty quality line becomes `ZeroDivision`.
- `IndexError` from a list assignment becomes `IndexOutOfRange`.

`SaveFastq` returns the vectors appended before the exception together
with the error.

## Model

| member | source | states |
|---|---|---|
| Transform.BaseCode | saradomin/transform.py:27-30 | The code is one of the five codes. A, C, G and T (either case) give "000", "001", "010" and "011", and exactly those. "100" is given to N and to every other character. |
| Transform.EncodeSeq | saradomin/transform.py:28-31 | One code per input character: the length is kept, and code `i` is the code of character `i`. |
| Transform.OneHotEncodeSequence | saradomin/transform.py:25-31 | The appending loop returns the encoding of the sequence. It has the same length as the sequence, and every element is one of the five codes. |
| Transform.BaseCodeCaseInsensitive | saradomin/transform.py:30 | A character encodes the same as its upper-case form, and a lower-case ASCII letter's upper-case form is a different, upper-case letter. |
| Transform.BaseCodeSameIff | saradomin/transform.py:27-30 | Two characters get the same code if and only if they stand for the same base. Case is ignored, and every non-ACGT character counts as N. |
| Transform.EncodeConcat | saradomin/transform.py:29-31 | Encoding `s + t` gives the encoding of `s` followed by the encoding of `t`. |
| Transform.EncodeCaseInsensitive | saradomin/transform.py:30 | Upper-casing every ASCII letter of a sequence, one character at a time, does not change its encoding. |
| Transform.EncodeSameIff | saradomin/transform.py:25-31 | Two sequences encode alike if and only if they have the same length and the same base at every position. |
| Transform.PhredTotalConcat | saradomin/transform.py:36 | The quality total of a concatenation is the sum of the two totals. |
| Transform.PhredTotalBounds | saradomin/transform.py:36 | For printable Phred+33 characters the total lies between 0 and 93 times the length. |
| Transform.PhredTotal | saradomin/transform.py:36 | No contract of its own: the integer sum of each character's code point minus 33. Its properties are stated by `PhredTotalConcat` and `PhredTotalBounds`, and `AveragePhred` uses it as the numerator. |
| Transform.AveragePhred | saradomin/transform.py:34-37 | An empty quality string fails with a division by zero. Otherwise the result is the integer total over the length. |
| Transform.PyIndex | saradomin/transform.py:62 | A list index resolves exactly when it lies in `[-len, len)`. A negative index counts from the end. |
| Transform.SlotFromEnd | saradomin/transform.py:61-65 | The index `(len - 1) - pos` resolves exactly when `0 <= pos < 2 * len`. It is `len - 1 - pos` for `pos < len`; larger positions wrap round through negative indexing. |
| Transform.PrepareVector | saradomin/transform.py:57-62 | Preparing a record's vector (codes, zero slots, the average written) never raises `StopIteration`. Its slots and failures are stated, through `BuildVector`, by `BuildVectorFails`, `BuildVectorSlots` and `VectorLayout`. |
| Transform.WriteUid | saradomin/transform.py:64-65 | The uid write fails, with an index error, exactly when the uid position does not resolve. |
| Transform.BuildVector | saradomin/transform.py:57-65 | No contract of its own: preparation followed by the uid write. Its failure conditions are stated by `BuildVectorFails`, its slots by `BuildVectorSlots` and `VectorLayout`, and `FillReadVector` is proved equal to it. |
| Transform.BuildVectorFails | saradomin/transform.py:37-65 | The vector cannot be built if and only if the quality line is empty or a position lies outside `[0, 2 * len)`. An empty quality line fails at the division, before any index is tried. |
| Transform.BuildVectorSlots | saradomin/transform.py:57-65 | A built vector has one slot per base plus `len(schema) - 1` slots (none for an empty schema). The uid slot holds the count. The quality slot holds the average unless the uid slot is the same one: the uid is written last and wins. Every other element is the base's code or 0. |
| Transform.VectorLayout | saradomin/transform.py:57-65 | Suppose the quality line is non-empty and both positions lie among the trailing slots. Then the vector is built, has length `len(sequence) + len(schema) - 1`, and its prefix is the encoded sequence. The uid sits at `(len-1) - uidPos`, and the average at `(len-1) - phredPos` unless the two coincide. |
| Transform.ReadId | saradomin/transform.py:47-48 | The id is the header's text right after the `@`, up to the first whitespace or the end of the line, and contains no whitespace. |
| Transform.Bump | saradomin/transform.py:54 | Counting an id adds one to its count (taken as 0 when missing) and adds its key. No other id's count changes. |
| Transform.ReadIdCounter.Increment | saradomin/transform.py:54 | The counter's map is bumped for the id, and the new count is returned. |
| Transform.FillReadVector | saradomin/transform.py:57-65 | Encoding, padding and the two slot assignments, done step by step, give the vector that `BuildVector` describes, or its error. |
| Transform.SaveRecord | saradomin/transform.py:47-65 | One record bumps the counter for its header's id and builds the vector from the stripped sequence and quality lines, using the bumped count as uid. |
| Transform.Run | saradomin/transform.py:46-66 | No contract of its own: the line loop in recursive form, the target of `SaveFastq`'s contract. It is proved equal to processing the parsed records by `FastqRecords.RunIsProcessOfParse`, and its whole-file outcome is stated by `FastqRecords.SaveFastqRun`. |
| Transform.SaveFastq | saradomin/transform.py:41-66 | The loop's final counter, its written vectors and its exception are those of `Run` from line 0 and the counter it was given. |
| PyStr.Strip | saradomin/transform.py:49-51 | The result is the slice of the line between its leading and trailing whitespace, and neither end of it is whitespace. |
| PyStr.FirstWord | saradomin/transform.py:48 | For a line not starting with whitespace, the result is its longest whitespace-free prefix. |
| FastqRecords.ParseIsScan | saradomin/transform.py:46-51 | The headers `Parse` finds are in order and four or more lines apart, and each has three lines after it. Among the lines the loop reaches outside a record, a line starts with `@` exactly when it is a listed header. A truncated trailing header starts with `@` and has fewer than three lines after it. |
| FastqRecords.ScanIsParse | saradomin/transform.py:46-51 | Conversely, any list of headers and truncation point meeting that description is the one `Parse` finds, so the description fixes exactly which reached lines are records. |
| FastqRecords.Process | saradomin/transform.py:46-66 | Without an error, one vector is written per record. With an error, fewer vectors are written than there are records. |
| FastqRecords.RecordError | saradomin/transform.py:57-65 | A record fails to build, whatever uid it is given, exactly when its preparation fails or its uid slot does not resolve. |
| FastqRecords.RunIsProcessOfParse | saradomin/transform.py:46-66 | The line loop equals two steps. First the parsed records are processed in order. Then, if no record failed and the file ends inside a record, `StopIteration` is raised. |
| FastqRecords.ProcessShape | saradomin/transform.py:54-66 | Every record before the first failing one writes a vector. The run raises the first failing record's error. |
| FastqRecords.TallyCounts | saradomin/transform.py:54 | After a list of ids is counted, each id's count is its starting count plus its number of occurrences. The keys gained are exactly the ids counted. |
| FastqRecords.ProcessCounts | saradomin/transform.py:54 | The final counter is the starting counter with the ids of every record reached counted, including a record that failed to build. |
| FastqRecords.UidsCount | saradomin/transform.py:54-65 | The uid of the `k`-th record is its id's starting count plus the number of times the id occurs among the first `k + 1` records. |
| FastqRecords.ProcessVectors | saradomin/transform.py:57-66 | The `k`-th vector written is the `k`-th record's vector, with the `k`-th uid written into it. |
| FastqRecords.FinishOutcome | saradomin/transform.py:46-66 | Processing records that never raise `StopIteration` themselves, followed by the truncation check, gives the whole-file outcome described for `SaveFastqRun`. |
| FastqRecords.SaveFastqRun | saradomin/transform.py:41-66 | For a whole file the following hold. The vectors written are the records' vectors, in order, each with its uid. No error is raised if and only if every record builds and the file does not end inside a record. `StopIteration` is raised if and only if every record builds and the file ends inside one. In those two cases one vector is written per record and every record's id is counted. Otherwise the first failing record's error is raised, and the ids are counted up to and including that record. |
| PyStr.FirstIndexOf | saradomin/common.py:34 | The result is the index of the first occurrence of the character, or the length when there is none. |
| Common.Basename | saradomin/common.py:32 | The basename contains no `/`. |
| Common.BasenameIsLastComponent | saradomin/common.py:32 | The basename is a suffix of the path, and it is either the whole path or preceded by a `/`. |
| Common.SplitOnce | saradomin/common.py:34 | Splitting once on `.` gives one part exactly when there is no dot. Otherwise it gives two parts joined by that dot, and the first part has no dot in it. |
| Common.TxtName | saradomin/common.py:34-39 | The name given to a basename is 4 characters longer than it, and has no `/` if the basename has none. |
| Common.AddTxtExtension | saradomin/common.py:31-40 | The result has no `/` and is 4 characters longer than the basename. |
| Common.AddTxtExtensionInserts | saradomin/common.py:34-40 | The result is the basename with ".txt" inserted at the index of its first dot, or at its end when it has none. |
| Common.AddTxtExtensionNoDot | saradomin/common.py:38-39 | A basename with no dot gets ".txt" appended. |
| Common.AddTxtExtensionDot | saradomin/common.py:34-37 | A basename `x.rest`, where `x` has no dot, becomes `x.txt.rest`. |
| Common.AddTxtExtensionRemove | saradomin/common.py:34-40 | The result has ".txt" at the index of the basename's first dot, and deleting those four characters gives the basename back. |
| Common.Join | saradomin/common.py:20 | The joined path ends with the name, and an absolute name replaces the directory. |
| Common.LastMate | saradomin/common.py:19-26 | The chosen index is the last name of the kind: one containing "_R1", or one containing "_R2" but not "_R1", because of the `elif`. There is none exactly when no name is of that kind. |
| Common.FindR1R2Files | saradomin/common.py:16-28 | Each result is the directory joined to the last name of its kind, or None when no listed name is of that kind. |
| Common.FirstValidPairs | saradomin/common.py:44-45 | The chosen index is the first name ending in ".allValidPairs". There is none exactly when no name ends so. |
| Common.FindAllValidPairsFile | saradomin/common.py:43-47 | The result is the directory joined to the first name ending in ".allValidPairs", or None (the implicit return) when there is no such name. |

## Left out

- `calculate_average_phred`'s float division and `round(..., 2)`, because they are floating point. The average is kept as its two integer operands, `Slot.Average(total, count)`.
- File I/O:
  - the file is a sequence of lines;
  - the output file is the sequence of vectors written;
  - `str(read_vector)` serialisation is not modelled (its text has no separator between vectors, so there is nothing to decode).
- `common.get_position_feature` is not part of this model. It is called at `saradomin/transform.py:61` and `:64`, but `saradomin/common.py` does not define it. The two positions it would return are the `phredPos` and `uidPos` fields of `Layout`. Every integer is allowed, and positions that fail the list assignment lead to `IndexOutOfRange`.
- `create_file_header`, because it depends on `datetime.utcnow` and only writes text.
- `create_file_if_not_exists`, `os.listdir` and `os.path.exists`, because they touch the filesystem. The listing is a given sequence of names, in the order `os.listdir` would return it.
- `insert_all_valid_pairs`, because it parses lines with `eval` and its matching branch does nothing. The counter's aliasing with it in `transform_one_read` is not modelled either.
- `transform_data_to_vectors` and `transform_one_read`, because they are orchestration over the filesystem.
- Configuration, logging, profiling, the file-size validator and the repository's tests, because they are plumbing outside the FASTQ path.
- Transform.Upper: upper-cases ASCII letters only. No other character's `str.upper()` is A, C, G, T or N, so a character's code does not depend on this.
- Transform.EncodeCaseInsensitive: is about upper-casing one character at a time, not about `str.upper()` on a whole string, which can make it longer (`'ß'` becomes `'SS'`), so a string's encoding can change length when it is upper-cased as a whole.
- Common.Basename and Common.Join: POSIX path rules only.
- `read_vector` is a Python list assigned in place. The model assigns to a Dafny sequence, which has the same effect because the list is not shared.
