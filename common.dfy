/** The filename helpers: the output name for a FASTQ file, and picking
    files out of a directory listing. */
module Common {
  import opened Wrappers
  import opened PyStr

  /** `s` has no `/` in it. */
  predicate NoSlash(s: string) {
    forall i :: 0 <= i < |s| ==> s[i] != '/'
  }

  /** Where the last path component of `p[..j]` starts. */
  function ComponentStart(p: string, j: nat): (k: nat)
    requires j <= |p|
    ensures k <= j
    ensures forall i :: k <= i < j ==> p[i] != '/'
    ensures k > 0 ==> p[k - 1] == '/'
  {
    if j == 0 || p[j - 1] == '/' then j else ComponentStart(p, j - 1)
  }

  /** `os.path.basename(p)` on POSIX: what follows the last `/`. */
  function Basename(p: string): (b: string)
    ensures NoSlash(b)
  {
    p[ComponentStart(p, |p|)..]
  }

  /** The basename is a suffix of the path, and either the whole path or
      preceded by a `/`. */
  lemma BasenameIsLastComponent(p: string)
    ensures var b := Basename(p);
            && |b| <= |p| && b == p[|p| - |b|..]
            && (|b| < |p| ==> p[|p| - |b| - 1] == '/')
  {
  }

  /** `os.path.join(directory, name)` on POSIX: an absolute name replaces
      the directory, otherwise a `/` is put between them unless the
      directory is empty or already ends with one. */
  function Join(directory: string, name: string): (r: string)
    ensures EndsWith(r, name)
    ensures StartsWith(name, "/") ==> r == name
  {
    if StartsWith(name, "/") then name
    else if directory == [] || directory[|directory| - 1] == '/' then directory + name
    else directory + "/" + name
  }

  /** `s.split(c, 1)`: the text before the first `c` and the text after it,
      or `s` alone when `c` does not occur. */
  function SplitOnce(s: string, c: char): (parts: seq<string>)
    ensures 1 <= |parts| <= 2
    ensures |parts| == 1 <==> c !in s
    ensures |parts| == 1 ==> parts[0] == s
    ensures |parts| == 2 ==> (forall i :: 0 <= i < |parts[0]| ==> parts[0][i] != c) && s == parts[0] + [c] + parts[1]
  {
    var k := FirstIndexOf(s, c);
    if k == |s| then [s] else [s[..k], s[k + 1..]]
  }

  /** Lines 34-39 of `add_txt_extension`, on the basename: `.txt` put in
      front of the first `.`, or appended when there is none. */
  function TxtName(fileName: string): (r: string)
    ensures |r| == |fileName| + 4
    ensures NoSlash(fileName) ==> NoSlash(r)
  {
    var nameParts := SplitOnce(fileName, '.');
    if |nameParts| > 1 then nameParts[0] + ".txt" + "." + nameParts[1]
    else fileName + ".txt"
  }

  /** `add_txt_extension`: the directory part is dropped and `.txt` goes in
      front of the first `.` of the basename, or at its end. */
  function AddTxtExtension(filePath: string): (r: string)
    ensures NoSlash(r)
    ensures |r| == |Basename(filePath)| + 4
  {
    TxtName(Basename(filePath))
  }

  /** `.txt` goes in at the first `.` of the basename, or at its end; the
      rest of the basename is kept on either side of it. */
  lemma AddTxtExtensionInserts(filePath: string)
    ensures var b := Basename(filePath);
            var k := FirstIndexOf(b, '.');
            AddTxtExtension(filePath) == b[..k] + ".txt" + b[k..]
  {
    var b := Basename(filePath);
    var k := FirstIndexOf(b, '.');
    if k < |b| {
      assert b[k] == '.';
      AddTxtExtensionDot(filePath);
      InsertBeforeDot(b, k);
    } else {
      AddTxtExtensionNoDot(filePath);
      assert b[..k] == b && b[k..] == [];
    }
  }

  lemma InsertBeforeDot(b: string, k: nat)
    requires k < |b| && b[k] == '.'
    ensures b[..k] + ".txt." + b[k + 1..] == b[..k] + ".txt" + b[k..]
  {
    assert b[k..] == "." + b[k + 1..];
  }

  /** A basename without a dot just gets `.txt` appended. */
  lemma AddTxtExtensionNoDot(filePath: string)
    requires '.' !in Basename(filePath)
    ensures AddTxtExtension(filePath) == Basename(filePath) + ".txt"
  {
  }

  /** With a dot, `.txt` comes right before the first one: `x.fastq.gz`
      becomes `x.txt.fastq.gz`. */
  lemma AddTxtExtensionDot(filePath: string)
    requires '.' in Basename(filePath)
    ensures var b := Basename(filePath);
            var k := FirstIndexOf(b, '.');
            && k < |b| && (forall i :: 0 <= i < k ==> b[i] != '.')
            && AddTxtExtension(filePath) == b[..k] + ".txt." + b[k + 1..]
  {
    var b := Basename(filePath);
    var k := FirstIndexOf(b, '.');
    TxtNameDot(b);
  }

  lemma TxtNameDot(b: string)
    requires '.' in b
    ensures var k := FirstIndexOf(b, '.');
            k < |b| && TxtName(b) == b[..k] + ".txt." + b[k + 1..]
  {
    var k := FirstIndexOf(b, '.');
    assert SplitOnce(b, '.') == [b[..k], b[k + 1..]];
    assert ".txt" + "." == ".txt.";
  }

  /** Deleting the four inserted characters gives the basename back. */
  lemma AddTxtExtensionRemove(filePath: string)
    ensures var b := Basename(filePath);
            var k := FirstIndexOf(b, '.');
            var r := AddTxtExtension(filePath);
            r[k..k + 4] == ".txt" && r[..k] + r[k + 4..] == b
  {
    var b := Basename(filePath);
    var k := FirstIndexOf(b, '.');
    var r := AddTxtExtension(filePath);
    AddTxtExtensionInserts(filePath);
    DeleteInserted(b, k, ".txt");
  }

  lemma DeleteInserted(b: string, k: nat, ins: string)
    requires k <= |b|
    ensures var r := b[..k] + ins + b[k..];
            r[k..k + |ins|] == ins && r[..k] + r[k + |ins|..] == b
  {
    var r := b[..k] + ins + b[k..];
    assert r[..k] == b[..k];
    assert r[k + |ins|..] == b[k..];
  }

  /** The two kinds of name `find_r1_r2_files` looks for. */
  datatype Mate = R1 | R2

  /** A name counts as R1 when it contains `_R1`, and as R2 when it
      contains `_R2` but not `_R1`: the `elif` gives R1 precedence. */
  predicate IsMate(name: string, m: Mate) {
    match m
    case R1 => Contains(name, "_R1")
    case R2 => !Contains(name, "_R1") && Contains(name, "_R2")
  }

  /** The index of the last name of kind `m`, if any. */
  function LastMate(names: seq<string>, m: Mate): (k: Option<nat>)
    ensures k.None? <==> forall j :: 0 <= j < |names| ==> !IsMate(names[j], m)
    ensures k.Some? ==> && k.value < |names| && IsMate(names[k.value], m)
                        && forall j :: k.value < j < |names| ==> !IsMate(names[j], m)
  {
    if names == [] then None
    else if IsMate(names[|names| - 1], m) then Some(|names| - 1)
    else LastMate(names[..|names| - 1], m)
  }

  /** The path the directory's name at index `k` is reported as. */
  function PathOf(directory: string, names: seq<string>, k: Option<nat>): Option<string>
    requires k.Some? ==> k.value < |names|
  {
    match k
    case None => None
    case Some(j) => Some(Join(directory, names[j]))
  }

  /** `find_r1_r2_files` over the listing `names`: the loop keeps
      overwriting its choice, so the last name of each kind wins. */
  method FindR1R2Files(directory: string, names: seq<string>) returns (r1File: Option<string>, r2File: Option<string>)
    ensures r1File == PathOf(directory, names, LastMate(names, R1))
    ensures r2File == PathOf(directory, names, LastMate(names, R2))
  {
    r1File, r2File := None, None;
    for i := 0 to |names|
      invariant r1File == PathOf(directory, names, LastMate(names[..i], R1))
      invariant r2File == PathOf(directory, names, LastMate(names[..i], R2))
    {
      var file := names[i];
      var fullPath := Join(directory, file);
      assert names[..i + 1][..i] == names[..i];
      if Contains(file, "_R1") {
        r1File := Some(fullPath);
      } else if Contains(file, "_R2") {
        r2File := Some(fullPath);
      }
    }
    assert names[..|names|] == names;
  }

  /** A name `find_all_valid_pairs_file` accepts. */
  predicate IsValidPairs(name: string) {
    EndsWith(name, ".allValidPairs")
  }

  /** The index of the first accepted name from `i` on, if any. */
  function FirstValidPairsFrom(names: seq<string>, i: nat): (k: Option<nat>)
    requires i <= |names|
    ensures k.None? <==> forall j :: i <= j < |names| ==> !IsValidPairs(names[j])
    ensures k.Some? ==> && i <= k.value < |names| && IsValidPairs(names[k.value])
                        && forall j :: i <= j < k.value ==> !IsValidPairs(names[j])
    decreases |names| - i
  {
    if i == |names| then None
    else if IsValidPairs(names[i]) then Some(i)
    else FirstValidPairsFrom(names, i + 1)
  }

  /** The index of the first accepted name, if any. */
  function FirstValidPairs(names: seq<string>): (k: Option<nat>)
    ensures k.None? <==> forall j :: 0 <= j < |names| ==> !IsValidPairs(names[j])
    ensures k.Some? ==> && k.value < |names| && IsValidPairs(names[k.value])
                        && forall j :: 0 <= j < k.value ==> !IsValidPairs(names[j])
  {
    FirstValidPairsFrom(names, 0)
  }

  /** `find_all_valid_pairs_file` over the listing `names`: the first
      accepted name, joined to the directory, or `None` when the loop ends
      without returning. */
  method FindAllValidPairsFile(directory: string, names: seq<string>) returns (fullPath: Option<string>)
    ensures fullPath == PathOf(directory, names, FirstValidPairs(names))
  {
    for i := 0 to |names|
      invariant FirstValidPairsFrom(names, i) == FirstValidPairs(names)
    {
      if EndsWith(names[i], ".allValidPairs") {
        return Some(Join(directory, names[i]));
      }
    }
    return None;
  }
}
