/** Real-time persistence of found balances with size-based rollover:
    `check_file_size`, `get_new_output_filename`, `init_output_file` and
    `save_result_realtime`. These four methods are the same code in both checker
    versions and are modelled once, as the class `Sink`.

    The file system is a map from path to the lines of the file, each line
    written with a trailing newline; a file's size is its character count. Which
    paths can be opened for writing is the oracle `canWrite`. */
module OutputSink {
  import opened Text

  /** Column names of the output file. */
  const Columns: seq<string> := ["Private Key", "Address", "Balance (BTC)", "Timestamp", "API Used"]

  /** The header line written at the top of every file the sink creates. */
  const Header: string := Join(Columns, ',')

  /** `max_file_size_bytes` as the constructor sets it. */
  const DefaultMaxFileSize: nat := 10000 * 1024 * 1024

  /** Path to lines of the file at that path. */
  type Disk = map<string, seq<string>>

  /** Size of a file in characters, the newline of each line included. */
  function Size(lines: seq<string>): nat
  {
    if |lines| == 0 then 0 else Size(lines[..|lines| - 1]) + |lines[|lines| - 1]| + 1
  }

  lemma {:induction false} SizeAppend(a: seq<string>, b: seq<string>)
    ensures Size(a + b) == Size(a) + Size(b)
    decreases |b|
  {
    if |b| > 0 {
      assert (a + b)[..|a + b| - 1] == a + b[..|b| - 1];
      SizeAppend(a, b[..|b| - 1]);
    } else {
      assert a + b == a;
    }
  }

  /** `check_file_size`: false for a missing file, otherwise whether its size
      has reached the limit (`>=`). */
  predicate Oversized(disk: Disk, path: string, limit: nat)
  {
    path in disk && Size(disk[path]) >= limit
  }

  predicate NonDotBetween(p: string, lo: int, hi: int)
    requires 0 <= lo && hi <= |p|
  {
    exists k :: lo <= k < hi && p[k] != '.'
  }

  /** `os.path.splitext` for POSIX paths: the extension starts at the last dot
      of the last path component, unless the component has only dots before it. */
  function SplitExt(p: string): (r: (string, string))
    ensures r.0 + r.1 == p
    ensures r.1 == [] || (r.1[0] == '.' && '.' !in r.1[1..] && '/' !in r.1)
  {
    var sep := LastIndexOf(p, '/');
    var dot := LastIndexOf(p, '.');
    if dot > sep && NonDotBetween(p, sep + 1, dot) then
      assert forall k :: 1 <= k < |p[dot..]| ==> p[dot..][k] == p[dot + k];
      assert p[..dot] + p[dot..] == p;
      (p[..dot], p[dot..])
    else (p, [])
  }

  /** `get_new_output_filename` for index `n`: the template's stem, `_`, the
      index as at least two digits, and the template's extension. */
  function NumberedName(template: string, n: nat): string
  {
    SplitExt(template).0 + "_" + Pad2(n) + SplitExt(template).1
  }

  /** The file used when the configured output cannot be created. */
  function BackupName(now: nat): string
  {
    "found_balances_" + Decimal(now) + ".txt"
  }

  /** One data line of the output: the five fields joined by commas. */
  function Row(key: string, address: string, balance: string, timestamp: string, api: string): string
  {
    Join([key, address, balance, timestamp, api], ',')
  }

  /** A row splits back into its five fields when none of them holds a comma. */
  lemma RowFields(key: string, address: string, balance: string, timestamp: string, api: string)
    requires ',' !in key && ',' !in address && ',' !in balance && ',' !in timestamp && ',' !in api
    ensures Split(Row(key, address, balance, timestamp, api), ',') == [key, address, balance, timestamp, api]
  {
    SplitJoin([key, address, balance, timestamp, api], ',');
  }

  /** The header splits into the five column names. */
  lemma HeaderFields()
    ensures Split(Header, ',') == Columns
  {
    SplitJoin(Columns, ',');
  }

  lemma LastIndexOfAppend(a: string, b: string, c: char)
    requires c !in b
    ensures LastIndexOf(a + b, c) == LastIndexOf(a, c)
  {
    var s := a + b;
    var i := LastIndexOf(a, c);
    assert forall k :: 0 <= k < |a| ==> s[k] == a[k];
    assert forall k :: |a| <= k < |s| ==> s[k] == b[k - |a|];
    if i >= 0 {
      assert s[i] == c;
    }
  }

  lemma LastIndexOfAt(a: string, b: string, c: char)
    requires |b| > 0 && b[0] == c && c !in b[1..]
    ensures LastIndexOf(a + b, c) == |a|
  {
    var s := a + b;
    assert s[|a|] == c;
    assert forall k :: |a| < k < |s| ==> s[k] == b[1..][k - |a| - 1];
  }

  /** Appending text without dots or slashes to a path without an extension
      leaves it without one. */
  lemma SplitExtAppendPlain(t: string, mid: string)
    requires SplitExt(t).1 == []
    requires '.' !in mid && '/' !in mid
    ensures SplitExt(t + mid) == (t + mid, [])
  {
    var name := t + mid;
    LastIndexOfAppend(t, mid, '.');
    LastIndexOfAppend(t, mid, '/');
    var sep, dot := LastIndexOf(t, '/'), LastIndexOf(t, '.');
    if dot > sep {
      assert forall k :: sep + 1 <= k < dot ==> name[k] == t[k];
      assert !NonDotBetween(t, sep + 1, dot);
      assert !NonDotBetween(name, sep + 1, dot);
    }
  }

  /** A path `stem + mid + ext` whose `ext` is an extension and whose `mid`
      starts with a non-dot and holds no dot or slash splits after `mid`. */
  lemma SplitExtAfterMid(stem: string, mid: string, ext: string)
    requires |mid| > 0 && mid[0] != '.' && '.' !in mid && '/' !in mid
    requires |ext| > 0 && ext[0] == '.' && '.' !in ext[1..] && '/' !in ext
    ensures SplitExt(stem + mid + ext) == (stem + mid, ext)
  {
    var name := (stem + mid) + ext;
    LastIndexOfAt(stem + mid, ext, '.');
    LastIndexOfAppend(stem + mid, ext, '/');
    LastIndexOfAppend(stem, mid, '/');
    assert name[|stem|] == mid[0];
    assert NonDotBetween(name, LastIndexOf(name, '/') + 1, |stem + mid|);
    assert name[..|stem + mid|] == stem + mid;
    assert name[|stem + mid|..] == ext;
  }

  /** Rollover names split back into the numbered stem and the template's
      extension, so the index can be read off the name. */
  lemma NumberedNameSplit(template: string, n: nat)
    ensures SplitExt(NumberedName(template, n)) == (SplitExt(template).0 + "_" + Pad2(n), SplitExt(template).1)
  {
    var (base, ext) := SplitExt(template);
    var mid := "_" + Pad2(n);
    MidPlain(n);
    assert NumberedName(template, n) == base + mid + ext;
    if ext == [] {
      assert base == base + ext == template;
      assert base + mid + ext == template + mid == base + "_" + Pad2(n);
      SplitExtAppendPlain(template, mid);
    } else {
      SplitExtAfterMid(base, mid, ext);
    }
  }

  /** The numbered middle of a rollover name holds neither a dot nor a slash. */
  lemma MidPlain(n: nat)
    ensures '.' !in "_" + Pad2(n) && '/' !in "_" + Pad2(n)
  {
    var mid := "_" + Pad2(n);
    assert forall k :: 1 <= k < |mid| ==> mid[k] == Pad2(n)[k - 1];
  }

  /** Distinct indices give distinct rollover names, and no rollover name is
      the template itself. */
  lemma NumberedNamesDistinct(template: string, n: nat, m: nat)
    ensures n != m ==> NumberedName(template, n) != NumberedName(template, m)
    ensures NumberedName(template, n) != template
  {
    var base := SplitExt(template).0;
    if NumberedName(template, n) == NumberedName(template, m) {
      NumberedNameSplit(template, n);
      NumberedNameSplit(template, m);
      assert base + "_" + Pad2(n) == base + "_" + Pad2(m);
      assert Pad2(n) == (base + "_" + Pad2(n))[|base| + 1..];
      assert Pad2(m) == (base + "_" + Pad2(m))[|base| + 1..];
    }
    assert |NumberedName(template, n)| > |template|;
  }

  /** What the sink keeps between calls: `output_file`, `current_file_index`
      and the file system. */
  datatype SinkState = SinkState(outputFile: string, fileIndex: nat, disk: Disk)

  /** Switching to the next numbered file. */
  function Rollover(st: SinkState, template: string): SinkState
  {
    st.(fileIndex := st.fileIndex + 1, outputFile := NumberedName(template, st.fileIndex + 1))
  }

  /** `init_output_file`, given the clock `now` for the backup name: roll over
      once if the current file has reached the limit, then write the header
      only if the file does not exist; if that write fails, switch to the
      backup file in the working directory (opened for writing, so truncated)
      and report whether that worked. */
  function InitState(st: SinkState, template: string, limit: nat, canWrite: string -> bool, now: nat): (SinkState, bool)
  {
    var st1 := if Oversized(st.disk, st.outputFile, limit) then Rollover(st, template) else st;
    if st1.outputFile in st1.disk then (st1, true)
    else if canWrite(st1.outputFile) then (st1.(disk := st1.disk[st1.outputFile := [Header]]), true)
    else
      var backup := BackupName(now);
      if canWrite(backup) then (st1.(outputFile := backup, disk := st1.disk[backup := [Header]]), true)
      else (st1.(outputFile := backup), false)
  }

  /** `save_result_realtime` of one row: when the current file has reached the
      limit, move to the next numbered file and open it for writing with the
      header (a failure there reports false); then append the row. */
  function SaveState(st: SinkState, template: string, limit: nat, canWrite: string -> bool, row: string): (SinkState, bool)
  {
    var rolled := Oversized(st.disk, st.outputFile, limit);
    var st1 := if rolled then Rollover(st, template) else st;
    if rolled && !canWrite(st1.outputFile) then (st1, false)
    else
      var st2 := if rolled then st1.(disk := st1.disk[st1.outputFile := [Header]]) else st1;
      if !canWrite(st2.outputFile) then (st2, false)
      else
        var before := if st2.outputFile in st2.disk then st2.disk[st2.outputFile] else [];
        (st2.(disk := st2.disk[st2.outputFile := before + [row]]), true)
  }

  /** Saving rolls over exactly when the current file has reached the limit,
      by one index and to the name derived from the template; a failed save
      leaves every file as it was. */
  lemma SaveRollover(st: SinkState, template: string, limit: nat, canWrite: string -> bool, row: string)
    ensures var (st', ok) := SaveState(st, template, limit, canWrite, row);
            && (Oversized(st.disk, st.outputFile, limit) ==>
                  st'.fileIndex == st.fileIndex + 1 && st'.outputFile == NumberedName(template, st.fileIndex + 1))
            && (!Oversized(st.disk, st.outputFile, limit) ==>
                  st'.fileIndex == st.fileIndex && st'.outputFile == st.outputFile)
            && (!ok ==> st'.disk == st.disk)
  {
  }

  /** A successful save appends exactly the row: to the lines the current file
      had, or to a fresh header when it rolled over; no other file changes. */
  lemma SaveAppendsRow(st: SinkState, template: string, limit: nat, canWrite: string -> bool, row: string)
    ensures var (st', ok) := SaveState(st, template, limit, canWrite, row);
            ok ==>
              && st'.outputFile in st'.disk
              && st'.disk[st'.outputFile] ==
                   (if Oversized(st.disk, st.outputFile, limit) then [Header]
                    else if st.outputFile in st.disk then st.disk[st.outputFile] else []) + [row]
              && st'.disk.Keys == st.disk.Keys + {st'.outputFile}
              && forall p :: p in st.disk && p != st'.outputFile ==> st'.disk[p] == st.disk[p]
  {
  }

  /** After a successful save the file written to exceeds the limit by less
      than the one row written, or holds nothing but the header and that row. */
  lemma SaveSizeBound(st: SinkState, template: string, limit: nat, canWrite: string -> bool, row: string)
    requires limit > 0
    ensures var (st', ok) := SaveState(st, template, limit, canWrite, row);
            ok ==>
              || Size(st'.disk[st'.outputFile]) < limit + |row| + 1
              || st'.disk[st'.outputFile] == [Header, row]
  {
    var (st', ok) := SaveState(st, template, limit, canWrite, row);
    if ok && !Oversized(st.disk, st.outputFile, limit) {
      var before := if st.outputFile in st.disk then st.disk[st.outputFile] else [];
      SizeAppend(before, [row]);
      assert Size([row]) == |row| + 1 by {
        assert [row][..0] == [];
      }
    }
  }

  /** The header is written only into a file that did not exist: an existing
      file (after the one possible rollover) is left exactly as it was. */
  lemma InitHeaderOnlyWhenNew(st: SinkState, template: string, limit: nat, canWrite: string -> bool, now: nat)
    ensures var target := if Oversized(st.disk, st.outputFile, limit) then NumberedName(template, st.fileIndex + 1) else st.outputFile;
            var (st', ok) := InitState(st, template, limit, canWrite, now);
            && (target in st.disk ==> ok && st'.disk == st.disk && st'.outputFile == target)
            && (target !in st.disk && canWrite(target) ==>
                  ok && st'.outputFile == target && st'.disk == st.disk[target := [Header]])
            && (target !in st.disk && !canWrite(target) ==>
                  st'.outputFile == BackupName(now) && ok == canWrite(BackupName(now)))
  {
  }

  /** The output sink of one checker. */
  class Sink {
    const template: string
    const maxFileSize: nat
    const canWrite: string -> bool
    var outputFile: string
    var fileIndex: nat
    var disk: Disk
    /** Every row written successfully, in order, across all files. */
    ghost var Saved: seq<string>

    function State(): SinkState
      reads this
    {
      SinkState(outputFile, fileIndex, disk)
    }

    constructor (template: string, disk: Disk, canWrite: string -> bool)
      ensures this.template == template && this.canWrite == canWrite
      ensures maxFileSize == DefaultMaxFileSize
      ensures State() == SinkState(template, 0, disk)
      ensures Saved == []
    {
      this.template := template;
      this.maxFileSize := DefaultMaxFileSize;
      this.canWrite := canWrite;
      this.outputFile := template;
      this.fileIndex := 0;
      this.disk := disk;
      Saved := [];
    }

    /** `get_new_output_filename`: bumps the index by one and names the file
      from the template, not from the current file. */
    method NewOutputFilename() returns (name: string)
      modifies this`fileIndex
      ensures fileIndex == old(fileIndex) + 1
      ensures name == NumberedName(template, fileIndex)
    {
      var (base, ext) := SplitExt(template);
      fileIndex := fileIndex + 1;
      name := base + "_" + Pad2(fileIndex) + ext;
    }

    /** `check_file_size`. */
    method CheckFileSize() returns (over: bool)
      ensures over <==> outputFile in disk && Size(disk[outputFile]) >= maxFileSize
    {
      if outputFile !in disk {
        return false;
      }
      over := Size(disk[outputFile]) >= maxFileSize;
    }

    /** `init_output_file`. */
    method InitOutputFile(now: nat) returns (ok: bool)
      modifies this
      ensures (State(), ok) == InitState(old(State()), template, maxFileSize, canWrite, now)
      ensures Saved == old(Saved)
    {
      var over := CheckFileSize();
      if over {
        outputFile := NewOutputFilename();
      }
      if outputFile in disk {
        return true;
      }
      if canWrite(outputFile) {
        disk := disk[outputFile := [Header]];
        return true;
      }
      outputFile := BackupName(now);
      if canWrite(outputFile) {
        disk := disk[outputFile := [Header]];
        return true;
      }
      return false;
    }

    /** `save_result_realtime`: the new state is `SaveState` of the old one. */
    method SaveResult(key: string, address: string, balance: string, timestamp: string, api: string) returns (ok: bool)
      modifies this
      ensures (State(), ok) == SaveState(old(State()), template, maxFileSize, canWrite, Row(key, address, balance, timestamp, api))
      ensures Saved == old(Saved) + if ok then [Row(key, address, balance, timestamp, api)] else []
    {
      var row := Row(key, address, balance, timestamp, api);
      var over := CheckFileSize();
      if over {
        outputFile := NewOutputFilename();
        if !canWrite(outputFile) {
          return false;
        }
        disk := disk[outputFile := [Header]];
      }
      if !canWrite(outputFile) {
        return false;
      }
      var before := if outputFile in disk then disk[outputFile] else [];
      disk := disk[outputFile := before + [row]];
      Saved := Saved + [row];
      ok := true;
    }
  }
}
