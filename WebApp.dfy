/** The job bookkeeping of the web front end (app.py): which uploads are
    accepted, how durations are displayed, how many keys a job reports, its
    progress percentage, the job record that the progress callback and the
    log handler update, and the status rules of cancelling and clearing a job.
    Clock readings are passed in as parameters. */
module WebApp {
  import opened Text

  /** `ALLOWED_EXTENSIONS`. */
  const AllowedExtensions: set<string> := {"txt", "csv", "list", "dat", "text", "log", "asc", "tsv", "keys"}

  /** `filename.rsplit('.', 1)[1]`: the text after the last dot. */
  function Extension(filename: string): (ext: string)
    requires '.' in filename
    ensures '.' !in ext
    ensures exists stem :: stem + "." + ext == filename
  {
    var d := LastIndexOf(filename, '.');
    var ext := filename[d + 1..];
    assert filename[..d] + "." + ext == filename;
    ext
  }

  /** `allowed_file`: the name has a dot and the lower-cased text after the
      last dot is an allowed extension. */
  predicate AllowedFile(filename: string)
  {
    '.' in filename && LowerString(Extension(filename)) in AllowedExtensions
  }

  /** A name is accepted exactly when it splits as `stem + "." + ext` with no
      dot in `ext` and `ext` lower-cased an allowed extension. */
  lemma AllowedFileSpec(stem: string, ext: string)
    requires '.' !in ext
    ensures AllowedFile(stem + "." + ext) <==> LowerString(ext) in AllowedExtensions
  {
    var f := stem + "." + ext;
    assert f[|stem|] == '.';
    var d := LastIndexOf(f, '.');
    assert forall k :: |stem| < k < |f| ==> f[k] == ext[k - |stem| - 1];
    assert d == |stem|;
    assert Extension(f) == f[|stem| + 1..] == ext;
  }

  /** A name without a dot is never accepted. */
  lemma NoDotRejected(filename: string)
    requires '.' !in filename
    ensures !AllowedFile(filename)
  {
  }

  lemma LowerIdempotent(s: string)
    ensures LowerString(LowerString(s)) == LowerString(s)
  {
  }

  /** Upper and lower case make no difference to acceptance. */
  lemma AllowedFileIgnoresCase(filename: string)
    ensures AllowedFile(LowerString(filename)) <==> AllowedFile(filename)
  {
    var low := LowerString(filename);
    assert '.' in low <==> '.' in filename by {
      forall k | 0 <= k < |filename|
        ensures low[k] == '.' <==> filename[k] == '.'
      {
      }
      if '.' in filename {
        var k :| 0 <= k < |filename| && filename[k] == '.';
        assert low[k] == '.';
      }
      if '.' in low {
        var k :| 0 <= k < |low| && low[k] == '.';
        assert filename[k] == '.';
      }
    }
    if '.' in filename {
      var d := LastIndexOf(filename, '.');
      var stem, ext := filename[..d], filename[d + 1..];
      assert filename == stem + "." + ext;
      assert '.' !in ext;
      assert low == LowerString(stem) + "." + LowerString(ext);
      assert '.' !in LowerString(ext);
      AllowedFileSpec(stem, ext);
      AllowedFileSpec(LowerString(stem), LowerString(ext));
      LowerIdempotent(ext);
    }
  }

  /** `divmod(int(seconds), 60)` and then `divmod(m, 60)`: hours, minutes
      below 60 and seconds below 60. Python's `divmod` floors, which for the
      positive divisor 60 is what Dafny's `/` and `%` do. */
  function Clock(seconds: int): (hms: (int, nat, nat))
    ensures hms.1 < 60 && hms.2 < 60
    ensures hms.0 * 3600 + hms.1 * 60 + hms.2 == seconds
  {
    var m, s := seconds / 60, seconds % 60;
    (m / 60, m % 60, s)
  }

  /** `format_time`: `"{h}h {m}m {s}s"` when there are hours, `"{m}m {s}s"`
      when there are minutes, `"{s}s"` otherwise. */
  function FormatTime(seconds: int): string
  {
    var (h, m, s) := Clock(seconds);
    if h > 0 then Decimal(h) + "h " + Decimal(m) + "m " + Decimal(s) + "s"
    else if m > 0 then Decimal(m) + "m " + Decimal(s) + "s"
    else Decimal(s) + "s"
  }

  /** One field `"{n}{unit}"` of a formatted duration read back. */
  function ReadField(field: string, unit: char): Option<nat>
  {
    if |field| >= 2 && field[|field| - 1] == unit then ParseDecimal(field[..|field| - 1]) else None
  }

  /** Reads a formatted duration back into seconds. */
  function ReadTime(t: string): Option<int>
  {
    ReadFields(Split(t, ' '))
  }

  /** The seconds that the fields of a formatted duration stand for. */
  function ReadFields(parts: seq<string>): Option<int>
  {
    if |parts| == 1 then
      match ReadField(parts[0], 's')
      case Some(s) => Some(s)
      case None => None
    else if |parts| == 2 then
      match (ReadField(parts[0], 'm'), ReadField(parts[1], 's'))
      case (Some(m), Some(s)) => Some(m * 60 + s)
      case _ => None
    else if |parts| == 3 then
      match (ReadField(parts[0], 'h'), ReadField(parts[1], 'm'), ReadField(parts[2], 's'))
      case (Some(h), Some(m), Some(s)) => Some(h * 3600 + m * 60 + s)
      case _ => None
    else None
  }

  lemma ReadFieldDecimal(n: nat, unit: char)
    requires !IsDigitChar(unit) && unit != ' '
    ensures ReadField(Decimal(n) + [unit], unit) == Some(n)
    ensures ' ' !in Decimal(n) + [unit]
  {
    var f := Decimal(n) + [unit];
    assert f[..|f| - 1] == Decimal(n);
    DecimalRoundTrip(n);
    assert forall k :: 0 <= k < |f| ==> f[k] != ' ' by {
      forall k | 0 <= k < |f|
        ensures f[k] != ' '
      {
        if k < |Decimal(n)| {
          assert f[k] == Decimal(n)[k];
        }
      }
    }
  }

  /** The fields of a formatted duration, in order. */
  function Fields(seconds: int): seq<string>
  {
    var (h, m, s) := Clock(seconds);
    if h > 0 then [Decimal(h) + "h", Decimal(m) + "m", Decimal(s) + "s"]
    else if m > 0 then [Decimal(m) + "m", Decimal(s) + "s"]
    else [Decimal(s) + "s"]
  }

  lemma FormatTimeFields(seconds: int)
    ensures FormatTime(seconds) == Join(Fields(seconds), ' ')
  {
    var (h, m, s) := Clock(seconds);
    var fs := Decimal(s) + "s";
    var fm := Decimal(m) + "m";
    assert Join([fs], ' ') == fs;
    assert Join([fm, fs], ' ') == fm + [' '] + fs by {
      assert [fm, fs][1..] == [fs];
    }
    assert Decimal(m) + "m " + Decimal(s) + "s" == fm + [' '] + fs;
    if h > 0 {
      var fh := Decimal(h) + "h";
      assert Join([fh, fm, fs], ' ') == fh + [' '] + (fm + [' '] + fs) by {
        assert [fh, fm, fs][1..] == [fm, fs];
      }
      assert Decimal(h) + "h " + Decimal(m) + "m " + Decimal(s) + "s" == fh + [' '] + (fm + [' '] + fs);
    }
  }

  /** A non-negative duration is displayed without loss: reading the text back
      gives the number of seconds. */
  lemma FormatTimeRoundTrip(seconds: int)
    requires seconds >= 0
    ensures ReadTime(FormatTime(seconds)) == Some(seconds)
  {
    FormatTimeFields(seconds);
    FieldsRoundTrip(seconds);
    SplitJoin(Fields(seconds), ' ');
  }

  lemma FieldsRoundTrip(seconds: int)
    requires seconds >= 0
    ensures forall k :: 0 <= k < |Fields(seconds)| ==> ' ' !in Fields(seconds)[k]
    ensures ReadFields(Fields(seconds)) == Some(seconds)
  {
    var (h, m, s) := Clock(seconds);
    ReadFieldDecimal(s, 's');
    ReadFieldDecimal(m, 'm');
    if h > 0 {
      ReadFieldDecimal(h, 'h');
    } else {
      HoursNonNegative(seconds);
    }
  }

  lemma HoursNonNegative(seconds: int)
    requires seconds >= 0
    ensures Clock(seconds).0 >= 0
  {
  }

  /** The form's `end_line`: a number only when the text is all digits,
      no limit otherwise. */
  function EndLineField(text: string): (r: Option<int>)
    ensures r.Some? <==> IsDigits(text)
    ensures r.Some? ==> r.value >= 0
  {
    match ParseDecimal(text)
    case Some(n) => Some(n)
    case None => None
  }

  /** A number written in decimal is read back as that number; an empty
      field or a negative number means no limit. */
  lemma EndLineFieldExamples(n: nat)
    ensures EndLineField(Decimal(n)) == Some(n)
    ensures EndLineField("") == None
    ensures EndLineField(['-'] + Decimal(n)) == None
  {
    DecimalRoundTrip(n);
    assert !IsDigitChar((['-'] + Decimal(n))[0]);
  }

  /** The `total_keys` shown for a job with `totalLines` lines. */
  function TotalKeys(totalLines: int, startLine: int, endLine: Option<int>): int
  {
    if endLine.None? then totalLines - startLine
    else (if endLine.value < totalLines then endLine.value else totalLines) - startLine
  }

  /** For bounds within the file, `total_keys` is the number of lines the
      checker selects. */
  lemma TotalKeysCountsSelection(lines: seq<string>, startLine: int, endLine: Option<int>)
    requires 0 <= startLine
    requires endLine.Some? ==> startLine <= endLine.value
    requires startLine <= |lines|
    ensures TotalKeys(|lines|, startLine, endLine) ==
            |PySlice(lines, startLine, if endLine.Some? then endLine.value else |lines|)|
  {
    PySliceContiguous(lines, startLine, if endLine.Some? then endLine.value else |lines|);
  }

  /** A start line past the end of the file makes `total_keys` negative
      while nothing is selected. */
  lemma TotalKeysPastEnd(lines: seq<string>, startLine: int)
    requires startLine > |lines|
    ensures TotalKeys(|lines|, startLine, None) < 0
    ensures |PySlice(lines, startLine, |lines|)| == 0
  {
  }

  /** `min(100, int((i / total) * 100)) if total > 0 else 0`, computed
      exactly; `int` truncates toward zero. */
  function Percent(i: int, total: int): int
  {
    if total <= 0 then 0
    else
      var q := if i >= 0 then (i * 100) / total else -((-i * 100) / total);
      if q < 100 then q else 100
  }

  lemma DivBelow(x: nat, t: nat, q: nat)
    requires t > 0 && x < q * t
    ensures x / t < q
  {
    var d, r := x / t, x % t;
    assert x == d * t + r;
    assert d * t - q * t == (d - q) * t;
  }

  lemma DivAtLeast(x: nat, t: nat, q: nat)
    requires t > 0 && q * t <= x
    ensures q <= x / t
  {
    var d, r := x / t, x % t;
    assert x == d * t + r;
    assert q * t - d * t == (q - d) * t;
    assert (q - d) * t == (q - d - 1) * t + t;
  }

  /** For a non-negative count the percentage lies in `[0, 100]`, is 100
      exactly once the count reaches the total, and otherwise is the whole
      number of percent done. */
  lemma PercentSpec(i: int, total: int)
    requires i >= 0 && total > 0
    ensures 0 <= Percent(i, total) <= 100
    ensures Percent(i, total) == 100 <==> i >= total
    ensures Percent(i, total) < 100 ==>
              Percent(i, total) * total <= i * 100 < (Percent(i, total) + 1) * total
  {
    var x: nat := i * 100;
    var q := x / total;
    if i >= total {
      DivAtLeast(x, total, 100);
    } else {
      DivBelow(x, total, 100);
      assert q * total <= x < (q + 1) * total by {
        assert x == q * total + x % total;
      }
    }
  }

  /** More keys processed never lowers the percentage. */
  lemma PercentMonotone(i: int, j: int, total: int)
    requires 0 <= i <= j && total > 0
    ensures Percent(i, total) <= Percent(j, total)
  {
    PercentSpec(i, total);
    PercentSpec(j, total);
    var p := Percent(i, total);
    if p < 100 {
      var x: nat := j * 100;
      assert p * total <= x;
      DivAtLeast(x, total, p);
    }
  }

  /** `job_info['log'][-100:]` after the append: the last 100 entries. */
  function Capped<T>(log: seq<T>): (r: seq<T>)
    ensures |r| <= 100
    ensures |r| == if |log| < 100 then |log| else 100
    ensures r == log[|log| - |r|..]
  {
    PySliceContiguous(log, -100, |log|);
    PySlice(log, -100, |log|)
  }

  /** Appending entries one at a time with the cap keeps the last 100 of all
      entries ever appended. */
  lemma {:induction false} CappedAppend<T>(log: seq<T>, e: T)
    ensures Capped(Capped(log) + [e]) == Capped(log + [e])
  {
    var n := |log|;
    var c := Capped(log);
    if n >= 100 {
      assert c == log[n - 100..];
      assert Capped(c + [e]) == (c + [e])[1..];
      assert (c + [e])[1..] == log[n - 99..] + [e];
      assert Capped(log + [e]) == (log + [e])[n - 99..];
      assert (log + [e])[n - 99..] == log[n - 99..] + [e];
    } else {
      assert c == log;
    }
  }

  /** The cap never cuts into the last entries appended, up to 100 of them. */
  lemma CappedEnds<T>(log: seq<T>, tail: seq<T>)
    requires |tail| <= 100 && |tail| <= |log| && log[|log| - |tail|..] == tail
    ensures var c := Capped(log); |tail| <= |c| && c[|c| - |tail|..] == tail
  {
    var c := Capped(log);
    assert c[|c| - |tail|..] == log[|log| - |tail|..];
  }

  /** Two capped appends keep the last 100 of all entries, ending in the two. */
  lemma CappedTwice<T>(log: seq<T>, e1: T, e2: T)
    ensures Capped(Capped(log + [e1]) + [e2]) == Capped(log + [e1, e2])
    ensures var c := Capped(log + [e1, e2]); 2 <= |c| && c[|c| - 2..] == [e1, e2]
  {
    CappedAppend(log + [e1], e2);
    assert log + [e1] + [e2] == log + [e1, e2];
    CappedEnds(log + [e1, e2], [e1, e2]);
  }

  /** One `job_info['log']` entry. */
  datatype LogEntry = LogEntry(time: string, level: string, message: string)

  /** One `found_key_details` entry. */
  datatype Detail = Detail(key: string, address: string, balance: int, api: Option<string>, timestamp: string)

  /** `str()` of an optional string inside an f-string. */
  function Shown(s: Option<string>): string
  {
    if s.Some? then s.value else "None"
  }

  /** The two INFO entries `update_progress` logs for a found key. */
  function FoundLog(clock: string, key: string, address: string, balanceText: string, api: Option<string>): seq<LogEntry>
  {
    [LogEntry(clock, "INFO", "BALANCE FOUND! Private Key: " + key),
     LogEntry(clock, "INFO", "Address: " + address + " - Balance: " + balanceText + " BTC (API: " + Shown(api) + ")")]
  }

  /** Python truthiness of an optional string and an optional balance. */
  predicate Truthy(s: Option<string>)
  {
    s.Some? && s.value != ""
  }

  /** The job record `job_info` of a running or finished job. */
  class Job {
    const id: string
    const startTime: int
    const inputPath: string
    var status: string
    var progress: int
    var keysProcessed: int
    var foundKeys: int
    var totalBalance: int
    var lastUpdate: int
    var log: seq<LogEntry>
    var details: seq<Detail>
    var endTime: Option<int>
    var duration: int

    constructor (id: string, inputPath: string, now: int)
      ensures this.id == id && this.inputPath == inputPath && startTime == now
      ensures status == "running" && progress == 0 && keysProcessed == 0
      ensures foundKeys == 0 && totalBalance == 0 && lastUpdate == now
      ensures log == [] && details == [] && endTime == None && duration == 0
    {
      this.id := id;
      this.inputPath := inputPath;
      startTime := now;
      status := "running";
      progress := 0;
      keysProcessed := 0;
      foundKeys := 0;
      totalBalance := 0;
      lastUpdate := now;
      log := [];
      details := [];
      endTime := None;
      duration := 0;
    }

    /** `update_progress`: record the count and the percentage, overwrite the
      found count and the total only when they are given, and add one found
      key exactly when key, address and balance are all truthy, logging it
      through the job's logger as two INFO entries. `stamp` and `clock` are
      the two `time.strftime` readings and `balanceText` is Python's
      rendering of the balance in the second message. */
    method UpdateProgress(i: int, total: int, found: Option<int>, balanceTotal: Option<int>,
                          key: Option<string>, address: Option<string>, balance: Option<int>,
                          api: Option<string>, stamp: string, clock: string, balanceText: string, now: int)
      modifies this
      ensures keysProcessed == i && progress == Percent(i, total)
      ensures foundKeys == (if found.Some? then found.value else old(foundKeys))
      ensures totalBalance == (if balanceTotal.Some? then balanceTotal.value else old(totalBalance))
      ensures details == old(details) +
                (if Truthy(key) && Truthy(address) && balance.Some? && balance.value != 0
                 then [Detail(key.value, address.value, balance.value, api, stamp)] else [])
      ensures log == if Truthy(key) && Truthy(address) && balance.Some? && balance.value != 0
                     then Capped(old(log) + FoundLog(clock, key.value, address.value, balanceText, api))
                     else old(log)
      ensures Truthy(key) && Truthy(address) && balance.Some? && balance.value != 0 ==>
                log[|log| - 2..] == FoundLog(clock, key.value, address.value, balanceText, api)
      ensures lastUpdate == now
      ensures status == old(status) && endTime == old(endTime) && duration == old(duration)
    {
      keysProcessed := i;
      progress := Percent(i, total);
      if found.Some? {
        foundKeys := found.value;
      }
      if balanceTotal.Some? {
        totalBalance := balanceTotal.value;
      }
      if Truthy(key) && Truthy(address) && balance.Some? && balance.value != 0 {
        details := details + [Detail(key.value, address.value, balance.value, api, stamp)];
        var entries := FoundLog(clock, key.value, address.value, balanceText, api);
        EmitBoth(entries[0], entries[1], now);
      }
      lastUpdate := now;
    }

    /** Two `logger.info` calls in a row: the log keeps the last 100 of the
      old entries followed by both, and ends with the two. */
    method EmitBoth(e1: LogEntry, e2: LogEntry, now: int)
      modifies this
      ensures log == Capped(old(log) + [e1, e2]) && log[|log| - 2..] == [e1, e2]
      ensures lastUpdate == now
      ensures status == old(status) && details == old(details) && progress == old(progress)
      ensures keysProcessed == old(keysProcessed) && foundKeys == old(foundKeys)
      ensures totalBalance == old(totalBalance) && endTime == old(endTime) && duration == old(duration)
    {
      CappedTwice(log, e1, e2);
      Emit(e1, now);
      Emit(e2, now);
    }

    /** `WebUILogHandler.emit`: append the entry and keep the last 100. */
    method Emit(entry: LogEntry, now: int)
      modifies this
      ensures log == Capped(old(log) + [entry])
      ensures |log| <= 100 && log[|log| - 1] == entry
      ensures |old(log)| < 100 ==> log == old(log) + [entry]
      ensures lastUpdate == now
      ensures status == old(status) && details == old(details) && progress == old(progress)
      ensures keysProcessed == old(keysProcessed) && foundKeys == old(foundKeys)
      ensures totalBalance == old(totalBalance) && endTime == old(endTime) && duration == old(duration)
    {
      var appended := log + [entry];
      log := PySlice(appended, -100, |appended|);
      lastUpdate := now;
    }
  }

  /** What a cancel or clear request reports back. */
  datatype Reply = NotFound | Done | Refused

  /** The status after `cancel_job`: only a running job becomes cancelled. */
  function CancelledStatus(status: string): (s: string)
    ensures status == "running" ==> s == "cancelled"
    ensures status != "running" ==> s == status
  {
    if status == "running" then "cancelled" else status
  }

  /** `clear_job` removes only a job that has finished. */
  predicate Clearable(status: string)
  {
    status in ["completed", "failed", "cancelled"]
  }

  /** Cancelling twice is cancelling once; after a cancel requested of a job
      in any of the four states the job can be cleared; a running job can
      never be cleared without one. */
  lemma StatusRules(status: string)
    ensures CancelledStatus(CancelledStatus(status)) == CancelledStatus(status)
    ensures status in ["running", "completed", "failed", "cancelled"] ==> Clearable(CancelledStatus(status))
    ensures !Clearable("running")
  {
  }

  /** `running_jobs` together with the uploaded input files on disk. */
  class JobBoard {
    var jobs: map<string, Job>
    var uploads: set<string>

    constructor (uploads: set<string>)
      ensures jobs == map[] && this.uploads == uploads
    {
      jobs := map[];
      this.uploads := uploads;
    }

    /** `cancel_job`: an unknown id is reported; a running job becomes
      cancelled with its end time and duration set; any other job is left
      as it is. */
    method CancelJob(id: string, now: int) returns (reply: Reply)
      modifies if id in jobs then {jobs[id]} else {}
      ensures id !in jobs ==> reply == NotFound
      ensures id in jobs ==>
                var job := jobs[id];
                && job.status == CancelledStatus(old(job.status))
                && (reply == Done <==> old(job.status) == "running")
                && (reply != Done ==> reply == Refused && job.endTime == old(job.endTime) && job.duration == old(job.duration))
                && (reply == Done ==> job.endTime == Some(now) && job.duration == now - job.startTime)
                && job.log == old(job.log) && job.details == old(job.details)
                && job.progress == old(job.progress) && job.keysProcessed == old(job.keysProcessed)
                && job.foundKeys == old(job.foundKeys) && job.totalBalance == old(job.totalBalance)
                && job.lastUpdate == old(job.lastUpdate)
    {
      if id !in jobs {
        return NotFound;
      }
      var job := jobs[id];
      if job.status == "running" {
        job.status := "cancelled";
        job.endTime := Some(now);
        job.duration := now - job.startTime;
        reply := Done;
      } else {
        reply := Refused;
      }
    }

    /** `clear_job`: an unknown id is reported; a finished job is removed
      together with its uploaded input file; a running job stays. */
    method ClearJob(id: string) returns (reply: Reply)
      modifies this
      ensures id !in old(jobs) ==> reply == NotFound && jobs == old(jobs) && uploads == old(uploads)
      ensures id in old(jobs) && Clearable(old(jobs)[id].status) ==>
                reply == Done && jobs == old(jobs) - {id} && uploads == old(uploads) - {old(jobs)[id].inputPath}
      ensures id in old(jobs) && !Clearable(old(jobs)[id].status) ==>
                reply == Refused && jobs == old(jobs) && uploads == old(uploads)
    {
      if id !in jobs {
        return NotFound;
      }
      var job := jobs[id];
      if job.status in ["completed", "failed", "cancelled"] {
        uploads := uploads - {job.inputPath};
        jobs := jobs - {id};
        reply := Done;
      } else {
        reply := Refused;
      }
    }

    /** A cancel request followed by a clear request for the same job: a job
      in any of the four states is then gone, together with its upload. */
    method CancelThenClear(id: string, now: int) returns (cancel: Reply, clear: Reply)
      modifies this, if id in jobs then {jobs[id]} else {}
      ensures id !in old(jobs) ==> cancel == NotFound && clear == NotFound && jobs == old(jobs)
      ensures id in old(jobs) && old(jobs[id].status) in ["running", "completed", "failed", "cancelled"] ==>
                clear == Done && jobs == old(jobs) - {id} && uploads == old(uploads) - {old(jobs)[id].inputPath}
      ensures id in old(jobs) ==> (cancel == Done <==> old(jobs[id].status) == "running")
    {
      if id in jobs {
        StatusRules(jobs[id].status);
      }
      cancel := CancelJob(id, now);
      clear := ClearJob(id);
    }
  }
}
