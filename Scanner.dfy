/** The newer `BTCKeyChecker`: the provider strategy with its rotation cursor
    (`check_balance`), the scan over the selected lines (`process_keys`) and the
    per-provider statistics of `run`.

    Balances are integers in satoshis, as the providers report them before the
    division into a float; how a balance is rendered into the output row
    (`render`) and the timestamp of a save (`stamp`) are parameters. */
module Scanner {
  import opened Text
  import opened KeyExtraction
  import opened Providers
  import opened OutputSink

  /** One entry of `results`: key, address, balance and the provider used. */
  datatype Found = Found(key: string, address: string, balance: int, api: string)

  /** One call of `progress_callback`: lines processed, lines selected, keys
      found so far, their total balance, and the key just found, if any. */
  datatype Progress = Progress(processed: nat, total: nat, found: nat, balance: int, hit: Option<Found>)

  /** Everything a scan depends on besides its state: the provider order and
      mode, the key library (`derives`, `addressOf`), the provider answers,
      whether a progress callback is set, row rendering, and the sink settings
      (used by `Saves`). */
  datatype Env = Env(
    providers: seq<string>, mode: string,
    derives: string -> bool, addressOf: string -> string, net: Network,
    notify: bool, render: int -> string, stamp: nat -> string,
    template: string, limit: nat, canWrite: string -> bool)

  predicate WellFormed(env: Env)
  {
    |env.providers| > 0 && Unknown !in env.providers && Fallback in env.providers
  }

  /** What a scan changes besides the output sink: the rotation cursor,
      `results`, the callback calls made and the number of pauses between
      requests. */
  datatype ScanState = ScanState(cursor: nat, results: seq<Found>, events: seq<Progress>, pauses: nat)

  /** The output row of a result; `stamp(j)` is the clock reading of the
      `j`-th save. */
  function RowOf(env: Env, f: Found, j: nat): string
  {
    Row(f.key, f.address, env.render(f.balance), env.stamp(j), f.api)
  }

  /** The output sink after the real-time save of each result in turn. */
  function Saves(env: Env, sink0: SinkState, results: seq<Found>): SinkState
  {
    if |results| == 0 then sink0
    else
      var n := |results| - 1;
      SaveState(Saves(env, sink0, results[..n]), env.template, env.limit, env.canWrite, RowOf(env, results[n], n)).0
  }

  /** `sum(result['balance'] for result in results)`. */
  function Total(results: seq<Found>): int
  {
    if |results| == 0 then 0 else Total(results[..|results| - 1]) + results[|results| - 1].balance
  }

  /** A line skipped before anything else: blank after stripping, or a comment. */
  predicate Skipped(line: string)
  {
    var key := Strip(line);
    key == [] || StartsWith(key, '#')
  }

  /** The periodic progress report fires on every tenth line and on the last. */
  predicate ProgressTick(i: nat, total: nat)
  {
    (i + 1) % 10 == 0 || i + 1 == total
  }

  /** What the loop body learns from a line before it calls `check_balance`:
      the line is blank or a comment; or it holds no valid key; or it holds
      the valid key `key`, whose address is `address`. */
  datatype Line = Blank | NoKey | Key(key: string, address: string)

  /** The part of the loop body that depends on the line alone. */
  function Classify(env: Env, line: string): Line
  {
    var key := Strip(line);
    if key == [] || StartsWith(key, '#') then Blank
    else
      var (valid, k) := Extract(key, env.derives);
      if valid then Key(k, env.addressOf(k)) else NoKey
  }

  function Classified(env: Env, lines: seq<string>): (cs: seq<Line>)
    ensures |cs| == |lines|
    ensures forall i :: 0 <= i < |lines| ==> cs[i] == Classify(env, lines[i])
  {
    seq(|lines|, i requires 0 <= i < |lines| => Classify(env, lines[i]))
  }

  /** Every key the classification reports is accepted by the library and
      comes with the address derived from it. */
  ghost predicate KeysValid(env: Env, cs: seq<Line>)
  {
    forall i :: 0 <= i < |cs| && cs[i].Key? ==>
      env.derives(cs[i].key) && cs[i].address == env.addressOf(cs[i].key)
  }

  /** A blank or comment line is never searched; any other line yields a key
      exactly when the search finds one, and that key derives. */
  lemma ClassifySpec(env: Env, line: string)
    ensures Classify(env, line).Blank? <==> Skipped(line)
    ensures Classify(env, line).Key? <==> !Skipped(line) && Extract(Strip(line), env.derives).0
    ensures Classify(env, line).Key? ==>
              && Classify(env, line).key == Extract(Strip(line), env.derives).1
              && env.derives(Classify(env, line).key)
              && Classify(env, line).address == env.addressOf(Classify(env, line).key)
  {
    ExtractSpec(Strip(line), env.derives);
  }

  lemma ClassifiedKeysValid(env: Env, lines: seq<string>)
    ensures KeysValid(env, Classified(env, lines))
  {
    forall i | 0 <= i < |lines|
      ensures var c := Classified(env, lines)[i]; c.Key? ==> env.derives(c.key) && c.address == env.addressOf(c.key)
    {
      ClassifySpec(env, lines[i]);
    }
  }

  /** The periodic progress report made for a line that is not skipped. */
  function Tick(env: Env, i: nat, total: nat, st: ScanState): ScanState
  {
    if ProgressTick(i, total) && env.notify
    then st.(events := st.events + [Progress(i + 1, total, |st.results|, Total(st.results), None)])
    else st
  }

  /** The balance check of the valid key `key` with address `address` on line
      `i` of `total`: record a positive balance (and report it), and pause
      whenever a balance was obtained. */
  function Check(env: Env, key: string, address: string, i: nat, total: nat, st: ScanState): (st': ScanState)
    requires WellFormed(env) && st.cursor < |env.providers|
    ensures st'.cursor < |env.providers|
  {
    var r := Resolve(env.providers, env.mode, st.cursor, address, env.net, i);
    var st2 := st.(cursor := r.cursor);
    if r.balance.None? then st2
    else
      var b := r.balance.value;
      if b > 0 then
        var hit := Found(key, address, b, r.api);
        var results' := st2.results + [hit];
        var ev := if env.notify then [Progress(i + 1, total, |results'|, Total(results'), Some(hit))] else [];
        st2.(results := results', events := st2.events + ev, pauses := st2.pauses + 1)
      else st2.(pauses := st2.pauses + 1)
  }

  /** One iteration of the `process_keys` loop on line `i` of `total`
      selected lines, classified as `c`. */
  function Step(env: Env, c: Line, i: nat, total: nat, st: ScanState): (st': ScanState)
    requires WellFormed(env) && st.cursor < |env.providers|
    ensures st'.cursor < |env.providers|
  {
    if c.Blank? then st
    else
      var st1 := Tick(env, i, total, st);
      if c.NoKey? then st1 else Check(env, c.key, c.address, i, total, st1)
  }

  /** The state after the loop has processed the first `n` of the classified
      lines `cs`. */
  function Scan(env: Env, cs: seq<Line>, n: nat, init: ScanState): (st: ScanState)
    requires WellFormed(env) && n <= |cs| && init.cursor < |env.providers|
    ensures st.cursor < |env.providers|
  {
    if n == 0 then init else Step(env, cs[n - 1], n - 1, |cs|, Scan(env, cs, n - 1, init))
  }

  /** The lines `lines[start_line:end_line]` selected for processing, `end_line`
      defaulting to the number of lines. */
  function Selected(input: seq<string>, startLine: int, endLine: Option<int>): seq<string>
  {
    PySlice(input, startLine, if endLine.Some? then endLine.value else |input|)
  }

  /** How many of the first `n` lines reach `check_balance`. */
  function Attempts(cs: seq<Line>, n: nat): nat
    requires n <= |cs|
  {
    if n == 0 then 0 else Attempts(cs, n - 1) + if cs[n - 1].Key? then 1 else 0
  }

  /** A recorded result has a positive balance that its provider reported
      for the address, a key the library accepts, the address derived from
      that key, and a registered provider. */
  ghost predicate Confirmed(env: Env, f: Found)
  {
    && f.balance > 0
    && env.derives(f.key)
    && f.address == env.addressOf(f.key)
    && f.api in env.providers
    && exists t: nat :: env.net(t, f.api, f.address) == Value(f.balance)
  }

  ghost predicate Sound(env: Env, results: seq<Found>)
  {
    forall j :: 0 <= j < |results| ==> Confirmed(env, results[j])
  }

  /** One step appends at most one result, and that one is confirmed. */
  lemma StepResults(env: Env, c: Line, i: nat, total: nat, st: ScanState)
    requires WellFormed(env) && st.cursor < |env.providers|
    requires c.Key? ==> env.derives(c.key) && c.address == env.addressOf(c.key)
    ensures var st' := Step(env, c, i, total, st);
            || st'.results == st.results
            || (st'.results == st.results + [st'.results[|st.results|]] && Confirmed(env, st'.results[|st.results|]))
  {
    if c.Key? {
      ResolveSpec(env.providers, env.mode, st.cursor, c.address, env.net, i);
      var r := Resolve(env.providers, env.mode, st.cursor, c.address, env.net, i);
      if r.balance.Some? && r.balance.value > 0 {
        assert env.net(i, r.api, c.address) == Value(r.balance.value);
      }
    }
  }

  /** Only keys found and confirmed are recorded: the scan keeps `Sound`, and
      it only appends to the results it started with. */
  lemma {:induction false} ScanSound(env: Env, cs: seq<Line>, n: nat, init: ScanState)
    requires WellFormed(env) && n <= |cs| && init.cursor < |env.providers|
    requires KeysValid(env, cs)
    requires Sound(env, init.results)
    ensures Sound(env, Scan(env, cs, n, init).results)
    ensures |init.results| <= |Scan(env, cs, n, init).results| <= |init.results| + n
    ensures Scan(env, cs, n, init).results[..|init.results|] == init.results
  {
    if n > 0 {
      ScanSound(env, cs, n - 1, init);
      var prev := Scan(env, cs, n - 1, init);
      var cur := Scan(env, cs, n, init);
      StepResults(env, cs[n - 1], n - 1, |cs|, prev);
      if cur.results != prev.results {
        var f := cur.results[|prev.results|];
        assert cur.results == prev.results + [f];
        assert cur.results[..|init.results|] == prev.results[..|init.results|];
      }
    }
  }

  /** Every result of a scan of a file from no results is a key the library
      accepts, with its own address and a positive balance that a registered
      provider reported for it. */
  lemma ProcessedSound(env: Env, lines: seq<string>, cursor: nat)
    requires WellFormed(env) && cursor < |env.providers|
    ensures Sound(env, Scan(env, Classified(env, lines), |lines|, ScanState(cursor, [], [], 0)).results)
  {
    ClassifiedKeysValid(env, lines);
    ScanSound(env, Classified(env, lines), |lines|, ScanState(cursor, [], [], 0));
  }

  /** A scan of a file from no results records exactly the hits of its
      lines in line order, makes exactly the reference callback calls and
      pauses once per balance obtained. */
  lemma ProcessedExactly(env: Env, lines: seq<string>, cursor: nat)
    requires WellFormed(env) && cursor < |env.providers|
    ensures var cs := Classified(env, lines);
            var st := Scan(env, cs, |lines|, ScanState(cursor, [], [], 0));
            && st.results == Hits(env, cs, |lines|, cursor)
            && st.events == Events(env, cs, |lines|, cursor, [])
            && st.pauses == Obtained(env, cs, |lines|, cursor)
  {
    var cs := Classified(env, lines);
    var init := ScanState(cursor, [], [], 0);
    ScanResults(env, cs, |lines|, init);
    ScanCallbacks(env, cs, |lines|, init);
    ScanPauses(env, cs, |lines|, init);
    assert [] + Hits(env, cs, |lines|, cursor) == Hits(env, cs, |lines|, cursor);
    assert [] + Events(env, cs, |lines|, cursor, []) == Events(env, cs, |lines|, cursor, []);
  }

  /** One step moves the cursor only in rotate mode and only for a line that
      reaches `check_balance`; it pauses only after such a line, and always
      after one whose balance it records. */
  lemma StepCounters(env: Env, c: Line, i: nat, total: nat, st: ScanState)
    requires WellFormed(env) && st.cursor < |env.providers|
    ensures var st' := Step(env, c, i, total, st);
            && st'.cursor == (if env.mode == "rotate" && c.Key? then Advance(st.cursor, |env.providers|) else st.cursor)
            && st.pauses <= st'.pauses <= st.pauses + (if c.Key? then 1 else 0)
            && (|st'.results| > |st.results| ==> st'.pauses == st.pauses + 1)
            && |st.results| <= |st'.results|
  {
  }

  /** The cursor after `k` rotation steps from `c`. */
  function Rotated(c: nat, k: nat, m: nat): (r: nat)
    requires c < m
    ensures r < m
  {
    if k == 0 then c else Advance(Rotated(c, k - 1, m), m)
  }

  /** The rotation cursor moves by one for every line that reaches
      `check_balance` and for nothing else; other modes never move it. */
  lemma {:induction false} ScanCursor(env: Env, cs: seq<Line>, n: nat, init: ScanState)
    requires WellFormed(env) && n <= |cs| && init.cursor < |env.providers|
    ensures Scan(env, cs, n, init).cursor ==
            if env.mode == "rotate" then Rotated(init.cursor, Attempts(cs, n), |env.providers|) else init.cursor
  {
    if n > 0 {
      ScanCursor(env, cs, n - 1, init);
      StepCounters(env, cs[n - 1], n - 1, |cs|, Scan(env, cs, n - 1, init));
    }
  }

  lemma {:induction false} MulAtLeast(d: nat, m: nat)
    requires d >= 1
    ensures d * m >= m
  {
    if d > 1 {
      MulAtLeast(d - 1, m);
      assert d * m == (d - 1) * m + m;
    }
  }

  lemma ModUnique(x: int, m: int, k: int, r: int)
    requires m > 0 && 0 <= r < m && x == k * m + r
    ensures x % m == r
  {
    var q, s := x / m, x % m;
    assert x == q * m + s && 0 <= s < m;
    assert (k - q) * m == s - r by {
      assert k * m - q * m == (k - q) * m;
    }
    assert (q - k) * m == r - s by {
      assert q * m - k * m == (q - k) * m;
    }
    if k > q {
      MulAtLeast(k - q, m);
    } else if k < q {
      MulAtLeast(q - k, m);
    }
  }

  lemma ModSucc(c: nat, m: nat)
    requires m > 0
    ensures (c % m + 1) % m == (c + 1) % m
  {
    var q, r := c / m, c % m;
    assert c == q * m + r;
    if r + 1 == m {
      ModUnique(c + 1, m, q + 1, 0);
      ModUnique(r + 1, m, 1, 0);
    } else {
      ModUnique(c + 1, m, q, r + 1);
      ModUnique(r + 1, m, 0, r + 1);
    }
  }

  /** `k` rotation steps from `c` land on `(c + k) % m`. */
  lemma {:induction false} RotatedIsMod(c: nat, k: nat, m: nat)
    requires c < m
    ensures Rotated(c, k, m) == (c + k) % m
  {
    if k == 0 {
      ModUnique(c, m, 0, c);
    } else {
      RotatedIsMod(c, k - 1, m);
      AdvanceIsMod(Rotated(c, k - 1, m), m);
      ModSucc(c + k - 1, m);
    }
  }

  /** In rotate mode, after `n` lines the cursor has advanced, modulo the
      number of providers, once per line that reached `check_balance`. */
  lemma ScanCursorMod(env: Env, cs: seq<Line>, n: nat, init: ScanState)
    requires WellFormed(env) && n <= |cs| && init.cursor < |env.providers|
    requires env.mode == "rotate"
    ensures Scan(env, cs, n, init).cursor == (init.cursor + Attempts(cs, n)) % |env.providers|
  {
    ScanCursor(env, cs, n, init);
    RotatedIsMod(init.cursor, Attempts(cs, n), |env.providers|);
  }

  /** The rotation cursor when line `i` is reached, the scan having started
      from `c0`. */
  function CursorAt(env: Env, cs: seq<Line>, i: nat, c0: nat): (c: nat)
    requires WellFormed(env) && i <= |cs| && c0 < |env.providers|
    ensures c < |env.providers|
  {
    if env.mode == "rotate" then Rotated(c0, Attempts(cs, i), |env.providers|) else c0
  }

  /** What `check_balance` reports for the key of line `i`. */
  function ResolveAt(env: Env, cs: seq<Line>, i: nat, c0: nat): Resolution
    requires WellFormed(env) && i < |cs| && c0 < |env.providers| && cs[i].Key?
  {
    Resolve(env.providers, env.mode, CursorAt(env, cs, i, c0), cs[i].address, env.net, i)
  }

  /** The result line `i` contributes: its key, its address, the balance and
      the provider reported, when the line holds a valid key and its balance
      check reports a positive balance; nothing otherwise. */
  function HitAt(env: Env, cs: seq<Line>, i: nat, c0: nat): (h: seq<Found>)
    requires WellFormed(env) && i < |cs| && c0 < |env.providers|
    ensures |h| <= 1
  {
    if !cs[i].Key? then []
    else
      var r := ResolveAt(env, cs, i, c0);
      if r.balance.Some? && r.balance.value > 0 then [Found(cs[i].key, cs[i].address, r.balance.value, r.api)]
      else []
  }

  /** Reference for `results`: the hits of the first `n` lines, in line order. */
  function Hits(env: Env, cs: seq<Line>, n: nat, c0: nat): seq<Found>
    requires WellFormed(env) && n <= |cs| && c0 < |env.providers|
  {
    if n == 0 then [] else Hits(env, cs, n - 1, c0) + HitAt(env, cs, n - 1, c0)
  }

  /** How many of the first `n` lines obtained a balance (of any sign). */
  function Obtained(env: Env, cs: seq<Line>, n: nat, c0: nat): nat
    requires WellFormed(env) && n <= |cs| && c0 < |env.providers|
  {
    if n == 0 then 0
    else Obtained(env, cs, n - 1, c0) + if cs[n - 1].Key? && ResolveAt(env, cs, n - 1, c0).balance.Some? then 1 else 0
  }

  /** Completeness and order: after `n` lines the results are the initial
      ones followed by exactly the hits of those lines, in line order. */
  lemma {:induction false} ScanResults(env: Env, cs: seq<Line>, n: nat, init: ScanState)
    requires WellFormed(env) && n <= |cs| && init.cursor < |env.providers|
    ensures Scan(env, cs, n, init).results == init.results + Hits(env, cs, n, init.cursor)
  {
    if n == 0 {
      assert init.results + [] == init.results;
    } else {
      ScanResults(env, cs, n - 1, init);
      ScanCursor(env, cs, n - 1, init);
      var prev := Scan(env, cs, n - 1, init);
      assert prev.cursor == CursorAt(env, cs, n - 1, init.cursor);
      assert Tick(env, n - 1, |cs|, prev).results == prev.results;
      assert Tick(env, n - 1, |cs|, prev).cursor == prev.cursor;
      var h := HitAt(env, cs, n - 1, init.cursor);
      assert Scan(env, cs, n, init).results == prev.results + h;
      assert init.results + Hits(env, cs, n - 1, init.cursor) + h == init.results + Hits(env, cs, n, init.cursor);
    }
  }

  /** One pause follows every balance obtained and nothing else: after `n`
      lines the pauses are the initial ones plus the lines whose balance check
      obtained a balance. */
  lemma {:induction false} ScanPauses(env: Env, cs: seq<Line>, n: nat, init: ScanState)
    requires WellFormed(env) && n <= |cs| && init.cursor < |env.providers|
    ensures Scan(env, cs, n, init).pauses == init.pauses + Obtained(env, cs, n, init.cursor)
  {
    if n > 0 {
      ScanPauses(env, cs, n - 1, init);
      ScanCursor(env, cs, n - 1, init);
      var prev := Scan(env, cs, n - 1, init);
      assert prev.cursor == CursorAt(env, cs, n - 1, init.cursor);
      assert Tick(env, n - 1, |cs|, prev).pauses == prev.pauses;
      assert Tick(env, n - 1, |cs|, prev).cursor == prev.cursor;
    }
  }

  /** Every hit is a balance obtained, and every balance obtained follows a
      balance check. */
  lemma {:induction false} ObtainedBounds(env: Env, cs: seq<Line>, n: nat, c0: nat)
    requires WellFormed(env) && n <= |cs| && c0 < |env.providers|
    ensures |Hits(env, cs, n, c0)| <= Obtained(env, cs, n, c0) <= Attempts(cs, n)
  {
    if n > 0 {
      ObtainedBounds(env, cs, n - 1, c0);
    }
  }

  /** One callback call agrees with the results: it reports at most `n` lines
      processed out of `total`, a count of results no larger than the current
      one, the total balance of exactly those results, and a found key that is
      the last of them. */
  predicate Reports(e: Progress, results: seq<Found>, total: nat, n: nat)
  {
    && e.total == total && 1 <= e.processed <= n
    && e.found <= |results| && e.balance == Total(results[..e.found])
    && (e.hit.Some? ==> e.found > 0 && results[e.found - 1] == e.hit.value)
  }

  /** Every callback call agrees with the results, and the reported counts
      never go down. */
  predicate EventsAgree(events: seq<Progress>, results: seq<Found>, total: nat, n: nat)
  {
    && (forall k :: 0 <= k < |events| ==> Reports(events[k], results, total, n))
    && (forall a, b :: 0 <= a < b < |events| ==>
          events[a].processed <= events[b].processed && events[a].found <= events[b].found)
  }

  lemma ReportsGrow(e: Progress, results: seq<Found>, total: nat, n: nat, more: seq<Found>)
    requires Reports(e, results, total, n)
    ensures Reports(e, results + more, total, n)
  {
    assert (results + more)[..e.found] == results[..e.found];
  }

  lemma EventsGrow(events: seq<Progress>, results: seq<Found>, total: nat, n: nat, more: seq<Found>)
    requires EventsAgree(events, results, total, n)
    ensures EventsAgree(events, results + more, total, n)
  {
    forall k | 0 <= k < |events|
      ensures Reports(events[k], results + more, total, n)
    {
      ReportsGrow(events[k], results, total, n, more);
    }
  }

  lemma EventsAppend(events: seq<Progress>, results: seq<Found>, total: nat, n: nat, e: Progress)
    requires EventsAgree(events, results, total, n)
    requires e.total == total && 1 <= e.processed && n <= e.processed
    requires e.found == |results| && e.balance == Total(results)
    requires e.hit.Some? ==> e.found > 0 && results[e.found - 1] == e.hit.value
    ensures EventsAgree(events + [e], results, total, e.processed)
  {
    assert results[..e.found] == results;
    var es := events + [e];
    forall k | 0 <= k < |es|
      ensures Reports(es[k], results, total, e.processed)
    {
      if k < |events| {
        assert es[k] == events[k];
      }
    }
    forall a, b | 0 <= a < b < |es|
      ensures es[a].processed <= es[b].processed && es[a].found <= es[b].found
    {
      if b == |events| {
        assert es[a] == events[a];
        assert Reports(events[a], results, total, n);
      }
    }
  }

  lemma EventsWiden(events: seq<Progress>, results: seq<Found>, total: nat, n: nat)
    requires EventsAgree(events, results, total, n)
    ensures EventsAgree(events, results, total, n + 1)
  {
  }

  lemma StepEvents(env: Env, c: Line, i: nat, total: nat, st: ScanState)
    requires WellFormed(env) && st.cursor < |env.providers| && i < total
    requires EventsAgree(st.events, st.results, total, i)
    ensures EventsAgree(Step(env, c, i, total, st).events, Step(env, c, i, total, st).results, total, i + 1)
  {
    EventsWiden(st.events, st.results, total, i);
    if !c.Blank? {
      var tick := Progress(i + 1, total, |st.results|, Total(st.results), None);
      var st1 := if ProgressTick(i, total) && env.notify then st.(events := st.events + [tick]) else st;
      if ProgressTick(i, total) && env.notify {
        EventsAppend(st.events, st.results, total, i, tick);
      }
      if c.Key? {
        var r := Resolve(env.providers, env.mode, st1.cursor, c.address, env.net, i);
        if r.balance.Some? && r.balance.value > 0 {
          var hit := Found(c.key, c.address, r.balance.value, r.api);
          var results' := st1.results + [hit];
          EventsGrow(st1.events, st1.results, total, i + 1, [hit]);
          if env.notify {
            EventsAppend(st1.events, results', total, i + 1, Progress(i + 1, total, |results'|, Total(results'), Some(hit)));
          } else {
            assert st1.events + [] == st1.events;
          }
        }
      }
    }
  }

  lemma StepSilent(env: Env, c: Line, i: nat, total: nat, st: ScanState)
    requires WellFormed(env) && st.cursor < |env.providers|
    requires !env.notify
    ensures Step(env, c, i, total, st).events == st.events
  {
    assert st.events + [] == st.events;
  }

  /** Over a whole scan from no results and no callback calls, the calls made
      agree with the results. */
  lemma {:induction false} ScanEvents(env: Env, cs: seq<Line>, n: nat, init: ScanState)
    requires WellFormed(env) && n <= |cs| && init.cursor < |env.providers|
    requires init.events == [] && init.results == []
    ensures EventsAgree(Scan(env, cs, n, init).events, Scan(env, cs, n, init).results, |cs|, n)
  {
    if n > 0 {
      ScanEvents(env, cs, n - 1, init);
      var prev := Scan(env, cs, n - 1, init);
      StepEvents(env, cs[n - 1], n - 1, |cs|, prev);
      var cur := Step(env, cs[n - 1], n - 1, |cs|, prev);
      assert Scan(env, cs, n, init).events == cur.events;
      assert Scan(env, cs, n, init).results == cur.results;
    }
  }

  /** Without a progress callback a scan makes no callback calls. */
  lemma {:induction false} ScanSilent(env: Env, cs: seq<Line>, n: nat, init: ScanState)
    requires WellFormed(env) && n <= |cs| && init.cursor < |env.providers|
    requires !env.notify
    ensures Scan(env, cs, n, init).events == init.events
  {
    if n > 0 {
      ScanSilent(env, cs, n - 1, init);
      StepSilent(env, cs[n - 1], n - 1, |cs|, Scan(env, cs, n - 1, init));
    }
  }

  /** The report of a hit, made by the balance check of a key line. */
  function HitReport(env: Env, cs: seq<Line>, i: nat, c0: nat, r0: seq<Found>): seq<Progress>
    requires WellFormed(env) && i < |cs| && c0 < |env.providers|
  {
    var before := r0 + Hits(env, cs, i, c0);
    var h := HitAt(env, cs, i, c0);
    if |h| == 1 then [Progress(i + 1, |cs|, |before + h|, Total(before + h), Some(h[0]))] else []
  }

  /** Reference for the callback calls line `i` makes, given the results
      `r0` the scan started with: none for a blank line or without a
      callback; otherwise the periodic report when the line ticks, followed by
      the report of the line's hit, if it has one. */
  function EventsAt(env: Env, cs: seq<Line>, i: nat, c0: nat, r0: seq<Found>): seq<Progress>
    requires WellFormed(env) && i < |cs| && c0 < |env.providers|
  {
    if !env.notify || cs[i].Blank? then []
    else
      var before := r0 + Hits(env, cs, i, c0);
      var h := HitAt(env, cs, i, c0);
      var after := before + h;
      (if ProgressTick(i, |cs|) then [Progress(i + 1, |cs|, |before|, Total(before), None)] else [])
      + (if |h| == 1 then [Progress(i + 1, |cs|, |after|, Total(after), Some(h[0]))] else [])
  }

  /** Reference for the callback calls of the first `n` lines, in order. */
  function Events(env: Env, cs: seq<Line>, n: nat, c0: nat, r0: seq<Found>): seq<Progress>
    requires WellFormed(env) && n <= |cs| && c0 < |env.providers|
  {
    if n == 0 then [] else Events(env, cs, n - 1, c0, r0) + EventsAt(env, cs, n - 1, c0, r0)
  }

  lemma CheckCallbacks(env: Env, cs: seq<Line>, i: nat, c0: nat, r0: seq<Found>, st: ScanState)
    requires WellFormed(env) && i < |cs| && c0 < |env.providers| && cs[i].Key? && env.notify
    requires st.cursor == CursorAt(env, cs, i, c0) && st.results == r0 + Hits(env, cs, i, c0)
    ensures Check(env, cs[i].key, cs[i].address, i, |cs|, st).events == st.events + HitReport(env, cs, i, c0, r0)
  {
    var r := ResolveAt(env, cs, i, c0);
    if !(r.balance.Some? && r.balance.value > 0) {
      assert st.events + [] == st.events;
    }
  }

  /** A blank line, or any line without a callback, makes no calls. */
  lemma StepNoCallbacks(env: Env, cs: seq<Line>, i: nat, c0: nat, r0: seq<Found>, st: ScanState)
    requires WellFormed(env) && i < |cs| && c0 < |env.providers| && st.cursor < |env.providers|
    requires cs[i].Blank? || !env.notify
    ensures Step(env, cs[i], i, |cs|, st).events == st.events
    ensures EventsAt(env, cs, i, c0, r0) == []
  {
    assert st.events + [] == st.events;
  }

  /** A non-blank line with a callback makes the periodic report when it
      ticks, then the report of its hit. */
  lemma StepSomeCallbacks(env: Env, cs: seq<Line>, i: nat, c0: nat, r0: seq<Found>, st: ScanState)
    requires WellFormed(env) && i < |cs| && c0 < |env.providers|
    requires !cs[i].Blank? && env.notify
    requires st.cursor == CursorAt(env, cs, i, c0) && st.results == r0 + Hits(env, cs, i, c0)
    ensures Step(env, cs[i], i, |cs|, st).events == st.events + EventsAt(env, cs, i, c0, r0)
  {
    var c := cs[i];
    var before := r0 + Hits(env, cs, i, c0);
    var t := if ProgressTick(i, |cs|) then [Progress(i + 1, |cs|, |before|, Total(before), None)] else [];
    var u := HitReport(env, cs, i, c0, r0);
    var st1 := Tick(env, i, |cs|, st);
    assert st1.events == st.events + t;
    assert st1.results == st.results && st1.cursor == st.cursor;
    assert EventsAt(env, cs, i, c0, r0) == t + u;
    if c.Key? {
      CheckCallbacks(env, cs, i, c0, r0, st1);
    } else {
      assert u == [];
    }
    AppendAssoc(st.events, t, u);
  }

  /** The calls of line `n - 1` appended to those of the lines before it. */
  lemma ScanStepCallbacks(env: Env, cs: seq<Line>, n: nat, init: ScanState)
    requires WellFormed(env) && 0 < n <= |cs| && init.cursor < |env.providers|
    ensures Scan(env, cs, n, init).events ==
            Scan(env, cs, n - 1, init).events + EventsAt(env, cs, n - 1, init.cursor, init.results)
  {
    ScanResults(env, cs, n - 1, init);
    ScanCursor(env, cs, n - 1, init);
    var prev := Scan(env, cs, n - 1, init);
    assert prev.cursor == CursorAt(env, cs, n - 1, init.cursor);
    if cs[n - 1].Blank? || !env.notify {
      StepNoCallbacks(env, cs, n - 1, init.cursor, init.results, prev);
    } else {
      StepSomeCallbacks(env, cs, n - 1, init.cursor, init.results, prev);
    }
  }

  lemma {:induction false} ScanCallbacks(env: Env, cs: seq<Line>, n: nat, init: ScanState)
    requires WellFormed(env) && n <= |cs| && init.cursor < |env.providers|
    ensures Scan(env, cs, n, init).events == init.events + Events(env, cs, n, init.cursor, init.results)
  {
    if n == 0 {
      assert init.events + [] == init.events;
    } else {
      ScanCallbacks(env, cs, n - 1, init);
      ScanStepCallbacks(env, cs, n, init);
      AppendAssoc(init.events, Events(env, cs, n - 1, init.cursor, init.results),
                  EventsAt(env, cs, n - 1, init.cursor, init.results));
    }
  }

  /** The found keys the calls report, in order. */
  function Reported(es: seq<Progress>): seq<Found>
  {
    if |es| == 0 then []
    else Reported(es[..|es| - 1]) + if es[|es| - 1].hit.Some? then [es[|es| - 1].hit.value] else []
  }

  /** The lines the periodic calls report, in order. */
  function Ticked(es: seq<Progress>): seq<nat>
  {
    if |es| == 0 then []
    else Ticked(es[..|es| - 1]) + if es[|es| - 1].hit.None? then [es[|es| - 1].processed] else []
  }

  lemma AppendAssoc<T>(a: seq<T>, b: seq<T>, c: seq<T>)
    ensures a + b + c == a + (b + c)
  {
  }

  lemma {:induction false} ReportedAppend(a: seq<Progress>, b: seq<Progress>)
    ensures Reported(a + b) == Reported(a) + Reported(b)
    decreases |b|
  {
    if |b| == 0 {
      assert a + b == a;
    } else {
      ReportedAppend(a, b[..|b| - 1]);
      assert (a + b)[..|a + b| - 1] == a + b[..|b| - 1];
    }
  }

  lemma {:induction false} TickedAppend(a: seq<Progress>, b: seq<Progress>)
    ensures Ticked(a + b) == Ticked(a) + Ticked(b)
    decreases |b|
  {
    if |b| == 0 {
      assert a + b == a;
    } else {
      TickedAppend(a, b[..|b| - 1]);
      assert (a + b)[..|a + b| - 1] == a + b[..|b| - 1];
    }
  }

  /** The lines `1 + i` of the first `n` lines that are not blank and fall on
      the reporting period. */
  function TickLines(cs: seq<Line>, n: nat): seq<nat>
    requires n <= |cs|
  {
    if n == 0 then []
    else TickLines(cs, n - 1) + if !cs[n - 1].Blank? && ProgressTick(n - 1, |cs|) then [n] else []
  }

  /** The calls of one line report its hit, if any, and the line itself when
      it is not blank and falls on the reporting period. */
  lemma StepReport(env: Env, cs: seq<Line>, i: nat, c0: nat, r0: seq<Found>)
    requires WellFormed(env) && i < |cs| && c0 < |env.providers|
    ensures Reported(EventsAt(env, cs, i, c0, r0)) == if env.notify then HitAt(env, cs, i, c0) else []
    ensures Ticked(EventsAt(env, cs, i, c0, r0)) ==
              if env.notify && !cs[i].Blank? && ProgressTick(i, |cs|) then [i + 1] else []
  {
    if env.notify && !cs[i].Blank? {
      var before := r0 + Hits(env, cs, i, c0);
      var h := HitAt(env, cs, i, c0);
      var t: seq<Progress> := if ProgressTick(i, |cs|) then [Progress(i + 1, |cs|, |before|, Total(before), None)] else [];
      var u: seq<Progress> := if |h| == 1 then [Progress(i + 1, |cs|, |before + h|, Total(before + h), Some(h[0]))] else [];
      assert EventsAt(env, cs, i, c0, r0) == t + u;
      ReportedAppend(t, u);
      TickedAppend(t, u);
      assert Reported(u) == h by {
        if |h| == 1 {
          assert u[..0] == [];
        }
      }
      assert Ticked(t) == (if ProgressTick(i, |cs|) then [i + 1] else []) by {
        if ProgressTick(i, |cs|) {
          assert t[..0] == [];
        }
      }
      assert Reported(t) == [] && Ticked(u) == [] by {
        assert t == [] || t[..0] == [];
        assert u == [] || u[..0] == [];
      }
    }
  }

  /** With a callback, the hit calls report exactly the results, in order,
      and the periodic calls report exactly the non-blank lines on the
      reporting period; without one there are no calls. */
  lemma {:induction false} CallbacksReport(env: Env, cs: seq<Line>, n: nat, c0: nat, r0: seq<Found>)
    requires WellFormed(env) && n <= |cs| && c0 < |env.providers|
    ensures Reported(Events(env, cs, n, c0, r0)) == if env.notify then Hits(env, cs, n, c0) else []
    ensures Ticked(Events(env, cs, n, c0, r0)) == if env.notify then TickLines(cs, n) else []
  {
    if n > 0 {
      var i := n - 1;
      CallbacksReport(env, cs, i, c0, r0);
      ReportedAppend(Events(env, cs, i, c0, r0), EventsAt(env, cs, i, c0, r0));
      TickedAppend(Events(env, cs, i, c0, r0), EventsAt(env, cs, i, c0, r0));
      StepReport(env, cs, i, c0, r0);
    }
  }

  /** The providers named in `results`, in order. */
  function Apis(results: seq<Found>): (s: seq<string>)
    ensures |s| == |results|
    ensures forall j :: 0 <= j < |results| ==> s[j] == results[j].api
  {
    seq(|results|, j requires 0 <= j < |results| => results[j].api)
  }

  /** The distinct elements of `s` in order of first appearance. */
  function FirstSeen(s: seq<string>): (d: seq<string>)
    ensures forall a, b :: 0 <= a < b < |d| ==> d[a] != d[b]
    ensures forall x :: x in d <==> x in s
  {
    if |s| == 0 then []
    else
      var d := FirstSeen(s[..|s| - 1]);
      assert forall x :: x in s <==> x in s[..|s| - 1] || x == s[|s| - 1];
      if s[|s| - 1] in d then d else d + [s[|s| - 1]]
  }

  /** Occurrences of `x` in `s`. */
  function Count(s: seq<string>, x: string): nat
  {
    if |s| == 0 then 0 else Count(s[..|s| - 1], x) + if s[|s| - 1] == x then 1 else 0
  }

  function Names(stats: seq<(string, nat)>): (s: seq<string>)
    ensures |s| == |stats|
    ensures forall j :: 0 <= j < |stats| ==> s[j] == stats[j].0
  {
    seq(|stats|, j requires 0 <= j < |stats| => stats[j].0)
  }

  /** Position of `name` in the statistics, `|stats|` when absent. */
  function Position(stats: seq<(string, nat)>, name: string): (k: nat)
    ensures k <= |stats|
    ensures k < |stats| ==> stats[k].0 == name
    ensures k == |stats| ==> name !in Names(stats)
  {
    if |stats| == 0 then 0
    else if stats[0].0 == name then 0
    else
      var k := 1 + Position(stats[1..], name);
      assert Names(stats) == [stats[0].0] + Names(stats[1..]);
      k
  }

  /** The API usage statistics of `run`: one entry per provider that found a
      key, in order of first appearance (the dictionary's insertion order),
      each with the number of results it found. */
  method ApiStats(results: seq<Found>) returns (stats: seq<(string, nat)>)
    ensures Names(stats) == FirstSeen(Apis(results))
    ensures forall k :: 0 <= k < |stats| ==> stats[k].1 == Count(Apis(results), stats[k].0)
  {
    var apis := Apis(results);
    stats := [];
    var i := 0;
    while i < |results|
      invariant 0 <= i <= |results|
      invariant Names(stats) == FirstSeen(apis[..i])
      invariant forall k :: 0 <= k < |stats| ==> stats[k].1 == Count(apis[..i], stats[k].0)
    {
      var api := results[i].api;
      assert apis[..i + 1][..i] == apis[..i];
      var k := Position(stats, api);
      if k < |stats| {
        stats := stats[k := (api, stats[k].1 + 1)];
      } else {
        stats := stats + [(api, 1)];
        assert Count(apis[..i], api) == 0 by {
          CountAbsent(apis[..i], api);
        }
      }
      i := i + 1;
    }
    assert apis[..|results|] == apis;
  }

  lemma {:induction false} CountAbsent(s: seq<string>, x: string)
    requires x !in FirstSeen(s)
    ensures Count(s, x) == 0
  {
    if |s| > 0 {
      CountAbsent(s[..|s| - 1], x);
    }
  }

  /** The counts of the statistics add up to the number of results, and every
      provider that found a key appears once. */
  lemma {:induction false} StatsCover(s: seq<string>)
    ensures SumCounts(s, FirstSeen(s)) == |s|
    decreases |s|
  {
    if |s| > 0 {
      var init, x := s[..|s| - 1], s[|s| - 1];
      var d := FirstSeen(init);
      StatsCover(init);
      SumCountsStep(init, x, d);
      assert init + [x] == s;
      if x !in d {
        assert FirstSeen(s) == d + [x];
        CountAbsent(init, x);
        SumCountsAppend(s, d, x);
      }
    }
  }

  /** Total of `Count(s, x)` over the names `d`. */
  function SumCounts(s: seq<string>, d: seq<string>): nat
  {
    if |d| == 0 then 0 else SumCounts(s, d[..|d| - 1]) + Count(s, d[|d| - 1])
  }

  lemma {:induction false} SumCountsStep(init: seq<string>, x: string, d: seq<string>)
    requires forall a, b :: 0 <= a < b < |d| ==> d[a] != d[b]
    ensures SumCounts(init + [x], d) == SumCounts(init, d) + if x in d then 1 else 0
  {
    assert (init + [x])[..|init|] == init;
    if |d| > 0 {
      SumCountsStep(init, x, d[..|d| - 1]);
      assert x in d <==> x in d[..|d| - 1] || x == d[|d| - 1];
      if x == d[|d| - 1] {
        assert x !in d[..|d| - 1];
      }
    }
  }

  lemma SumCountsAppend(s: seq<string>, d: seq<string>, x: string)
    ensures SumCounts(s, d + [x]) == SumCounts(s, d) + Count(s, x)
  {
    assert (d + [x])[..|d|] == d;
  }

  /** The auto-mode loop of `check_balance`: ask each provider in turn and
      return at the first balance; its result is `Auto`'s. */
  method AutoCheck(ps: seq<string>, address: string, net: Network, tick: nat, ghost cursor: nat)
    returns (balance: Option<int>, api: string, queried: seq<string>)
    ensures Resolution(balance, api, cursor, queried) == Auto(ps, address, net, tick, cursor)
  {
    var j := 0;
    while j < |ps|
      invariant 0 <= j <= |ps|
      invariant forall k :: 0 <= k < j ==> !net(tick, ps[k], address).Value?
    {
      var o := net(tick, ps[j], address);
      if o.Value? {
        AutoSkip(ps, address, net, tick, cursor, j);
        assert ps[j..][0] == ps[j];
        assert ps[..j] + [ps[j]] == ps[..j + 1];
        return Some(o.satoshis), ps[j], ps[..j + 1];
      }
      j := j + 1;
    }
    AutoSkip(ps, address, net, tick, cursor, j);
    assert ps[..j] == ps;
    return None, Unknown, ps;
  }

  /** The newer checker. */
  class KeyChecker {
    const apiType: string
    const startLine: int
    const endLine: Option<int>
    const derives: string -> bool
    const addressOf: string -> string
    const notify: bool
    const render: int -> string
    const stamp: nat -> string
    /** `current_api_index`. */
    var apiIndex: nat
    const sink: Sink

    constructor (template: string, disk: Disk, canWrite: string -> bool, apiType: string,
                 startLine: int, endLine: Option<int>, derives: string -> bool,
                 addressOf: string -> string, notify: bool, render: int -> string, stamp: nat -> string)
      ensures this.apiType == apiType && this.startLine == startLine && this.endLine == endLine
      ensures this.derives == derives && this.addressOf == addressOf && this.notify == notify
      ensures this.render == render && this.stamp == stamp
      ensures apiIndex == 0
      ensures fresh(sink) && sink.template == template && sink.canWrite == canWrite
      ensures sink.maxFileSize == DefaultMaxFileSize && sink.State() == SinkState(template, 0, disk)
    {
      this.apiType := apiType;
      this.startLine := startLine;
      this.endLine := endLine;
      this.derives := derives;
      this.addressOf := addressOf;
      this.notify := notify;
      this.render := render;
      this.stamp := stamp;
      apiIndex := 0;
      sink := new Sink(template, disk, canWrite);
    }

    /** The scan environment of this checker for the given provider answers. */
    function EnvFor(net: Network): Env
    {
      Env(Registry, apiType, derives, addressOf, net, notify, render, stamp,
          sink.template, sink.maxFileSize, sink.canWrite)
    }

    /** `check_balance(address)`: the result and the new cursor are those of
      `Resolve` over the registry. */
    method CheckBalance(address: string, net: Network, tick: nat) returns (balance: Option<int>, api: string, queried: seq<string>)
      requires apiIndex < |Registry|
      modifies this`apiIndex
      ensures Resolution(balance, api, apiIndex, queried) == Resolve(Registry, apiType, old(apiIndex), address, net, tick)
    {
      if apiType == "auto" {
        balance, api, queried := AutoCheck(Registry, address, net, tick, apiIndex);
        return;
      }
      var name: string;
      if apiType == "rotate" {
        name := Registry[apiIndex];
        apiIndex := (apiIndex + 1) % |Registry|;
        AdvanceIsMod(old(apiIndex), |Registry|);
      } else if apiType in Registry {
        name := apiType;
      } else {
        name := Fallback;
      }
      queried := [name];
      match net(tick, name, address)
      case Raises =>
        balance, api := None, Unknown;
      case Absent =>
        balance, api := None, name;
      case Value(b) =>
        balance, api := Some(b), name;
    }

    /** The balance check of one valid key inside the `process_keys` loop:
      it does what `Check` does, and saves a result to the sink exactly when
      it records one. */
    method CheckKey(k: string, address: string, i: nat, total: nat, net: Network,
                    results: seq<Found>, events: seq<Progress>, pauses: nat, ghost sink0: SinkState)
      returns (results': seq<Found>, events': seq<Progress>, pauses': nat)
      requires apiIndex < |Registry|
      requires sink.State() == Saves(EnvFor(net), sink0, results)
      modifies this`apiIndex, sink
      ensures apiIndex < |Registry|
      ensures Check(EnvFor(net), k, address, i, total, ScanState(old(apiIndex), results, events, pauses))
                == ScanState(apiIndex, results', events', pauses')
      ensures sink.State() == Saves(EnvFor(net), sink0, results')
    {
      RegistriesWellFormed();
      results', events', pauses' := results, events, pauses;
      var balance, api, _ := CheckBalance(address, net, i);
      if balance.None? {
        return;
      }
      var b := balance.value;
      if b > 0 {
        results', events' := RecordHit(Found(k, address, b, api), i, total, net, results, events, sink0);
      }
      pauses' := pauses' + 1;
    }

    /** A found key: saved to the sink in real time, appended to the results
      and reported to the progress callback when there is one. */
    method RecordHit(hit: Found, i: nat, total: nat, net: Network,
                     results: seq<Found>, events: seq<Progress>, ghost sink0: SinkState)
      returns (results': seq<Found>, events': seq<Progress>)
      requires sink.State() == Saves(EnvFor(net), sink0, results)
      modifies sink
      ensures results' == results + [hit]
      ensures events' == events + if notify then [Progress(i + 1, total, |results'|, Total(results'), Some(hit))] else []
      ensures sink.State() == Saves(EnvFor(net), sink0, results')
    {
      var _ := sink.SaveResult(hit.key, hit.address, render(hit.balance), stamp(|results|), hit.api);
      results' := results + [hit];
      assert results'[..|results|] == results;
      events' := events;
      if notify {
        events' := events' + [Progress(i + 1, total, |results'|, Total(results'), Some(hit))];
      }
    }

    /** The body of the `process_keys` loop for line `i` of the `total`
      selected lines, whose classifications are `cs`: it takes the scan and
      the sink from their state after `i` lines to their state after `i + 1`. */
    method VisitLine(line: string, i: nat, total: nat, net: Network,
                     results: seq<Found>, events: seq<Progress>, pauses: nat,
                     ghost cs: seq<Line>, ghost init: ScanState, ghost sink0: SinkState)
      returns (results': seq<Found>, events': seq<Progress>, pauses': nat)
      requires i < total == |cs| && cs[i] == Classify(EnvFor(net), line)
      requires init.cursor < |Registry|
      requires Scan(EnvFor(net), cs, i, init) == ScanState(apiIndex, results, events, pauses)
      requires sink.State() == Saves(EnvFor(net), sink0, results)
      modifies this`apiIndex, sink
      ensures apiIndex < |Registry|
      ensures Scan(EnvFor(net), cs, i + 1, init) == ScanState(apiIndex, results', events', pauses')
      ensures sink.State() == Saves(EnvFor(net), sink0, results')
    {
      RegistriesWellFormed();
      ghost var env := EnvFor(net);
      ghost var st := ScanState(apiIndex, results, events, pauses);
      assert Scan(env, cs, i + 1, init) == Step(env, cs[i], i, total, st);
      results', events', pauses' := results, events, pauses;
      var key := Strip(line);
      if key == [] || StartsWith(key, '#') {
        return;
      }
      if ProgressTick(i, total) && notify {
        events' := events' + [Progress(i + 1, total, |results'|, Total(results'), None)];
      }
      assert Tick(env, i, total, st) == ScanState(apiIndex, results', events', pauses');
      var (valid, k) := Extract(key, derives);
      if !valid {
        return;
      }
      results', events', pauses' := CheckKey(k, addressOf(k), i, total, net, results', events', pauses', sink0);
    }

    /** `process_keys` over the input file's lines (`None` when the file does
      not exist): the results, the callback calls, the pauses, the cursor and
      the sink are those of `Scan` over the classified selected lines. */
    method ProcessKeys(input: Option<seq<string>>, net: Network) returns (results: seq<Found>, events: seq<Progress>, pauses: nat)
      requires apiIndex < |Registry|
      modifies this, sink
      ensures apiIndex < |Registry|
      ensures input.None? ==>
                results == [] && events == [] && pauses == 0 && apiIndex == old(apiIndex)
      ensures input.Some? ==>
                var lines := Selected(input.value, startLine, endLine);
                Scan(EnvFor(net), Classified(EnvFor(net), lines), |lines|, ScanState(old(apiIndex), [], [], 0))
                  == ScanState(apiIndex, results, events, pauses)
      ensures sink.State() == Saves(EnvFor(net), old(sink.State()), results)
    {
      results, events, pauses := [], [], 0;
      if input.None? {
        return;
      }
      RegistriesWellFormed();
      var lines := Selected(input.value, startLine, endLine);
      var total := |lines|;
      ghost var env := EnvFor(net);
      ghost var cs := Classified(env, lines);
      ghost var init := ScanState(apiIndex, [], [], 0);
      ghost var sink0 := sink.State();
      var i := 0;
      while i < total
        invariant 0 <= i <= total
        invariant apiIndex < |Registry|
        invariant Scan(env, cs, i, init) == ScanState(apiIndex, results, events, pauses)
        invariant sink.State() == Saves(env, sink0, results)
      {
        results, events, pauses := VisitLine(lines[i], i, total, net, results, events, pauses, cs, init, sink0);
        i := i + 1;
      }
    }

    /** `run`: initialise the output file (its outcome is not acted on), scan,
      and compute the per-provider statistics of the results. */
    method Run(input: Option<seq<string>>, net: Network, now: nat)
      returns (results: seq<Found>, stats: seq<(string, nat)>, events: seq<Progress>, pauses: nat)
      requires apiIndex < |Registry|
      modifies this, sink
      ensures input.Some? ==>
                var lines := Selected(input.value, startLine, endLine);
                Scan(EnvFor(net), Classified(EnvFor(net), lines), |lines|, ScanState(old(apiIndex), [], [], 0))
                  == ScanState(apiIndex, results, events, pauses)
      ensures sink.State() ==
                Saves(EnvFor(net), InitState(old(sink.State()), sink.template, sink.maxFileSize, sink.canWrite, now).0, results)
      ensures input.None? ==> results == [] && events == [] && pauses == 0
      ensures Names(stats) == FirstSeen(Apis(results))
      ensures forall k :: 0 <= k < |stats| ==> stats[k].1 == Count(Apis(results), stats[k].0)
    {
      var _ := sink.InitOutputFile(now);
      results, events, pauses := ProcessKeys(input, net);
      stats := ApiStats(results);
    }
  }
}
