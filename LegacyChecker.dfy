/** The older `BTCKeyChecker` (attached_assets/btc_checker.py): five
    providers, a `check_balance` that returns only the balance, and a
    `process_keys` that does not call `check_balance` but repeats the provider
    strategy inline and reports progress only to the log.

    The inline strategy is proved to do what `Scan` does over the five
    providers with no progress callback, so every property proved of `Scan`
    holds of this checker as well. */
module LegacyChecker {
  import opened Text
  import opened KeyExtraction
  import opened Providers
  import opened OutputSink
  import opened Scanner

  class LegacyKeyChecker {
    const apiType: string
    const startLine: int
    const endLine: Option<int>
    const derives: string -> bool
    const addressOf: string -> string
    const render: int -> string
    const stamp: nat -> string
    /** `current_api_index`. */
    var apiIndex: nat
    const sink: Sink

    constructor (template: string, disk: Disk, canWrite: string -> bool, apiType: string,
                 startLine: int, endLine: Option<int>, derives: string -> bool,
                 addressOf: string -> string, render: int -> string, stamp: nat -> string)
      ensures this.apiType == apiType && this.startLine == startLine && this.endLine == endLine
      ensures this.derives == derives && this.addressOf == addressOf
      ensures this.render == render && this.stamp == stamp
      ensures apiIndex == 0
      ensures fresh(sink) && sink.template == template && sink.canWrite == canWrite
      ensures sink.maxFileSize == DefaultMaxFileSize && sink.State() == SinkState(template, 0, disk)
    {
      this.apiType := apiType;
      this.startLine := startLine;
      this.endLine := endLine;
      this.derives := derives;
      this.addressOf := addressOf;
      this.render := render;
      this.stamp := stamp;
      apiIndex := 0;
      sink := new Sink(template, disk, canWrite);
    }

    /** The scan environment of this checker: the five providers and no
      progress callback. */
    function EnvFor(net: Network): Env
    {
      Env(LegacyRegistry, apiType, derives, addressOf, net, false, render, stamp,
          sink.template, sink.maxFileSize, sink.canWrite)
    }

    /** `check_balance(address)`: the balance `Resolve` reports over the five
      providers, and its new cursor. A raise anywhere is caught and gives
      `None`. */
    method CheckBalance(address: string, net: Network, tick: nat) returns (balance: Option<int>)
      requires apiIndex < |LegacyRegistry|
      modifies this`apiIndex
      ensures balance == Resolve(LegacyRegistry, apiType, old(apiIndex), address, net, tick).balance
      ensures apiIndex == Resolve(LegacyRegistry, apiType, old(apiIndex), address, net, tick).cursor
    {
      if apiType == "auto" {
        var found, _, _ := AutoCheck(LegacyRegistry, address, net, tick, apiIndex);
        return found;
      }
      var name: string;
      if apiType == "rotate" {
        name := LegacyRegistry[apiIndex];
        apiIndex := (apiIndex + 1) % |LegacyRegistry|;
        AdvanceIsMod(old(apiIndex), |LegacyRegistry|);
      } else if apiType in LegacyRegistry {
        name := apiType;
      } else {
        name := Fallback;
      }
      match net(tick, name, address)
      case Value(b) =>
        balance := Some(b);
      case _ =>
        balance := None;
    }

    /** The provider strategy as `process_keys` repeats it inline: it obtains
      the balance `Resolve` reports and moves the cursor as `Resolve` does, and
      whenever it obtains a balance it names the provider `Resolve` names. A
      raise or an empty answer gives no balance. */
    method InlineStrategy(address: string, tick: nat, net: Network) returns (balance: Option<int>, apiUsed: string)
      requires apiIndex < |LegacyRegistry|
      modifies this`apiIndex
      ensures var r := Resolve(LegacyRegistry, apiType, old(apiIndex), address, net, tick);
              && apiIndex == r.cursor && balance == r.balance
              && (balance.Some? ==> apiUsed == r.api)
    {
      RegistriesWellFormed();
      var ps := LegacyRegistry;
      balance, apiUsed := None, Unknown;
      if apiType == "auto" {
        var j := 0;
        while j < |ps|
          invariant 0 <= j <= |ps|
          invariant forall q :: 0 <= q < j ==> !net(tick, ps[q], address).Value?
        {
          var o := net(tick, ps[j], address);
          if o.Value? {
            balance, apiUsed := Some(o.satoshis), ps[j];
            AutoSkip(ps, address, net, tick, apiIndex, j);
            assert ps[j..][0] == ps[j];
            return;
          }
          j := j + 1;
        }
        AutoSkip(ps, address, net, tick, apiIndex, j);
        assert ps[j..] == [];
      } else if apiType == "rotate" {
        var name := ps[apiIndex];
        apiIndex := (apiIndex + 1) % |ps|;
        AdvanceIsMod(old(apiIndex), |ps|);
        match net(tick, name, address)
        case Value(b) =>
          balance, apiUsed := Some(b), name;
        case _ =>
      } else if apiType in ps {
        apiUsed := apiType;
        match net(tick, apiType, address)
        case Value(b) =>
          balance := Some(b);
        case _ =>
      } else {
        apiUsed := Fallback;
        match net(tick, Fallback, address)
        case Value(b) =>
          balance := Some(b);
        case _ =>
      }
    }

    /** The balance check of one valid key inside `process_keys`, followed by
      the save and the pause: it does what `Check` does, and saves a result
      exactly when it records one. */
    method CheckKey(k: string, address: string, i: nat, total: nat, net: Network,
                    results: seq<Found>, pauses: nat, ghost sink0: SinkState)
      returns (results': seq<Found>, pauses': nat)
      requires apiIndex < |LegacyRegistry|
      requires sink.State() == Saves(EnvFor(net), sink0, results)
      modifies this`apiIndex, sink
      ensures apiIndex < |LegacyRegistry|
      ensures Check(EnvFor(net), k, address, i, total, ScanState(old(apiIndex), results, [], pauses))
                == ScanState(apiIndex, results', [], pauses')
      ensures sink.State() == Saves(EnvFor(net), sink0, results')
    {
      RegistriesWellFormed();
      ghost var env := EnvFor(net);
      assert !env.notify;
      ghost var none: seq<Progress> := [];
      assert none + none == none;
      results', pauses' := results, pauses;
      var balance, apiUsed := InlineStrategy(address, i, net);
      if balance.None? {
        return;
      }
      var b := balance.value;
      if b > 0 {
        var hit := Found(k, address, b, apiUsed);
        var _ := sink.SaveResult(k, address, render(b), stamp(|results'|), apiUsed);
        results' := results' + [hit];
        assert results'[..|results|] == results;
      }
      pauses' := pauses' + 1;
    }

    /** The body of the `process_keys` loop for line `i` of the `total`
      selected lines, whose classifications are `cs`: it takes the scan and
      the sink from their state after `i` lines to their state after `i + 1`. */
    method VisitLine(line: string, i: nat, total: nat, net: Network, results: seq<Found>, pauses: nat,
                     ghost cs: seq<Line>, ghost init: ScanState, ghost sink0: SinkState)
      returns (results': seq<Found>, pauses': nat)
      requires i < total == |cs| && cs[i] == Classify(EnvFor(net), line)
      requires init.cursor < |LegacyRegistry|
      requires Scan(EnvFor(net), cs, i, init) == ScanState(apiIndex, results, [], pauses)
      requires sink.State() == Saves(EnvFor(net), sink0, results)
      modifies this`apiIndex, sink
      ensures apiIndex < |LegacyRegistry|
      ensures Scan(EnvFor(net), cs, i + 1, init) == ScanState(apiIndex, results', [], pauses')
      ensures sink.State() == Saves(EnvFor(net), sink0, results')
    {
      RegistriesWellFormed();
      ghost var env := EnvFor(net);
      ghost var st := ScanState(apiIndex, results, [], pauses);
      assert Scan(env, cs, i + 1, init) == Step(env, cs[i], i, total, st);
      assert Tick(env, i, total, st) == st;
      results', pauses' := results, pauses;
      var key := Strip(line);
      if key == [] || StartsWith(key, '#') {
        return;
      }
      var (valid, k) := Extract(key, derives);
      if !valid {
        return;
      }
      results', pauses' := CheckKey(k, addressOf(k), i, total, net, results', pauses', sink0);
    }

    /** `process_keys` over the input file's lines (`None` when the file does
      not exist): the results, the pauses, the cursor and the sink are those
      of `Scan` over the classified selected lines with no progress callback. */
    method ProcessKeys(input: Option<seq<string>>, net: Network) returns (results: seq<Found>, pauses: nat)
      requires apiIndex < |LegacyRegistry|
      modifies this, sink
      ensures apiIndex < |LegacyRegistry|
      ensures input.None? ==> results == [] && pauses == 0 && apiIndex == old(apiIndex)
      ensures input.Some? ==>
                var lines := Selected(input.value, startLine, endLine);
                Scan(EnvFor(net), Classified(EnvFor(net), lines), |lines|, ScanState(old(apiIndex), [], [], 0))
                  == ScanState(apiIndex, results, [], pauses)
      ensures sink.State() == Saves(EnvFor(net), old(sink.State()), results)
    {
      results, pauses := [], 0;
      if input.None? {
        return;
      }
      RegistriesWellFormed();
      var lines := Selected(input.value, startLine, endLine);
      var total := |lines|;
      ghost var env := EnvFor(net);
      ghost var cs := Classified(env, lines);
      ghost var init := ScanState(apiIndex, [], [], 0);
      ghost var sink0 := sink.State();
      var i := 0;
      while i < total
        invariant 0 <= i <= total
        invariant apiIndex < |LegacyRegistry|
        invariant Scan(env, cs, i, init) == ScanState(apiIndex, results, [], pauses)
        invariant sink.State() == Saves(env, sink0, results)
      {
        results, pauses := VisitLine(lines[i], i, total, net, results, pauses, cs, init, sink0);
        i := i + 1;
      }
    }

    /** `run`: initialise the output file, scan, and compute the per-provider
      statistics of the results. The legacy `run` returns nothing: the
      results, the statistics and the pause count are out-parameters here
      only so that the contract can state them. */
    method Run(input: Option<seq<string>>, net: Network, now: nat)
      returns (results: seq<Found>, stats: seq<(string, nat)>, pauses: nat)
      requires apiIndex < |LegacyRegistry|
      modifies this, sink
      ensures input.Some? ==>
                var lines := Selected(input.value, startLine, endLine);
                Scan(EnvFor(net), Classified(EnvFor(net), lines), |lines|, ScanState(old(apiIndex), [], [], 0))
                  == ScanState(apiIndex, results, [], pauses)
      ensures sink.State() ==
                Saves(EnvFor(net), InitState(old(sink.State()), sink.template, sink.maxFileSize, sink.canWrite, now).0, results)
      ensures input.None? ==> results == [] && pauses == 0
      ensures Names(stats) == FirstSeen(Apis(results))
      ensures forall q :: 0 <= q < |stats| ==> stats[q].1 == Count(Apis(results), stats[q].0)
    {
      var _ := sink.InitOutputFile(now);
      results, pauses := ProcessKeys(input, net);
      stats := ApiStats(results);
    }
  }
}
