/** The registry of balance providers and the provider-selection strategy of
    `check_balance`. Each provider's HTTP round trip is an oracle: for a given
    moment, provider name and address it either yields a balance in satoshis,
    yields nothing (`None` in the source) or raises. */
module Providers {
  import opened Text

  /** What one call of a `_check_balance_*` provider does. */
  datatype Outcome = Value(satoshis: int) | Absent | Raises

  /** `net(tick, provider, address)`: what the named provider answers for the
      address when it is asked at moment `tick` (the scan uses the position of
      the line being processed). */
  type Network = (nat, string, string) -> Outcome

  /** Registration order of `api_functions` in btc_checker.py. */
  const Registry: seq<string> :=
    ["blockchain", "blockcypher", "blockstream", "mempool", "blockchair", "bitaps",
     "btccom", "blockonomics", "coinbase", "cryptoid", "sochain", "btcexplorer"]

  /** Registration order of `api_functions` in the older checker. */
  const LegacyRegistry: seq<string> :=
    ["blockchain", "blockcypher", "blockstream", "mempool", "blockchair"]

  /** The provider an unknown mode falls back to. */
  const Fallback: string := "blockchain"

  /** The provider name reported when no provider produced a balance. */
  const Unknown: string := "unknown"

  /** `(balance, api_used)` of one balance check, the rotation cursor after it,
      and the providers it called, in order. */
  datatype Resolution = Resolution(balance: Option<int>, api: string, cursor: nat, queried: seq<string>)

  /** Auto mode: walk the providers in registration order and stop at the first
      one that yields a balance; a provider that raises or yields nothing is
      skipped. */
  function Auto(ps: seq<string>, address: string, net: Network, tick: nat, cursor: nat): (r: Resolution)
    ensures r.cursor == cursor
  {
    if |ps| == 0 then Resolution(None, Unknown, cursor, [])
    else
      match net(tick, ps[0], address)
      case Value(b) => Resolution(Some(b), ps[0], cursor, [ps[0]])
      case _ =>
        var r := Auto(ps[1..], address, net, tick, cursor);
        r.(queried := [ps[0]] + r.queried)
  }

  /** First success: the providers called are a prefix of the registry, all
      but the last failed, and the last is the one reported with its answer;
      when all fail the result is `(None, "unknown")` and every provider was
      called. */
  lemma {:induction false} AutoSpec(ps: seq<string>, address: string, net: Network, tick: nat, cursor: nat)
    ensures var r := Auto(ps, address, net, tick, cursor);
            && |r.queried| <= |ps| && r.queried == ps[..|r.queried|]
            && (forall j :: 0 <= j < |r.queried| - 1 ==> !net(tick, ps[j], address).Value?)
            && (r.balance.Some? ==>
                  && |r.queried| > 0
                  && r.api == ps[|r.queried| - 1]
                  && net(tick, r.api, address) == Value(r.balance.value))
            && (r.balance.None? ==>
                  && r.api == Unknown
                  && r.queried == ps
                  && forall j :: 0 <= j < |ps| ==> !net(tick, ps[j], address).Value?)
  {
    if |ps| > 0 && !net(tick, ps[0], address).Value? {
      AutoSpec(ps[1..], address, net, tick, cursor);
      assert forall j :: 1 <= j < |ps| ==> ps[j] == ps[1..][j - 1];
    }
  }

  lemma AutoUnfold(qs: seq<string>, address: string, net: Network, tick: nat, cursor: nat)
    requires |qs| > 0 && !net(tick, qs[0], address).Value?
    ensures var r := Auto(qs[1..], address, net, tick, cursor);
            Auto(qs, address, net, tick, cursor) == r.(queried := [qs[0]] + r.queried)
  {
  }

  lemma {:induction false} AutoSkip(ps: seq<string>, address: string, net: Network, tick: nat, cursor: nat, j: nat)
    requires j <= |ps|
    requires forall k :: 0 <= k < j ==> !net(tick, ps[k], address).Value?
    ensures var r := Auto(ps[j..], address, net, tick, cursor);
            Auto(ps, address, net, tick, cursor) == r.(queried := ps[..j] + r.queried)
    decreases j
  {
    if j == 0 {
      assert ps[0..] == ps;
    } else {
      AutoSkip(ps, address, net, tick, cursor, j - 1);
      var qs := ps[j - 1..];
      assert qs[0] == ps[j - 1];
      assert qs[1..] == ps[j..];
      AutoUnfold(qs, address, net, tick, cursor);
      var r := Auto(ps[j..], address, net, tick, cursor);
      var r1 := Auto(qs, address, net, tick, cursor);
      assert r1 == r.(queried := [ps[j - 1]] + r.queried);
      assert ps[..j - 1] + ([ps[j - 1]] + r.queried) == ps[..j] + r.queried;
    }
  }

  /** One call of one named provider inside the `try` of rotate or pinned mode:
      a raise is reported as `(None, "unknown")`, anything else under the
      provider's own name. */
  function Single(name: string, address: string, net: Network, tick: nat, cursor: nat): (r: Resolution)
  {
    match net(tick, name, address)
    case Raises => Resolution(None, Unknown, cursor, [name])
    case Absent => Resolution(None, name, cursor, [name])
    case Value(b) => Resolution(Some(b), name, cursor, [name])
  }

  /** The provider a non-auto mode calls: the one under the cursor when
      rotating, the named one when pinned to a known name, `blockchain`
      otherwise. */
  function Target(ps: seq<string>, mode: string, cursor: nat): string
    requires cursor < |ps|
  {
    if mode == "rotate" then ps[cursor] else if mode in ps then mode else Fallback
  }

  /** The rotation cursor after one step over `n` providers: the successor,
      wrapping from the last provider back to the first. */
  function Advance(cursor: nat, n: nat): (c: nat)
    requires cursor < n
    ensures c < n
  {
    if cursor + 1 == n then 0 else cursor + 1
  }

  /** `Advance` is the source's `(current_api_index + 1) % len(api_functions)`. */
  lemma AdvanceIsMod(cursor: nat, n: nat)
    requires cursor < n
    ensures Advance(cursor, n) == (cursor + 1) % n
  {
  }

  /** `check_balance(address)` of btc_checker.py, given the rotation cursor
      `current_api_index` before the call. Only rotate mode moves the cursor,
      and it moves it by one (wrapping) before the call, whatever the call does;
      every other mode calls exactly one provider except auto; a reported
      balance is always the answer of the provider reported with it. */
  function Resolve(ps: seq<string>, mode: string, cursor: nat, address: string, net: Network, tick: nat): (r: Resolution)
    requires cursor < |ps|
    ensures r.cursor < |ps|
    ensures r.cursor == if mode == "rotate" then Advance(cursor, |ps|) else cursor
  {
    if mode == "auto" then Auto(ps, address, net, tick, cursor)
    else if mode == "rotate" then Single(ps[cursor], address, net, tick, Advance(cursor, |ps|))
    else if mode in ps then Single(mode, address, net, tick, cursor)
    else Single(Fallback, address, net, tick, cursor)
  }

  /** Every mode but auto calls exactly one provider; a reported balance is
      always the answer of the provider reported with it, which is one of those
      called; "unknown" is reported only without a balance; and when the
      fallback is registered every provider called is registered. */
  lemma ResolveSpec(ps: seq<string>, mode: string, cursor: nat, address: string, net: Network, tick: nat)
    requires cursor < |ps|
    requires Unknown !in ps
    ensures var r := Resolve(ps, mode, cursor, address, net, tick);
            && (mode != "auto" ==> r.queried == [Target(ps, mode, cursor)])
            && (r.balance.Some? ==> r.api in r.queried && net(tick, r.api, address) == Value(r.balance.value))
            && (r.api == Unknown ==> r.balance.None?)
            && (Fallback in ps ==> forall q :: q in r.queried ==> q in ps)
  {
    if mode == "auto" {
      AutoSpec(ps, address, net, tick, cursor);
      var r := Auto(ps, address, net, tick, cursor);
      if r.balance.Some? {
        assert r.api == r.queried[|r.queried| - 1];
      }
    }
  }

  /** Outside auto mode the outcome of the one provider called decides the
      result: a value is reported with its provider, nothing is reported as
      `(None, provider)`, a raise as `(None, "unknown")`. */
  lemma NonAutoOutcome(ps: seq<string>, mode: string, cursor: nat, address: string, net: Network, tick: nat)
    requires cursor < |ps|
    requires mode != "auto"
    ensures var r := Resolve(ps, mode, cursor, address, net, tick);
            var name := Target(ps, mode, cursor);
            match net(tick, name, address)
            case Raises => r.balance == None && r.api == Unknown
            case Absent => r.balance == None && r.api == name
            case Value(b) => r.balance == Some(b) && r.api == name
  {
    if mode == "rotate" {
      assert ps[cursor] in ps;
    }
  }

  /** In auto mode, when the first registered provider answers, no other
      provider is called. */
  lemma AutoStopsAtFirstAnswer(ps: seq<string>, cursor: nat, address: string, net: Network, tick: nat)
    requires cursor < |ps| && Unknown !in ps
    requires net(tick, ps[0], address).Value?
    ensures Resolve(ps, "auto", cursor, address, net, tick).queried == [ps[0]]
    ensures Resolve(ps, "auto", cursor, address, net, tick).api == ps[0]
  {
  }

  /** Neither registry contains "unknown", "auto" or "rotate", and the
      fallback provider is registered in both. */
  lemma RegistriesWellFormed()
    ensures Unknown !in Registry && Unknown !in LegacyRegistry
    ensures "auto" !in Registry && "rotate" !in Registry
    ensures "auto" !in LegacyRegistry && "rotate" !in LegacyRegistry
    ensures Fallback in Registry && Fallback in LegacyRegistry
    ensures LegacyRegistry == Registry[..5]
  {
  }

  /** `dict.get(key, 0)` on one stats object of a provider response. */
  function Field(stats: map<string, int>, key: string): int
  {
    if key in stats then stats[key] else 0
  }

  /** Funded minus spent outputs of one stats object. */
  function NetFunds(stats: map<string, int>): int
  {
    Field(stats, "funded_txo_sum") - Field(stats, "spent_txo_sum")
  }

  function Section(data: map<string, map<string, int>>, key: string): map<string, int>
  {
    if key in data then data[key] else map[]
  }

  /** `_check_balance_blockstream`: a non-200 status yields nothing, a body that
      does not parse raises, otherwise the balance is funded minus spent over
      the confirmed and the mempool statistics, a missing field counting 0. */
  function BlockstreamOutcome(status: int, data: Option<map<string, map<string, int>>>): (o: Outcome)
    ensures status != 200 ==> o == Absent
    ensures status == 200 && data.None? ==> o == Raises
    ensures status == 200 && data.Some? ==>
              o == Value(NetFunds(Section(data.value, "chain_stats")) + NetFunds(Section(data.value, "mempool_stats")))
  {
    if status != 200 then Absent
    else if data.None? then Raises
    else
      var chain := Section(data.value, "chain_stats");
      var pool := Section(data.value, "mempool_stats");
      var funded := Field(chain, "funded_txo_sum") + Field(pool, "funded_txo_sum");
      var spent := Field(chain, "spent_txo_sum") + Field(pool, "spent_txo_sum");
      Value(funded - spent)
  }

  /** `_check_balance_mempool`: the same rule over the confirmed statistics only. */
  function MempoolOutcome(status: int, data: Option<map<string, map<string, int>>>): (o: Outcome)
  {
    if status != 200 then Absent
    else if data.None? then Raises
    else
      var chain := Section(data.value, "chain_stats");
      Value(Field(chain, "funded_txo_sum") - Field(chain, "spent_txo_sum"))
  }

  /** On the same response the two rules differ exactly by the unconfirmed
      (mempool) net funds. */
  lemma BlockstreamAddsMempool(data: map<string, map<string, int>>)
    ensures BlockstreamOutcome(200, Some(data)).satoshis ==
            MempoolOutcome(200, Some(data)).satoshis + NetFunds(Section(data, "mempool_stats"))
  {
  }
}
