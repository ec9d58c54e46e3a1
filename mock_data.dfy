/** The offline traffic generator (lib/mockData.ts): a tier from 2 to 10 guessed from
    the hostname, and counts that grow tenfold per tier. */
module MockData {
  import opened Wrappers
  import opened JsStrings
  import opened JsNumber
  import opened TrafficData

  /** `domainTiers`, in insertion order. */
  const DomainTiers: seq<(string, nat)> := [
    ("google.com", 10), ("youtube.com", 10), ("facebook.com", 10), ("amazon.com", 10),
    ("twitter.com", 9), ("instagram.com", 9), ("linkedin.com", 9), ("reddit.com", 8),
    ("github.com", 8), ("medium.com", 7), ("nytimes.com", 8), ("bbc.com", 8), ("cnn.com", 8),
    ("theguardian.com", 7), ("forbes.com", 7), ("techcrunch.com", 6)]

  /** The tier stored under `host`, if `host` is a key of the table. */
  function ExactTier(table: seq<(string, nat)>, host: string): (t: Option<nat>)
    ensures t.Some? ==> exists k :: 0 <= k < |table| && table[k] == (host, t.value)
    ensures t.None? ==> forall k :: 0 <= k < |table| ==> table[k].0 != host
  {
    if table == [] then None
    else if table[0].0 == host then Some(table[0].1)
    else ExactTier(table[1..], host)
  }

  /** Every tier in the table lies in [6, 10]. */
  lemma TableTiers()
    ensures forall k :: 0 <= k < |DomainTiers| ==> 6 <= DomainTiers[k].1 <= 10
  {
  }

  /** The tier of a host found in no table entry: by top-level domain, else at random. */
  function FallbackTier(host: string, r: Draw): (tier: int)
    ensures GovOrEdu(host) ==> tier == 6
    ensures !GovOrEdu(host) && EndsWith(host, ".org") ==> tier == 4
    ensures !GovOrEdu(host) && !EndsWith(host, ".org") ==> 2 <= tier <= 5 && (tier - 2) as real <= r * 4.0 < (tier - 1) as real
  {
    if GovOrEdu(host) then 6 else if EndsWith(host, ".org") then 4 else (r * 4.0).Floor + 2
  }

  /** `getDomainTier`. `hostname` is `None` when the URL does not parse. */
  method GetDomainTier(hostname: Option<string>, r: Draw) returns (tier: int)
    ensures 2 <= tier <= 10
    ensures hostname.None? ==> tier == 3
    ensures hostname.Some? ==> HostTier(StripWww(hostname.value), r, tier)
  {
    if hostname.None? {
      return 3;
    }
    tier := LookUpTier(StripWww(hostname.value), r);
  }

  /** What `getDomainTier` promises for a hostname without its first "www.": the table's
      tier for an exact key, else the tier of the first key in table order that the
      host ends with, else the fallback. */
  ghost predicate HostTier(host: string, r: Draw, tier: int) {
    && (ExactTier(DomainTiers, host).Some? ==> tier == ExactTier(DomainTiers, host).value)
    && (ExactTier(DomainTiers, host).None? ==>
          if exists k :: 0 <= k < |DomainTiers| && EndsWith(host, DomainTiers[k].0) then
            exists k :: 0 <= k < |DomainTiers| && EndsWith(host, DomainTiers[k].0) && tier == DomainTiers[k].1
                     && forall j :: 0 <= j < k ==> !EndsWith(host, DomainTiers[j].0)
          else tier == FallbackTier(host, r))
  }

  /** The lookup part of `getDomainTier`, once the hostname has lost its "www.". */
  method LookUpTier(host: string, r: Draw) returns (tier: int)
    ensures 2 <= tier <= 10
    ensures HostTier(host, r, tier)
  {
    TableTiers();
    var exact := ExactTier(DomainTiers, host);
    if exact.Some? {
      return exact.value;
    }
    var i := 0;
    while i < |DomainTiers|
      invariant 0 <= i <= |DomainTiers|
      invariant forall j :: 0 <= j < i ==> !EndsWith(host, DomainTiers[j].0)
    {
      if EndsWith(host, DomainTiers[i].0) {
        return DomainTiers[i].1;
      }
      i := i + 1;
    }
    tier := FallbackTier(host, r);
  }

  /** The mock `formatNumber`: always "~" first, an M suffix from a million upward and a
      K suffix from a thousand, never B. */
  function MockFormatNumber(num: nat): (s: string)
    ensures |s| >= 2 && s[0] == '~'
    ensures s[|s| - 1] == 'M' <==> num >= 1000000
    ensures s[|s| - 1] == 'K' <==> 1000 <= num < 1000000
    ensures s[|s| - 1] != 'B'
    ensures num < 1000 ==> s == "~" + NatToString(num)
  {
    if num >= 1000000 then "~" + ToFixed1(num as real / 1000000.0) + "M"
    else if num >= 1000 then "~" + NatToString(Round(num as real / 1000.0)) + "K"
    else "~" + NatToString(num)
  }

  /** Below a billion the mock formatter is the real one with a "~" in front. */
  lemma MockFormatIsMarkedFormat(num: nat)
    requires num < 1000000000
    ensures MockFormatNumber(num) == "~" + FormatNumber(num)
  {
  }

  function Pow10(e: nat): (p: nat)
    ensures p >= 1
  {
    if e == 0 then 1 else 10 * Pow10(e - 1)
  }

  /** `1000 * Math.pow(10, tier - 1)`, written as 100 · 10^tier so that every tier has a
      whole value. */
  function ReachBase(tier: nat): (base: nat)
    ensures tier >= 1 ==> base == 1000 * Pow10(tier - 1)
  {
    100 * Pow10(tier)
  }

  /** Each tier's audience is ten times the one below it. */
  lemma {:induction false} ReachBaseGrows(t: nat, u: nat)
    requires t < u
    ensures ReachBase(u) == ReachBase(t) * Pow10(u - t)
    ensures ReachBase(t) < ReachBase(u)
    decreases u - t
  {
    if u == t + 1 {
    } else {
      ReachBaseGrows(t, u - 1);
      assert Pow10(u - t) == 10 * Pow10(u - 1 - t);
    }
  }
}
