/** The escalation ladder: pure tables and functions (app/services/escalation.py). */
module Escalation {
  import opened Common

  datatype Engine = Httpx | CurlCffi | Playwright | Camoufox

  datatype ProxyType = Datacenter | Residential | Mobile | Isp

  datatype Tier = Tier(engine: Engine, proxyType: Option<ProxyType>, useProxy: bool)

  const LADDER: seq<Tier> := [
    Tier(Httpx, None, false),
    Tier(Httpx, Some(Datacenter), true),
    Tier(CurlCffi, Some(Datacenter), true),
    Tier(CurlCffi, Some(Residential), true),
    Tier(Playwright, Some(Residential), true),
    Tier(Camoufox, Some(Residential), true),
    Tier(Camoufox, Some(Mobile), true)
  ]

  const MAX_ATTEMPTS_PER_TIER: nat := 2

  /** The values of the BlockReason enum. */
  const BLOCK_REASONS: set<string> := {
    "ip_ban", "captcha", "cloudflare", "rate_limited", "waf", "other",
    "akamai", "datadome", "kasada", "perimeterx", "incapsula", "aws_waf"
  }

  const ESCALATABLE: set<string> := {"cloudflare", "waf", "captcha"}

  const ANTIBOT_FLOOR: map<string, nat> := map[
    "cloudflare" := 2, "akamai" := 3, "datadome" := 3, "kasada" := 4, "perimeterx" := 4,
    "incapsula" := 2, "aws_waf" := 1, "custom_sea" := 6, "custom_cn" := 5, "none" := 0
  ]

  /** A reason escalates unless it is absent or an enum value outside ESCALATABLE; unknown strings escalate. */
  predicate IsEscalatable(reason: Option<string>) {
    reason.Some? && reason.value !in BLOCK_REASONS - ESCALATABLE
  }

  predicate IsPremium(t: Tier) {
    t.proxyType == Some(Residential) || t.proxyType == Some(Mobile)
  }

  /** The first rung at or above `from` that runs `engine`. */
  function FirstRungFrom(engine: Engine, from: nat): (i: nat)
    requires exists j :: from <= j < |LADDER| && LADDER[j].engine == engine
    ensures from <= i < |LADDER| && LADDER[i].engine == engine
    ensures forall j :: from <= j < i ==> LADDER[j].engine != engine
    decreases |LADDER| - from
  {
    if LADDER[from].engine == engine then from else FirstRungFrom(engine, from + 1)
  }

  lemma EveryEngineHasARung(engine: Engine)
    ensures exists j :: 0 <= j < |LADDER| && LADDER[j].engine == engine
  {
    assert LADDER[0].engine == Httpx && LADDER[2].engine == CurlCffi;
    assert LADDER[4].engine == Playwright && LADDER[5].engine == Camoufox;
  }

  function FirstRung(engine: Engine): (i: nat)
    ensures i < |LADDER| && LADDER[i].engine == engine
    ensures forall j :: 0 <= j < i ==> LADDER[j].engine != engine
  {
    EveryEngineHasARung(engine);
    FirstRungFrom(engine, 0)
  }

  function FirstPremiumFrom(from: nat): (i: nat)
    requires from <= 3
    ensures from <= i < |LADDER| && IsPremium(LADDER[i])
    ensures forall j :: from <= j < i ==> !IsPremium(LADDER[j])
    decreases |LADDER| - from
  {
    if IsPremium(LADDER[from]) then from else FirstPremiumFrom(from + 1)
  }

  const FIRST_PREMIUM_TIER: nat := FirstPremiumFrom(0)

  /** Vendor floor of an antibot type; absent, empty and unknown types have floor 0. */
  function VendorFloor(antibotType: Option<string>): nat {
    if antibotType.Some? && antibotType.value in ANTIBOT_FLOOR then ANTIBOT_FLOOR[antibotType.value] else 0
  }

  /** `initial_tier` on a present policy: the learned tier or the vendor floor, whichever is higher. */
  function InitialTier(learned: int, antibotType: Option<string>): nat {
    Max(learned, VendorFloor(antibotType))
  }

  function NextTier(current: nat): Option<nat> {
    if current + 1 >= |LADDER| then None else Some(current + 1)
  }

  function EffectiveMaxTier(enablePremium: bool): (m: nat)
    ensures m < |LADDER|
  {
    if enablePremium then |LADDER| - 1 else FIRST_PREMIUM_TIER - 1
  }

  /** The gate separates the ladder exactly: every rung up to the ceiling is free, every rung above is premium. */
  lemma CeilingSeparatesPremium(i: nat)
    requires i < |LADDER|
    ensures i <= EffectiveMaxTier(false) <==> !IsPremium(LADDER[i])
    ensures i <= EffectiveMaxTier(true)
  {
    assert IsPremium(LADDER[3]) && !IsPremium(LADDER[2]);
    assert FIRST_PREMIUM_TIER == 3;
  }

  /**
    What the escalation table means: the three challenge reasons and every string outside the enum escalate; IP bans,
    rate limits and, unlike the ladder's comments suggest, all vendor reasons of the enum only rotate.
   */
  lemma EscalatesIff(reason: string)
    ensures IsEscalatable(Some(reason)) <==> reason in {"cloudflare", "waf", "captcha"} || reason !in BLOCK_REASONS
    ensures reason in {"ip_ban", "rate_limited", "other"} ==> !IsEscalatable(Some(reason))
    ensures reason in {"akamai", "datadome", "kasada", "perimeterx", "incapsula", "aws_waf"} ==>
              !IsEscalatable(Some(reason))
    ensures !IsEscalatable(None)
  {
    assert ESCALATABLE <= BLOCK_REASONS;
  }

  /** The ladder read by column: engine, proxy type and whether a proxy is wanted, as functions of the rung. */
  lemma RungsOfTheLadder(i: nat)
    requires i < |LADDER|
    ensures |LADDER| == 7
    ensures LADDER[i].engine == Httpx <==> i <= 1
    ensures LADDER[i].engine == CurlCffi <==> 2 <= i <= 3
    ensures LADDER[i].engine == Playwright <==> i == 4
    ensures LADDER[i].engine == Camoufox <==> 5 <= i
    ensures LADDER[i].useProxy <==> 1 <= i
    ensures LADDER[i].proxyType == None <==> i == 0
    ensures LADDER[i].proxyType == Some(Datacenter) <==> 1 <= i <= 2
    ensures LADDER[i].proxyType == Some(Residential) <==> 3 <= i <= 5
    ensures LADDER[i].proxyType == Some(Mobile) <==> i == 6
  {
    assert i in {0, 1, 2, 3, 4, 5, 6};
  }

  /** The rung a policy currently points at (tier_for), clamped to the ceiling. */
  function TierFor(learned: int, antibotType: Option<string>, enablePremium: bool): Tier {
    LADDER[Min(InitialTier(learned, antibotType), EffectiveMaxTier(enablePremium))]
  }

  /** No rung below the floor has the property, and the floor has it. */
  ghost predicate LowestWith(floor: nat, has: Tier -> bool) {
    floor < |LADDER| && has(LADDER[floor]) && forall i :: 0 <= i < floor ==> !has(LADDER[i])
  }

  /**
    A vendor's floor is the lowest rung that can pass the vendor: any proxy for AWS WAF, a browser-like TLS
    fingerprint for Cloudflare and Incapsula, a residential address for Akamai and DataDome, a real browser for Kasada
    and PerimeterX, Camoufox for the CN stacks and a mobile address for the SEA ones. Only a known vendor has a floor
    above the base rung.
   */
  lemma FloorsSuitVendors(antibotType: Option<string>)
    ensures VendorFloor(antibotType) < |LADDER|
    ensures VendorFloor(antibotType) == 0 <==>
              antibotType.None? || antibotType.value == "none" || antibotType.value !in ANTIBOT_FLOOR
    ensures ANTIBOT_FLOOR.Keys == {"cloudflare", "akamai", "datadome", "kasada", "perimeterx", "incapsula", "aws_waf",
                                   "custom_sea", "custom_cn", "none"}
    ensures antibotType == Some("aws_waf") ==> LowestWith(VendorFloor(antibotType), (t: Tier) => t.useProxy)
    ensures antibotType in {Some("cloudflare"), Some("incapsula")} ==>
              LowestWith(VendorFloor(antibotType), (t: Tier) => t.engine == CurlCffi)
    ensures antibotType in {Some("akamai"), Some("datadome")} ==>
              LowestWith(VendorFloor(antibotType), (t: Tier) => t.proxyType == Some(Residential))
    ensures antibotType in {Some("kasada"), Some("perimeterx")} ==>
              LowestWith(VendorFloor(antibotType), (t: Tier) => t.engine == Playwright)
    ensures antibotType == Some("custom_cn") ==>
              LowestWith(VendorFloor(antibotType), (t: Tier) => t.engine == Camoufox)
    ensures antibotType == Some("custom_sea") ==>
              LowestWith(VendorFloor(antibotType), (t: Tier) => t.proxyType == Some(Mobile))
  {
  }
}
