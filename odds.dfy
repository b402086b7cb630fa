/** The odds shown on the option buttons before anything is rolled
    (DeathUI.calculateProbabilitiesForActor in scripts/ui.js). */
module Odds {
  import opened Values
  import opened Outcome
  import opened World

  /** Math.round(num / den * 100): the integer nearest to 100 * num / den, halves
      rounded up. */
  function RoundedPercent(num: nat, den: nat): (r: nat)
    requires den > 0
    ensures den * (2 * r) <= 200 * num + den < den * (2 * r + 2)
  {
    (200 * num + den) / (2 * den)
  }

  /** The number of d12 faces that lead to a Scar: clamp(level - bonus, 0, 12). */
  function ScarCount(level: int, hasPhoenix: bool): (c: int)
    ensures 0 <= c <= 12
  {
    Clamp(level - Bonus(hasPhoenix), 0, 12)
  }

  function AvoidPercent(level: int, hasPhoenix: bool): (p: nat)
  {
    RoundedPercent(ScarCount(level, hasPhoenix), 12)
  }

  /** The displayed percentage is the share of d12 faces that the roll rule
      classifies as Scar. */
  lemma AvoidPercentIsScarShare(level: int, hasPhoenix: bool)
    ensures AvoidPercent(level, hasPhoenix) == RoundedPercent(ScarFaces(12, hasPhoenix, level), 12)
  {
    ScarFacesOfD12(hasPhoenix, level);
  }

  /** The thirteen values the Avoid percentage can take. */
  lemma {:induction false} PercentOfTwelfths(c: nat)
    requires c <= 12
    ensures RoundedPercent(c, 12) == [0, 8, 17, 25, 33, 42, 50, 58, 67, 75, 83, 92, 100][c]
  {
  }

  lemma AvoidPercentRange(level: int, hasPhoenix: bool)
    ensures 0 <= AvoidPercent(level, hasPhoenix) <= 100
    ensures AvoidPercent(level, hasPhoenix) == 0 <==> level - Bonus(hasPhoenix) <= 0
    ensures AvoidPercent(level, hasPhoenix) == 100 <==> level - Bonus(hasPhoenix) >= 12
  {
  }

  lemma RoundedPercentMonotone(a: nat, b: nat, den: nat)
    requires den > 0 && a <= b
    ensures RoundedPercent(a, den) <= RoundedPercent(b, den)
  {
  }

  /** A higher level never lowers the displayed Scar chance. */
  lemma AvoidPercentMonotone(level: int, level': int, hasPhoenix: bool)
    requires level <= level'
    ensures AvoidPercent(level, hasPhoenix) <= AvoidPercent(level', hasPhoenix)
  {
    RoundedPercentMonotone(ScarCount(level, hasPhoenix), ScarCount(level', hasPhoenix), 12);
  }

  /** Holding the Phoenix item never raises the displayed Scar chance. */
  lemma PhoenixNeverRaises(level: int)
    ensures AvoidPercent(level, true) <= AvoidPercent(level, false)
  {
    RoundedPercentMonotone(ScarCount(level, true), ScarCount(level, false), 12);
  }

  function Digit(d: nat): (c: char)
    requires d < 10
    ensures '0' <= c <= '9' && c as int - '0' as int == d
  {
    ('0' as int + d) as char
  }

  /** A number as a template literal writes it, for non-negative integers. */
  function NatToString(n: nat): (s: string)
    ensures |s| >= 1
    ensures forall i :: 0 <= i < |s| ==> '0' <= s[i] <= '9'
    decreases n
  {
    if n < 10 then [Digit(n)] else NatToString(n / 10) + [Digit(n % 10)]
  }

  /** Reading decimal digits back. */
  function ParseDigits(s: string): nat
    requires forall i :: 0 <= i < |s| ==> '0' <= s[i] <= '9'
  {
    if s == [] then 0
    else 10 * ParseDigits(s[..|s| - 1]) + (s[|s| - 1] as int - '0' as int)
  }

  lemma {:induction false} NatToStringRoundTrip(n: nat)
    ensures ParseDigits(NatToString(n)) == n
    decreases n
  {
    if n >= 10 {
      NatToStringRoundTrip(n / 10);
      var s := NatToString(n);
      assert s[..|s| - 1] == NatToString(n / 10);
    }
  }

  /** The shown text of Risk It All, fixed in the source. */
  const RISK_ODDS_TEXT: string := "LIFE: 54% | DEATH: 46%"

  /** The shares, rounded to whole percent, of the pairs with a Hope face in
      1..m and a Fear face in 1..12 that end in "life" (Hope or Critical) and
      in "death" (Fear). */
  function LifePercent(m: nat): nat
    requires m > 0
  {
    RoundedPercent(PairsWith(Hope, m) + PairsWith(Critical, m), 12 * m)
  }

  function DeathPercent(m: nat): nat
    requires m > 0
  {
    RoundedPercent(PairsWith(Fear, m), 12 * m)
  }

  /** Over two d12, the Risk It All rule gives 54% of pairs to "life" and 46%
      to "death". */
  lemma RiskPercents()
    ensures LifePercent(12) == 54 && DeathPercent(12) == 46
  {
    LifePairs();
    DeathPairs();
    PercentsOfPairs(78, 66);
  }

  /** 78 of the 144 pairs end in "life" and 66 in "death". */
  lemma LifePairs()
    ensures LifePercent(12) == RoundedPercent(78, 144)
  {
    RiskPairCounts();
  }

  lemma DeathPairs()
    ensures DeathPercent(12) == RoundedPercent(66, 144)
  {
    RiskPairCounts();
  }

  lemma PercentsOfPairs(life: nat, death: nat)
    requires life == 78 && death == 66
    ensures RoundedPercent(life, 144) == 54 && RoundedPercent(death, 144) == 46
  {
  }

  /** The Risk It All line rendered from its two percentages. */
  function RiskOddsText(lifePercent: nat, deathPercent: nat): string
  {
    "LIFE: " + NatToString(lifePercent) + "% | DEATH: " + NatToString(deathPercent) + "%"
  }

  /** The fixed text is the one the Risk It All rule renders to. */
  lemma RiskOddsTextMatchesRule()
    ensures RISK_ODDS_TEXT == RiskOddsText(LifePercent(12), DeathPercent(12))
  {
    RiskPercents();
    RenderedOdds();
  }

  lemma RenderedOdds()
    ensures RISK_ODDS_TEXT == RiskOddsText(54, 46)
  {
    OddsDigits();
  }

  lemma OddsDigits()
    ensures NatToString(54) == "54" && NatToString(46) == "46"
  {
    TwoDigits(54);
    TwoDigits(46);
  }

  /** A two-digit number is written as its tens digit and its units digit. */
  lemma TwoDigits(n: nat)
    requires 10 <= n < 100
    ensures NatToString(n) == [Digit(n / 10), Digit(n % 10)]
  {
  }

  /** The three probability lines of the option buttons. */
  datatype Probs = Probs(avoid: string, blaze: string, risk: string)

  const SCAR_LABEL_KEY: string := "DEATH_OPTIONS.UI.Avoid.ScarLabel"
  const DEATH_LABEL_KEY: string := "DEATH_OPTIONS.UI.Blaze.DeathLabel"

  /** The badge appended under the Scar chance when the Phoenix item is held:
      an inline-styled div holding a feather, the item's name and "(+1)". The
      style attribute is abbreviated to "badge". */
  function PhoenixBadge(name: string): string {
    "<div style=\"badge\">\U{1FAB6} " + name + " (+1)</div>"
  }

  function LevelOf(a: Actor): int {
    LevelOrZero(a.level)
  }

  /** calculateProbabilitiesForActor(actor). */
  function CalculateProbabilities(env: Env, actor: Option<Actor>): (r: Option<Probs>)
    ensures r.None? <==> !env.config.showProbabilities
    ensures r.Some? ==> r.value.blaze == Localize(env, DEATH_LABEL_KEY) + ": 100%"
    ensures r.Some? ==> r.value.risk == RISK_ODDS_TEXT
    ensures r.Some? && actor.None? ==> r.value.avoid == Localize(env, SCAR_LABEL_KEY) + ": ?"
    ensures r.Some? && actor.Some? ==>
      var has := HasPhoenix(actor, env.config.phoenixItemName);
      r.value.avoid == Localize(env, SCAR_LABEL_KEY) + ": "
        + NatToString(AvoidPercent(LevelOf(actor.value), has)) + "%"
        + (if has then PhoenixBadge(env.config.phoenixItemName) else "")
  {
    if !env.config.showProbabilities then None
    else
      var scarLabel := Localize(env, SCAR_LABEL_KEY);
      var phoenixName := env.config.phoenixItemName;
      var hasPhoenix := HasPhoenix(actor, phoenixName);
      var avoid :=
        if actor.Some? then
          var percent := AvoidPercent(LevelOf(actor.value), hasPhoenix);
          scarLabel + ": " + NatToString(percent) + "%"
          + (if hasPhoenix then PhoenixBadge(phoenixName) else "")
        else scarLabel + ": ?";
      Some(Probs(avoid, Localize(env, DEATH_LABEL_KEY) + ": 100%", RISK_ODDS_TEXT))
  }

  /** Every line that is computed is non-empty, so every button shows it. */
  lemma ProbsNonEmpty(env: Env, actor: Option<Actor>)
    requires env.config.showProbabilities
    ensures var p := CalculateProbabilities(env, actor).value;
      p.avoid != "" && p.blaze != "" && p.risk != ""
  {
    var p := CalculateProbabilities(env, actor).value;
    assert |p.blaze| >= 2;
    assert |p.avoid| >= 2;
  }
}
