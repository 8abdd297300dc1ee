/** The heads-up display of UIManager.js: the health bar (width and colour band), the kill
    counter text and the death and pause screens. The DOM elements are modelled as the
    values last written to them. */
module Hud {
  /** The three background colours the health bar can take. */
  datatype Colour = Green | Yellow | Red

  /** How bad a colour looks: higher is worse. */
  function Severity(c: Colour): nat
  {
    match c
    case Green => 0
    case Yellow => 1
    case Red => 2
  }

  /** The bar width, as a percentage of the maximum health. */
  function HealthPercent(health: real, maxHealth: real): (p: real)
    requires maxHealth > 0.0
    ensures p * maxHealth == health * 100.0
  {
    health / maxHealth * 100.0
  }

  /** The colour band chosen for a percentage. */
  function BandOf(percent: real): Colour
  {
    if percent > 60.0 then Green
    else if percent > 30.0 then Yellow
    else Red
  }

  /** Exactly one band applies to every percentage, negative ones included. */
  lemma BandsPartition(percent: real)
    ensures BandOf(percent) == Green <==> percent > 60.0
    ensures BandOf(percent) == Yellow <==> 30.0 < percent <= 60.0
    ensures BandOf(percent) == Red <==> percent <= 30.0
  {
  }

  lemma PercentMonotone(h1: real, h2: real, maxHealth: real)
    requires maxHealth > 0.0 && h1 <= h2
    ensures HealthPercent(h1, maxHealth) <= HealthPercent(h2, maxHealth)
  {
    assert (h2 - h1) / maxHealth >= 0.0;
    assert h2 / maxHealth - h1 / maxHealth == (h2 - h1) / maxHealth;
  }

  /** Losing health never makes the bar look better. */
  lemma {:induction false} BandMonotone(h1: real, h2: real, maxHealth: real)
    requires maxHealth > 0.0 && h1 <= h2
    ensures Severity(BandOf(HealthPercent(h2, maxHealth))) <= Severity(BandOf(HealthPercent(h1, maxHealth)))
  {
    PercentMonotone(h1, h2, maxHealth);
  }

  /** With the player's maximum health of 5 the bands are, in health points: green above 3,
      yellow above 1.5 up to 3, red at 1.5 and below. */
  lemma BandsOfFivePoints(health: real)
    ensures BandOf(HealthPercent(health, 5.0)) == Green <==> health > 3.0
    ensures BandOf(HealthPercent(health, 5.0)) == Yellow <==> 1.5 < health <= 3.0
    ensures BandOf(HealthPercent(health, 5.0)) == Red <==> health <= 1.5
  {
    assert HealthPercent(health, 5.0) == health * 20.0;
  }

  function DigitChar(d: nat): char
    requires d < 10
  {
    (('0' as int) + d) as char
  }

  predicate IsDigit(c: char) { '0' as int <= c as int <= '9' as int }

  /** How JavaScript renders a non-negative integer below 10^21 inside a template
      literal: its decimal digits, most significant first, without leading zeros. */
  function DecimalString(n: nat): (s: string)
    ensures |s| >= 1
    ensures forall i :: 0 <= i < |s| ==> IsDigit(s[i])
    ensures s[0] == '0' ==> n == 0
    decreases n
  {
    if n < 10 then [DigitChar(n)] else DecimalString(n / 10) + [DigitChar(n % 10)]
  }

  /** Reads a string of decimal digits back as a number. */
  function ParseDecimal(s: string): nat
    requires forall i :: 0 <= i < |s| ==> IsDigit(s[i])
  {
    if s == [] then 0
    else
      assert IsDigit(s[|s| - 1]);
      ParseDecimal(s[..|s| - 1]) * 10 + (s[|s| - 1] as int - '0' as int)
  }

  /** The rendered digits denote the number they were rendered from. */
  lemma {:induction false} DecimalRoundTrip(n: nat)
    ensures ParseDecimal(DecimalString(n)) == n
    decreases n
  {
    var s := DecimalString(n);
    if n >= 10 {
      DecimalRoundTrip(n / 10);
      assert s[..|s| - 1] == DecimalString(n / 10);
    }
  }

  const CounterPrefix := "Zombies: "

  /** The kill counter's text content. */
  function CounterText(killed: nat): string
  {
    CounterPrefix + DecimalString(killed)
  }

  /** The counter text is the fixed prefix followed by digits that read back as the kill
      count, so two different counts never show the same text. */
  lemma {:induction false} CounterTextReadsBack(killed: nat)
    ensures |CounterText(killed)| > |CounterPrefix|
    ensures CounterText(killed)[..|CounterPrefix|] == CounterPrefix
    ensures forall i :: |CounterPrefix| <= i < |CounterText(killed)| ==> IsDigit(CounterText(killed)[i])
    ensures ParseDecimal(CounterText(killed)[|CounterPrefix|..]) == killed
  {
    assert CounterText(killed)[|CounterPrefix|..] == DecimalString(killed);
    DecimalRoundTrip(killed);
  }

  lemma CounterTextInjective(a: nat, b: nat)
    requires CounterText(a) == CounterText(b)
    ensures a == b
  {
    CounterTextReadsBack(a);
    CounterTextReadsBack(b);
  }

  /** The values UIManager last wrote to the DOM. */
  class UIManager {
    var barWidth: real        // healthBar.style.width, as a percentage
    var barColour: Colour     // healthBar.style.backgroundColor
    var counterText: string   // zombieCounter.textContent
    var deathShown: bool      // deathScreen.style.display == 'flex'
    var pauseShown: bool      // pauseScreen.style.display == 'flex'

    /** The bar shows the given health. */
    ghost predicate ShowsHealth(health: real, maxHealth: real)
      requires maxHealth > 0.0
      reads this
    {
      barWidth == HealthPercent(health, maxHealth) && barColour == BandOf(barWidth)
    }

    /** createHealthBar and createZombieCounter both derive their first contents. The menu
        screens are only looked up, not written: that both start hidden is assumed of the
        page. */
    constructor (health: real, maxHealth: real, killed: nat)
      requires maxHealth > 0.0
      ensures ShowsHealth(health, maxHealth) && counterText == CounterText(killed)
      ensures !deathShown && !pauseShown
    {
      var percent := health / maxHealth * 100.0;
      barWidth := percent;
      barColour := if percent > 60.0 then Green else if percent > 30.0 then Yellow else Red;
      counterText := CounterPrefix + DecimalString(killed);
      deathShown, pauseShown := false, false;
    }

    method UpdateHealthBar(health: real, maxHealth: real)
      requires maxHealth > 0.0
      modifies this
      ensures ShowsHealth(health, maxHealth)
      ensures counterText == old(counterText) && deathShown == old(deathShown) && pauseShown == old(pauseShown)
    {
      var percent := health / maxHealth * 100.0;
      barWidth := percent;
      if percent > 60.0 {
        barColour := Green;
      } else if percent > 30.0 {
        barColour := Yellow;
      } else {
        barColour := Red;
      }
    }

    method UpdateZombieCounter(killed: nat)
      modifies this
      ensures counterText == CounterText(killed)
      ensures barWidth == old(barWidth) && barColour == old(barColour)
      ensures deathShown == old(deathShown) && pauseShown == old(pauseShown)
    {
      counterText := CounterPrefix + DecimalString(killed);
    }

    method ShowDeathScreen()
      modifies this
      ensures deathShown
      ensures barWidth == old(barWidth) && barColour == old(barColour)
      ensures counterText == old(counterText) && pauseShown == old(pauseShown)
    {
      deathShown := true;
    }

    method TogglePauseScreen(show: bool)
      modifies this
      ensures pauseShown == show
      ensures barWidth == old(barWidth) && barColour == old(barColour)
      ensures counterText == old(counterText) && deathShown == old(deathShown)
    {
      pauseShown := show;
    }

    /** Hides the death screen and re-derives the bar and the counter from the current
        health and kill count. */
    method Reset(health: real, maxHealth: real, killed: nat)
      requires maxHealth > 0.0
      modifies this
      ensures !deathShown && ShowsHealth(health, maxHealth) && counterText == CounterText(killed)
      ensures pauseShown == old(pauseShown)
    {
      deathShown := false;
      UpdateHealthBar(health, maxHealth);
      UpdateZombieCounter(killed);
    }
  }
}
