/** The regulation engine: one control step per wattmeter cycle moves the
    boiler's target power by a fixed step towards using the measured
    overflow, debounced over three calls, overlays the boost modes and
    turns the target into a PWM duty. The divisions of the router code are
    float divisions of integers; here they are exact reals. */
module Regulation {
  import opened Base

  const Frequency: int := 5
  const WaterConst: int := 4180
  const ModeOff: int := 0
  const ModeHdo: int := 1
  const ModeBoost: int := 2
  const ModeHdoBoost: int := 3
  const PwmMax: int := 1023
  const PwmOff: int := 0

  /** The configuration entries one control step reads, already converted by int(). */
  datatype RegulationConfig = RegulationConfig(
    tuvPower: int,            // in,TUV-POWER: boiler element power in watts
    tuvVolume: int,           // in,TUV-VOLUME: litres
    nightBoost: int,          // in,NIGHT-BOOST: end of the night boost, seconds after midnight
    nightTemperature: int,    // in,NIGHT-TEMPERATURE
    morningBoost: int,        // in,MORNING-BOOST: end of the morning boost
    morningTemperature: int,  // in,MORNING-TEMPERATURE
    boostMode: int,           // btn,BOOST-MODE
    boost: int)               // BOOST: manual override

  /** The size of one regulation step: the element power over the number of
      20 ms periods in 1000 ms / FREQUENCY. */
  function PowerStep(tuvPower: int): (step: real)
    ensures step == tuvPower as real / 10.0
  {
    tuvPower as real / (1000.0 / Frequency as real / 20.0)
  }

  /** The hysteresis: a quarter of one step. */
  function PowerHyst(step: real): real
  {
    step / 4.0
  }

  /** Energy needed to heat the boiler from the inlet temperature, in watt-hours. */
  function HeatEnergy(volume: int, temperature: int, inlet: int): real
  {
    (WaterConst * volume * (temperature - inlet)) as real / 3600.0
  }

  /** Seconds of full power that heat three quarters of the boiler with this energy. */
  function BoostSeconds(energy: real, tuvPower: int): real
    requires tuvPower != 0
  {
    energy * 3600.0 * 3.0 / 4.0 / tuvPower as real
  }

  /** The state of the debounced regulation: the target power and the call counter. */
  datatype Control = Control(target: real, delay: int)

  /** The debounced step: count the call; from the third call on, a sample below
      the overflow limit (exporting) resets the counter and adds a step if it
      is also beyond the hysteresis, and a sample above the hysteresis
      (importing) resets the counter and takes a step away; the target stays
      within [0, TUV-POWER] by clamping. */
  function Debounce(c: Control, power: int, step: real, hyst: real, tuvPower: int, limit: int): Control
  {
    var delay := c.delay + 1;
    if delay > 2 && power < limit then
      Control(if (power as real) < -hyst then RealMin(c.target + step, tuvPower as real) else c.target, 0)
    else if delay > 2 && power as real > hyst then
      Control(RealMax(c.target - step, 0.0), 0)
    else
      Control(c.target, delay)
  }

  function RealMin(a: real, b: real): real { if a > b then b else a }

  function RealMax(a: real, b: real): real { if a < b then b else a }

  /** get_boost_status: t lies strictly inside the night window or the morning
      window, each of which ends at its configured time. */
  function BoostActive(t: int, nightBoost: int, secNight: real, morningBoost: int, secMorning: real): bool
  {
    if nightBoost as real - secNight < t as real < nightBoost as real then true
    else if morningBoost as real - secMorning < t as real < morningBoost as real then true
    else false
  }

  /** The boost overlay, in the order the router code tests it: the boost mode
      first, then the manual override. */
  function Overlay(target: real, cfg: RegulationConfig, inWindow: bool, hdo: int): real
  {
    var full := cfg.tuvPower as real;
    var moded :=
      if cfg.boostMode == ModeBoost then (if inWindow then full else target)
      else if cfg.boostMode == ModeHdo then (if hdo != 0 then full else target)
      else if cfg.boostMode == ModeHdoBoost then (if inWindow && hdo != 0 then full else target)
      else target;
    if cfg.boost != 0 then full else moded
  }

  /** When full power is forced, stated as one condition per mode. */
  predicate Forced(cfg: RegulationConfig, inWindow: bool, hdo: int)
  {
    cfg.boost != 0
    || (cfg.boostMode == ModeBoost && inWindow)
    || (cfg.boostMode == ModeHdo && hdo != 0)
    || (cfg.boostMode == ModeHdoBoost && inWindow && hdo != 0)
  }

  /** The duty: int() of the target's share of full power times 1024, at most PWM_MAX. */
  function Duty(target: real, tuvPower: int): int
    requires tuvPower != 0
  {
    var d := Trunc(target / tuvPower as real * 1024.0);
    if d > PwmMax then PwmMax else d
  }

  /** One whole control step on the regulated pair: debounce, then overlay,
      with the boost windows of the given durations. */
  function Regulate(c: Control, hour: int, minute: int, power: int, hdo: int, cfg: RegulationConfig,
                    secNight: real, secMorning: real, limit: int): Control
  {
    var p := SignCorrect(power);
    var step := PowerStep(cfg.tuvPower);
    var d := Debounce(c, p, step, PowerHyst(step), cfg.tuvPower, limit);
    var inWindow := BoostActive(hour * 3600 + minute * 60, cfg.nightBoost, secNight, cfg.morningBoost, secMorning);
    Control(Overlay(d.target, cfg, inWindow, hdo), d.delay)
  }

  class Regulation {
    var powerHyst: real
    var powerStepCount: real
    var powerStep: real
    var targetPower: real
    var tempInput: int
    var tuvEnergyNight: real
    var tuvEnergyMorning: real
    var overflowLimit: int
    var delay: int
    var targetDuty: int
    var secNightBoost: real
    var secMorningBoost: real

    constructor()
      ensures powerHyst == 0.0 && powerStepCount == 0.0 && powerStep == 0.0 && targetPower == 0.0
      ensures tempInput == 10 && tuvEnergyNight == 0.0 && tuvEnergyMorning == 0.0
      ensures overflowLimit == -30 && delay == 0 && targetDuty == 0
      ensures secNightBoost == 0.0 && secMorningBoost == 0.0
    {
      powerHyst := 0.0;
      powerStepCount := 0.0;
      powerStep := 0.0;
      targetPower := 0.0;
      tempInput := 10;
      tuvEnergyNight := 0.0;
      tuvEnergyMorning := 0.0;
      overflowLimit := -30;
      delay := 0;
      targetDuty := 0;
      secNightBoost := 0.0;
      secMorningBoost := 0.0;
    }

    /** The pair the debounce and the overlay regulate. */
    function Current(): Control
      reads this
    {
      Control(targetPower, delay)
    }

    /** run: one control step. Returns the duty written to the PWM output, or
        ZeroDivisionError when TUV-POWER is 0 (raised computing the step count,
        after the step itself was stored). */
    method Run(hour: int, minute: int, power: int, hdo: int, cfg: RegulationConfig) returns (duty: Result<int>)
      modifies this
      ensures tempInput == old(tempInput) && overflowLimit == old(overflowLimit)
      ensures cfg.tuvPower == 0 ==>
        duty == Err(ZeroDivisionError) && powerStep == 0.0
        && powerHyst == old(powerHyst) && powerStepCount == old(powerStepCount)
        && targetPower == old(targetPower) && delay == old(delay) && targetDuty == old(targetDuty)
        && tuvEnergyNight == old(tuvEnergyNight) && tuvEnergyMorning == old(tuvEnergyMorning)
        && secNightBoost == old(secNightBoost) && secMorningBoost == old(secMorningBoost)
      ensures cfg.tuvPower != 0 ==>
        powerStep == PowerStep(cfg.tuvPower) && powerStepCount == 10.0 && powerHyst == PowerHyst(powerStep)
        && tuvEnergyNight == HeatEnergy(cfg.tuvVolume, cfg.nightTemperature, tempInput)
        && tuvEnergyMorning == HeatEnergy(cfg.tuvVolume, cfg.morningTemperature, tempInput)
        && secNightBoost == BoostSeconds(tuvEnergyNight, cfg.tuvPower)
        && secMorningBoost == secNightBoost
        && Current() == Regulate(old(Current()), hour, minute, power, hdo, cfg, secNightBoost, secMorningBoost, overflowLimit)
        && targetDuty == Duty(targetPower, cfg.tuvPower)
        && duty == Ok(targetDuty)
    {
      var p := power;
      if p > 32767 {
        p := p - 65536;
      }
      var actualTime := hour * 3600 + minute * 60;
      var tuv := cfg.tuvPower;
      powerStep := tuv as real / (1000.0 / Frequency as real / 20.0);
      if tuv == 0 {
        return Err(ZeroDivisionError);
      }
      powerStepCount := tuv as real / powerStep;
      StepCountIsTen(tuv);
      powerHyst := powerStep / 4.0;
      ComputeBoostTimes(cfg);
      Step(p, tuv);
      var inWindow := BoostActive(actualTime, cfg.nightBoost, secNightBoost, cfg.morningBoost, secMorningBoost);
      ApplyBoost(cfg, inWindow, hdo);
      ComputeDuty(tuv);
      return Ok(targetDuty);
    }

    /** The energies and durations of the two boosts; the morning duration is
        computed from the night energy. */
    method ComputeBoostTimes(cfg: RegulationConfig)
      requires cfg.tuvPower != 0
      modifies this
      ensures tuvEnergyNight == HeatEnergy(cfg.tuvVolume, cfg.nightTemperature, tempInput)
      ensures tuvEnergyMorning == HeatEnergy(cfg.tuvVolume, cfg.morningTemperature, tempInput)
      ensures secNightBoost == BoostSeconds(tuvEnergyNight, cfg.tuvPower)
      ensures secMorningBoost == secNightBoost
      ensures powerHyst == old(powerHyst) && powerStepCount == old(powerStepCount) && powerStep == old(powerStep)
      ensures targetPower == old(targetPower) && tempInput == old(tempInput) && overflowLimit == old(overflowLimit)
      ensures delay == old(delay) && targetDuty == old(targetDuty)
    {
      tuvEnergyNight := (WaterConst * cfg.tuvVolume * (cfg.nightTemperature - tempInput)) as real / 3600.0;
      secNightBoost := tuvEnergyNight * 3600.0 * 3.0 / 4.0 / cfg.tuvPower as real;
      tuvEnergyMorning := (WaterConst * cfg.tuvVolume * (cfg.morningTemperature - tempInput)) as real / 3600.0;
      secMorningBoost := tuvEnergyNight * 3600.0 * 3.0 / 4.0 / cfg.tuvPower as real;
    }

    /** The debounced regulation step on the sign-corrected sample. */
    method Step(p: int, tuv: int)
      modifies this
      ensures Current() == Debounce(old(Current()), p, powerStep, powerHyst, tuv, overflowLimit)
      ensures powerHyst == old(powerHyst) && powerStepCount == old(powerStepCount) && powerStep == old(powerStep)
      ensures tuvEnergyNight == old(tuvEnergyNight) && tuvEnergyMorning == old(tuvEnergyMorning)
      ensures secNightBoost == old(secNightBoost) && secMorningBoost == old(secMorningBoost)
      ensures tempInput == old(tempInput) && overflowLimit == old(overflowLimit) && targetDuty == old(targetDuty)
    {
      delay := delay + 1;
      if delay > 2 {
        if p < overflowLimit {
          delay := 0;
          if (p as real) < -powerHyst {
            targetPower := targetPower + powerStep;
            if targetPower > tuv as real {
              targetPower := tuv as real;
            }
          }
        } else if p as real > powerHyst {
          delay := 0;
          targetPower := targetPower - powerStep;
          if targetPower < 0.0 {
            targetPower := 0.0;
          }
        }
      }
    }

    /** The boost modes, then the manual override. */
    method ApplyBoost(cfg: RegulationConfig, inWindow: bool, hdo: int)
      modifies this
      ensures targetPower == Overlay(old(targetPower), cfg, inWindow, hdo)
      ensures powerHyst == old(powerHyst) && powerStepCount == old(powerStepCount) && powerStep == old(powerStep)
      ensures tuvEnergyNight == old(tuvEnergyNight) && tuvEnergyMorning == old(tuvEnergyMorning)
      ensures secNightBoost == old(secNightBoost) && secMorningBoost == old(secMorningBoost)
      ensures tempInput == old(tempInput) && overflowLimit == old(overflowLimit)
      ensures delay == old(delay) && targetDuty == old(targetDuty)
    {
      var tuv := cfg.tuvPower;
      if cfg.boostMode == ModeBoost {
        if inWindow {
          targetPower := tuv as real;
        }
      } else if cfg.boostMode == ModeHdo {
        if hdo != 0 {
          targetPower := tuv as real;
        }
      } else if cfg.boostMode == ModeHdoBoost {
        if inWindow && hdo != 0 {
          targetPower := tuv as real;
        }
      }
      if cfg.boost != 0 {
        targetPower := tuv as real;
      }
    }

    /** The duty for the current target. */
    method ComputeDuty(tuv: int)
      requires tuv != 0
      modifies this
      ensures targetDuty == Duty(targetPower, tuv)
      ensures powerHyst == old(powerHyst) && powerStepCount == old(powerStepCount) && powerStep == old(powerStep)
      ensures tuvEnergyNight == old(tuvEnergyNight) && tuvEnergyMorning == old(tuvEnergyMorning)
      ensures secNightBoost == old(secNightBoost) && secMorningBoost == old(secMorningBoost)
      ensures tempInput == old(tempInput) && overflowLimit == old(overflowLimit)
      ensures targetPower == old(targetPower) && delay == old(delay)
    {
      targetDuty := Trunc(targetPower / tuv as real * 1024.0);
      if targetDuty > PwmMax {
        targetDuty := PwmMax;
      }
    }
  }

  // ---------------------------------------------------------------------------
  // Properties of one control step

  /** The hysteresis is a fortieth of the element power. */
  lemma {:induction false} HystIsFortieth(tuvPower: int)
    ensures PowerHyst(PowerStep(tuvPower)) == tuvPower as real / 40.0
    ensures tuvPower > 0 ==> 0.0 < PowerHyst(PowerStep(tuvPower)) < PowerStep(tuvPower)
  {
  }

  /** TUV-POWER divided by its own step is always the ten steps of full power. */
  lemma {:induction false} StepCountIsTen(tuvPower: int)
    requires tuvPower != 0
    ensures tuvPower as real / PowerStep(tuvPower) == 10.0
  {
    var t := tuvPower as real;
    assert PowerStep(tuvPower) * 10.0 == t;
  }

  /** The counter is reset exactly when a step is considered: from the third
      call on, with the sample beyond one of the two thresholds; otherwise it grows. */
  lemma {:induction false} DebounceCounter(c: Control, power: int, step: real, hyst: real, tuvPower: int, limit: int)
    requires c.delay >= 0
    ensures var r := Debounce(c, power, step, hyst, tuvPower, limit);
      (r.delay == 0 <==> c.delay + 1 > 2 && (power < limit || power as real > hyst))
      && (r.delay != 0 ==> r.delay == c.delay + 1 && r.target == c.target)
  {
  }

  /** The target only grows on an exporting sample beyond the hysteresis and
      only shrinks on an importing one, and never before the third call. */
  lemma {:induction false} DebounceDirection(c: Control, power: int, step: real, hyst: real, tuvPower: int, limit: int)
    requires step >= 0.0 && 0.0 <= c.target <= tuvPower as real
    ensures var r := Debounce(c, power, step, hyst, tuvPower, limit);
      (r.target > c.target ==> c.delay + 1 > 2 && power < limit && power as real < -hyst)
      && (r.target < c.target ==> c.delay + 1 > 2 && power >= limit && power as real > hyst)
  {
  }

  /** After a reset, the next two calls take no step whatever the samples. */
  lemma {:induction false} QuietAfterReset(c: Control, p1: int, p2: int, step: real, hyst: real, tuvPower: int, limit: int)
    requires c.delay == 0
    ensures Debounce(Debounce(c, p1, step, hyst, tuvPower, limit), p2, step, hyst, tuvPower, limit) == Control(c.target, 2)
  {
  }

  /** The step on an exporting sample beyond the hysteresis: one step up, clamped at full power. */
  lemma {:induction false} DebounceAdds(c: Control, power: int, step: real, hyst: real, tuvPower: int, limit: int)
    requires c.delay >= 2 && power < limit && power as real < -hyst
    requires 0.0 <= step && c.target + step <= tuvPower as real
    ensures Debounce(c, power, step, hyst, tuvPower, limit) == Control(c.target + step, 0)
  {
  }

  /** The step on an importing sample beyond the hysteresis: one step down, clamped at 0. */
  lemma {:induction false} DebounceSubtracts(c: Control, power: int, step: real, hyst: real, tuvPower: int, limit: int)
    requires c.delay >= 2 && power >= limit && power as real > hyst
    ensures Debounce(c, power, step, hyst, tuvPower, limit) == Control(RealMax(c.target - step, 0.0), 0)
  {
  }

  /** The debounce keeps the target within [0, TUV-POWER]. */
  lemma {:induction false} DebounceInRange(c: Control, power: int, step: real, hyst: real, tuvPower: int, limit: int)
    requires step >= 0.0 && 0.0 <= c.target <= tuvPower as real
    ensures 0.0 <= Debounce(c, power, step, hyst, tuvPower, limit).target <= tuvPower as real
  {
  }

  /** The overlay gives full power exactly when a mode or the override forces
      it, and leaves the debounced target otherwise. */
  lemma {:induction false} OverlayForces(target: real, cfg: RegulationConfig, inWindow: bool, hdo: int)
    ensures Forced(cfg, inWindow, hdo) ==> Overlay(target, cfg, inWindow, hdo) == cfg.tuvPower as real
    ensures !Forced(cfg, inWindow, hdo) ==> Overlay(target, cfg, inWindow, hdo) == target
  {
  }

  /** Mode 0 and unknown modes leave the target to the regulation unless BOOST is set. */
  lemma {:induction false} OffModeLeavesTarget(target: real, cfg: RegulationConfig, inWindow: bool, hdo: int)
    requires cfg.boostMode !in {ModeBoost, ModeHdo, ModeHdoBoost} && cfg.boost == 0
    ensures Overlay(target, cfg, inWindow, hdo) == target
  {
  }

  /** With the configuration fixed and TUV-POWER positive, every control step
      keeps 0 <= target_power <= TUV-POWER. */
  lemma {:induction false} RegulateInRange(c: Control, hour: int, minute: int, power: int, hdo: int,
                                           cfg: RegulationConfig, secNight: real, secMorning: real, limit: int)
    requires cfg.tuvPower > 0 && 0.0 <= c.target <= cfg.tuvPower as real
    ensures var r := Regulate(c, hour, minute, power, hdo, cfg, secNight, secMorning, limit);
      0.0 <= r.target <= cfg.tuvPower as real
  {
    var p := SignCorrect(power);
    var step := PowerStep(cfg.tuvPower);
    DebounceInRange(c, p, step, PowerHyst(step), cfg.tuvPower, limit);
  }

  /** The duty of a target in range lies in [0, PWM_MAX]. */
  lemma {:induction false} DutyBounds(target: real, tuvPower: int)
    requires tuvPower > 0 && 0.0 <= target <= tuvPower as real
    ensures PwmOff <= Duty(target, tuvPower) <= PwmMax
  {
    var x := target / tuvPower as real * 1024.0;
    assert 0.0 <= target / tuvPower as real;
    assert 0.0 <= x;
  }

  /** No power gives duty 0; full power gives PWM_MAX (1024 clamped to 1023). */
  lemma {:induction false} DutyEnds(tuvPower: int)
    requires tuvPower > 0
    ensures Duty(0.0, tuvPower) == PwmOff
    ensures Duty(tuvPower as real, tuvPower) == PwmMax
  {
    assert 0.0 / tuvPower as real * 1024.0 == 0.0;
    assert tuvPower as real / tuvPower as real * 1024.0 == 1024.0;
  }

  /** The duty never decreases as the target grows. */
  lemma {:induction false} DutyMonotone(a: real, b: real, tuvPower: int)
    requires tuvPower > 0 && a <= b
    ensures Duty(a, tuvPower) <= Duty(b, tuvPower)
  {
    var t := tuvPower as real;
    ShareMonotone(a, b, t);
    TruncMonotone(a / t * 1024.0, b / t * 1024.0);
  }

  lemma {:induction false} ShareMonotone(a: real, b: real, t: real)
    requires t > 0.0 && a <= b
    ensures a / t * 1024.0 <= b / t * 1024.0
  {
    assert b / t - a / t == (b - a) / t;
    assert (b - a) / t >= 0.0;
  }

  lemma {:induction false} TruncMonotone(x: real, y: real)
    requires x <= y
    ensures Trunc(x) <= Trunc(y)
  {
    if x >= 0.0 {
      assert x.Floor <= y.Floor;
    } else if y < 0.0 {
      assert (-y).Floor <= (-x).Floor;
    }
  }

  /** A window of non-positive length holds no instant: with the night
      duration non-positive only the morning window can activate the boost,
      with the morning one non-positive only the night window, and with both
      no boost is ever active. */
  lemma {:induction false} EmptyBoostWindows(t: int, nightBoost: int, secNight: real, morningBoost: int, secMorning: real)
    ensures secNight <= 0.0 ==>
      (BoostActive(t, nightBoost, secNight, morningBoost, secMorning)
       <==> morningBoost as real - secMorning < t as real < morningBoost as real)
    ensures secMorning <= 0.0 ==>
      (BoostActive(t, nightBoost, secNight, morningBoost, secMorning)
       <==> nightBoost as real - secNight < t as real < nightBoost as real)
    ensures secNight <= 0.0 && secMorning <= 0.0 ==> !BoostActive(t, nightBoost, secNight, morningBoost, secMorning)
  {
  }

  /** Longer boost durations only widen the windows: an instant inside a
      window stays inside when either duration grows. A window's end instant
      is not inside that window, so it is in boost only when the other
      window holds it. */
  lemma {:induction false} BoostWindowsGrow(t: int, nightBoost: int, secNight: real, longerNight: real,
                                            morningBoost: int, secMorning: real, longerMorning: real)
    requires secNight <= longerNight && secMorning <= longerMorning
    ensures BoostActive(t, nightBoost, secNight, morningBoost, secMorning)
      ==> BoostActive(t, nightBoost, longerNight, morningBoost, longerMorning)
    ensures t == nightBoost ==>
      (BoostActive(t, nightBoost, secNight, morningBoost, secMorning)
       <==> morningBoost as real - secMorning < t as real < morningBoost as real)
    ensures t == morningBoost ==>
      (BoostActive(t, nightBoost, secNight, morningBoost, secMorning)
       <==> nightBoost as real - secNight < t as real < nightBoost as real)
  {
  }

  /** The night boost duration in closed form: 4180 * V * (T_night - inlet) * 3 / (4 * P).
      For instance a 2000 W element heating 100 l from 10 to 55 degrees needs
      4180*100*45*3/(4*2000) = 7053.75 seconds of night boost. */
  lemma {:induction false} NightBoostClosedForm(volume: int, temperature: int, inlet: int, tuvPower: int)
    requires tuvPower != 0
    ensures BoostSeconds(HeatEnergy(volume, temperature, inlet), tuvPower)
      == (WaterConst * volume * (temperature - inlet) * 3) as real / (4 * tuvPower) as real
  {
    var e := (WaterConst * volume * (temperature - inlet)) as real;
    var p := tuvPower as real;
    calc {
      BoostSeconds(HeatEnergy(volume, temperature, inlet), tuvPower);
      e / 3600.0 * 3600.0 * 3.0 / 4.0 / p;
      { assert e / 3600.0 * 3600.0 == e; }
      e * 3.0 / 4.0 / p;
      (e * 3.0) / (4.0 * p);
    }
  }
}
