/**
 * The particle-count state machine of the weather overlay (ParticelSystem.ts). Particles are opaque
 * records tagged with their effect type; their positions, motion and drawing are not modelled.
 * The device tier and the battery level are inputs; the animation-frame handle that starting the
 * animation obtains is a parameter.
 */
module Particles {
  import opened Wrappers
  import opened Seqs

  /** A particle, reduced to its type tag. */
  datatype Particle = Particle(kind: string)

  /** The effect types that create particles. */
  predicate IsKnown(kind: string)
  {
    kind == "rain" || kind == "snow" || kind == "mist"
  }

  /** The per-type base count at full device performance. */
  function Base(kind: string): nat
  {
    if kind == "rain" then 300 else if kind == "snow" then 150 else if kind == "mist" then 50 else 0
  }

  /** The device factor: 1 for a 'high' tier, 0.7 for 'medium', 0.3 for any other tier. */
  function DeviceFactor(tier: string): (f: real)
    ensures 0.0 < f <= 1.0
    ensures tier == "high" ==> f == 1.0
    ensures tier == "medium" ==> f == 0.7
    ensures tier != "high" && tier != "medium" ==> f == 0.3
  {
    if tier == "high" then 1.0 else if tier == "medium" then 0.7 else 0.3
  }

  /** getBaseParticleCount: floor(base · device factor); an unknown type gets no particles. */
  function BaseCount(tier: string, kind: string): (n: nat)
    ensures IsKnown(kind) ==> 0 < n <= Base(kind)
    ensures !IsKnown(kind) ==> n == 0
    ensures kind == "rain" ==> n == (if tier == "high" then 300 else if tier == "medium" then 210 else 90)
    ensures kind == "snow" ==> n == (if tier == "high" then 150 else if tier == "medium" then 105 else 45)
    ensures kind == "mist" ==> n == (if tier == "high" then 50 else if tier == "medium" then 35 else 15)
  {
    var x := (Base(kind) as real) * DeviceFactor(tier);
    assert 0.0 <= x;
    x.Floor
  }

  /** The battery factor: 0.5 below 30 %, 0.75 below 50 %, otherwise 1. */
  function BatteryFactor(level: real): (f: real)
    ensures level < 0.3 ==> f == 0.5
    ensures 0.3 <= level < 0.5 ==> f == 0.75
    ensures 0.5 <= level ==> f == 1.0
  {
    if level < 0.3 then 0.5 else if level < 0.5 then 0.75 else 1.0
  }

  /** The battery-adjusted count: floor(base count · battery factor). */
  function TargetCount(tier: string, kind: string, level: real): (n: nat)
    ensures n <= BaseCount(tier, kind)
    ensures level >= 0.5 ==> n == BaseCount(tier, kind)
  {
    var x := (BaseCount(tier, kind) as real) * BatteryFactor(level);
    assert 0.0 <= x <= BaseCount(tier, kind) as real;
    x.Floor
  }

  /** A fuller battery never yields fewer particles. */
  lemma TargetMonotone(tier: string, kind: string, low: real, high: real)
    requires low <= high
    ensures TargetCount(tier, kind, low) <= TargetCount(tier, kind, high)
  {
    var b := BaseCount(tier, kind) as real;
    assert BatteryFactor(low) <= BatteryFactor(high);
    assert b * BatteryFactor(low) <= b * BatteryFactor(high);
  }

  /** The particle overlay. */
  class ParticleSystem {
    /** `deviceCapabilities.performanceTier`, fixed at construction. */
    const tier: string
    var particles: seq<Particle>
    var isActive: bool
    var currentEffect: Option<string>
    var animationFrame: Option<nat>

    /** JavaScript truthiness of `currentEffect`: set and not the empty string. */
    predicate HasEffect()
      reads this
    {
      currentEffect.Some? && currentEffect.value != ""
    }

    /** Every particle belongs to the current effect, which is a particle-creating type. */
    predicate Valid()
      reads this
    {
      forall i :: 0 <= i < |particles| ==> currentEffect == Some(particles[i].kind) && IsKnown(particles[i].kind)
    }

    /** A particle-less effect type never has particles. */
    lemma OnlyKnownParticles()
      requires Valid() && currentEffect.Some?
      ensures !IsKnown(currentEffect.value) ==> particles == []
    {
      if |particles| > 0 {
        assert currentEffect == Some(particles[0].kind);
      }
    }

    constructor (tier: string)
      ensures this.tier == tier && Valid()
      ensures particles == [] && !isActive && currentEffect == None && animationFrame == None
    {
      this.tier := tier;
      particles := [];
      isActive := false;
      currentEffect := None;
      animationFrame := None;
    }

    /** create{Rain,Snow,Mist}Particles: push `count` particles of one type. */
    method CreateParticles(kind: string, count: nat)
      modifies this
      ensures particles == old(particles) + Repeat(Particle(kind), count)
      ensures isActive == old(isActive) && currentEffect == old(currentEffect) && animationFrame == old(animationFrame)
    {
      var i := 0;
      while i < count
        invariant 0 <= i <= count
        invariant particles == old(particles) + Repeat(Particle(kind), i)
        invariant isActive == old(isActive) && currentEffect == old(currentEffect) && animationFrame == old(animationFrame)
      {
        RepeatAdd(Particle(kind), i, 1);
        particles := particles + [Particle(kind)];
        i := i + 1;
      }
    }

    /** addParticles: creates particles for the three known types and ignores any other type. */
    method AddParticles(kind: string, count: nat)
      modifies this
      ensures particles == old(particles) + (if IsKnown(kind) then Repeat(Particle(kind), count) else [])
      ensures isActive == old(isActive) && currentEffect == old(currentEffect) && animationFrame == old(animationFrame)
    {
      if kind == "rain" || kind == "snow" || kind == "mist" {
        CreateParticles(kind, count);
      }
    }

    /** start: does nothing when already active; otherwise activates and requests the next frame. */
    method Start(frame: nat)
      modifies this
      ensures old(isActive) ==> isActive && animationFrame == old(animationFrame)
      ensures !old(isActive) ==> isActive && animationFrame == Some(frame)
      ensures particles == old(particles) && currentEffect == old(currentEffect)
    {
      if isActive {
        return;
      }
      isActive := true;
      animationFrame := Some(frame);
    }

    /** stop: always inactive afterwards; a pending (non-zero) frame handle is cancelled and cleared. */
    method Stop()
      modifies this
      ensures !isActive
      ensures animationFrame == (if old(animationFrame).Some? && old(animationFrame).value != 0 then None else old(animationFrame))
      ensures particles == old(particles) && currentEffect == old(currentEffect)
    {
      isActive := false;
      if animationFrame.Some? && animationFrame.value != 0 {
        animationFrame := None;
      }
    }

    /** clearEffects: inactive, no particles, no effect. */
    method ClearEffects()
      modifies this
      ensures !isActive && particles == [] && currentEffect == None && Valid()
      ensures animationFrame == (if old(animationFrame).Some? && old(animationFrame).value != 0 then None else old(animationFrame))
    {
      Stop();
      particles := [];
      currentEffect := None;
    }

    /**
     * setEffect: clear, record the type, and for rain, snow or mist create exactly the base count of
     * particles of that type and start; any other type leaves the system empty and inactive.
     */
    method SetEffect(kind: string, frame: nat)
      modifies this
      ensures currentEffect == Some(kind) && Valid()
      ensures IsKnown(kind) ==> particles == Repeat(Particle(kind), BaseCount(tier, kind)) && isActive && animationFrame == Some(frame)
      ensures !IsKnown(kind) ==> particles == [] && !isActive
      ensures !IsKnown(kind) ==>
        animationFrame == (if old(animationFrame).Some? && old(animationFrame).value != 0 then None else old(animationFrame))
    {
      ClearEffects();
      currentEffect := Some(kind);
      var count := BaseCount(tier, kind);
      if kind == "rain" || kind == "snow" || kind == "mist" {
        CreateParticles(kind, count);
      } else {
        return;
      }
      if !isActive {
        Start(frame);
      }
    }

    /**
     * adjustParticleCountForBattery: a no-op unless an effect is set and the system is active; otherwise
     * the list is cut to the battery-adjusted target or topped up with particles of the current type.
     */
    method AdjustParticleCountForBattery(level: real)
      requires Valid()
      modifies this
      ensures Valid()
      ensures !old(HasEffect()) || !old(isActive) ==> particles == old(particles)
      ensures old(HasEffect()) && old(isActive) ==>
        var target := TargetCount(tier, old(currentEffect).value, level);
        && |particles| == target
        && (|old(particles)| >= target ==> particles == old(particles)[..target])
        && (|old(particles)| < target ==> particles == old(particles) + Repeat(Particle(old(currentEffect).value), target - |old(particles)|))
      ensures isActive == old(isActive) && currentEffect == old(currentEffect) && animationFrame == old(animationFrame)
    {
      if !HasEffect() || !isActive {
        return;
      }
      var effect := currentEffect.value;
      var current := |particles|;
      var target := TargetCount(tier, effect, level);
      OnlyKnownParticles();
      if current > target {
        particles := particles[..target];
      } else if current < target {
        AddParticles(effect, target - current);
        forall i | current <= i < |particles| ensures particles[i] == Particle(effect) {
          assert particles[i] == Repeat(Particle(effect), target - current)[i - current];
        }
      }
    }

    /** updateParticles: re-creates the particles of an active effect, keeping their number and type. */
    method UpdateParticles()
      requires Valid()
      modifies this
      ensures Valid()
      ensures |particles| == |old(particles)|
      ensures forall i :: 0 <= i < |particles| ==> particles[i] == old(particles)[i]
      ensures isActive == old(isActive) && currentEffect == old(currentEffect) && animationFrame == old(animationFrame)
    {
      if !isActive || !HasEffect() {
        return;
      }
      var effect := currentEffect.value;
      var count := |particles|;
      OnlyKnownParticles();
      particles := [];
      AddParticles(effect, count);
    }
  }
}
