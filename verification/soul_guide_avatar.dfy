/**
 * The Soul Guide's orb avatar (SoulGuideAvatar.tsx): the twenty coloured particles created on
 * mount, and the orb settings chosen for each emotional state.
 */
module SoulGuideAvatar {
  import opened Basics
  import opened Emotions
  import Theme

  /** The number of particles created on mount. */
  const ParticleCount: nat := 20

  /** A particle's colour by its index: four equal buckets of consecutive indices. */
  function BucketColor(i: nat): (c: string)
    ensures i < ParticleCount ==> c == BucketColors[i / (ParticleCount / 4)]
    ensures i >= ParticleCount ==> c == BucketColors[3]
  {
    if i < ParticleCount / 4 then Theme.AccentAurora
    else if i < ParticleCount / 2 then Theme.AccentEnergy
    else if i < (ParticleCount / 4) * 3 then Theme.PrimaryMain
    else Theme.SecondaryMain
  }

  /** The four bucket colours, in bucket order. */
  const BucketColors: seq<string> := [Theme.AccentAurora, Theme.AccentEnergy, Theme.PrimaryMain, Theme.SecondaryMain]

  datatype AvatarParticle = AvatarParticle(size: real, color: string)

  /** `Math.random() * 3 + 1`: a particle's diameter in pixels. */
  function SizeDraw(r: real): (size: real)
    requires InUnit(r)
    ensures 1.0 <= size < 4.0
  {
    r * 3.0 + 1.0
  }

  /** How many of the particles have colour `c`. */
  function CountColor(ps: seq<AvatarParticle>, c: string): nat
    decreases |ps|
  {
    if ps == [] then 0
    else CountColor(ps[..|ps| - 1], c) + (if ps[|ps| - 1].color == c then 1 else 0)
  }

  /** How many of the indices `0 .. n-1` fall in the bucket of colour `c`. */
  function BucketCount(n: nat, c: string): nat {
    if n == 0 then 0 else BucketCount(n - 1, c) + (if BucketColor(n - 1) == c then 1 else 0)
  }

  lemma {:induction false} CountMatchesBuckets(ps: seq<AvatarParticle>, n: nat, c: string)
    requires n <= |ps|
    requires forall i :: 0 <= i < |ps| ==> ps[i].color == BucketColor(i)
    ensures CountColor(ps[..n], c) == BucketCount(n, c)
  {
    if n > 0 {
      CountMatchesBuckets(ps, n - 1, c);
      assert ps[..n][..n - 1] == ps[..n - 1];
    }
  }

  /** `x` clamped to `0 .. 5`. */
  function ClampToBucket(x: int): nat {
    if x < 0 then 0 else if x > 5 then 5 else x
  }

  /** Among the first `n` indices, bucket `b` holds those from `5 * b` on, at most five. */
  lemma {:induction false} BucketCountClosed(n: nat, b: nat)
    requires n <= ParticleCount && b < 4
    ensures BucketCount(n, BucketColors[b]) == ClampToBucket(n - 5 * b)
  {
    if n > 0 {
      BucketCountClosed(n - 1, b);
      assert BucketColor(n - 1) == BucketColors[(n - 1) / 5];
    }
  }

  /** Each of the four colours is used by exactly five of the twenty particles. */
  lemma FivePerColor(ps: seq<AvatarParticle>)
    requires |ps| == ParticleCount
    requires forall i :: 0 <= i < |ps| ==> ps[i].color == BucketColor(i)
    ensures forall c :: c in BucketColors ==> CountColor(ps, c) == 5
  {
    assert ps[..|ps|] == ps;
    forall b | 0 <= b < 4 ensures CountColor(ps, BucketColors[b]) == 5 {
      CountMatchesBuckets(ps, |ps|, BucketColors[b]);
      BucketCountClosed(ParticleCount, b);
    }
  }

  /** One keyframe of the orb's scale animation. */
  datatype ScaleFrame = ScaleFrame(scale: real, duration: real)

  /** The orb's animation: a repeating yoyo to a scale, or a keyframe sequence. */
  datatype OrbAnimation = Pulse(scale: real, duration: real) | Keyframes(frames: seq<ScaleFrame>)

  /** The kind of animation the particles run; `Still` when the branch animates none. */
  datatype ParticleMotion = Still | Twinkle | Celebrate | Orbit | Explore | Breathe | Burst | Drift

  datatype OrbSettings = OrbSettings(background: string, orb: OrbAnimation, particles: ParticleMotion)

  /** The settings of the default branch, taken by states without a branch of their own. */
  const DefaultOrb := OrbSettings(Theme.GradientAurora, Pulse(0.95, 2.0), Still)

  /** The orb colour, orb animation and particle animation for a state. */
  function OrbFor(e: Emotion): (settings: OrbSettings)
    ensures settings.orb.Keyframes? <==> e == Curious
    ensures settings.orb.Pulse? ==> 0.9 <= settings.orb.scale <= 1.15 && 0.5 <= settings.orb.duration <= 2.0
    ensures settings.orb.Keyframes? ==> |settings.orb.frames| == 4
  {
    match e
    case Idle => OrbSettings(Theme.GradientAurora, Pulse(0.95, 2.0), Twinkle)
    case Happy | Elated =>
      OrbSettings(Theme.RadialGradient(Theme.AccentEnergy, Theme.PrimaryLight), Pulse(1.1, 0.8), Celebrate)
    case FocusedProblemSolving | Thinking =>
      OrbSettings(Theme.RadialGradient(Theme.AccentAurora, Theme.PrimaryDark), Pulse(1.05, 1.2), Orbit)
    case Curious =>
      OrbSettings(Theme.RadialGradient(Theme.SecondaryLight, Theme.PrimaryMain),
                  Keyframes([ScaleFrame(1.0, 0.5), ScaleFrame(0.9, 0.3), ScaleFrame(1.1, 0.3), ScaleFrame(1.0, 0.5)]),
                  Explore)
    case Empathetic =>
      OrbSettings(Theme.RadialGradient(Theme.AccentNature, Theme.SecondaryMain), Pulse(1.05, 1.5), Breathe)
    case Competitive | Determined =>
      OrbSettings(Theme.RadialGradient(Theme.AccentCosmic, Theme.PrimaryDark), Pulse(1.15, 0.5), Burst)
    case Listening =>
      OrbSettings(Theme.RadialGradient(Theme.AccentAurora, Theme.SecondaryLight), Pulse(0.9, 1.0), Drift)
    case _ => DefaultOrb
  }

  /** The states the switch names explicitly. */
  predicate HasOwnBranch(e: Emotion) {
    e in {Idle, Happy, Elated, FocusedProblemSolving, Thinking, Curious, Empathetic, Competitive, Determined, Listening}
  }

  /** Paired states share their settings. */
  lemma PairedStatesShare()
    ensures OrbFor(Happy) == OrbFor(Elated) && OrbFor(Happy).orb == Pulse(1.1, 0.8)
    ensures OrbFor(Thinking) == OrbFor(FocusedProblemSolving) && OrbFor(Thinking).orb == Pulse(1.05, 1.2)
    ensures OrbFor(Competitive) == OrbFor(Determined) && OrbFor(Competitive).orb == Pulse(1.15, 0.5)
  {
  }

  /**
   * Exactly six states fall to the default branch, which looks like idle's orb but animates no
   * particles; no named branch animates nothing.
   */
  lemma DefaultBranch(e: Emotion)
    ensures !HasOwnBranch(e) <==> e in {Speaking, Sad, Disappointed, AcknowledgingProblem, Playful, Proud}
    ensures !HasOwnBranch(e) ==> OrbFor(e) == DefaultOrb
    ensures HasOwnBranch(e) ==> OrbFor(e).particles != Still
    ensures OrbFor(Idle) == DefaultOrb.(particles := Twinkle)
  {
  }

  /** The avatar's rendered state: the particle nodes, the orb's colour and the running tweens. */
  class Avatar {
    var particles: seq<AvatarParticle>
    var orbBackground: string
    var orbTween: Option<OrbAnimation>
    var particleMotion: ParticleMotion

    constructor ()
      ensures particles == [] && orbTween == None && particleMotion == Still
    {
      particles, orbBackground, orbTween, particleMotion := [], "", None, Still;
    }

    /**
     * The mount effect: without a particle container nothing happens; otherwise the container
     * is emptied and the twenty particles created.
     */
    method Mount(containerReady: bool, sizeDraws: seq<real>)
      requires |sizeDraws| == ParticleCount && forall k :: 0 <= k < |sizeDraws| ==> InUnit(sizeDraws[k])
      modifies this
      ensures !containerReady ==> particles == old(particles)
      ensures containerReady ==> |particles| == ParticleCount
      ensures containerReady ==>
                forall i :: 0 <= i < ParticleCount ==> particles[i] == AvatarParticle(SizeDraw(sizeDraws[i]), BucketColor(i))
      ensures orbBackground == old(orbBackground) && orbTween == old(orbTween) && particleMotion == old(particleMotion)
    {
      if !containerReady {
        return;
      }
      particles := [];
      var i := 0;
      while i < ParticleCount
        invariant 0 <= i <= ParticleCount
        invariant |particles| == i
        invariant orbBackground == old(orbBackground) && orbTween == old(orbTween) && particleMotion == old(particleMotion)
        invariant forall k :: 0 <= k < i ==> particles[k] == AvatarParticle(SizeDraw(sizeDraws[k]), BucketColor(k))
      {
        particles := particles + [AvatarParticle(SizeDraw(sizeDraws[i]), BucketColor(i))];
        i := i + 1;
      }
    }

    /**
     * The state effect: unless an element is missing, every running tween is killed, the
     * branch for `e` starts its own, and the orb takes the branch's colour. Nothing of the
     * previous state survives.
     */
    method ShowEmotion(elementsReady: bool, e: Emotion)
      modifies this
      ensures particles == old(particles)
      ensures !elementsReady ==>
                orbBackground == old(orbBackground) && orbTween == old(orbTween) && particleMotion == old(particleMotion)
      ensures elementsReady ==> orbBackground == OrbFor(e).background
      ensures elementsReady ==> orbTween == Some(OrbFor(e).orb) && particleMotion == OrbFor(e).particles
    {
      if !elementsReady {
        return;
      }
      orbTween, particleMotion := None, Still;
      var settings := OrbFor(e);
      orbTween := Some(settings.orb);
      particleMotion := settings.particles;
      orbBackground := settings.background;
    }
  }
}
