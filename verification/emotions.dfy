/**
 * The avatar's emotional vocabulary and the glow colour the cognitive buddy avatar
 * shows for each state (CognitiveBuddyAvatar.tsx).
 */
module Emotions {
  import opened Basics

  /** The sixteen values of the `AvatarEmotionalState` string union. */
  datatype Emotion =
    | Idle | Listening | Thinking | Speaking | Happy | Elated | Sad | Disappointed
    | AcknowledgingProblem | FocusedProblemSolving | Competitive | Determined
    | Empathetic | Curious | Playful | Proud

  /** Every state, in the order the union declares them. */
  const AllEmotions: seq<Emotion> :=
    [Idle, Listening, Thinking, Speaking, Happy, Elated, Sad, Disappointed,
     AcknowledgingProblem, FocusedProblemSolving, Competitive, Determined,
     Empathetic, Curious, Playful, Proud]

  /** The state an avatar shows when its caller passes none. */
  const DefaultEmotion: Emotion := Idle

  /** The string literal that stands for each state. */
  function Name(e: Emotion): string {
    match e
    case Idle => "idle"
    case Listening => "listening"
    case Thinking => "thinking"
    case Speaking => "speaking"
    case Happy => "happy"
    case Elated => "elated"
    case Sad => "sad"
    case Disappointed => "disappointed"
    case AcknowledgingProblem => "acknowledgingProblem"
    case FocusedProblemSolving => "focusedProblemSolving"
    case Competitive => "competitive"
    case Determined => "determined"
    case Empathetic => "empathetic"
    case Curious => "curious"
    case Playful => "playful"
    case Proud => "proud"
  }

  /** The state whose literal is `s`, searched among `candidates`; `None` when no literal matches. */
  function FindByName(candidates: seq<Emotion>, s: string): (r: Option<Emotion>)
    ensures r.Some? ==> r.value in candidates && Name(r.value) == s
    ensures r.None? ==> forall e :: e in candidates ==> Name(e) != s
  {
    if candidates == [] then None
    else if Name(candidates[0]) == s then Some(candidates[0])
    else FindByName(candidates[1..], s)
  }

  /** Reads a string as a state; a string outside the union is not a state. */
  function Parse(s: string): (r: Option<Emotion>)
    ensures r.Some? ==> Name(r.value) == s
    ensures r.None? ==> forall e: Emotion :: Name(e) != s
  {
    AllListed();
    FindByName(AllEmotions, s)
  }

  /** The position of each state in `AllEmotions`. */
  function Index(e: Emotion): (k: nat)
    ensures k < |AllEmotions| && AllEmotions[k] == e
  {
    match e
    case Idle => 0
    case Listening => 1
    case Thinking => 2
    case Speaking => 3
    case Happy => 4
    case Elated => 5
    case Sad => 6
    case Disappointed => 7
    case AcknowledgingProblem => 8
    case FocusedProblemSolving => 9
    case Competitive => 10
    case Determined => 11
    case Empathetic => 12
    case Curious => 13
    case Playful => 14
    case Proud => 15
  }

  /** Every state is listed. */
  lemma AllListed()
    ensures forall e: Emotion :: e in AllEmotions
  {
    forall e: Emotion ensures e in AllEmotions {
      assert AllEmotions[Index(e)] == e;
    }
  }

  /** The union has exactly sixteen members, each with its own literal. */
  lemma SixteenStates()
    ensures |AllEmotions| == 16
    ensures forall e: Emotion :: e in AllEmotions
    ensures forall i, j :: 0 <= i < j < |AllEmotions| ==> Name(AllEmotions[i]) != Name(AllEmotions[j])
  {
    AllListed();
  }

  /** Distinct states have distinct literals. */
  lemma NameInjective(e1: Emotion, e2: Emotion)
    ensures Name(e1) == Name(e2) ==> e1 == e2
  {
    SixteenStates();
    var i, j := Index(e1), Index(e2);
    if i < j {
      assert Name(AllEmotions[i]) != Name(AllEmotions[j]);
    } else if j < i {
      assert Name(AllEmotions[j]) != Name(AllEmotions[i]);
    }
  }

  /** Parsing the literal of a state gives that state back. */
  lemma ParseName(e: Emotion)
    ensures Parse(Name(e)) == Some(e)
  {
    var r := Parse(Name(e));
    NameInjective(r.value, e);
  }

  /** The three glow colours. */
  datatype Glow = Transparent | AuroraBlue | SoftGold

  /** The CSS colour each glow is drawn with. */
  function GlowCss(g: Glow): (css: string)
    ensures css == "transparent" <==> g == Transparent
    ensures g != Transparent ==> |css| > 5 && css[..5] == "rgba("
  {
    match g
    case Transparent => "transparent"
    case AuroraBlue => "rgba(0, 191, 255, 0.5)"
    case SoftGold => "rgba(220, 220, 100, 0.4)"
  }

  /** The states tested first, which glow aurora blue. */
  const BlueGroup: seq<Emotion> := [Competitive, Determined, FocusedProblemSolving]
  /** The states tested second, which glow soft gold. */
  const GoldGroup: seq<Emotion> := [Happy, Elated, Playful]

  /** The glow chosen for a state: blue group first, gold group next, transparent otherwise. */
  function GlowFor(e: Emotion): (g: Glow)
    ensures g == AuroraBlue <==> e == Competitive || e == Determined || e == FocusedProblemSolving
    ensures g == SoftGold <==> e == Happy || e == Elated || e == Playful
    ensures g == Transparent <==> !(e in BlueGroup || e in GoldGroup)
  {
    if e in BlueGroup then AuroraBlue
    else if e in GoldGroup then SoftGold
    else Transparent
  }

  /** The two coloured groups share no state, so the order of the tests never matters. */
  lemma GlowGroupsDisjoint()
    ensures forall e :: e in BlueGroup ==> e !in GoldGroup
  {
  }

  /** The glow colours are pairwise distinct CSS strings. */
  lemma GlowCssDistinct(g1: Glow, g2: Glow)
    ensures GlowCss(g1) == GlowCss(g2) <==> g1 == g2
  {
    if g1 != g2 {
      assert GlowCss(g1)[0] != GlowCss(g2)[0] || GlowCss(g1)[5] != GlowCss(g2)[5];
    }
  }

  /** The default state shows no glow. */
  lemma DefaultIsTransparent()
    ensures DefaultEmotion == Idle && GlowFor(DefaultEmotion) == Transparent
  {
  }
}
