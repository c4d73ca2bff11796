/**
 * The cosmic background (CosmicBackground.tsx): intensity tables, colour schemes, and the effect
 * that rebuilds the container's star field, gradient orbs and nebula layer.
 */
module CosmicBackground {
  import opened Basics
  import Theme

  /** The rank of an intensity: "high" 2, "medium" 1, anything else counts as "low", 0. */
  function Rank(intensity: string): (rank: nat)
    ensures rank <= 2
  {
    if intensity == "high" then 2 else if intensity == "medium" then 1 else 0
  }

  /** Container opacity. */
  function ContainerOpacity(intensity: string): (opacity: real)
    ensures 0.4 <= opacity <= 0.8
  {
    if intensity == "high" then 0.8 else if intensity == "medium" then 0.6 else 0.4
  }

  /** How many gradient orbs a run creates. */
  function OrbCount(intensity: string): (count: nat)
    ensures 2 <= count <= 6
  {
    if intensity == "high" then 6 else if intensity == "medium" then 4 else 2
  }

  /** Blur radius of each orb, in pixels. */
  function OrbBlur(intensity: string): (blur: nat)
    ensures 40 <= blur <= 80
  {
    if intensity == "high" then 80 else if intensity == "medium" then 60 else 40
  }

  /** The smallest orb size, in pixels; sizes span 300 pixels from here. */
  function OrbBaseSize(intensity: string): (base: real)
    ensures 100.0 <= base <= 200.0
  {
    if intensity == "high" then 200.0 else if intensity == "medium" then 150.0 else 100.0
  }

  /**
   * Every table grows linearly with the rank: each step up adds two orbs, 20 pixels of blur,
   * 50 pixels of base size and 0.2 of opacity; an unknown intensity behaves as "low".
   */
  lemma IntensityTables(intensity: string)
    ensures OrbCount(intensity) == 2 + 2 * Rank(intensity)
    ensures OrbBlur(intensity) == 40 + 20 * Rank(intensity)
    ensures OrbBaseSize(intensity) == 100.0 + 50.0 * Rank(intensity) as real
    ensures ContainerOpacity(intensity) == 0.4 + 0.2 * Rank(intensity) as real
    ensures intensity !in {"high", "medium"} ==>
              OrbCount(intensity) == OrbCount("low") && OrbBlur(intensity) == OrbBlur("low") &&
              OrbBaseSize(intensity) == OrbBaseSize("low") && ContainerOpacity(intensity) == ContainerOpacity("low")
  {
  }

  /** The four-colour palette of a scheme; unknown schemes use the default palette. */
  const DefaultPalette: seq<string> := [Theme.PrimaryMain, Theme.SecondaryMain, Theme.AccentAurora, Theme.AccentEnergy]

  function Palette(scheme: string): (colors: seq<string>)
    ensures |colors| == 4
    ensures scheme !in {"aurora", "cosmic", "energy"} ==> colors == DefaultPalette
    ensures scheme in {"aurora", "cosmic", "energy"} ==> colors[0] == colors[3] && colors != DefaultPalette
  {
    match scheme
    case "aurora" => [Theme.AccentAurora, Theme.PrimaryLight, Theme.AccentNature, Theme.AccentAurora]
    case "cosmic" => [Theme.AccentCosmic, Theme.SecondaryMain, Theme.PrimaryDark, Theme.AccentCosmic]
    case "energy" => [Theme.AccentEnergy, Theme.AccentCosmic, Theme.SecondaryLight, Theme.AccentEnergy]
    case _ => DefaultPalette
  }

  /** The number of stars in the star field. */
  const StarCount: nat := 100

  datatype Star = Star(x: real, y: real, size: real, opacity: real)

  /** The four random draws of one star, in call order. */
  datatype StarDraw = StarDraw(x: real, y: real, size: real, opacity: real)

  predicate ValidStarDraw(d: StarDraw) {
    InUnit(d.x) && InUnit(d.y) && InUnit(d.size) && InUnit(d.opacity)
  }

  function MakeStar(d: StarDraw): (s: Star)
    requires ValidStarDraw(d)
    ensures 0.0 <= s.x < 100.0 && 0.0 <= s.y < 100.0
    ensures 0.5 <= s.size < 1.5 && 0.2 <= s.opacity < 1.0
  {
    Star(d.x * 100.0, d.y * 100.0, d.size * 1.0 + 0.5, d.opacity * 0.8 + 0.2)
  }

  datatype Orb = Orb(size: real, top: real, left: real, color: string, blur: nat, opacity: real)

  /** The three random draws of one orb, in call order. */
  datatype OrbDraw = OrbDraw(size: real, top: real, left: real)

  predicate ValidOrbDraw(d: OrbDraw) {
    InUnit(d.size) && InUnit(d.top) && InUnit(d.left)
  }

  /** Orb `i` of a run: coloured round-robin from the palette. */
  function MakeOrb(i: nat, d: OrbDraw, intensity: string, colors: seq<string>): (o: Orb)
    requires ValidOrbDraw(d) && |colors| > 0
    ensures OrbBaseSize(intensity) <= o.size < OrbBaseSize(intensity) + 300.0
    ensures 0.0 <= o.top < 100.0 && 0.0 <= o.left < 100.0
    ensures o.color == colors[i % |colors|] && o.color in colors
    ensures o.blur == OrbBlur(intensity) && o.opacity == 0.4
  {
    Orb(d.size * 300.0 + OrbBaseSize(intensity), d.top * 100.0, d.left * 100.0,
        colors[i % |colors|], OrbBlur(intensity), 0.4)
  }

  /** A child of the background container. */
  datatype Layer = StarFieldLayer(stars: seq<Star>) | OrbLayer(orb: Orb) | NebulaLayer

  datatype LayerKind = StarFieldKind | OrbKind | NebulaKind

  function KindOf(l: Layer): LayerKind {
    match l
    case StarFieldLayer(_) => StarFieldKind
    case OrbLayer(_) => OrbKind
    case NebulaLayer => NebulaKind
  }

  /** How many children are of the given kind. */
  function KindCount(cs: seq<Layer>, kind: LayerKind): nat
    decreases |cs|
  {
    if cs == [] then 0
    else KindCount(cs[..|cs| - 1], kind) + (if KindOf(cs[|cs| - 1]) == kind then 1 else 0)
  }

  lemma {:induction false} KindCountConcat(a: seq<Layer>, b: seq<Layer>, kind: LayerKind)
    ensures KindCount(a + b, kind) == KindCount(a, kind) + KindCount(b, kind)
    decreases |b|
  {
    if b == [] {
      assert a + b == a;
    } else {
      var b' := b[..|b| - 1];
      assert (a + b)[..|a + b| - 1] == a + b';
      assert (a + b)[|a + b| - 1] == b[|b| - 1];
      KindCountConcat(a, b', kind);
    }
  }

  /** The orb children, one per orb, in order. */
  function OrbLayers(orbs: seq<Orb>): (cs: seq<Layer>)
    ensures |cs| == |orbs| && forall k :: 0 <= k < |orbs| ==> cs[k] == OrbLayer(orbs[k])
    ensures KindCount(cs, OrbKind) == |orbs|
    ensures KindCount(cs, StarFieldKind) == 0 && KindCount(cs, NebulaKind) == 0
    decreases |orbs|
  {
    if orbs == [] then []
    else
      var front := OrbLayers(orbs[..|orbs| - 1]);
      var cs := front + [OrbLayer(orbs[|orbs| - 1])];
      assert cs[..|cs| - 1] == front;
      cs
  }

  /** The container after a run: the star field when this run built it, the orbs, the nebula. */
  function Layout(newStars: Option<seq<Star>>, orbs: seq<Orb>): (children: seq<Layer>)
    ensures |children| == |orbs| + 1 + (if newStars.Some? then 1 else 0)
    ensures children[|children| - 1] == NebulaLayer
    ensures newStars.Some? ==> children[0] == StarFieldLayer(newStars.value)
  {
    (if newStars.Some? then [StarFieldLayer(newStars.value)] else []) + OrbLayers(orbs) + [NebulaLayer]
  }

  /**
   * A run's container holds exactly one nebula layer and one orb child per orb, and a star
   * field only when the run built it.
   */
  lemma LayoutCounts(newStars: Option<seq<Star>>, orbs: seq<Orb>)
    ensures KindCount(Layout(newStars, orbs), OrbKind) == |orbs|
    ensures KindCount(Layout(newStars, orbs), NebulaKind) == 1
    ensures KindCount(Layout(newStars, orbs), StarFieldKind) == (if newStars.Some? then 1 else 0)
  {
    var head: seq<Layer> := if newStars.Some? then [StarFieldLayer(newStars.value)] else [];
    forall kind | true
      ensures KindCount(Layout(newStars, orbs), kind) == KindCount(head, kind) + KindCount(OrbLayers(orbs), kind) + KindCount([NebulaLayer], kind)
    {
      KindCountConcat(head, OrbLayers(orbs), kind);
      KindCountConcat(head + OrbLayers(orbs), [NebulaLayer], kind);
    }
    assert [NebulaLayer][..0] == [];
    if newStars.Some? {
      assert head[..0] == [];
    }
  }

  /** The star-creation loop: one star per draw, in order. */
  method BuildStars(draws: seq<StarDraw>) returns (stars: seq<Star>)
    requires forall k :: 0 <= k < |draws| ==> ValidStarDraw(draws[k])
    ensures |stars| == |draws|
    ensures forall k :: 0 <= k < |draws| ==> stars[k] == MakeStar(draws[k])
    ensures forall k :: 0 <= k < |stars| ==> 0.5 <= stars[k].size < 1.5 && 0.2 <= stars[k].opacity < 1.0
  {
    stars := [];
    var i := 0;
    while i < |draws|
      invariant 0 <= i <= |draws| && |stars| == i
      invariant forall k :: 0 <= k < i ==> stars[k] == MakeStar(draws[k])
    {
      stars := stars + [MakeStar(draws[i])];
      i := i + 1;
    }
  }

  /** The orb-creation loop: orb `i` takes draw `i` and colour `i` modulo the palette size. */
  method BuildOrbs(intensity: string, colors: seq<string>, draws: seq<OrbDraw>) returns (orbs: seq<Orb>)
    requires |colors| > 0
    requires forall k :: 0 <= k < |draws| ==> ValidOrbDraw(draws[k])
    ensures |orbs| == |draws|
    ensures forall k :: 0 <= k < |draws| ==> orbs[k] == MakeOrb(k, draws[k], intensity, colors)
    ensures forall k :: 0 <= k < |orbs| ==> orbs[k].color == colors[k % |colors|] && orbs[k].blur == OrbBlur(intensity)
  {
    orbs := [];
    var i := 0;
    while i < |draws|
      invariant 0 <= i <= |draws| && |orbs| == i
      invariant forall k :: 0 <= k < i ==> orbs[k] == MakeOrb(k, draws[k], intensity, colors)
    {
      orbs := orbs + [MakeOrb(i, draws[i], intensity, colors)];
      i := i + 1;
    }
  }

  /** The container, the orbs list, the saved star field and the orbs' drift tweens. */
  class Background {
    var children: seq<Layer>
    var orbs: seq<Orb>
    var starField: Option<seq<Star>>
    var drifting: bool

    constructor ()
      ensures children == [] && orbs == [] && starField == None && !drifting
    {
      children, orbs, starField, drifting := [], [], None, false;
    }

    /**
     * The effect, run on mount and whenever intensity, scheme or `animated` change. Without a
     * container or with animation off it changes nothing. Otherwise it wipes the container
     * and the orbs list, builds the star field only if none was saved yet, adds the orbs and
     * the nebula layer, and starts the orbs drifting.
     */
    method RunEffect(containerReady: bool, animated: bool, intensity: string, scheme: string,
                     starDraws: seq<StarDraw>, orbDraws: seq<OrbDraw>)
      requires |starDraws| == StarCount && forall k :: 0 <= k < |starDraws| ==> ValidStarDraw(starDraws[k])
      requires |orbDraws| == OrbCount(intensity) && forall k :: 0 <= k < |orbDraws| ==> ValidOrbDraw(orbDraws[k])
      modifies this
      ensures !(containerReady && animated) ==>
                children == old(children) && orbs == old(orbs) && starField == old(starField) && drifting == old(drifting)
      ensures containerReady && animated ==>
                && starField.Some?
                && (old(starField).Some? ==> starField == old(starField))
                && (old(starField).None? ==>
                      |starField.value| == StarCount &&
                      forall k :: 0 <= k < StarCount ==> starField.value[k] == MakeStar(starDraws[k]))
                && |orbs| == OrbCount(intensity)
                && (forall k :: 0 <= k < |orbs| ==> orbs[k] == MakeOrb(k, orbDraws[k], intensity, Palette(scheme)))
                && children == Layout(if old(starField).None? then starField else None, orbs)
                && drifting
    {
      if !containerReady || !animated {
        return;
      }
      var head: seq<Layer> := [];
      var built: Option<seq<Star>> := None;
      if starField.None? {
        var stars := BuildStars(starDraws);
        head := [StarFieldLayer(stars)];
        starField := Some(stars);
        built := Some(stars);
      }
      orbs := BuildOrbs(intensity, Palette(scheme), orbDraws);
      children := head + OrbLayers(orbs) + [NebulaLayer];
      assert children == Layout(built, orbs);
      drifting := true;
    }

    /**
     * The effect run twice, as when a dependency changes: the first run shows the star field
     * and the second wipes the container and does not add the saved field back.
     */
    method RunTwice(intensity: string, scheme: string, starDraws: seq<StarDraw>, orbDraws: seq<OrbDraw>)
      requires starField.None?
      requires |starDraws| == StarCount && forall k :: 0 <= k < |starDraws| ==> ValidStarDraw(starDraws[k])
      requires |orbDraws| == OrbCount(intensity) && forall k :: 0 <= k < |orbDraws| ==> ValidOrbDraw(orbDraws[k])
      modifies this
      ensures starField.Some? && KindCount(children, StarFieldKind) == 0
    {
      RunEffect(true, true, intensity, scheme, starDraws, orbDraws);
      StarFieldOnlyOnFirstRun(orbs, starField.value);
      assert KindCount(children, StarFieldKind) == 1;
      RunEffect(true, true, intensity, scheme, starDraws, orbDraws);
      StarFieldOnlyOnFirstRun(orbs, starField.value);
    }

    /** The effect's cleanup: the orbs' tweens are killed; the elements stay. */
    method Cleanup()
      modifies this
      ensures !drifting
      ensures children == old(children) && orbs == old(orbs) && starField == old(starField)
    {
      drifting := false;
    }
  }

  /**
   * The star field is built once: a run after one that built it leaves no star field in the
   * container, because the wipe removes it and the saved field is not re-added.
   */
  lemma StarFieldOnlyOnFirstRun(orbs: seq<Orb>, stars: seq<Star>)
    ensures KindCount(Layout(Some(stars), orbs), StarFieldKind) == 1
    ensures KindCount(Layout(None, orbs), StarFieldKind) == 0
  {
    LayoutCounts(Some(stars), orbs);
    LayoutCounts(None, orbs);
  }
}
