/**
 * The parallax background (ParallaxBackground.tsx): stars and nebulae generated once on mount,
 * rendered in three depth layers, and offset per layer as the pointer moves.
 */
module ParallaxBackground {
  import opened Basics

  const StarTotal: nat := 200
  const NebulaTotal: nat := 5
  /** The number of depth layers; layer 0 is the farthest. */
  const LayerCount: nat := 3

  const StarColors: seq<string> := ["#FFFFFF", "#E0E0FF", "#FFFAE0", "#FFE0E0", "#6E44FF", "#4A90E2", "#50E3C2"]
  const NebulaColors: seq<string> := ["#6E44FF", "#4A90E2", "#50E3C2", "#FF5A5F"]

  /** A star or a nebula: both carry the same fields. */
  datatype Body = Body(size: real, color: string, x: real, y: real, layer: nat)

  /** The five random draws of one body, in call order: layer first, then size, colour, x, y. */
  datatype BodyDraw = BodyDraw(layer: real, size: real, color: real, x: real, y: real)

  predicate ValidDraw(d: BodyDraw) {
    InUnit(d.layer) && InUnit(d.size) && InUnit(d.color) && InUnit(d.x) && InUnit(d.y)
  }

  function MakeStar(d: BodyDraw): (s: Body)
    requires ValidDraw(d)
    ensures s.layer < LayerCount && 1.0 <= s.size < 3.0 && s.color in StarColors
    ensures 0.0 <= s.x < 100.0 && 0.0 <= s.y < 100.0
  {
    Body(d.size * 2.0 + 1.0, Pick(d.color, StarColors), d.x * 100.0, d.y * 100.0, PickIndex(d.layer, LayerCount))
  }

  function MakeNebula(d: BodyDraw): (n: Body)
    requires ValidDraw(d)
    ensures n.layer < LayerCount && 200.0 <= n.size < 500.0 && n.color in NebulaColors
    ensures 0.0 <= n.x < 100.0 && 0.0 <= n.y < 100.0
  {
    Body(d.size * 300.0 + 200.0, Pick(d.color, NebulaColors), d.x * 100.0, d.y * 100.0, PickIndex(d.layer, LayerCount))
  }

  /** Every body sits on one of the three layers. */
  ghost predicate Layered(bodies: seq<Body>) {
    forall k :: 0 <= k < |bodies| ==> bodies[k].layer < LayerCount
  }

  /** The bodies a layer renders, in their original order. */
  function OnLayer(bodies: seq<Body>, layer: nat): (r: seq<Body>)
    ensures |r| <= |bodies|
  {
    if bodies == [] then []
    else (if bodies[0].layer == layer then [bodies[0]] else []) + OnLayer(bodies[1..], layer)
  }

  /** A layer renders exactly the bodies that are on it. */
  lemma {:induction false} OnLayerMembers(bodies: seq<Body>, layer: nat)
    ensures forall b :: b in OnLayer(bodies, layer) <==> b in bodies && b.layer == layer
  {
    if bodies != [] {
      OnLayerMembers(bodies[1..], layer);
      assert bodies == [bodies[0]] + bodies[1..];
    }
  }

  /** A layer's share of a non-empty list: the head when it is on the layer, then the tail's share. */
  lemma OnLayerHead(bodies: seq<Body>, layer: nat)
    requires bodies != []
    ensures bodies[0].layer == layer ==>
              multiset(OnLayer(bodies, layer)) == multiset{bodies[0]} + multiset(OnLayer(bodies[1..], layer)) &&
              |OnLayer(bodies, layer)| == 1 + |OnLayer(bodies[1..], layer)|
    ensures bodies[0].layer != layer ==> OnLayer(bodies, layer) == OnLayer(bodies[1..], layer)
  {
  }

  lemma LayeredTail(bodies: seq<Body>)
    requires Layered(bodies) && bodies != []
    ensures Layered(bodies[1..]) && bodies[0].layer < LayerCount
  {
  }

  /** Adding the head to the share of its own layer adds it to the union of the shares. */
  lemma AddToShare<T>(h: T, which: nat, m0: multiset<T>, m1: multiset<T>, m2: multiset<T>,
                      n0: multiset<T>, n1: multiset<T>, n2: multiset<T>)
    requires which < 3
    requires n0 == (if which == 0 then multiset{h} + m0 else m0)
    requires n1 == (if which == 1 then multiset{h} + m1 else m1)
    requires n2 == (if which == 2 then multiset{h} + m2 else m2)
    ensures n0 + n1 + n2 == multiset{h} + (m0 + m1 + m2)
  {
  }

  /** The three layer filters partition the bodies: each one is rendered exactly once. */
  lemma {:induction false} LayersPartition(bodies: seq<Body>)
    requires Layered(bodies)
    ensures multiset(OnLayer(bodies, 0)) + multiset(OnLayer(bodies, 1)) + multiset(OnLayer(bodies, 2)) == multiset(bodies)
  {
    if bodies != [] {
      var h, t := bodies[0], bodies[1..];
      LayeredTail(bodies);
      LayersPartition(t);
      OnLayerHead(bodies, 0);
      OnLayerHead(bodies, 1);
      OnLayerHead(bodies, 2);
      assert bodies == [h] + t;
      AddToShare(h, h.layer, multiset(OnLayer(t, 0)), multiset(OnLayer(t, 1)), multiset(OnLayer(t, 2)),
                 multiset(OnLayer(bodies, 0)), multiset(OnLayer(bodies, 1)), multiset(OnLayer(bodies, 2)));
    }
  }

  /** Together the three layers render as many bodies as there are. */
  lemma {:induction false} LayerSizesAddUp(bodies: seq<Body>)
    requires Layered(bodies)
    ensures |OnLayer(bodies, 0)| + |OnLayer(bodies, 1)| + |OnLayer(bodies, 2)| == |bodies|
  {
    if bodies != [] {
      LayeredTail(bodies);
      LayerSizesAddUp(bodies[1..]);
      OnLayerHead(bodies, 0);
      OnLayerHead(bodies, 1);
      OnLayerHead(bodies, 2);
    }
  }

  /** The rendered size factor of a star on a layer: nearer layers draw stars larger. */
  function StarScale(layer: nat): (scale: real)
    requires layer < LayerCount
    ensures 1.0 <= scale <= 1.5
  {
    if layer == 0 then 1.0 else if layer == 1 then 1.2 else 1.5
  }

  /** The rendered width and height of a star, in pixels. */
  function RenderedStarSize(s: Body): (width: real)
    requires s.layer < LayerCount && s.size >= 0.0
    ensures s.size <= width <= 1.5 * s.size
    ensures s.layer == 0 ==> width == s.size
  {
    s.size * StarScale(s.layer)
  }

  lemma StarScaleIncreasing(l1: nat, l2: nat)
    requires l1 < l2 < LayerCount
    ensures StarScale(l1) < StarScale(l2)
  {
  }

  /** The style of a layer's container: depth, CSS scale and opacity. */
  datatype LayerStyle = LayerStyle(translateZ: int, scale: real, opacity: real)

  function StyleOf(layer: nat): (style: LayerStyle)
    requires layer < LayerCount
    ensures style.translateZ == -30 + 10 * layer
    ensures 1.1 <= style.scale <= 1.3 && (style.opacity == 1.0 || style.opacity == 0.8)
    ensures style.scale == 1.3 - 0.1 * (layer as real) && style.opacity == (if layer == 2 then 0.8 else 1.0)
  {
    if layer == 0 then LayerStyle(-30, 1.3, 1.0)
    else if layer == 1 then LayerStyle(-20, 1.2, 1.0)
    else LayerStyle(-10, 1.1, 0.8)
  }

  /** A pointer coordinate mapped to -1 at the left (top) edge, 0 at the centre, 1 at the right. */
  function NormalizePointer(client: real, extent: real): (m: real)
    requires extent > 0.0
    ensures 0.0 <= client <= extent ==> -1.0 <= m <= 1.0
    ensures client == extent / 2.0 <==> m == 0.0
    ensures client == 0.0 ==> m == -1.0
    ensures client == extent ==> m == 1.0
  {
    (client / extent - 0.5) * 2.0
  }

  /** The offset of the layer at position `index` for a normalised pointer coordinate. */
  function LayerOffset(mouse: real, index: nat, intensity: real): (offset: real)
    ensures intensity >= 0.0 && mouse >= 0.0 ==> offset >= 0.0
    ensures intensity >= 0.0 && mouse <= 0.0 ==> offset <= 0.0
    ensures intensity > 0.0 && mouse != 0.0 ==> offset != 0.0
  {
    var depth := (index + 1) as real;
    assert intensity >= 0.0 ==> depth * intensity >= 0.0;
    assert intensity > 0.0 ==> depth * intensity > 0.0;
    mouse * (depth * intensity * 10.0)
  }

  /**
   * Offsets grow linearly with depth, vanish when the pointer is centred, and stay within
   * `10 * depth * intensity` while the pointer is inside the window.
   */
  lemma OffsetLaws(mouse: real, index: nat, intensity: real)
    ensures LayerOffset(mouse, index, intensity) == (index + 1) as real * LayerOffset(mouse, 0, intensity)
    ensures mouse == 0.0 ==> LayerOffset(mouse, index, intensity) == 0.0
    ensures -1.0 <= mouse <= 1.0 && intensity >= 0.0 ==>
              -10.0 * (index + 1) as real * intensity <= LayerOffset(mouse, index, intensity) <= 10.0 * (index + 1) as real * intensity
  {
    var depth := (index + 1) as real;
    if -1.0 <= mouse <= 1.0 && intensity >= 0.0 {
      assert 0.0 <= depth * intensity;
      assert -1.0 * (depth * intensity) <= mouse * (depth * intensity) <= 1.0 * (depth * intensity);
    }
  }

  /** A layer's tween target. */
  datatype Offset = Offset(x: real, y: real)

  /** The component's state: generated bodies and the layers' current tween targets. */
  class Parallax {
    var stars: seq<Body>
    var nebulae: seq<Body>
    var targets: seq<Offset>

    constructor ()
      ensures stars == [] && nebulae == [] && targets == []
    {
      stars, nebulae, targets := [], [], [];
    }

    /** The star-generation loop, followed by storing the new list. */
    method GenerateStars(draws: seq<BodyDraw>)
      requires |draws| == StarTotal && forall k :: 0 <= k < |draws| ==> ValidDraw(draws[k])
      modifies this
      ensures |stars| == StarTotal && forall k :: 0 <= k < StarTotal ==> stars[k] == MakeStar(draws[k])
      ensures Layered(stars)
      ensures nebulae == old(nebulae) && targets == old(targets)
    {
      var newStars: seq<Body> := [];
      var i := 0;
      while i < StarTotal
        invariant 0 <= i <= StarTotal && |newStars| == i
        invariant forall k :: 0 <= k < i ==> newStars[k] == MakeStar(draws[k])
      {
        newStars := newStars + [MakeStar(draws[i])];
        i := i + 1;
      }
      stars := newStars;
    }

    /** The nebula-generation loop, followed by storing the new list. */
    method GenerateNebulae(draws: seq<BodyDraw>)
      requires |draws| == NebulaTotal && forall k :: 0 <= k < |draws| ==> ValidDraw(draws[k])
      modifies this
      ensures |nebulae| == NebulaTotal && forall k :: 0 <= k < NebulaTotal ==> nebulae[k] == MakeNebula(draws[k])
      ensures Layered(nebulae)
      ensures stars == old(stars) && targets == old(targets)
    {
      var newNebulae: seq<Body> := [];
      var i := 0;
      while i < NebulaTotal
        invariant 0 <= i <= NebulaTotal && |newNebulae| == i
        invariant forall k :: 0 <= k < i ==> newNebulae[k] == MakeNebula(draws[k])
      {
        newNebulae := newNebulae + [MakeNebula(draws[i])];
        i := i + 1;
      }
      nebulae := newNebulae;
    }

    /**
     * The pointer handler: without a container nothing happens; otherwise each of the three
     * layers, in document order, is sent toward its offset.
     */
    method HandleMouseMove(containerReady: bool, clientX: real, clientY: real,
                           innerWidth: real, innerHeight: real, intensity: real)
      requires innerWidth > 0.0 && innerHeight > 0.0
      modifies this
      ensures !containerReady ==> targets == old(targets)
      ensures containerReady ==>
                |targets| == LayerCount &&
                forall k :: 0 <= k < LayerCount ==>
                  targets[k] == Offset(LayerOffset(NormalizePointer(clientX, innerWidth), k, intensity),
                                       LayerOffset(NormalizePointer(clientY, innerHeight), k, intensity))
      ensures stars == old(stars) && nebulae == old(nebulae)
    {
      if !containerReady {
        return;
      }
      var mouseX := NormalizePointer(clientX, innerWidth);
      var mouseY := NormalizePointer(clientY, innerHeight);
      var sent: seq<Offset> := [];
      var index := 0;
      while index < LayerCount
        invariant 0 <= index <= LayerCount && |sent| == index
        invariant forall k :: 0 <= k < index ==>
                    sent[k] == Offset(LayerOffset(mouseX, k, intensity), LayerOffset(mouseY, k, intensity))
      {
        sent := sent + [Offset(LayerOffset(mouseX, index, intensity), LayerOffset(mouseY, index, intensity))];
        index := index + 1;
      }
      targets := sent;
    }
  }
}
