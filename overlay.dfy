/** The drawing decisions of annotate_image in annotate_fits.py: the marker,
    colour and label of every solved object, and the constellation lines with
    their separation labels.  Drawing on the figure is modelled as the
    sequence of primitives issued, in order; the pixel-distance, angle and
    law-of-cosines arithmetic is not computed, the label records its inputs. */
module Overlay {
  import opened PyValues
  import opened StarCatalog

  // ---------------------------------------------------------------------------
  // Primitives
  // ---------------------------------------------------------------------------

  /** The inputs of a separation label: the two endpoints, the pixel scale,
      and the two catalogue distances when both are known (the " ly" suffix). */
  datatype Separation = Separation(x1: real, y1: real, x2: real, y2: real,
                                   degPerPixel: real, distancesLy: Option<(real, real)>)

  /** One call on the axes. */
  datatype Primitive =
    | Circle(cx: real, cy: real, radius: real, edge: string)             // patches.Circle, unfilled
    | Marker(x: real, y: real, size: real, color: string, marker: char)  // ax.scatter
    | Text(x: real, y: real, text: string, color: string)                // ax.text for a solved object
    | Segment(x1: real, y1: real, x2: real, y2: real, color: string)     // ax.plot of a line
    | SeparationText(x: real, y: real, sep: Separation)                  // white ax.text at a midpoint

  // ---------------------------------------------------------------------------
  // Per-annotation style
  // ---------------------------------------------------------------------------

  datatype Style = Style(color: string, marker: char, size: real)

  /** ann.get('type', 'unknown') */
  function KindOf(a: Annotation): string {
    a.kind.GetOr("unknown")
  }

  /** ann.get('radius', 0) */
  function RadiusOf(a: Annotation): real {
    a.radius.GetOr(0.0)
  }

  /** names[0] if names else "Unknown" */
  function LabelOf(a: Annotation): (name: string)
    ensures a.names.None? || a.names.value == [] ==> name == "Unknown"
    ensures a.names.Some? && a.names.value != [] ==> name == a.names.value[0]
  {
    if a.names.Some? && a.names.value != [] then a.names.value[0] else "Unknown"
  }

  /** The colour coding: deep-sky objects ("ngc", "ic") are cyan circles
      sized by their radius, bright stars yellow stars, everything else a red
      cross. */
  function StyleFor(kind: string, radius: real): (s: Style)
    ensures s.size > 0.0
    ensures s.color == "cyan" <==> kind == "ngc" || kind == "ic"
    ensures s.color == "yellow" <==> kind == "bright"
    ensures s.color == "red" <==> kind != "ngc" && kind != "ic" && kind != "bright"
    ensures s.color == "cyan" ==> s.marker == 'o' && s.size == (if radius > 0.0 then radius else 20.0)
    ensures s.color == "yellow" ==> s.marker == '*' && s.size == 50.0
    ensures s.color == "red" ==> s.marker == 'x' && s.size == 20.0
  {
    if kind == "ngc" || kind == "ic" then
      Style("cyan", 'o', if radius > 0.0 then radius else 20.0)
    else if kind == "bright" then
      Style("yellow", '*', 50.0)
    else
      Style("red", 'x', 20.0)
  }

  /** An annotation without a type is drawn as an unknown object: a red cross. */
  lemma MissingTypeIsRed(a: Annotation)
    requires a.kind.None?
    ensures StyleFor(KindOf(a), RadiusOf(a)) == Style("red", 'x', 20.0)
  {
  }

  /** The one shape drawn for an annotation: a circle of its radius when the
      radius exceeds 5 pixels, otherwise a point marker of its style. */
  function ShapeFor(a: Annotation): (p: Primitive)
    ensures p.Circle? <==> RadiusOf(a) > 5.0
    ensures p.Circle? ==> p == Circle(a.pixelx, a.pixely, RadiusOf(a), StyleFor(KindOf(a), RadiusOf(a)).color)
    ensures p.Marker? ==> p.x == a.pixelx && p.y == a.pixely && p.size > 0.0
    ensures p.Marker? ==> p.size == StyleFor(KindOf(a), RadiusOf(a)).size
                          && p.color == StyleFor(KindOf(a), RadiusOf(a)).color
                          && p.marker == StyleFor(KindOf(a), RadiusOf(a)).marker
  {
    var s := StyleFor(KindOf(a), RadiusOf(a));
    if RadiusOf(a) > 5.0 then Circle(a.pixelx, a.pixely, RadiusOf(a), s.color)
    else Marker(a.pixelx, a.pixely, s.size, s.color, s.marker)
  }

  /** The label of an annotation, offset by 10 pixels in both axes, in the
      annotation's colour. */
  function LabelFor(a: Annotation): (p: Primitive)
    ensures p.Text? && p.x == a.pixelx + 10.0 && p.y == a.pixely + 10.0
    ensures p.text == LabelOf(a) && p.color == StyleFor(KindOf(a), RadiusOf(a)).color
  {
    Text(a.pixelx + 10.0, a.pixely + 10.0, LabelOf(a), StyleFor(KindOf(a), RadiusOf(a)).color)
  }

  /** What the annotation loop draws for the first |anns| annotations. */
  function AnnotationLayer(anns: seq<Annotation>): (ps: seq<Primitive>)
    ensures |ps| == 2 * |anns|
  {
    if anns == [] then []
    else AnnotationLayer(anns[..|anns| - 1]) + [ShapeFor(anns[|anns| - 1]), LabelFor(anns[|anns| - 1])]
  }

  /** Each annotation contributes exactly its shape and then its label, in
      list order. */
  lemma {:induction false} AnnotationLayerAt(anns: seq<Annotation>, i: nat)
    requires i < |anns|
    ensures AnnotationLayer(anns)[2 * i] == ShapeFor(anns[i])
    ensures AnnotationLayer(anns)[2 * i + 1] == LabelFor(anns[i])
  {
    if i < |anns| - 1 {
      AnnotationLayerAt(anns[..|anns| - 1], i);
    }
  }

  /** The annotation loop of annotate_image. */
  method DrawAnnotations(anns: seq<Annotation>) returns (ps: seq<Primitive>)
    ensures ps == AnnotationLayer(anns)
  {
    ps := [];
    var k := 0;
    while k < |anns|
      invariant 0 <= k <= |anns|
      invariant ps == AnnotationLayer(anns[..k])
    {
      var a := anns[k];
      ps := ps + [ShapeFor(a), LabelFor(a)];
      assert anns[..k + 1][..k] == anns[..k];
      k := k + 1;
    }
    assert anns[..k] == anns;
  }

  // ---------------------------------------------------------------------------
  // Constellation lines
  // ---------------------------------------------------------------------------

  /** colors.get(name, 'lime'), with colors the table CONSTELLATION_COLORS */
  function LineColor(colors: map<string, string>, name: string): (c: string)
    ensures name !in colors ==> c == "lime"
    ensures name in colors ==> c == colors[name]
  {
    if name in colors then colors[name] else "lime"
  }

  /** Python truthiness of the pixel scale: absent (None) or zero is false. */
  predicate ScaleKnown(degPerPixel: Option<real>) {
    degPerPixel.Some? && degPerPixel.value != 0.0
  }

  /** A distance lookup distances.get(pattern), read as a truth value. */
  predicate DistanceKnown(distances: map<string, real>, pattern: string) {
    pattern in distances && distances[pattern] != 0.0
  }

  /** The two catalogue distances, looked up by the catalogue patterns (not
      by the alias that matched), when both are truthy. */
  function DistancePair(distances: map<string, real>, p1: string, p2: string): (d: Option<(real, real)>)
    ensures d.Some? <==> DistanceKnown(distances, p1) && DistanceKnown(distances, p2)
    ensures d.Some? ==> d.value == (distances[p1], distances[p2])
  {
    if DistanceKnown(distances, p1) && DistanceKnown(distances, p2) then Some((distances[p1], distances[p2]))
    else None
  }

  /** Both endpoint patterns resolve to an annotation. */
  predicate Resolves(edge: (string, string), anns: seq<Annotation>) {
    FindStar(edge.0, anns).Some? && FindStar(edge.1, anns).Some?
  }

  /** What one pair of a constellation draws once both endpoints have been
      looked up: nothing unless both resolved; otherwise the segment between
      them, followed, when the pixel scale is known, by the separation label
      at the segment's midpoint carrying the pair's catalogue distances. */
  function EdgePrimitives(star1: Option<Annotation>, star2: Option<Annotation>, color: string,
                          degPerPixel: Option<real>, distancesLy: Option<(real, real)>): (ps: seq<Primitive>)
    ensures ps != [] <==> star1.Some? && star2.Some?
    ensures ps != [] ==>
              ps[0] == Segment(star1.value.pixelx, star1.value.pixely, star2.value.pixelx, star2.value.pixely, color)
    ensures |ps| == 2 <==> star1.Some? && star2.Some? && ScaleKnown(degPerPixel)
    ensures |ps| == 2 ==>
              var s1, s2 := star1.value, star2.value;
              ps[1] == SeparationText((s1.pixelx + s2.pixelx) / 2.0, (s1.pixely + s2.pixely) / 2.0,
                                      Separation(s1.pixelx, s1.pixely, s2.pixelx, s2.pixely,
                                                 degPerPixel.value, distancesLy))
    ensures |ps| <= 2
  {
    if star1.Some? && star2.Some? then
      var s1, s2 := star1.value, star2.value;
      [Segment(s1.pixelx, s1.pixely, s2.pixelx, s2.pixely, color)]
      + if ScaleKnown(degPerPixel) then
          [SeparationText((s1.pixelx + s2.pixelx) / 2.0, (s1.pixely + s2.pixely) / 2.0,
                          Separation(s1.pixelx, s1.pixely, s2.pixelx, s2.pixely, degPerPixel.value, distancesLy))]
        else []
    else []
  }

  /** What the inner loop draws for one pair of catalogue patterns. */
  function PairPrimitives(edge: (string, string), anns: seq<Annotation>, color: string,
                          degPerPixel: Option<real>, distances: map<string, real>): seq<Primitive>
  {
    EdgePrimitives(FindStar(edge.0, anns), FindStar(edge.1, anns), color, degPerPixel,
                   DistancePair(distances, edge.0, edge.1))
  }

  /** What the inner loop draws for the first |lines| pairs of a constellation. */
  function ConstellationLayer(lines: seq<(string, string)>, anns: seq<Annotation>, color: string,
                              degPerPixel: Option<real>, distances: map<string, real>): seq<Primitive>
  {
    if lines == [] then []
    else ConstellationLayer(lines[..|lines| - 1], anns, color, degPerPixel, distances)
         + PairPrimitives(lines[|lines| - 1], anns, color, degPerPixel, distances)
  }

  /** The number of pairs whose two endpoints resolve. */
  function ResolvedCount(lines: seq<(string, string)>, anns: seq<Annotation>): (n: nat)
    ensures n <= |lines|
  {
    if lines == [] then 0
    else ResolvedCount(lines[..|lines| - 1], anns) + (if Resolves(lines[|lines| - 1], anns) then 1 else 0)
  }

  function CountSegments(ps: seq<Primitive>): nat {
    if ps == [] then 0
    else CountSegments(ps[..|ps| - 1]) + (if ps[|ps| - 1].Segment? then 1 else 0)
  }

  lemma {:induction false} CountSegmentsAppend(a: seq<Primitive>, b: seq<Primitive>)
    ensures CountSegments(a + b) == CountSegments(a) + CountSegments(b)
    decreases |b|
  {
    if b != [] {
      assert (a + b)[..|a + b| - 1] == a + b[..|b| - 1];
      CountSegmentsAppend(a, b[..|b| - 1]);
    } else {
      assert a + b == a;
    }
  }

  /** One pair draws one segment when both endpoints resolved, none otherwise. */
  lemma EdgeSegments(star1: Option<Annotation>, star2: Option<Annotation>, color: string,
                     degPerPixel: Option<real>, distancesLy: Option<(real, real)>)
    ensures CountSegments(EdgePrimitives(star1, star2, color, degPerPixel, distancesLy))
            == if star1.Some? && star2.Some? then 1 else 0
  {
    var e := EdgePrimitives(star1, star2, color, degPerPixel, distancesLy);
    if |e| == 2 {
      assert e[..1] == [e[0]] && [e[0]][..0] == [];
      assert CountSegments(e[..1]) == 1;
      assert !e[1].Segment?;
    } else if |e| == 1 {
      assert e[..0] == [];
    }
  }

  /** lines_drawn: a constellation's layer holds exactly one segment per pair
      whose endpoints both resolve. */
  lemma {:induction false} SegmentsAreResolvedPairs(lines: seq<(string, string)>, anns: seq<Annotation>,
                                                     color: string, degPerPixel: Option<real>,
                                                     distances: map<string, real>)
    ensures CountSegments(ConstellationLayer(lines, anns, color, degPerPixel, distances)) == ResolvedCount(lines, anns)
  {
    if lines != [] {
      var init, last := lines[..|lines| - 1], lines[|lines| - 1];
      SegmentsAreResolvedPairs(init, anns, color, degPerPixel, distances);
      CountSegmentsAppend(ConstellationLayer(init, anns, color, degPerPixel, distances),
                          PairPrimitives(last, anns, color, degPerPixel, distances));
      EdgeSegments(FindStar(last.0, anns), FindStar(last.1, anns), color, degPerPixel,
                   DistancePair(distances, last.0, last.1));
    }
  }

  /** Every primitive of a constellation's layer is a segment in the
      constellation's colour or a separation label, and there is no
      separation label when the pixel scale is unknown. */
  lemma {:induction false} ConstellationLayerShape(lines: seq<(string, string)>, anns: seq<Annotation>,
                                                    color: string, degPerPixel: Option<real>,
                                                    distances: map<string, real>)
    ensures forall p :: p in ConstellationLayer(lines, anns, color, degPerPixel, distances) ==>
              (p.Segment? && p.color == color) || (p.SeparationText? && ScaleKnown(degPerPixel))
  {
    if lines != [] {
      ConstellationLayerShape(lines[..|lines| - 1], anns, color, degPerPixel, distances);
    }
  }

  /** One pass of the inner loop: look up both patterns and draw the pair. */
  method DrawPair(pattern1: string, pattern2: string, anns: seq<Annotation>, color: string,
                  degPerPixel: Option<real>, distances: map<string, real>)
    returns (ps: seq<Primitive>, drawn: bool)
    ensures ps == PairPrimitives((pattern1, pattern2), anns, color, degPerPixel, distances)
    ensures drawn <==> Resolves((pattern1, pattern2), anns)
  {
    var star1 := FindStar(pattern1, anns);
    var star2 := FindStar(pattern2, anns);
    drawn := star1.Some? && star2.Some?;
    ps := DrawEdge(star1, star2, color, degPerPixel, DistancePair(distances, pattern1, pattern2));
  }

  /** The drawing calls for one pair once both endpoints have been looked up. */
  method DrawEdge(star1: Option<Annotation>, star2: Option<Annotation>, color: string,
                  degPerPixel: Option<real>, distancesLy: Option<(real, real)>)
    returns (ps: seq<Primitive>)
    ensures ps == EdgePrimitives(star1, star2, color, degPerPixel, distancesLy)
  {
    ps := [];
    ghost var e := EdgePrimitives(star1, star2, color, degPerPixel, distancesLy);
    if star1.Some? && star2.Some? {
      var x1, y1, x2, y2 := star1.value.pixelx, star1.value.pixely, star2.value.pixelx, star2.value.pixely;
      ps := [Segment(x1, y1, x2, y2, color)];
      if ScaleKnown(degPerPixel) {
        var mx, my := (x1 + x2) / 2.0, (y1 + y2) / 2.0;
        ps := ps + [SeparationText(mx, my, Separation(x1, y1, x2, y2, degPerPixel.value, distancesLy))];
        assert |e| == 2 && e[0] == ps[0] && e[1] == ps[1];
      } else {
        assert |e| == 1 && e[0] == ps[0];
      }
    }
  }

  /** The inner loop over the pairs of one constellation: the primitives it
      draws and lines_drawn. */
  method DrawConstellation(lines: seq<(string, string)>, anns: seq<Annotation>, color: string,
                           degPerPixel: Option<real>, distances: map<string, real>)
    returns (ps: seq<Primitive>, linesDrawn: nat)
    ensures ps == ConstellationLayer(lines, anns, color, degPerPixel, distances)
    ensures linesDrawn == ResolvedCount(lines, anns)
  {
    ps, linesDrawn := [], 0;
    var k := 0;
    while k < |lines|
      invariant 0 <= k <= |lines|
      invariant ps == ConstellationLayer(lines[..k], anns, color, degPerPixel, distances)
      invariant linesDrawn == ResolvedCount(lines[..k], anns)
    {
      var (pattern1, pattern2) := lines[k];
      var pair, drawn := DrawPair(pattern1, pattern2, anns, color, degPerPixel, distances);
      ps := ps + pair;
      if drawn {
        linesDrawn := linesDrawn + 1;
      }
      assert lines[..k + 1][..k] == lines[..k];
      k := k + 1;
    }
    assert lines[..k] == lines;
  }

  /** What the outer loop draws for the first |table| constellations. */
  function LinesLayer(table: seq<(string, seq<(string, string)>)>, colors: map<string, string>,
                      distances: map<string, real>, anns: seq<Annotation>, degPerPixel: Option<real>): seq<Primitive>
  {
    if table == [] then []
    else LinesLayer(table[..|table| - 1], colors, distances, anns, degPerPixel)
         + ConstellationLayer(table[|table| - 1].1, anns, LineColor(colors, table[|table| - 1].0), degPerPixel, distances)
  }

  lemma LinesLayerStep(table: seq<(string, seq<(string, string)>)>, c: nat, colors: map<string, string>,
                       distances: map<string, real>, anns: seq<Annotation>, degPerPixel: Option<real>)
    requires c < |table|
    ensures LinesLayer(table[..c + 1], colors, distances, anns, degPerPixel)
            == LinesLayer(table[..c], colors, distances, anns, degPerPixel)
               + ConstellationLayer(table[c].1, anns, LineColor(colors, table[c].0), degPerPixel, distances)
  {
    assert table[..c + 1][..c] == table[..c];
  }

  /** The outer loop over the constellation table, in table order: the
      primitives drawn and each constellation's lines_drawn. */
  method DrawConstellationLines(table: seq<(string, seq<(string, string)>)>, colors: map<string, string>,
                                distances: map<string, real>, anns: seq<Annotation>, degPerPixel: Option<real>)
    returns (ps: seq<Primitive>, drawn: seq<nat>)
    ensures ps == LinesLayer(table, colors, distances, anns, degPerPixel)
    ensures |drawn| == |table|
    ensures forall c :: 0 <= c < |table| ==> drawn[c] == ResolvedCount(table[c].1, anns)
  {
    ps, drawn := [], [];
    var c := 0;
    while c < |table|
      invariant 0 <= c <= |table|
      invariant ps == LinesLayer(table[..c], colors, distances, anns, degPerPixel)
      invariant |drawn| == c
      invariant forall i :: 0 <= i < c ==> drawn[i] == ResolvedCount(table[i].1, anns)
    {
      var lineColor := LineColor(colors, table[c].0);
      var layer, linesDrawn := DrawConstellation(table[c].1, anns, lineColor, degPerPixel, distances);
      LinesLayerStep(table, c, colors, distances, anns, degPerPixel);
      ps := ps + layer;
      assert forall i :: 0 <= i < c ==> (drawn + [linesDrawn])[i] == drawn[i];
      drawn := drawn + [linesDrawn];
      c := c + 1;
    }
    assert table[..c] == table;
  }

  /** The overlay of annotate_image: every solved object, then the lines of
      every constellation of CONSTELLATION_LINES. */
  method AnnotateImage(anns: seq<Annotation>, degPerPixel: Option<real>) returns (ps: seq<Primitive>, drawn: seq<nat>)
    ensures ps == AnnotationLayer(anns)
                  + LinesLayer(CONSTELLATION_LINES, CONSTELLATION_COLORS, STAR_DISTANCES_LY, anns, degPerPixel)
    ensures |drawn| == |CONSTELLATION_LINES|
    ensures forall c :: 0 <= c < |CONSTELLATION_LINES| ==>
              drawn[c] == ResolvedCount(CONSTELLATION_LINES[c].1, anns)
  {
    var marks := DrawAnnotations(anns);
    var lines;
    lines, drawn := DrawConstellationLines(CONSTELLATION_LINES, CONSTELLATION_COLORS, STAR_DISTANCES_LY, anns, degPerPixel);
    ps := marks + lines;
  }
}
