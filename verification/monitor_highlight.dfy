/**
 * `MonitorHighlightRenderer`: instead of the outline of the block the player looks at, a
 * monitor draws the outline of the whole multi-block monitor. Only the decision logic is
 * modelled: which faces of the looked-at block are outer faces of the monitor, and which
 * of the twelve edges of the unit cube are drawn.
 */
module MonitorHighlight {
  import opened Wrappers

  /** Minecraft's `Direction`. */
  datatype Direction = Down | Up | North | South | West | East

  datatype Axis = X | Y | Z

  const ALL_DIRECTIONS: set<Direction> := {Down, Up, North, South, West, East}

  function AxisOf(d: Direction): Axis {
    match d
    case Down | Up => Y
    case North | South => Z
    case West | East => X
  }

  /** Whether `d` points along its axis in the positive sense (up, south, east). */
  predicate Positive(d: Direction) {
    d == Up || d == South || d == East
  }

  function Opposite(d: Direction): (r: Direction)
    ensures AxisOf(r) == AxisOf(d) && r != d && Positive(r) != Positive(d)
  {
    match d
    case Down => Up
    case Up => Down
    case North => South
    case South => North
    case West => East
    case East => West
  }

  /** The monitor block being looked at: its orientation and its position within the whole monitor. */
  datatype Monitor = Monitor(front: Direction, right: Direction, down: Direction, xIndex: int, yIndex: int, width: int, height: int)

  /**
   * A face stays when it is not the front and no other block of the monitor lies beyond
   * it: the block to the left (against `right`) only exists when `xIndex != 0`, the one
   * to the right when `xIndex != width - 1`, and likewise up and down.
   */
  predicate Outer(m: Monitor, d: Direction) {
    && d != m.front
    && (d == Opposite(m.right) ==> m.xIndex == 0)
    && (d == m.right ==> m.xIndex == m.width - 1)
    && (d == Opposite(m.down) ==> m.yIndex == 0)
    && (d == m.down ==> m.yIndex == m.height - 1)
  }

  function OuterFaces(m: Monitor): set<Direction> {
    set d | d in ALL_DIRECTIONS && Outer(m, d)
  }

  /** The face set of `drawHighlight`: every direction, then one `remove` after another. */
  method ExternalFaces(m: Monitor) returns (faces: set<Direction>)
    ensures faces == OuterFaces(m)
  {
    faces := ALL_DIRECTIONS;
    faces := faces - {m.front};
    if m.xIndex != 0 {
      faces := faces - {Opposite(m.right)};
    }
    if m.xIndex != m.width - 1 {
      faces := faces - {m.right};
    }
    if m.yIndex != 0 {
      faces := faces - {Opposite(m.down)};
    }
    if m.yIndex != m.height - 1 {
      faces := faces - {m.down};
    }
  }

  /** A single-block monitor outlines all faces but its front. */
  lemma SingleBlockKeepsAllButFront(m: Monitor)
    requires m.width == 1 && m.height == 1 && m.xIndex == 0 && m.yIndex == 0
    ensures OuterFaces(m) == ALL_DIRECTIONS - {m.front}
  {
  }

  /** The front is never outlined; a block with neighbours on every side keeps only its back. */
  lemma InnerBlockKeepsOnlyBack(m: Monitor)
    requires 0 < m.xIndex < m.width - 1 && 0 < m.yIndex < m.height - 1
    requires AxisOf(m.front) != AxisOf(m.right) && AxisOf(m.front) != AxisOf(m.down) && AxisOf(m.right) != AxisOf(m.down)
    ensures m.front !in OuterFaces(m)
    ensures OuterFaces(m) == {Opposite(m.front)}
  {
    assert Opposite(m.front) in OuterFaces(m);
    forall d | d in OuterFaces(m)
      ensures d == Opposite(m.front)
    {
      assert AxisOf(d) != AxisOf(m.right) && AxisOf(d) != AxisOf(m.down);
    }
  }

  /** `line(x, y, z, direction)`: a unit segment from the corner `(x, y, z)` along `direction`. */
  datatype Edge = Edge(x: int, y: int, z: int, direction: Direction)

  /** The twelve calls to `line`, in the order `drawHighlight` makes them: four up, four east, four south. */
  const UP_EDGES: seq<Edge> := [Edge(0, 0, 0, Up), Edge(0, 0, 1, Up), Edge(1, 0, 0, Up), Edge(1, 0, 1, Up)]
  const EAST_EDGES: seq<Edge> := [Edge(0, 0, 0, East), Edge(0, 0, 1, East), Edge(0, 1, 0, East), Edge(0, 1, 1, East)]
  const SOUTH_EDGES: seq<Edge> := [Edge(0, 0, 0, South), Edge(1, 0, 0, South), Edge(0, 1, 0, South), Edge(1, 1, 0, South)]
  const CUBE_EDGES: seq<Edge> := UP_EDGES + EAST_EDGES + SOUTH_EDGES

  function Coordinate(e: Edge, a: Axis): int {
    match a
    case X => e.x
    case Y => e.y
    case Z => e.z
  }

  /**
   * The edge lies in face `f` of the unit cube: it runs across `f`'s axis and sits at
   * `f`'s side of it (0 for down, north and west; 1 for up, south and east).
   */
  predicate OnFace(e: Edge, f: Direction) {
    AxisOf(f) != AxisOf(e.direction) && Coordinate(e, AxisOf(f)) == (if Positive(f) then 1 else 0)
  }

  /** An edge of the outline borders at least one of the faces kept. */
  predicate Borders(faces: set<Direction>, e: Edge) {
    exists f :: f in faces && OnFace(e, f)
  }

  function FacesOf(e: Edge): set<Direction> {
    set f | f in ALL_DIRECTIONS && OnFace(e, f)
  }

  /** The two faces each `line` call is conditioned on, in the same order. */
  const EDGE_FACES: seq<(Direction, Direction)> := [
    (North, West), (South, West), (North, East), (South, East),
    (North, Down), (South, Down), (North, Up), (South, Up),
    (West, Down), (East, Down), (West, Up), (East, Up)]

  /**
   * The twelve segments are the twelve edges of the unit cube: each runs along a positive
   * direction from a corner and lies in exactly the two faces its condition names, and
   * no two of them lie in the same two faces.
   */
  lemma CubeEdgesAreTheCube()
    ensures |CUBE_EDGES| == |EDGE_FACES| == 12
    ensures forall i :: 0 <= i < |CUBE_EDGES| ==>
      && FacesOf(CUBE_EDGES[i]) == {EDGE_FACES[i].0, EDGE_FACES[i].1}
      && EDGE_FACES[i].0 != EDGE_FACES[i].1
      && Positive(CUBE_EDGES[i].direction)
    ensures forall i, j :: 0 <= i < j < |CUBE_EDGES| ==> FacesOf(CUBE_EDGES[i]) != FacesOf(CUBE_EDGES[j])
  {
    UpEdgeFaces();
    EastEdgeFaces();
    SouthEdgeFaces();
    EdgeFacePairsDistinct();
  }

  /** The faces of the four upward edges. */
  lemma UpEdgeFaces()
    ensures forall i :: 0 <= i < 4 ==> FacesOf(CUBE_EDGES[i]) == {EDGE_FACES[i].0, EDGE_FACES[i].1} && CUBE_EDGES[i].direction == Up
  {
    assert FacesOf(CUBE_EDGES[0]) == {North, West};
    assert FacesOf(CUBE_EDGES[1]) == {South, West};
    assert FacesOf(CUBE_EDGES[2]) == {North, East};
    assert FacesOf(CUBE_EDGES[3]) == {South, East};
  }

  /** The faces of the four eastward edges. */
  lemma EastEdgeFaces()
    ensures forall i :: 4 <= i < 8 ==> FacesOf(CUBE_EDGES[i]) == {EDGE_FACES[i].0, EDGE_FACES[i].1} && CUBE_EDGES[i].direction == East
  {
    assert FacesOf(CUBE_EDGES[4]) == {North, Down};
    assert FacesOf(CUBE_EDGES[5]) == {South, Down};
    assert FacesOf(CUBE_EDGES[6]) == {North, Up};
    assert FacesOf(CUBE_EDGES[7]) == {South, Up};
  }

  /** The faces of the four southward edges. */
  lemma SouthEdgeFaces()
    ensures forall i :: 8 <= i < 12 ==> FacesOf(CUBE_EDGES[i]) == {EDGE_FACES[i].0, EDGE_FACES[i].1} && CUBE_EDGES[i].direction == South
  {
    assert FacesOf(CUBE_EDGES[8]) == {West, Down};
    assert FacesOf(CUBE_EDGES[9]) == {East, Down};
    assert FacesOf(CUBE_EDGES[10]) == {West, Up};
    assert FacesOf(CUBE_EDGES[11]) == {East, Up};
  }

  /** The twelve conditions name twelve different pairs of two different faces. */
  lemma EdgeFacePairsDistinct()
    ensures forall i :: 0 <= i < 12 ==> EDGE_FACES[i].0 != EDGE_FACES[i].1
    ensures forall i, j :: 0 <= i < j < 12 ==> {EDGE_FACES[i].0, EDGE_FACES[i].1} != {EDGE_FACES[j].0, EDGE_FACES[j].1}
  {
    forall i, j | 0 <= i < j < 12
      ensures {EDGE_FACES[i].0, EDGE_FACES[i].1} != {EDGE_FACES[j].0, EDGE_FACES[j].1}
    {
      var (a, b) := EDGE_FACES[i];
      var (c, d) := EDGE_FACES[j];
      assert a != b && (a, b) != (c, d) && (a, b) != (d, c);
      assert a in {a, b} && b in {a, b};
    }
  }

  /** An edge borders the kept faces exactly when one of its two named faces is kept. */
  lemma BordersByFaces(faces: set<Direction>, i: nat)
    requires i < |CUBE_EDGES|
    ensures Borders(faces, CUBE_EDGES[i]) <==> EDGE_FACES[i].0 in faces || EDGE_FACES[i].1 in faces
  {
    CubeEdgesAreTheCube();
    var e := CUBE_EDGES[i];
    assert EDGE_FACES[i].0 in FacesOf(e) && EDGE_FACES[i].1 in FacesOf(e);
    if Borders(faces, e) {
      var f :| f in faces && OnFace(e, f);
      assert f in FacesOf(e);
    }
  }

  /** No segment is drawn twice. */
  predicate NoRepeats(edges: seq<Edge>) {
    forall i, j :: 0 <= i < j < |edges| ==> edges[i] != edges[j]
  }

  /** The twelve edge conditions: an edge is drawn when one of its two faces is kept. */
  method Outline(faces: set<Direction>) returns (drawn: seq<Edge>)
    ensures forall e :: e in drawn ==> e in CUBE_EDGES
    ensures NoRepeats(drawn)
    ensures forall i :: 0 <= i < |CUBE_EDGES| ==> (CUBE_EDGES[i] in drawn <==> Borders(faces, CUBE_EDGES[i]))
  {
    var up := OutlineUp(faces);
    var east := OutlineEast(faces);
    var south := OutlineSouth(faces);
    drawn := up + east + south;
    forall i | 0 <= i < |CUBE_EDGES|
      ensures CUBE_EDGES[i] in drawn <==> Borders(faces, CUBE_EDGES[i])
    {
      BordersByFaces(faces, i);
    }
  }

  /** The four vertical edges. */
  method OutlineUp(faces: set<Direction>) returns (drawn: seq<Edge>)
    ensures forall e :: e in drawn ==> e in UP_EDGES && e.direction == Up
    ensures NoRepeats(drawn)
    ensures forall i :: 0 <= i < 4 ==> (UP_EDGES[i] in drawn <==> EDGE_FACES[0 + i].0 in faces || EDGE_FACES[0 + i].1 in faces)
  {
    drawn := [];
    if North in faces || West in faces { drawn := drawn + [Edge(0, 0, 0, Up)]; }
    if South in faces || West in faces { drawn := drawn + [Edge(0, 0, 1, Up)]; }
    if North in faces || East in faces { drawn := drawn + [Edge(1, 0, 0, Up)]; }
    if South in faces || East in faces { drawn := drawn + [Edge(1, 0, 1, Up)]; }
  }

  /** The four edges running east. */
  method OutlineEast(faces: set<Direction>) returns (drawn: seq<Edge>)
    ensures forall e :: e in drawn ==> e in EAST_EDGES && e.direction == East
    ensures NoRepeats(drawn)
    ensures forall i :: 0 <= i < 4 ==> (EAST_EDGES[i] in drawn <==> EDGE_FACES[4 + i].0 in faces || EDGE_FACES[4 + i].1 in faces)
  {
    drawn := [];
    if North in faces || Down in faces { drawn := drawn + [Edge(0, 0, 0, East)]; }
    if South in faces || Down in faces { drawn := drawn + [Edge(0, 0, 1, East)]; }
    if North in faces || Up in faces { drawn := drawn + [Edge(0, 1, 0, East)]; }
    if South in faces || Up in faces { drawn := drawn + [Edge(0, 1, 1, East)]; }
  }

  /** The four edges running south. */
  method OutlineSouth(faces: set<Direction>) returns (drawn: seq<Edge>)
    ensures forall e :: e in drawn ==> e in SOUTH_EDGES && e.direction == South
    ensures NoRepeats(drawn)
    ensures forall i :: 0 <= i < 4 ==> (SOUTH_EDGES[i] in drawn <==> EDGE_FACES[8 + i].0 in faces || EDGE_FACES[8 + i].1 in faces)
  {
    drawn := [];
    if West in faces || Down in faces { drawn := drawn + [Edge(0, 0, 0, South)]; }
    if East in faces || Down in faces { drawn := drawn + [Edge(1, 0, 0, South)]; }
    if West in faces || Up in faces { drawn := drawn + [Edge(0, 1, 0, South)]; }
    if East in faces || Up in faces { drawn := drawn + [Edge(1, 1, 0, South)]; }
  }

  /**
   * `drawHighlight`: when the player crouches or looks at something other than a monitor
   * the event is left alone and nothing is drawn; otherwise the event is cancelled and
   * the edges bordering an outer face of the monitor are drawn.
   */
  method DrawHighlight(crouching: bool, target: Option<Monitor>) returns (cancelled: bool, drawn: seq<Edge>)
    ensures cancelled <==> !crouching && target.Some?
    ensures !cancelled ==> drawn == []
    ensures forall e :: e in drawn ==> e in CUBE_EDGES
    ensures cancelled ==> forall i :: 0 <= i < |CUBE_EDGES| ==> (CUBE_EDGES[i] in drawn <==> Borders(OuterFaces(target.value), CUBE_EDGES[i]))
  {
    if crouching {
      return false, [];
    }
    if target.None? {
      return false, [];
    }
    var monitor := target.value;
    cancelled := true;
    var faces := ExternalFaces(monitor);
    drawn := Outline(faces);
  }
}
