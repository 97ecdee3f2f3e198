/**
 * The wire tracks of src/day03.rs.  A wire is a comma-separated list of
 * turns such as `R8` (a direction and a distance); laid out from the
 * origin, each turn is a straight vector starting where the previous one
 * ended.  A track maps the grid points a wire covers to what is drawn there:
 * the start, a horizontal or vertical piece, or an intersection where two
 * tracks share a point.
 */
module Wires {
  import opened Wrappers
  import Text

  datatype Point = Point(x: int, y: int)

  /** `Point::default()`, the point every track starts from. */
  const ORIGIN := Point(0, 0)

  datatype Direction = Left | Right | Up | Down

  datatype Turn = Turn(dir: Direction, dist: int)

  datatype Vector = Vector(start: Point, turn: Turn)

  datatype Plot = Start | Horiz | Vert | Intersect

  /** `Distance for Point`: the Manhattan distance. */
  function Distance(a: Point, b: Point): (d: nat)
    ensures d == 0 <==> a == b
  {
    Text.Abs(a.x - b.x) + Text.Abs(a.y - b.y)
  }

  lemma DistanceSymmetric(a: Point, b: Point)
    ensures Distance(a, b) == Distance(b, a)
  {
  }

  lemma DistanceTriangle(a: Point, b: Point, c: Point)
    ensures Distance(a, c) <= Distance(a, b) + Distance(b, c)
  {
  }

  /** `Distance for Vector`: the distance between the two start points. */
  function VectorDistance(v: Vector, w: Vector): (d: nat)
    ensures d == 0 <==> v.start == w.start
  {
    Distance(v.start, w.start)
  }

  /**
   * `Point::turn`: `dist` steps along the direction, where Left and Up
   * decrease x and y, Right and Down increase them.
   */
  function Move(p: Point, t: Turn): (q: Point)
    ensures Distance(p, q) == Text.Abs(t.dist)
    ensures t.dir == Left || t.dir == Right ==> q.y == p.y
    ensures t.dir == Up || t.dir == Down ==> q.x == p.x
    // a forward move goes left and up toward smaller coordinates, right and down toward larger
    ensures t.dist >= 0 ==>
      && (t.dir == Left ==> q.x <= p.x)
      && (t.dir == Right ==> q.x >= p.x)
      && (t.dir == Up ==> q.y <= p.y)
      && (t.dir == Down ==> q.y >= p.y)
  {
    match t.dir
    case Left => Point(p.x - t.dist, p.y)
    case Right => Point(p.x + t.dist, p.y)
    case Up => Point(p.x, p.y - t.dist)
    case Down => Point(p.x, p.y + t.dist)
  }

  function Opposite(d: Direction): Direction {
    match d
    case Left => Right
    case Right => Left
    case Up => Down
    case Down => Up
  }

  /** Two moves in one direction are one move by the sum of the distances. */
  lemma MoveAdditive(p: Point, d: Direction, a: int, b: int)
    ensures Move(Move(p, Turn(d, a)), Turn(d, b)) == Move(p, Turn(d, a + b))
  {
  }

  /** A move is undone by the same distance in the opposite direction. */
  lemma MoveBack(p: Point, t: Turn)
    ensures Move(Move(p, t), Turn(Opposite(t.dir), t.dist)) == p
  {
  }

  /** Moving the same way by two distances lands on the same point only when the distances agree. */
  lemma MoveInjective(p: Point, d: Direction, a: int, b: int)
    ensures Move(p, Turn(d, a)) == Move(p, Turn(d, b)) <==> a == b
  {
  }

  /** The `vector_end` test. */
  lemma VectorEndTests()
    ensures End(Vector(ORIGIN, Turn(Right, 5))) == Point(5, 0)
    ensures End(Vector(ORIGIN, Turn(Left, 5))) == Point(-5, 0)
    ensures End(Vector(ORIGIN, Turn(Up, 5))) == Point(0, -5)
    ensures End(Vector(ORIGIN, Turn(Down, 5))) == Point(0, 5)
  {
  }

  /** `Vector::len`: the turn's distance, how far the end lies from the start. */
  function Len(v: Vector): (n: int)
    ensures Distance(v.start, End(v)) == Text.Abs(n)
  {
    v.turn.dist
  }

  /** `Vector::end`: the start moved by the vector's turn. */
  function End(v: Vector): (e: Point)
    ensures Distance(v.start, e) == Text.Abs(v.turn.dist)
  {
    Move(v.start, v.turn)
  }

  /**
   * The points a vector's iterator yields: one per unit step, the start
   * left out and the end included.
   */
  function Segment(v: Vector): (ps: seq<Point>)
    requires v.turn.dist >= 0
    ensures |ps| == Len(v)
    ensures |ps| > 0 ==> ps[|ps| - 1] == End(v)
    ensures v.start !in ps
    ensures forall k :: 0 <= k < |ps| ==> Distance(v.start, ps[k]) == k + 1
  {
    seq(v.turn.dist, k requires 0 <= k < v.turn.dist => Move(v.start, Turn(v.turn.dir, k + 1)))
  }

  /**
   * A segment is a walk of unit steps: its first point is one step from the
   * start, and each later point one step from the point before it.
   */
  lemma SegmentUnitSteps(v: Vector, k: nat)
    requires v.turn.dist >= 0 && k < |Segment(v)|
    ensures Segment(v)[k] == Move(if k == 0 then v.start else Segment(v)[k - 1], Turn(v.turn.dir, 1))
  {
    if k > 0 {
      MoveAdditive(v.start, v.turn.dir, k, 1);
    }
  }

  /**
   * The loop of `into_iter`: step from the start one unit at a time until
   * the end is reached, collecting each point reached and counting them.
   */
  method WalkSegment(v: Vector) returns (points: seq<Point>, len: nat)
    requires v.turn.dist >= 0
    ensures points == Segment(v) && len == |points|
  {
    points, len := [], 0;
    var start := v.start;
    var end := End(v);
    var dir := v.turn.dir;
    while start != end
      invariant 0 <= len <= v.turn.dist
      invariant start == Move(v.start, Turn(dir, len))
      invariant points == Segment(v)[..len] && len == |points|
      decreases v.turn.dist - len
    {
      MoveInjective(v.start, dir, len, v.turn.dist);
      start := Move(start, Turn(dir, 1));
      points := points + [start];
      len := len + 1;
    }
    MoveInjective(v.start, dir, len, v.turn.dist);
  }

  /** `VectorPoints`: the collected points of a vector and how far iteration has gone. */
  class VectorPoints {
    var points: seq<Point>
    var index: nat
    var len: nat

    ghost predicate Valid()
      reads this
    {
      len == |points| && index <= len
    }

    constructor (points: seq<Point>, len: nat)
      requires len == |points|
      ensures Valid() && this.points == points && this.len == len && index == 0
    {
      this.points := points;
      this.len := len;
      index := 0;
    }

    /** `Iterator::next`: the points in order, then `None`. */
    method Next() returns (p: Option<Point>)
      requires Valid()
      modifies this`index
      ensures Valid()
      ensures old(index) < len ==> p == Some(points[old(index)]) && index == old(index) + 1
      ensures old(index) == len ==> p == None && index == old(index)
    {
      if index < len {
        index := index + 1;
        p := Some(points[index - 1]);
      } else {
        p := None;
      }
    }
  }

  /**
   * `IntoIterator for Vector` (and `Vector::points`, which calls it): an
   * iterator over the vector's points.  With a negative distance the
   * source's loop walks away from the end until its `i16` coordinate
   * overflows (a panic in a debug build, a wrap-around in a release build);
   * neither is modelled, so the distance must not be negative.
   */
  method IntoIter(v: Vector) returns (it: VectorPoints)
    requires v.turn.dist >= 0
    ensures fresh(it) && it.Valid()
    ensures it.points == Segment(v) && it.index == 0
  {
    var points, len := WalkSegment(v);
    it := new VectorPoints(points, len);
  }

  /** The track of `WireTrack::new`: the origin, drawn as the start. */
  const NEW_TRACK: map<Point, Plot> := map[ORIGIN := Start]

  /** What a vector draws: `Horiz` for a left or right turn, `Vert` for up or down. */
  function PlotFor(d: Direction): (r: Plot)
    ensures r == Horiz || r == Vert
    ensures r == Horiz <==> d == Left || d == Right
  {
    if d == Left || d == Right then Horiz else Vert
  }

  /**
   * `concat` on map values: every point of either track; a point of both is
   * an intersection, any other keeps the plot of the track it comes from.
   */
  function Merge(a: map<Point, Plot>, b: map<Point, Plot>): (r: map<Point, Plot>)
    ensures r.Keys == a.Keys + b.Keys
    ensures forall p :: p in a && p in b ==> r[p] == Intersect
    ensures forall p :: p in b && p !in a ==> r[p] == b[p]
    ensures forall p :: p in a && p !in b ==> r[p] == a[p]
  {
    a + b + map p | p in a.Keys * b.Keys :: Intersect
  }

  /** Merging in one more point of the second track. */
  lemma MergeInsert(a: map<Point, Plot>, b: map<Point, Plot>, p: Point, plot: Plot)
    requires p !in b
    ensures Merge(a, b[p := plot]) == Merge(a, b)[p := if p in a then Intersect else plot]
  {
    var l, r := Merge(a, b[p := plot]), Merge(a, b)[p := if p in a then Intersect else plot];
    assert l.Keys == r.Keys;
    forall q | q in l
      ensures l[q] == r[q]
    {
    }
  }

  /** Painting points onto a map with one plot. */
  function Paint(base: map<Point, Plot>, points: seq<Point>, plot: Plot): (r: map<Point, Plot>)
    ensures forall p :: p in r <==> p in base || p in points
    ensures forall p :: p in points ==> r[p] == plot
    ensures forall p :: p in base && p !in points ==> r[p] == base[p]
  {
    base + map p | p in points :: plot
  }

  lemma PaintSnoc(base: map<Point, Plot>, points: seq<Point>, p: Point, plot: Plot)
    ensures Paint(base, points + [p], plot) == Paint(base, points, plot)[p := plot]
  {
    var l, r := Paint(base, points + [p], plot), Paint(base, points, plot)[p := plot];
    assert points + [p] == points + [p];
    assert (points + [p])[|points|] == p;
    forall q | q in r
      ensures q in l
    {
      if q != p && q !in base {
        var k :| 0 <= k < |points| && points[k] == q;
        assert (points + [p])[k] == q;
      }
    }
    assert l.Keys == r.Keys;
    forall q | q in l
      ensures l[q] == r[q]
    {
    }
  }

  /**
   * `From<Vector> for WireTrack`: a new track with every point of the
   * vector drawn horizontally or vertically; the origin stays the start
   * unless the vector passes through it.
   */
  function VectorTrack(v: Vector): (r: map<Point, Plot>)
    requires v.turn.dist >= 0
    ensures ORIGIN in r
    ensures forall p :: p in r <==> p == ORIGIN || p in Segment(v)
    ensures forall p :: p in Segment(v) ==> r[p] == PlotFor(v.turn.dir)
    ensures ORIGIN !in Segment(v) ==> r[ORIGIN] == Start
  {
    Paint(NEW_TRACK, Segment(v), PlotFor(v.turn.dir))
  }

  /** Why a turn token is refused: its distance is not an `i16`, or its letter is not a direction. */
  datatype TurnError = BadDistance | BadDirection

  /** The direction a turn's first letter names, if it names one. */
  function DirectionOf(c: char): (r: Option<Direction>)
    ensures r.Some? <==> c in "LRUD"
    ensures r.Some? ==> Letter(r.value) == c
  {
    match c
    case 'L' => Some(Left)
    case 'R' => Some(Right)
    case 'U' => Some(Up)
    case 'D' => Some(Down)
    case _ => None
  }

  function Letter(d: Direction): char {
    match d
    case Left => 'L'
    case Right => 'R'
    case Up => 'U'
    case Down => 'D'
  }

  /**
   * `Turn::try_from(&str)`: the characters after the first must parse as an
   * `i16` (checked first), and the first must be L, R, U or D.
   */
  function ParseTurn(s: string): (r: Result<Turn, TurnError>)
    ensures r.Ok? <==>
      |s| >= 1 && DirectionOf(s[0]).Some? && Text.ParseSigned(s[1..], Text.I16_MIN, Text.I16_MAX).Some?
    ensures r.Ok? ==>
      && r.value.dir == DirectionOf(s[0]).value
      && r.value.dist == Text.ParseSigned(s[1..], Text.I16_MIN, Text.I16_MAX).value
    ensures s == [] ==> r == Err(BadDistance)
  {
    var dist := Text.ParseSigned(if s == [] then [] else s[1..], Text.I16_MIN, Text.I16_MAX);
    if dist.None? then Err(BadDistance)
    else if s == [] then Err(BadDirection)
    else
      match DirectionOf(s[0])
      case None => Err(BadDirection)
      case Some(d) => Ok(Turn(d, dist.value))
  }

  /** The token of a turn: its letter, then its distance in decimal. */
  function TurnText(t: Turn): string {
    [Letter(t.dir)] + Text.IntToString(t.dist)
  }

  lemma ParseTurnText(t: Turn)
    requires Text.I16_MIN <= t.dist <= Text.I16_MAX
    ensures ParseTurn(TurnText(t)) == Ok(t)
  {
    var s := TurnText(t);
    assert s[1..] == Text.IntToString(t.dist);
    Text.ParseSignedOfIntToString(t.dist, Text.I16_MIN, Text.I16_MAX);
  }

  /** `filter_map(|s| Turn::try_from(s).ok())`: the tokens that parse, in order. */
  function KeepTurns(tokens: seq<string>): (r: seq<Turn>)
    ensures |r| <= |tokens|
    ensures forall k :: 0 <= k < |r| ==> Text.I16_MIN <= r[k].dist <= Text.I16_MAX
  {
    if tokens == [] then []
    else
      match ParseTurn(tokens[0])
      case Ok(t) => [t] + KeepTurns(tokens[1..])
      case Err(_) => KeepTurns(tokens[1..])
  }

  /** The filter works token by token. */
  lemma {:induction false} KeepTurnsAppend(a: seq<string>, b: seq<string>)
    ensures KeepTurns(a + b) == KeepTurns(a) + KeepTurns(b)
    decreases |a|
  {
    if a == [] {
      assert a + b == b;
    } else {
      assert (a + b)[0] == a[0];
      assert (a + b)[1..] == a[1..] + b;
      KeepTurnsAppend(a[1..], b);
    }
  }

  /** A single token is kept exactly when it parses, as that turn. */
  lemma KeepTurnsSingle(t: string)
    ensures KeepTurns([t]) == if ParseTurn(t).Ok? then [ParseTurn(t).value] else []
  {
    assert [t][1..] == [];
  }

  /** The tokens of a list of turns. */
  function TurnTexts(ts: seq<Turn>): (r: seq<string>)
    ensures |r| == |ts|
    ensures forall k :: 0 <= k < |r| ==> r[k] == TurnText(ts[k])
  {
    if ts == [] then [] else [TurnText(ts[0])] + TurnTexts(ts[1..])
  }

  /** Every turn whose distance fits an `i16`. */
  predicate InRange(ts: seq<Turn>) {
    forall k :: 0 <= k < |ts| ==> Text.I16_MIN <= ts[k].dist <= Text.I16_MAX
  }

  lemma {:induction false} KeepTurnsOfTexts(ts: seq<Turn>)
    requires InRange(ts)
    ensures KeepTurns(TurnTexts(ts)) == ts
    decreases |ts|
  {
    if ts != [] {
      ParseTurnText(ts[0]);
      assert TurnTexts(ts)[1..] == TurnTexts(ts[1..]);
      KeepTurnsOfTexts(ts[1..]);
    }
  }

  /** A turn's token holds no comma. */
  lemma TurnTextNoComma(t: Turn)
    ensures ',' !in TurnText(t)
  {
    var s := TurnText(t);
    var n := Text.IntToString(t.dist);
    forall k | 1 <= k < |s|
      ensures s[k] != ','
    {
      assert s[k] == n[k - 1];
    }
  }

  /** Parsing the comma-joined tokens of turns in range gives the turns back. */
  lemma TurnsOfText(ts: seq<Turn>)
    requires |ts| >= 1 && InRange(ts)
    ensures Turns(Text.Join(TurnTexts(ts), ',')) == ts
  {
    var tokens := TurnTexts(ts);
    forall k | 0 <= k < |tokens|
      ensures ',' !in tokens[k]
    {
      TurnTextNoComma(ts[k]);
    }
    Text.SplitJoin(tokens, ',');
    KeepTurnsOfTexts(ts);
  }

  /** The turns of a wire's text. */
  function Turns(s: string): (r: seq<Turn>)
    ensures forall k :: 0 <= k < |r| ==> Text.I16_MIN <= r[k].dist <= Text.I16_MAX
  {
    KeepTurns(Text.Split(s, ','))
  }

  /** Text without a comma is a single token: the one turn it parses to, or none. */
  lemma TurnsOneToken(s: string)
    requires ',' !in s
    ensures Turns(s) == if ParseTurn(s).Ok? then [ParseTurn(s).value] else []
  {
    Text.SplitOfPiece(s, [], ',');
    KeepTurnsSingle(s);
  }

  /** No turn goes a negative distance. */
  predicate Forward(turns: seq<Turn>) {
    forall k :: 0 <= k < |turns| ==> turns[k].dist >= 0
  }

  /**
   * Laying turns one after the other from `p`, each vector's track merged
   * into `acc`.  Every vector's track holds the origin, so once a turn is
   * laid over a track holding the origin, the origin is an intersection.
   */
  function Lay(p: Point, turns: seq<Turn>, acc: map<Point, Plot>): (r: map<Point, Plot>)
    requires Forward(turns)
    ensures ORIGIN in acc ==> ORIGIN in r
    ensures ORIGIN in acc && turns != [] ==> r[ORIGIN] == Intersect
    decreases |turns|
  {
    if turns == [] then acc
    else
      var v := Vector(p, turns[0]);
      Lay(End(v), turns[1..], Merge(acc, VectorTrack(v)))
  }

  /** Laying out a non-empty list of turns: the first vector, then the rest from its end. */
  lemma LayFirst(p: Point, turns: seq<Turn>, acc: map<Point, Plot>)
    requires Forward(turns) && turns != []
    ensures Lay(p, turns, acc) == Lay(End(Vector(p, turns[0])), turns[1..], Merge(acc, VectorTrack(Vector(p, turns[0]))))
  {
  }

  /** One turn of the layout loop: lay the vector of turn i, then carry on from its end. */
  lemma LayStep(p: Point, turns: seq<Turn>, i: nat, acc: map<Point, Plot>)
    requires Forward(turns) && i < |turns|
    ensures Forward(turns[i..]) && Forward(turns[i + 1..])
    ensures Lay(p, turns[i..], acc) ==
      Lay(End(Vector(p, turns[i])), turns[i + 1..], Merge(acc, VectorTrack(Vector(p, turns[i]))))
  {
    assert turns[i..][0] == turns[i];
    assert turns[i..][1..] == turns[i + 1..];
    LayFirst(p, turns[i..], acc);
  }

  /** Where the last vector of a wire ends. */
  function Reach(p: Point, turns: seq<Turn>): Point
    decreases |turns|
  {
    if turns == [] then p else Reach(Move(p, turns[0]), turns[1..])
  }

  /** `TryFrom<&str> for WireTrack` on map values. */
  function Wire(s: string): (r: map<Point, Plot>)
    requires Forward(Turns(s))
    ensures ORIGIN in r
    ensures Turns(s) == [] ==> r == NEW_TRACK
  {
    Lay(ORIGIN, Turns(s), NEW_TRACK)
  }

  /** Laying out never drops a point. */
  lemma {:induction false} LayKeeps(p: Point, turns: seq<Turn>, acc: map<Point, Plot>, q: Point)
    requires Forward(turns) && q in acc
    ensures q in Lay(p, turns, acc)
    decreases |turns|
  {
    if turns != [] {
      var v := Vector(p, turns[0]);
      LayKeeps(End(v), turns[1..], Merge(acc, VectorTrack(v)), q);
    }
  }

  /** Once the origin is an intersection, it stays one. */
  lemma {:induction false} LayKeepsIntersect(p: Point, turns: seq<Turn>, acc: map<Point, Plot>)
    requires Forward(turns) && ORIGIN in acc && acc[ORIGIN] == Intersect
    ensures ORIGIN in Lay(p, turns, acc) && Lay(p, turns, acc)[ORIGIN] == Intersect
    decreases |turns|
  {
    if turns != [] {
      var v := Vector(p, turns[0]);
      LayKeepsIntersect(End(v), turns[1..], Merge(acc, VectorTrack(v)));
    }
  }

  /**
   * Every vector's track holds the origin, so after the first valid turn
   * the origin of a wire is an intersection; with no valid turn it is the start.
   */
  lemma WireOrigin(s: string)
    requires Forward(Turns(s))
    ensures ORIGIN in Wire(s)
    ensures Wire(s)[ORIGIN] == if Turns(s) == [] then Start else Intersect
  {
    var turns := Turns(s);
    if turns != [] {
      var v := Vector(ORIGIN, turns[0]);
      LayKeepsIntersect(End(v), turns[1..], Merge(NEW_TRACK, VectorTrack(v)));
    }
  }

  /** Each vector starts where the last one ended, so the point a wire ends at is on its track. */
  lemma {:induction false} LayReaches(p: Point, turns: seq<Turn>, acc: map<Point, Plot>)
    requires Forward(turns) && p in acc
    ensures Reach(p, turns) in Lay(p, turns, acc)
    decreases |turns|
  {
    if turns != [] {
      var v := Vector(p, turns[0]);
      var next := Merge(acc, VectorTrack(v));
      if Len(v) > 0 {
        assert Segment(v)[Len(v) - 1] == End(v);
      }
      LayReaches(End(v), turns[1..], next);
    }
  }

  /** The two coordinates of a point. */
  datatype Axis = X | Y

  function Coord(p: Point, a: Axis): int {
    if a == X then p.x else p.y
  }

  /** `min_by` on a coordinate: a point whose coordinate is least. */
  method MinBy(points: set<Point>, a: Axis) returns (best: Point)
    requires points != {}
    ensures best in points && forall p :: p in points ==> Coord(best, a) <= Coord(p, a)
  {
    best :| best in points;
    var rest := points - {best};
    ghost var seen := {best};
    while rest != {}
      invariant seen + rest == points && best in points
      invariant forall p :: p in seen ==> Coord(best, a) <= Coord(p, a)
      decreases rest
    {
      var p :| p in rest;
      if Coord(p, a) < Coord(best, a) {
        best := p;
      }
      rest := rest - {p};
      seen := seen + {p};
    }
  }

  /** `max_by` on a coordinate: a point whose coordinate is greatest. */
  method MaxBy(points: set<Point>, a: Axis) returns (best: Point)
    requires points != {}
    ensures best in points && forall p :: p in points ==> Coord(p, a) <= Coord(best, a)
  {
    best :| best in points;
    var rest := points - {best};
    ghost var seen := {best};
    while rest != {}
      invariant seen + rest == points && best in points
      invariant forall p :: p in seen ==> Coord(p, a) <= Coord(best, a)
      decreases rest
    {
      var p :| p in rest;
      if Coord(p, a) >= Coord(best, a) {
        best := p;
      }
      rest := rest - {p};
      seen := seen + {p};
    }
  }

  /**
   * The loop of `From<Vector> for WireTrack`: a new track, then each point
   * the vector's iterator yields drawn with the vector's plot.
   */
  method DrawVector(v: Vector) returns (m: map<Point, Plot>)
    requires v.turn.dist >= 0
    ensures m == VectorTrack(v)
  {
    var plot := PlotFor(v.turn.dir);
    m := NEW_TRACK;
    var it := IntoIter(v);
    ghost var points := it.points;
    var done := false;
    while !done
      invariant it.Valid() && it.points == points && it.len == |points|
      invariant m == Paint(NEW_TRACK, points[..it.index], plot)
      invariant done ==> it.index == |points|
      decreases |points| - it.index, !done
    {
      ghost var before := it.index;
      var next := it.Next();
      if next.Some? {
        PaintSnoc(NEW_TRACK, points[..before], next.value, plot);
        assert points[..it.index] == points[..before] + [next.value];
        m := m[next.value := plot];
      } else {
        done := true;
      }
    }
    assert points[..it.index] == points;
  }

  /** `WireTrack`: the plots of the points a wire covers. */
  class WireTrack {
    var plots: map<Point, Plot>

    /** Every track holds the origin. */
    ghost predicate Valid()
      reads this
    {
      ORIGIN in plots
    }

    /** `WireTrack::new`. */
    constructor ()
      ensures Valid() && plots == NEW_TRACK
    {
      plots := NEW_TRACK;
    }

    /** `From<Vector> for WireTrack`: draw each point the vector's iterator yields. */
    constructor FromVector(v: Vector)
      requires v.turn.dist >= 0
      ensures Valid() && plots == VectorTrack(v)
    {
      var m := DrawVector(v);
      plots := m;
    }

    /** `concat`: merge another track into this one. */
    method Concat(other: WireTrack)
      requires Valid()
      modifies this
      ensures Valid()
      ensures plots == Merge(old(plots), old(other.plots))
    {
      var incoming := other.plots;
      var todo := incoming.Keys;
      while todo != {}
        invariant todo <= incoming.Keys
        invariant plots == Merge(old(plots), incoming - todo)
        decreases todo
      {
        var p :| p in todo;
        ghost var done := incoming - todo;
        assert incoming - (todo - {p}) == done[p := incoming[p]];
        MergeInsert(old(plots), done, p, incoming[p]);
        if p in plots {
          plots := plots[p := Intersect];
        } else {
          plots := plots[p := incoming[p]];
        }
        todo := todo - {p};
      }
      assert incoming - todo == incoming;
    }

    /** `left`: the least x of any point on the track. */
    method LeftEdge() returns (x: int)
      requires Valid()
      ensures exists p :: p in plots && p.x == x
      ensures forall p :: p in plots ==> x <= p.x
      ensures x <= 0
    {
      var p := MinBy(plots.Keys, X);
      x := p.x;
    }

    /** `top`: the least y of any point on the track. */
    method TopEdge() returns (y: int)
      requires Valid()
      ensures exists p :: p in plots && p.y == y
      ensures forall p :: p in plots ==> y <= p.y
      ensures y <= 0
    {
      var p := MinBy(plots.Keys, Y);
      y := p.y;
    }

    /** `right`: the greatest x of any point on the track. */
    method RightEdge() returns (x: int)
      requires Valid()
      ensures exists p :: p in plots && p.x == x
      ensures forall p :: p in plots ==> p.x <= x
      ensures x >= 0
    {
      var p := MaxBy(plots.Keys, X);
      x := p.x;
    }

    /** `bot`: the greatest y of any point on the track. */
    method BottomEdge() returns (y: int)
      requires Valid()
      ensures exists p :: p in plots && p.y == y
      ensures forall p :: p in plots ==> p.y <= y
      ensures y >= 0
    {
      var p := MaxBy(plots.Keys, Y);
      y := p.y;
    }

    /** `top_left`: the corner of the bounding box with the least coordinates. */
    method TopLeft() returns (c: Point)
      requires Valid()
      ensures forall p :: p in plots ==> c.x <= p.x && c.y <= p.y
      ensures (exists p :: p in plots && p.x == c.x) && (exists p :: p in plots && p.y == c.y)
    {
      var x := LeftEdge();
      var y := TopEdge();
      c := Point(x, y);
    }

    /** `bot_right`: the corner of the bounding box with the greatest coordinates. */
    method BottomRight() returns (c: Point)
      requires Valid()
      ensures forall p :: p in plots ==> p.x <= c.x && p.y <= c.y
      ensures (exists p :: p in plots && p.x == c.x) && (exists p :: p in plots && p.y == c.y)
    {
      var x := RightEdge();
      var y := BottomEdge();
      c := Point(x, y);
    }
  }

  /**
   * `TryFrom<&str> for WireTrack`: lay each valid turn of the text from
   * where the last one ended, merging each vector's track into the wire's.
   * A turn with a negative distance walks away from its end until the `i16`
   * coordinate overflows, which is not modelled.
   */
  method ParseWire(s: string) returns (w: WireTrack)
    requires Forward(Turns(s))
    ensures fresh(w) && w.Valid() && w.plots == Wire(s)
  {
    w := new WireTrack();
    var point := ORIGIN;
    var turns := Turns(s);
    var i := 0;
    while i < |turns|
      invariant 0 <= i <= |turns| && Forward(turns[i..])
      invariant fresh(w) && w.Valid()
      invariant Lay(point, turns[i..], w.plots) == Lay(ORIGIN, turns, NEW_TRACK)
    {
      var vector := Vector(point, turns[i]);
      var track := new WireTrack.FromVector(vector);
      LayStep(point, turns, i, w.plots);
      w.Concat(track);
      point := End(vector);
      i := i + 1;
    }
    WireOrigin(s);
  }
}
