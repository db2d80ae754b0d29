/** The staging zone: shapes generated at random, waiting to be dragged onto
    the workspace. It can be regenerated, saved, restored from a saved list
    and cleared. */
module Staging {
  import opened Snapshot

  /** A staged shape: its point list and colour attribute, its `draggable`
      and `buffer` flags and the side of its box in pixels. */
  datatype StagedShape = StagedShape(
    points: string,
    color: Option<string>,
    draggable: bool,
    buffer: bool,
    size: real)

  /** Every staged shape is draggable, flagged as staged, 100 pixels wide,
      and carries a colour only when it is truthy. */
  ghost predicate WellFormed(s: StagedShape)
  {
    s.draggable && s.buffer && s.size == 100.0 && s.color == KeptColor(s.color)
  }

  /** The staged shape rebuilt from a saved entry's points and colour. */
  function StagedFrom(points: string, color: Option<string>): (s: StagedShape)
    ensures WellFormed(s)
    ensures s.points == points
    ensures Truthy(color) ==> s.color == color
    ensures !Truthy(color) ==> s.color == None
  {
    StagedShape(points, KeptColor(color), true, true, 100.0)
  }

  /** How many shapes one regeneration makes from the random draw `r`. */
  function PolygonCount(r: real): (c: int)
    ensures 0.0 <= r < 1.0 ==> 5 <= c <= 20
  {
    var c := (r * 16.0).Floor + 5;
    FloorScaled(r, 16);
    c
  }

  /** How many vertices a generated shape gets from the random draw `r`. */
  function VertexCount(r: real): (v: int)
    ensures 0.0 <= r < 1.0 ==> 3 <= v <= 7
  {
    var v := (r * 5.0).Floor + 3;
    FloorScaled(r, 5);
    v
  }

  lemma FloorScaled(r: real, n: int)
    requires n > 0
    ensures 0.0 <= r < 1.0 ==> 0 <= (r * n as real).Floor < n
  {
    if 0.0 <= r < 1.0 {
      assert 0.0 <= r * n as real < n as real;
    }
  }

  function SaveStaged(items: seq<StagedShape>): (r: seq<SavedShape>)
    ensures |r| == |items|
    ensures forall i :: 0 <= i < |r| ==>
              r[i].buffer && r[i].points == items[i].points && r[i].color == items[i].color
  {
    seq(|items|, i requires 0 <= i < |items| => SavedShape(items[i].points, items[i].color, None, None, true))
  }

  /** The shapes the staging zone rebuilds from a saved list: one for every
      entry marked as staged, in order. */
  function RestoreStaged(saved: seq<SavedShape>): (r: seq<StagedShape>)
    ensures |r| <= |saved|
    ensures forall i :: 0 <= i < |r| ==> WellFormed(r[i])
  {
    if saved == [] then []
    else
      var last := saved[|saved| - 1];
      RestoreStaged(saved[..|saved| - 1]) + if last.buffer then [StagedFrom(last.points, last.color)] else []
  }

  /** Restoring a concatenation restores each part: with the one-entry
      cases this says RestoreStaged keeps exactly the staged entries, in
      their order. */
  lemma {:induction false} RestoreStagedAppend(a: seq<SavedShape>, b: seq<SavedShape>)
    ensures RestoreStaged(a + b) == RestoreStaged(a) + RestoreStaged(b)
  {
    if b == [] {
      assert a + b == a;
    } else {
      var b', last := b[..|b| - 1], b[|b| - 1];
      assert (a + b)[..|a + b| - 1] == a + b';
      assert (a + b)[|a + b| - 1] == last;
      RestoreStagedAppend(a, b');
    }
  }

  lemma RestoreStagedSingle(p: SavedShape)
    ensures RestoreStaged([p]) == if p.buffer then [StagedFrom(p.points, p.color)] else []
  {
    assert [p][..0] == [];
  }

  /** Saving and restoring the staging zone gives back the same shapes,
      with their points and colours, in order. */
  lemma {:induction false} SaveRestoreStaged(items: seq<StagedShape>)
    requires forall i :: 0 <= i < |items| ==> WellFormed(items[i])
    ensures RestoreStaged(SaveStaged(items)) == items
  {
    if items != [] {
      var init := items[..|items| - 1];
      assert SaveStaged(items)[..|items| - 1] == SaveStaged(init);
      SaveRestoreStaged(init);
      assert items == init + [items[|items| - 1]];
    }
  }

  class BufferZone {
    /** The shapes in the staging container, in document order. */
    var items: seq<StagedShape>

    ghost predicate Valid()
      reads this
    {
      forall i :: 0 <= i < |items| ==> WellFormed(items[i])
    }

    constructor ()
      ensures Valid() && items == []
    {
      items := [];
    }

    method Clear()
      modifies this
      ensures Valid() && items == []
    {
      items := [];
    }

    /** Replaces the contents with freshly generated shapes. `rnd(0)` is the
        draw that fixes the count and `rnd(i + 1)` the one that fixes the
        vertex count of shape `i`; `gen(i, n, w, h)` is the point list the
        generator returns for shape `i` with `n` vertices in a `w` by `h`
        box. */
    method GenerateRandomPolygons(rnd: nat -> real, gen: (nat, int, int, int) -> string)
      modifies this
      ensures Valid()
      ensures |items| == if PolygonCount(rnd(0)) < 0 then 0 else PolygonCount(rnd(0))
      ensures forall i :: 0 <= i < |items| ==>
                items[i] == StagedShape(gen(i, VertexCount(rnd(i + 1)), 50, 50), None, true, true, 100.0)
    {
      Clear();

      var count := (rnd(0) * 16.0).Floor + 5;
      assert count == PolygonCount(rnd(0));
      var i := 0;
      while i < count
        invariant 0 <= i <= if count < 0 then 0 else count
        invariant |items| == i
        invariant forall j :: 0 <= j < i ==>
                    items[j] == StagedShape(gen(j, VertexCount(rnd(j + 1)), 50, 50), None, true, true, 100.0)
      {
        var vertices := (rnd(i + 1) * 5.0).Floor + 3;
        var points := gen(i, vertices, 50, 50);
        items := items + [StagedShape(points, None, true, true, 100.0)];
        i := i + 1;
      }
    }

    /** The saved form of the staged shapes, in order. */
    function GetPolygonsData(): (r: seq<SavedShape>)
      reads this
      ensures |r| == |items|
      ensures forall i :: 0 <= i < |r| ==>
                r[i].buffer && r[i].points == items[i].points && r[i].color == items[i].color
    {
      SaveStaged(items)
    }

    /** Replaces the contents with the staged entries of `polygons`. */
    method SetPolygonsData(polygons: seq<SavedShape>)
      modifies this
      ensures Valid()
      ensures items == RestoreStaged(polygons)
    {
      Clear();

      for i := 0 to |polygons|
        invariant items == RestoreStaged(polygons[..i])
      {
        var polyData := polygons[i];
        assert polygons[..i + 1][..i] == polygons[..i];
        if polyData.buffer {
          var color := if Truthy(polyData.color) then polyData.color else None;
          items := items + [StagedShape(polyData.points, color, true, true, 100.0)];
        }
      }
      assert polygons[..|polygons|] == polygons;
    }
  }

  /** Restoring the staging zone from its own saved shapes changes nothing. */
  method SaveThenRestoreStaged(b: BufferZone)
    requires b.Valid()
    modifies b
    ensures b.Valid() && b.items == old(b.items)
  {
    var saved := b.GetPolygonsData();
    SaveRestoreStaged(b.items);
    b.SetPolygonsData(saved);
  }
}
