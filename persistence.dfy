/** The `buffer` flag splits a saved list between the two sides: each
    restore keeps exactly its own entries, even from a list holding both
    kinds. */
module Persistence {
  import opened Snapshot
  import Workspace
  import Staging

  /** Every entry of a saved list is restored by exactly one of the two
      sides. */
  lemma {:induction false} SavedListSplits(saved: seq<SavedShape>, scale: real)
    requires scale != 0.0
    ensures |Workspace.RestoreShapes(saved, scale)| + |Staging.RestoreStaged(saved)| == |saved|
  {
    if saved != [] {
      SavedListSplits(saved[..|saved| - 1], scale);
    }
  }

  lemma {:induction false} WorkspaceSkipsStaged(items: seq<Staging.StagedShape>, scale: real)
    requires scale != 0.0
    ensures Workspace.RestoreShapes(Staging.SaveStaged(items), scale) == []
  {
    if items != [] {
      var init := items[..|items| - 1];
      assert Staging.SaveStaged(items)[..|items| - 1] == Staging.SaveStaged(init);
      WorkspaceSkipsStaged(init, scale);
    }
  }

  lemma {:induction false} StagingSkipsPlaced(shapes: seq<Workspace.Shape>)
    ensures Staging.RestoreStaged(Workspace.SaveShapes(shapes)) == []
  {
    if shapes != [] {
      var init := shapes[..|shapes| - 1];
      assert Workspace.SaveShapes(shapes)[..|shapes| - 1] == Workspace.SaveShapes(init);
      StagingSkipsPlaced(init);
    }
  }

  /** Saving both sides into one list and handing that list to both
      restores gives each side back its own shapes: the staging zone
      exactly, the workspace with sizes taken afresh from the scale. */
  lemma SavedListRoundTrip(placed: seq<Workspace.Shape>, staged: seq<Staging.StagedShape>, scale: real)
    requires scale != 0.0
    requires Workspace.ColorsKept(placed)
    requires forall i :: 0 <= i < |staged| ==> Staging.WellFormed(staged[i])
    ensures Staging.RestoreStaged(Workspace.SaveShapes(placed) + Staging.SaveStaged(staged)) == staged
    ensures Workspace.RestoreShapes(Workspace.SaveShapes(placed) + Staging.SaveStaged(staged), scale)
         == Workspace.RestoreShapes(Workspace.SaveShapes(placed), scale)
    ensures |Workspace.RestoreShapes(Workspace.SaveShapes(placed) + Staging.SaveStaged(staged), scale)| == |placed|
  {
    var a, b := Workspace.SaveShapes(placed), Staging.SaveStaged(staged);
    Staging.RestoreStagedAppend(a, b);
    StagingSkipsPlaced(placed);
    Staging.SaveRestoreStaged(staged);
    Workspace.RestoreShapesAppend(a, b, scale);
    WorkspaceSkipsStaged(staged, scale);
    Workspace.SaveRestoreShapes(placed, scale);
  }
}
