/** Datastore selection in `execute`: the datastore with the most free
    space among those whose name matches the configured pattern, and the
    clone branch's override by a source-VM datastore named with "VMstore". */
module Datastores {
  import opened Wrappers
  import opened Text

  datatype Datastore = Datastore(name: string, freeSpace: nat)

  /** `x.name =~ /#{ds_regex}/`, the pattern taken literally. */
  predicate Matches(d: Datastore, pattern: string) { Contains(d.name, pattern) }

  /** `find_all { matches }.max_by { freeSpace }`: the index of the first
      matching datastore whose free space no other matching one exceeds. */
  function MostFree(ds: seq<Datastore>, pattern: string): (r: Option<nat>)
    ensures r.None? <==> forall j :: 0 <= j < |ds| ==> !Matches(ds[j], pattern)
    ensures r.Some? ==> r.value < |ds| && Matches(ds[r.value], pattern)
    ensures r.Some? ==> forall j :: 0 <= j < |ds| && Matches(ds[j], pattern) ==>
      ds[j].freeSpace <= ds[r.value].freeSpace
    ensures r.Some? ==> forall j :: 0 <= j < r.value && Matches(ds[j], pattern) ==>
      ds[j].freeSpace < ds[r.value].freeSpace
    decreases |ds|
  {
    if ds == [] then None
    else
      var n := |ds| - 1;
      var best := MostFree(ds[..n], pattern);
      assert forall j :: 0 <= j < n ==> ds[..n][j] == ds[j];
      if Matches(ds[n], pattern) && (best.None? || ds[best.value].freeSpace < ds[n].freeSpace)
      then Some(n)
      else best
  }

  /** The name of the selected datastore; `.name` on nil aborts when nothing matches. */
  function SelectDatastore(ds: seq<Datastore>, pattern: string): (r: Result<string, Error>)
    ensures r.Err? <==> forall j :: 0 <= j < |ds| ==> !Matches(ds[j], pattern)
    ensures r.Err? ==> r.error == NoDatastoreMatches(pattern)
    ensures r.Ok? ==>
      exists i :: (0 <= i < |ds| && ds[i].name == r.value && Matches(ds[i], pattern) &&
                   forall j :: 0 <= j < |ds| && Matches(ds[j], pattern) ==> ds[j].freeSpace <= ds[i].freeSpace)
  {
    match MostFree(ds, pattern)
    case None => Err(NoDatastoreMatches(pattern))
    case Some(i) => Ok(ds[i].name)
  }

  const VMstore := "VMstore"

  /** The datastore the clone branch uses: the last source-VM datastore
      whose name contains "VMstore", or the one already chosen. */
  function VMstoreOverride(names: seq<string>, chosen: string): string
    decreases |names|
  {
    if names == [] then chosen
    else if Contains(names[|names| - 1], VMstore) then names[|names| - 1]
    else VMstoreOverride(names[..|names| - 1], chosen)
  }

  /** `source_vm.datastore.each { |ds| datastore = ds.name if ds.name =~ /VMstore/ }` */
  method OverrideDatastore(names: seq<string>, chosen: string) returns (datastore: string)
    ensures datastore == VMstoreOverride(names, chosen)
  {
    datastore := chosen;
    var i := 0;
    while i < |names|
      invariant 0 <= i <= |names|
      invariant datastore == VMstoreOverride(names[..i], chosen)
    {
      assert names[..i + 1][..i] == names[..i];
      if Contains(names[i], VMstore) {
        datastore := names[i];
      }
      i := i + 1;
    }
    assert names[..|names|] == names;
  }

  // ---------------------------------------------------------------------
  // Properties

  /** The override is the last "VMstore" name when there is one, and leaves
      the free-space choice alone otherwise. */
  lemma {:induction false} OverrideIsLastVMstore(names: seq<string>, chosen: string)
    ensures (forall j :: 0 <= j < |names| ==> !Contains(names[j], VMstore)) ==>
      VMstoreOverride(names, chosen) == chosen
    ensures (exists j :: 0 <= j < |names| && Contains(names[j], VMstore)) ==>
      exists i :: 0 <= i < |names| && names[i] == VMstoreOverride(names, chosen) &&
        Contains(names[i], VMstore) &&
        forall j :: i < j < |names| ==> !Contains(names[j], VMstore)
    decreases |names|
  {
    if names != [] {
      var n := |names| - 1;
      var front := names[..n];
      assert forall j :: 0 <= j < n ==> front[j] == names[j];
      OverrideIsLastVMstore(front, chosen);
      if !Contains(names[n], VMstore) && exists j :: 0 <= j < |names| && Contains(names[j], VMstore) {
        var j :| 0 <= j < |names| && Contains(names[j], VMstore);
        assert Contains(front[j], VMstore);
      }
    }
  }

  /** Among the datastores whose name contains "a-ds", the one with most room is chosen. */
  lemma SelectionExample()
    ensures SelectDatastore([Datastore("a-ds", 100), Datastore("a-ds2", 500), Datastore("b-ds", 900)], "a-ds")
      == Ok("a-ds2")
    ensures SelectDatastore([], "x") == Err(NoDatastoreMatches("x"))
  {
    var ds := [Datastore("a-ds", 100), Datastore("a-ds2", 500), Datastore("b-ds", 900)];
    assert Matches(ds[0], "a-ds") && Matches(ds[1], "a-ds");
    assert !Matches(ds[2], "a-ds") by {
      assert !StartsWith("b-ds", "a-ds") by { assert "b-ds"[..4][0] != "a-ds"[0]; }
      assert !StartsWith("-ds", "a-ds");
      assert !Contains("ds", "a-ds") by { assert !Contains("s", "a-ds"); assert !Contains("", "a-ds"); }
    }
    var r := MostFree(ds, "a-ds");
    assert r == Some(1);
  }

  /** Ties go to the datastore met first. */
  lemma TieGoesToFirst(a: Datastore, b: Datastore, pattern: string)
    requires Matches(a, pattern) && Matches(b, pattern) && a.freeSpace == b.freeSpace
    ensures SelectDatastore([a, b], pattern) == Ok(a.name)
  {
    assert [a, b][..1] == [a] && [a][..0] == [];
    assert MostFree([a], pattern) == Some(0);
  }
}
