/**
 Client methods that check usage scenarios against the contracts of `ClassificationList`.
 Each scenario's reasoning on concrete values is a lemma about the `Classing` functions;
 the method then only combines it with the class's contracts.
 */
module Scenarios {
  import opened Classing
  import opened ClassificationLists

  /** An element with an `id` property and a payload that tells elements with equal ids apart. */
  datatype Item = Item(id: string, payload: int)

  function ItemId(x: Item): string
  {
    x.id
  }

  /** Mapping: "odd" for the element with id "a", "even" for any other. */
  function Parity(x: Item): Labels
  {
    if x.id == "a" then One("odd") else One("even")
  }

  /** Mapping: the element's own id, for a mono scheme. */
  function ById(x: Item): Labels
  {
    One(x.id)
  }

  /** Mapping: two labels for every element. */
  function Tags(x: Item): Labels
  {
    Many(["x", "y"])
  }

  /** Mapping: one label for every element. */
  function Everything(x: Item): Labels
  {
    One("all")
  }

  lemma ParityMembers(a: Item, b: Item)
    requires a.id == "a" && b.id == "b"
    ensures Members(Parity, [a, b], "odd") == [a] && Members(Parity, [a, b], "even") == [b]
  {
    var s := [a, b];
    assert "b"[0] != "a"[0] && "odd"[0] != "even"[0];
    assert Targets(Parity(a)) == ["odd"] && Targets(Parity(b)) == ["even"];
    assert ["odd"][..0] == [] && ["even"][..0] == [];
    assert Count(["odd"], "odd") == 1 && Count(["odd"], "even") == 0;
    assert Count(["even"], "odd") == 0 && Count(["even"], "even") == 1;
    assert s[..1] == [a] && [a][..0] == [];
    assert Members(Parity, [a], "odd") == [a] && Members(Parity, [a], "even") == [];
  }

  lemma ParityScan(a: Item, b: Item)
    requires a.id == "a" && b.id == "b"
    ensures "odd" in Scan(Scheme(Parity, false, map[]), [a, b]).classes
    ensures Scan(Scheme(Parity, false, map[]), [a, b]).classes["odd"] == Group([a])
    ensures "even" in Scan(Scheme(Parity, false, map[]), [a, b]).classes
    ensures Scan(Scheme(Parity, false, map[]), [a, b]).classes["even"] == Group([b])
  {
    ParityMembers(a, b);
    GroupingScanAt(Scheme(Parity, false, map[]), [a, b], "odd");
    GroupingScanAt(Scheme(Parity, false, map[]), [a, b], "even");
    assert Prior<Item>(map[], "odd") == [] && Prior<Item>(map[], "even") == [];
    assert [] + [a] == [a] && [] + [b] == [b];
  }

  lemma EverythingRescannedTwice(a: Item)
    ensures "all" in Scan(Scan(Scheme(Everything, false, map[]), [a]), [a]).classes
    ensures Scan(Scan(Scheme(Everything, false, map[]), [a]), [a]).classes["all"] == Group([a, a])
  {
    assert [a][..0] == [] && ["all"][..0] == [];
    assert Members(Everything, [a], "all") == [a];
    RescanAppendsAgain(Scheme(Everything, false, map[]), [a], "all");
  }

  lemma ByIdScan(a: Item, b: Item)
    requires a.id == "a" && b.id == "b"
    ensures "a" in Scan(Scheme(ById, true, map[]), [a, b]).classes
    ensures Scan(Scheme(ById, true, map[]), [a, b]).classes["a"] == Single(a)
  {
    var s := [a, b];
    assert s[..1] == [a];
    assert LastLabelled(ById, s, "a") == 0;
    MonoScanAt(Scheme(ById, true, map[]), s, "a");
  }

  lemma TagsClassify(a: Item)
    ensures Classify(Scheme(Tags, false, map[]), a).classes == map["x" := Group([a]), "y" := Group([a])]
  {
    var ls := ["x", "y"];
    assert ls[..1] == ["x"] && ["x"][..0] == [];
  }

  lemma EverythingClassify(b: Item)
    ensures Classify(Scheme(Everything, false, map[]), b).classes == map["all" := Group([b])]
  {
    assert ["all"][..0] == [];
  }

  /** Grouping by parity of the id, scanned at registration. */
  method ParityGrouping()
  {
    var a, b := Item("a", 0), Item("b", 0);
    var c := new ClassificationList([a, b], ItemId);
    c.AddCustomClassification("parity", Parity, false, true);
    ParityScan(a, b);
    assert c.CustomClsGet("parity", "odd") == Some(Group([a]));
    assert c.CustomClsGet("parity", "even") == Some(Group([b]));
  }

  /** A second re-scan of a grouping scheme appends every element again. */
  method RescanTwice()
  {
    var a := Item("a", 0);
    var c := new ClassificationList([a], ItemId);
    c.AddCustomClassification("all", Everything, false, true);
    c.InitCustomClassification("all");
    EverythingRescannedTwice(a);
    assert c.CustomClsGet("all", "all") == Some(Group([a, a]));
  }

  /** A mono scheme keyed by id stores the element itself, not an array. */
  method MonoById()
  {
    var a, b := Item("a", 0), Item("b", 0);
    var c := new ClassificationList([a, b], ItemId);
    c.AddCustomClassification("byId", ById, true, true);
    ByIdScan(a, b);
    assert c.CustomClsGet("byId", "a") == Some(Single(a));
  }

  /** An array result puts the element under every label of the array. */
  method FanOut()
  {
    var a := Item("a", 0);
    var c := new ClassificationList([], ItemId);
    c.AddCustomClassification("tags", Tags);
    c.Push(a);
    TagsClassify(a);
    assert c.CustomClsGet("tags", "x") == Some(Group([a]));
    assert c.CustomClsGet("tags", "y") == Some(Group([a]));
  }

  /** A scheme registered without a scan starts empty, even over a non-empty list. */
  method RegisterWithoutScan()
  {
    var a := Item("a", 0);
    var c := new ClassificationList([a], ItemId);
    c.AddCustomClassification("all", Everything);
    assert c.customClassifications["all"].classes == map[];
    assert c.GetCustomClassificationClassesNames("all").value == {};
    assert c.GetCustomClassificationClassesNames("nope") == None;
    assert c.CustomClsGet("nope", "all") == None;
  }

  /** A scheme registered without a scan still classifies every later push, and only those. */
  method PushAfterRegister()
  {
    var a, b := Item("a", 0), Item("b", 0);
    var c := new ClassificationList([a], ItemId);
    c.AddCustomClassification("all", Everything);
    c.Push(b);
    EverythingClassify(b);
    assert c.CustomClsGet("all", "all") == Some(Group([b]));
  }

  /** The main index keeps the latest of two elements with the same id. */
  method LastWriteWins()
  {
    var a, a' := Item("a", 1), Item("a", 2);
    var c := new ClassificationList([a], ItemId);
    c.Push(a');
    assert c.MainClsGet("a") == Some(a');
  }

  /** The main index is not built when the first element has no id, even if later ones do. */
  method FirstElementGuard()
  {
    var c := new ClassificationList([Item("", 0), Item("b", 0)], ItemId);
    assert c.MainClsGet("b") == None;
    c.Push(Item("c", 0));
    assert ItemId(Item("c", 0)) == "c";
    assert c.MainClsGet("c") == Some(Item("c", 0));
  }
}
