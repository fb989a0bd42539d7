/**
 The ClassificationList class: a growing list of elements kept in step with a main index
 (id to element) and any number of named custom classifications. Every method that changes
 the structure is proved against the functions of `Classing`.
 */
module ClassificationLists {
  import opened Classing

  class ClassificationList<E> {
    /** The identifying property read as `element.id`; "" stands for a missing or falsy id. */
    const id: E -> string
    /** The backing list, owned by the structure. */
    var list: seq<E>
    /** The main index: id to element. */
    var mainClassing: map<string, E>
    /** The registered custom classifications, by name. */
    var customClassifications: map<string, Scheme<E>>

    /** The object invariant: last-write-wins main index, and every scheme well formed. */
    ghost predicate Valid()
      reads this
    {
      && MainIndexConsistent(id, list, mainClassing)
      && forall n :: n in customClassifications ==> WellFormed(customClassifications[n])
    }

    /** Stores the list and, when asked, builds the main index from it. No scheme is registered. */
    constructor (list: seq<E>, id: E -> string, useMainClassing: bool := true)
      ensures Valid()
      ensures this.list == list && this.id == id
      ensures mainClassing == if useMainClassing && FirstHasId(id, list) then IndexOf(id, list) else map[]
      ensures customClassifications == map[]
    {
      this.id := id;
      this.list := list;
      mainClassing := map[];
      customClassifications := map[];
      new;
      if useMainClassing {
        InitMainClassing();
      }
    }

    /**
     Rebuilds the main index from scratch when the first element exists and has a truthy id;
     otherwise leaves it exactly as it was. Only the first element is checked.
     */
    method InitMainClassing()
      requires Valid()
      modifies this
      ensures Valid()
      ensures list == old(list) && customClassifications == old(customClassifications)
      ensures mainClassing == if FirstHasId(id, list) then IndexOf(id, list) else old(mainClassing)
    {
      if |list| > 0 && id(list[0]) != "" {
        mainClassing := map[];
        var i := 0;
        while i < |list|
          invariant 0 <= i <= |list|
          invariant list == old(list) && customClassifications == old(customClassifications)
          invariant mainClassing == IndexOf(id, list[..i])
        {
          assert list[..i + 1][..i] == list[..i];
          mainClassing := mainClassing[id(list[i]) := list[i]];
          i := i + 1;
        }
        assert list[..i] == list;
        IndexOfConsistent(id, list);
      }
    }

    /**
     Registers (or re-registers) a scheme with empty classes, discarding what the name held;
     with `init`, scans the whole list into it.
     */
    method AddCustomClassification(name: string, mapping: E -> Labels, mono: bool := false, init: bool := false)
      requires Valid()
      modifies this
      ensures Valid()
      ensures list == old(list) && mainClassing == old(mainClassing)
      ensures customClassifications ==
                old(customClassifications)[name := Scan(Scheme(mapping, mono, map[]), if init then list else [])]
    {
      customClassifications := customClassifications[name := Scheme(mapping, mono, map[])];
      if init {
        InitCustomClassification(name);
      }
    }

    /**
     Re-scans the whole list into a registered scheme, in list order, on top of what it holds;
     an unregistered name changes nothing.
     */
    method InitCustomClassification(name: string)
      requires Valid()
      modifies this
      ensures Valid()
      ensures list == old(list) && mainClassing == old(mainClassing)
      ensures customClassifications ==
                if name in old(customClassifications)
                then old(customClassifications)[name := Scan(old(customClassifications)[name], list)]
                else old(customClassifications)
    {
      if name in customClassifications {
        ghost var before := customClassifications;
        var i := 0;
        while i < |list|
          invariant 0 <= i <= |list|
          invariant list == old(list) && mainClassing == old(mainClassing)
          invariant customClassifications == before[name := Scan(before[name], list[..i])]
        {
          assert list[..i + 1][..i] == list[..i];
          PushToCustomClass(name, list[i]);
          i := i + 1;
        }
        assert list[..i] == list;
        forall n | n in customClassifications
          ensures WellFormed(customClassifications[n])
        {
          if n == name {
            ScanWellFormed(before[name], list);
          }
        }
      }
    }

    /** Re-scans the whole list into every registered scheme. */
    method InitAllCustomClassifications()
      requires Valid()
      modifies this
      ensures Valid()
      ensures list == old(list) && mainClassing == old(mainClassing)
      ensures customClassifications == ScanEach(old(customClassifications), list)
    {
      ghost var before := customClassifications;
      var pending := customClassifications.Keys;
      while pending != {}
        invariant Valid()
        invariant pending <= before.Keys
        invariant list == old(list) && mainClassing == old(mainClassing)
        invariant customClassifications.Keys == before.Keys
        invariant forall n :: n in before ==>
                    customClassifications[n] == if n in pending then before[n] else Scan(before[n], list)
        decreases pending
      {
        var name :| name in pending;
        InitCustomClassification(name);
        pending := pending - {name};
      }
      assert customClassifications == ScanEach(before, list);
    }

    /** The element indexed under `k`, if any. */
    function MainClsGet(k: string): (r: Option<E>)
      requires Valid()
      reads this
      ensures r.Some? <==> k in mainClassing
      ensures r.Some? ==> id(r.value) == k && r.value in list
      ensures r.Some? && k != "" ==> LastWithId(id, list, k) >= 0 && r.value == list[LastWithId(id, list, k)]
    {
      if k in mainClassing then Some(mainClassing[k]) else None
    }

    /** What scheme `name` holds under label `cls`; nothing for an unregistered scheme or an unused label. */
    function CustomClsGet(name: string, cls: string): (r: Option<ClassValue<E>>)
      requires Valid()
      reads this
      ensures r.Some? <==> name in customClassifications && cls in customClassifications[name].classes
      ensures r.Some? ==> r.value == customClassifications[name].classes[cls]
      ensures r.Some? && customClassifications[name].mono ==> r.value.Single?
      ensures r.Some? && !customClassifications[name].mono ==> r.value.Group? && r.value.elems != []
    {
      if name in customClassifications && cls in customClassifications[name].classes
      then Some(customClassifications[name].classes[cls])
      else None
    }

    /** The definition of scheme `name` (mapping, mode, classes), if it is registered. */
    function GetCustomClassification(name: string): (r: Option<Scheme<E>>)
      requires Valid()
      reads this
      ensures r.Some? <==> name in customClassifications
      ensures r.Some? ==> r.value == customClassifications[name] && WellFormed(r.value)
    {
      if name in customClassifications then Some(customClassifications[name]) else None
    }

    /**
     The labels of scheme `name` whose stored value is truthy, or nothing for an unregistered
     scheme. Every stored value is an element or an array, both truthy, so no label is dropped.
     */
    function GetCustomClassificationClassesNames(name: string): (r: Option<set<string>>)
      requires Valid()
      reads this
      ensures r.None? <==> name !in customClassifications
      ensures r.Some? ==> forall cls :: cls in r.value <==> CustomClsGet(name, cls).Some?
    {
      if name in customClassifications then Some(customClassifications[name].classes.Keys) else None
    }

    /**
     Appends `e` to the list, indexes it under a truthy id, and classifies it in every
     registered scheme, re-scanned or not.
     */
    method Push(e: E)
      requires Valid()
      modifies this
      ensures Valid()
      ensures list == old(list) + [e]
      ensures mainClassing == PushIndex(id, old(mainClassing), e)
      ensures customClassifications == ClassifyEach(old(customClassifications), e)
    {
      list := list + [e];
      PushToMainClassing(e);
      ghost var before := customClassifications;
      var pending := customClassifications.Keys;
      while pending != {}
        invariant pending <= before.Keys
        invariant list == old(list) + [e] && mainClassing == PushIndex(id, old(mainClassing), e)
        invariant forall n :: n in customClassifications ==> WellFormed(customClassifications[n])
        invariant customClassifications.Keys == before.Keys
        invariant forall n :: n in before ==>
                    customClassifications[n] == if n in pending then before[n] else Classify(before[n], e)
        decreases pending
      {
        var name :| name in pending;
        ClassifyWellFormed(customClassifications[name], e);
        PushToCustomClass(name, e);
        pending := pending - {name};
      }
      assert customClassifications == ClassifyEach(before, e);
      PushIndexConsistent(id, old(list), old(mainClassing), e);
    }

    /** Indexes `e` under its id when the id is truthy. */
    method PushToMainClassing(e: E)
      modifies this
      ensures list == old(list) && customClassifications == old(customClassifications)
      ensures mainClassing == PushIndex(id, old(mainClassing), e)
    {
      if id(e) != "" {
        mainClassing := mainClassing[id(e) := e];
      }
    }

    /**
     Classifies `e` in scheme `name`: nothing for a falsy mapping result, every label of an
     array result in order, or the one label of a truthy string result.
     The caller must have checked that `name` is registered.
     */
    method PushToCustomClass(name: string, e: E)
      requires name in customClassifications
      modifies this
      ensures list == old(list) && mainClassing == old(mainClassing)
      ensures customClassifications ==
                old(customClassifications)[name := Classify(old(customClassifications)[name], e)]
    {
      ghost var sch := customClassifications[name];
      var result := customClassifications[name].mapping(e);
      match result
      case Absent =>
        assert customClassifications[name] == Classify(sch, e);
      case One(cls) =>
        if cls != "" {
          PushToCustomClassOneClassName(name, cls, e);
          SingleLabelIsOneTarget(sch, e, cls);
        } else {
          assert customClassifications[name] == Classify(sch, e);
        }
      case Many(labels) =>
        var i := 0;
        while i < |labels|
          invariant 0 <= i <= |labels|
          invariant list == old(list) && mainClassing == old(mainClassing)
          invariant name in customClassifications
          invariant customClassifications == old(customClassifications)[name := customClassifications[name]]
          invariant customClassifications[name] == sch.(classes := AssignAll(sch.mono, sch.classes, labels[..i], e))
        {
          assert labels[..i + 1][..i] == labels[..i];
          PushToCustomClassOneClassName(name, labels[i], e);
          i := i + 1;
        }
        assert labels[..i] == labels;
    }

    /** Assigns `e` to label `cls` of scheme `name`: overwrite in a mono scheme, append in a grouping one. */
    method PushToCustomClassOneClassName(name: string, cls: string, e: E)
      requires name in customClassifications
      modifies this
      ensures list == old(list) && mainClassing == old(mainClassing)
      ensures customClassifications == old(customClassifications)[name :=
                old(customClassifications)[name].(classes := AssignOne(
                  old(customClassifications)[name].mono, old(customClassifications)[name].classes, cls, e))]
    {
      var classification := customClassifications[name];
      if classification.mono {
        customClassifications := customClassifications[name :=
          classification.(classes := classification.classes[cls := Single(e)])];
      } else if cls in classification.classes && classification.classes[cls].Group? {
        customClassifications := customClassifications[name :=
          classification.(classes := classification.classes[cls := Group(classification.classes[cls].elems + [e])])];
      } else {
        customClassifications := customClassifications[name :=
          classification.(classes := classification.classes[cls := Group([e])])];
      }
    }
  }
}
