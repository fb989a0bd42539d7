/**
 The pure part of the ClassificationList model: what a mapping function returns, what a
 classification scheme stores, and the functions that say what the main index and each
 scheme's classes hold after the class's loops have run over a list of elements.
 Elements are an opaque type parameter `E`; their identifying property is a function
 `id: E -> string` in which "" stands for a missing or falsy id.
 */
module Classing {

  datatype Option<T> = None | Some(value: T)

  /** What a mapping function returns for one element: undefined, one label, or an array of labels. */
  datatype Labels = Absent | One(cls: string) | Many(labels: seq<string>)

  /** What a scheme stores under one label: one element (mono scheme) or an array of elements (grouping scheme). */
  datatype ClassValue<E> = Single(elem: E) | Group(elems: seq<E>)

  /** A registered custom classification: its mapping function, its mode and its classes. */
  datatype Scheme<!E> = Scheme(mapping: E -> Labels, mono: bool, classes: map<string, ClassValue<E>>)

  // ---------------------------------------------------------------------------
  // Main index
  // ---------------------------------------------------------------------------

  /** The guard of the main-index rebuild: the first element exists and its id is truthy. */
  predicate FirstHasId<E>(id: E -> string, s: seq<E>)
  {
    |s| > 0 && id(s[0]) != ""
  }

  /** The main index the rebuild loop produces from an empty map: every element written under its id, in list order. */
  function IndexOf<E>(id: E -> string, s: seq<E>): map<string, E>
  {
    if s == [] then map[] else IndexOf(id, s[..|s| - 1])[id(s[|s| - 1]) := s[|s| - 1]]
  }

  /** The ids carried by the elements of `s`. */
  ghost function Ids<E>(id: E -> string, s: seq<E>): set<string>
  {
    set j | 0 <= j < |s| :: id(s[j])
  }

  /** The position of the last element of `s` whose id is `k`, or -1 when no element has it. */
  function LastWithId<E>(id: E -> string, s: seq<E>, k: string): (r: int)
    ensures -1 <= r < |s|
    ensures r >= 0 ==> id(s[r]) == k
    ensures forall j :: r < j < |s| ==> id(s[j]) != k
  {
    if s == [] then -1
    else if id(s[|s| - 1]) == k then |s| - 1
    else LastWithId(id, s[..|s| - 1], k)
  }

  /**
   The main-index invariant (last write wins): every entry is an element of the list that
   carries the entry's id and, for a truthy id, it is the last such element in list order.
   The empty id is exempt from "last": the rebuild writes it, a push never does.
   */
  ghost predicate MainIndexConsistent<E>(id: E -> string, s: seq<E>, m: map<string, E>)
  {
    forall k :: k in m ==>
      && id(m[k]) == k
      && m[k] in s
      && (k != "" ==> LastWithId(id, s, k) >= 0 && m[k] == s[LastWithId(id, s, k)])
  }

  /** After a rebuild, the index holds exactly the ids of the list, each mapped to the last element carrying it. */
  lemma {:induction false} IndexOfLastWriteWins<E>(id: E -> string, s: seq<E>)
    ensures IndexOf(id, s).Keys == Ids(id, s)
    ensures forall k :: k in IndexOf(id, s) ==>
              LastWithId(id, s, k) >= 0 && IndexOf(id, s)[k] == s[LastWithId(id, s, k)]
  {
    if s != [] {
      var p, x := s[..|s| - 1], s[|s| - 1];
      IndexOfLastWriteWins(id, p);
      assert s == p + [x];
      assert Ids(id, s) == Ids(id, p) + {id(x)} by {
        forall k | k in Ids(id, s) ensures k in Ids(id, p) + {id(x)} {
          var j :| 0 <= j < |s| && id(s[j]) == k;
          if j < |p| { assert id(p[j]) == k; }
        }
        forall k | k in Ids(id, p) ensures k in Ids(id, s) {
          var j :| 0 <= j < |p| && id(p[j]) == k;
          assert id(s[j]) == k;
        }
      }
    }
  }

  /** A rebuilt index satisfies the main-index invariant. */
  lemma {:induction false} IndexOfConsistent<E>(id: E -> string, s: seq<E>)
    ensures MainIndexConsistent(id, s, IndexOf(id, s))
  {
    IndexOfLastWriteWins(id, s);
  }

  /** The index entry a push writes (or skips, for a falsy id). */
  function PushIndex<E>(id: E -> string, m: map<string, E>, e: E): (r: map<string, E>)
    ensures id(e) != "" ==> r.Keys == m.Keys + {id(e)} && r[id(e)] == e
    ensures forall k :: k in m && k != id(e) ==> k in r && r[k] == m[k]
    ensures id(e) == "" ==> r == m
  {
    if id(e) != "" then m[id(e) := e] else m
  }

  /** Appending an element and pushing it to the index keeps the main-index invariant. */
  lemma {:induction false} PushIndexConsistent<E>(id: E -> string, s: seq<E>, m: map<string, E>, e: E)
    requires MainIndexConsistent(id, s, m)
    ensures MainIndexConsistent(id, s + [e], PushIndex(id, m, e))
  {
  }

  // ---------------------------------------------------------------------------
  // Custom classifications
  // ---------------------------------------------------------------------------

  /**
   The labels a mapping result assigns the element to: `if (className)` drops undefined and the
   empty string, an array is always truthy (so an empty array assigns nothing) and its entries
   are not checked, and a truthy string is one label.
   */
  function Targets(r: Labels): seq<string>
  {
    match r
    case Absent => []
    case One(l) => if l == "" then [] else [l]
    case Many(ls) => ls
  }

  /** The elements a grouping scheme already holds under `cls`, or none when it holds no array there. */
  function Prior<E>(c: map<string, ClassValue<E>>, cls: string): seq<E>
  {
    if cls in c && c[cls].Group? then c[cls].elems else []
  }

  /** `n` copies of `e`. */
  function Repeat<E>(e: E, n: nat): (r: seq<E>)
    ensures |r| == n
    ensures forall j :: 0 <= j < n ==> r[j] == e
  {
    if n == 0 then [] else Repeat(e, n - 1) + [e]
  }

  /** How many times `cls` occurs in `ls`. */
  function Count(ls: seq<string>, cls: string): (n: nat)
    ensures n == 0 <==> cls !in ls
  {
    if ls == [] then 0
    else Count(ls[..|ls| - 1], cls) + (if ls[|ls| - 1] == cls then 1 else 0)
  }

  /**
   Assigning `e` to one label: a mono scheme overwrites the label, a grouping scheme appends `e`
   to the array already there or starts the one-element array. No other label changes.
   */
  function AssignOne<E>(mono: bool, c: map<string, ClassValue<E>>, cls: string, e: E): (r: map<string, ClassValue<E>>)
    ensures r.Keys == c.Keys + {cls}
    ensures forall l :: l in c && l != cls ==> r[l] == c[l]
    ensures mono ==> r[cls] == Single(e)
    ensures !mono ==> r[cls] == Group(Prior(c, cls) + [e])
  {
    if mono then c[cls := Single(e)]
    else if cls in c && c[cls].Group? then c[cls := Group(c[cls].elems + [e])]
    else assert Prior(c, cls) + [e] == [e]; c[cls := Group([e])]
  }

  /** Assigning `e` to every label of `ls`, in order. */
  function AssignAll<E>(mono: bool, c: map<string, ClassValue<E>>, ls: seq<string>, e: E): map<string, ClassValue<E>>
  {
    if ls == [] then c else AssignOne(mono, AssignAll(mono, c, ls[..|ls| - 1], e), ls[|ls| - 1], e)
  }

  /** Classifying one element in a scheme: its mapping result's labels, each assigned in turn. */
  function Classify<E>(sch: Scheme<E>, e: E): (r: Scheme<E>)
    ensures r.mapping == sch.mapping && r.mono == sch.mono
  {
    sch.(classes := AssignAll(sch.mono, sch.classes, Targets(sch.mapping(e)), e))
  }

  /** Classifying every element of `s` in list order, without clearing what the scheme holds. */
  function Scan<E>(sch: Scheme<E>, s: seq<E>): (r: Scheme<E>)
    ensures r.mapping == sch.mapping && r.mono == sch.mono
  {
    if s == [] then sch else Classify(Scan(sch, s[..|s| - 1]), s[|s| - 1])
  }

  /** Every scheme of `cs` with `e` classified in it. */
  function ClassifyEach<E>(cs: map<string, Scheme<E>>, e: E): map<string, Scheme<E>>
  {
    map n | n in cs :: Classify(cs[n], e)
  }

  /** Every scheme of `cs` with the whole list scanned into it. */
  function ScanEach<E>(cs: map<string, Scheme<E>>, s: seq<E>): map<string, Scheme<E>>
  {
    map n | n in cs :: Scan(cs[n], s)
  }

  /**
   Reference definition of a grouping label's contents: the elements of `s` in list order whose
   mapping result names `cls`, each as many times as the result names it.
   */
  function Members<E>(f: E -> Labels, s: seq<E>, cls: string): seq<E>
  {
    if s == [] then []
    else Members(f, s[..|s| - 1], cls) + Repeat(s[|s| - 1], Count(Targets(f(s[|s| - 1])), cls))
  }

  /** The position of the last element of `s` whose mapping result names `cls`, or -1 when none does. */
  function LastLabelled<E>(f: E -> Labels, s: seq<E>, cls: string): (r: int)
    ensures -1 <= r < |s|
    ensures r >= 0 ==> cls in Targets(f(s[r]))
    ensures forall j :: r < j < |s| ==> cls !in Targets(f(s[j]))
  {
    if s == [] then -1
    else if cls in Targets(f(s[|s| - 1])) then |s| - 1
    else LastLabelled(f, s[..|s| - 1], cls)
  }

  /** The scheme invariant: mono labels hold one element, grouping labels hold a non-empty array. */
  predicate WellFormed<E>(sch: Scheme<E>)
  {
    forall l :: l in sch.classes ==>
      if sch.mono then sch.classes[l].Single? else sch.classes[l].Group? && sch.classes[l].elems != []
  }

  /** Whether two class maps agree on `cls` (both lack it, or both hold the same value). */
  ghost predicate SameAt<E>(c: map<string, ClassValue<E>>, c': map<string, ClassValue<E>>, cls: string)
  {
    (cls in c <==> cls in c') && (cls in c ==> c[cls] == c'[cls])
  }

  /** Fan-out leaves alone every label that is not among the assigned labels `ls`. */
  lemma {:induction false} AssignAllUntouched<E>(mono: bool, c: map<string, ClassValue<E>>, ls: seq<string>, e: E, cls: string)
    requires cls !in ls
    ensures SameAt(AssignAll(mono, c, ls, e), c, cls)
  {
    if ls != [] {
      assert ls[|ls| - 1] in ls;
      AssignAllUntouched(mono, c, ls[..|ls| - 1], e, cls);
    }
  }

  /** In a mono scheme, every label among `ls` ends up holding exactly `e`. */
  lemma {:induction false} AssignAllMonoAt<E>(c: map<string, ClassValue<E>>, ls: seq<string>, e: E, cls: string)
    requires cls in ls
    ensures cls in AssignAll(true, c, ls, e) && AssignAll(true, c, ls, e)[cls] == Single(e)
  {
    var p, x := ls[..|ls| - 1], ls[|ls| - 1];
    assert ls == p + [x];
    if x != cls {
      AssignAllMonoAt(c, p, e, cls);
    }
  }

  /**
   In a grouping scheme, every label among `ls` ends up holding its earlier array followed by
   `e` once per occurrence of the label in `ls`, in order.
   */
  lemma {:induction false} AssignAllGroupingAt<E>(c: map<string, ClassValue<E>>, ls: seq<string>, e: E, cls: string)
    requires cls in ls
    ensures cls in AssignAll(false, c, ls, e)
    ensures AssignAll(false, c, ls, e)[cls] == Group(Prior(c, cls) + Repeat(e, Count(ls, cls)))
  {
    var p, x := ls[..|ls| - 1], ls[|ls| - 1];
    var cp := AssignAll(false, c, p, e);
    var n := Count(p, cls);
    if x != cls {
      assert cls in p by { assert ls == p + [x]; }
      AssignAllGroupingAt(c, p, e, cls);
    } else {
      assert Prior(cp, cls) == Prior(c, cls) + Repeat(e, n) by {
        if cls in p {
          AssignAllGroupingAt(c, p, e, cls);
        } else {
          AssignAllUntouched(false, c, p, e, cls);
        }
      }
      assert Repeat(e, n + 1) == Repeat(e, n) + [e];
    }
  }

  /** A falsy mapping result (undefined, "" or an empty array) leaves the scheme as it was. */
  lemma FalsyResultAssignsNothing<E>(sch: Scheme<E>, e: E)
    requires sch.mapping(e) == Absent || sch.mapping(e) == One("") || sch.mapping(e) == Many([])
    ensures Classify(sch, e) == sch
  {
  }

  /** A truthy single label is assigned exactly like a one-label array. */
  lemma SingleLabelIsOneTarget<E>(sch: Scheme<E>, e: E, cls: string)
    requires sch.mapping(e) == One(cls) && cls != ""
    ensures Classify(sch, e).classes == AssignOne(sch.mono, sch.classes, cls, e)
  {
    var ls := Targets(sch.mapping(e));
    assert ls == [cls] && ls[..|ls| - 1] == [];
    assert AssignAll(sch.mono, sch.classes, ls[..|ls| - 1], e) == sch.classes;
    assert AssignAll(sch.mono, sch.classes, ls, e) == AssignOne(sch.mono, sch.classes, cls, e);
  }

  /** Classifying keeps the scheme invariant. */
  lemma {:induction false} AssignAllWellFormed<E>(sch: Scheme<E>, ls: seq<string>, e: E)
    requires WellFormed(sch)
    ensures WellFormed(sch.(classes := AssignAll(sch.mono, sch.classes, ls, e)))
  {
    if ls != [] {
      AssignAllWellFormed(sch, ls[..|ls| - 1], e);
    }
  }

  /** Classifying one element keeps the scheme invariant. */
  lemma ClassifyWellFormed<E>(sch: Scheme<E>, e: E)
    requires WellFormed(sch)
    ensures WellFormed(Classify(sch, e))
  {
    AssignAllWellFormed(sch, Targets(sch.mapping(e)), e);
  }

  /** Scanning a list keeps the scheme invariant. */
  lemma {:induction false} ScanWellFormed<E>(sch: Scheme<E>, s: seq<E>)
    requires WellFormed(sch)
    ensures WellFormed(Scan(sch, s))
  {
    if s != [] {
      ScanWellFormed(sch, s[..|s| - 1]);
      ClassifyWellFormed(Scan(sch, s[..|s| - 1]), s[|s| - 1]);
    }
  }

  /**
   Classifying one element in a grouping scheme: a label its mapping result does not name is
   untouched; a named label holds its earlier array followed by the element, once per naming.
   */
  lemma GroupingClassifyAt<E>(sch: Scheme<E>, e: E, cls: string)
    requires !sch.mono
    ensures Count(Targets(sch.mapping(e)), cls) == 0 ==> SameAt(Classify(sch, e).classes, sch.classes, cls)
    ensures Count(Targets(sch.mapping(e)), cls) > 0 ==>
              cls in Classify(sch, e).classes &&
              Classify(sch, e).classes[cls] ==
                Group(Prior(sch.classes, cls) + Repeat(e, Count(Targets(sch.mapping(e)), cls)))
  {
    var ls := Targets(sch.mapping(e));
    if cls in ls {
      AssignAllGroupingAt(sch.classes, ls, e, cls);
    } else {
      AssignAllUntouched(false, sch.classes, ls, e, cls);
    }
  }

  /**
   A re-scan of a grouping scheme: a label no element names is untouched; any other label holds
   what it held before followed by `Members` — the labelled elements in list order.
   */
  lemma {:induction false} GroupingScanAt<E>(sch: Scheme<E>, s: seq<E>, cls: string)
    requires !sch.mono
    ensures Members(sch.mapping, s, cls) == [] ==> SameAt(Scan(sch, s).classes, sch.classes, cls)
    ensures Members(sch.mapping, s, cls) != [] ==>
              cls in Scan(sch, s).classes &&
              Scan(sch, s).classes[cls] == Group(Prior(sch.classes, cls) + Members(sch.mapping, s, cls))
  {
    if s != [] {
      var p, x := s[..|s| - 1], s[|s| - 1];
      var f := sch.mapping;
      GroupingScanAt(sch, p, cls);
      var sp := Scan(sch, p);
      GroupingClassifyAt(sp, x, cls);
      var n := Count(Targets(f(x)), cls);
      var mp := Members(f, p, cls);
      assert Members(f, s, cls) == mp + Repeat(x, n);
      if n > 0 {
        assert Prior(sp.classes, cls) == Prior(sch.classes, cls) + mp;
        assert Prior(sch.classes, cls) + mp + Repeat(x, n) == Prior(sch.classes, cls) + (mp + Repeat(x, n));
      } else {
        assert Members(f, s, cls) == mp;
      }
    }
  }

  /**
   A re-scan of a mono scheme: a label no element names is untouched; any other label holds the
   last element, in list order, whose mapping result names it.
   */
  lemma {:induction false} MonoScanAt<E>(sch: Scheme<E>, s: seq<E>, cls: string)
    requires sch.mono
    ensures LastLabelled(sch.mapping, s, cls) < 0 ==> SameAt(Scan(sch, s).classes, sch.classes, cls)
    ensures LastLabelled(sch.mapping, s, cls) >= 0 ==>
              cls in Scan(sch, s).classes &&
              Scan(sch, s).classes[cls] == Single(s[LastLabelled(sch.mapping, s, cls)])
  {
    if s != [] {
      var p, x := s[..|s| - 1], s[|s| - 1];
      var ls := Targets(sch.mapping(x));
      MonoScanAt(sch, p, cls);
      if cls in ls {
        AssignAllMonoAt(Scan(sch, p).classes, ls, x, cls);
      } else {
        AssignAllUntouched(true, Scan(sch, p).classes, ls, x, cls);
      }
    }
  }

  /** Re-scanning a grouping scheme a second time appends every labelled element again. */
  lemma RescanAppendsAgain<E>(sch: Scheme<E>, s: seq<E>, cls: string)
    requires !sch.mono
    requires Members(sch.mapping, s, cls) != []
    ensures cls in Scan(Scan(sch, s), s).classes
    ensures Scan(Scan(sch, s), s).classes[cls] ==
              Group(Prior(sch.classes, cls) + Members(sch.mapping, s, cls) + Members(sch.mapping, s, cls))
  {
    GroupingScanAt(sch, s, cls);
    GroupingScanAt(Scan(sch, s), s, cls);
  }

  /** An element belongs to `Members` exactly when it is an element of the list whose mapping result names the label. */
  lemma {:induction false} MembersAreLabelled<E>(f: E -> Labels, s: seq<E>, cls: string, e: E)
    ensures e in Members(f, s, cls) <==> exists j :: 0 <= j < |s| && s[j] == e && cls in Targets(f(s[j]))
  {
    if s != [] {
      var p, x := s[..|s| - 1], s[|s| - 1];
      MembersAreLabelled(f, p, cls, e);
      var r := Repeat(x, Count(Targets(f(x)), cls));
      assert Members(f, s, cls) == Members(f, p, cls) + r;
      if e in Members(f, s, cls) {
        if e in Members(f, p, cls) {
          var j :| 0 <= j < |p| && p[j] == e && cls in Targets(f(p[j]));
          assert s[j] == e;
        } else {
          assert e in r;
          assert s[|s| - 1] == e && cls in Targets(f(x));
        }
      }
      if exists j :: 0 <= j < |s| && s[j] == e && cls in Targets(f(s[j])) {
        var j :| 0 <= j < |s| && s[j] == e && cls in Targets(f(s[j]));
        if j < |p| {
          assert p[j] == e;
        } else {
          assert r[0] == e;
        }
      }
    }
  }
}
