# ClassificationList in Dafny

A model of `ClassificationList<ElementType>`, an in-memory indexing structure. It owns a
growing list of elements and keeps two kinds of derived index in step with that list:

- the **main index** (`mainClassing`), mapping an element's `id` to the element, last write wins;
- any number of named **custom classifications**. Each holds a mapping function
  (element to undefined, one label, or an array of labels), a `mono` flag, and `classes`,
  a map from label to one element (mono) or to an ordered array of elements (grouping).

Files:

- `classing.dfy`, module `Classing`. The pure part of the model:
  - the datatypes `Labels` (`Absent | One | Many`), `ClassValue` (`Single | Group`) and `Scheme`;
  - the functions that say what the class's loops compute: `IndexOf` (the main-index rebuild),
    `PushIndex`, `Targets` (truthiness dispatch of a mapping result), `AssignOne`, `AssignAll`,
    `Classify` and `Scan`;
  - two independent reference definitions: `Members` (a grouping label's expected contents,
    filtered from the list) and `LastLabelled` / `LastWithId` (the last element carrying a label or an id);
  - the lemmas connecting the two.
- `classification_list.dfy`, module `ClassificationLists`. The class `ClassificationList<E>`.
  Its fields are `list`, `mainClassing` and `customClassifications`, all updated in place by
  methods with loops, as in the source. Every method is proved against the `Classing`
  functions. The object invariant `Valid()` has two parts:
  - the main index is last-write-wins consistent with the list;
  - every scheme is well formed (mono labels hold one element; grouping labels hold a non-empty array).
- `scenarios.dfy`, module `Scenarios`. Client methods that check usage scenarios against the
  class's contracts: parity grouping, a mono scheme by id, fan-out of an array
  result, registration without a scan followed by a push, a second re-scan, duplicate ids,
  and the first-element guard.

Modelling choices:

- Elements are a type parameter `E`. The identifying property is a function `id: E -> string`,
  given to the constructor, in which `""` stands for a missing or falsy id.
- Mapping functions are pure Dafny functions `E -> Labels`.
- JavaScript truthiness is modelled as follows. An element is always truthy. A mapping result
  is falsy when it is `undefined` or `""`. An array is always truthy, so an empty array assigns
  nothing, and its entries are not checked.
- Iteration over the registered scheme names (`Object.keys`) is modelled as picking the names
  of a set one at a time, in any order. The schemes are independent, so the order does not
  affect the result.
- The rebuild loop of `initMainClassing` writes every element under its id, including
  elements after the first that have no id. The model does the same and writes them under
  `""`. A push never indexes an element without an id. This is why the main-index invariant
  says "the last element carrying the id" only for non-empty ids.

## Model

| member | source | states |
|---|---|---|
| `ClassificationLists.ClassificationList.constructor` | src/index.ts:25-30 | Stores the list. With `useMainClassing` (default true), the main index is the rebuilt index when the first element has an id, and empty otherwise. No scheme is registered. |
| `ClassificationLists.ClassificationList.InitMainClassing` | src/index.ts:46-55 | When the first element exists and has a truthy id, the index becomes exactly `IndexOf(list)`, discarding old entries. Otherwise the index is left exactly as it was. List and schemes are unchanged. |
| `Classing.IndexOfLastWriteWins` | src/index.ts:48-51 | After a rebuild, the key set is exactly the ids of the list. Each key maps to the last element in list order that carries it. |
| `Classing.IndexOfConsistent` | src/index.ts:48-51 | A rebuilt index satisfies the last-write-wins invariant that `Valid()` keeps. |
| `Classing.PushIndex` | src/index.ts:140-144 | A truthy id gains or overwrites the entry `id(e) -> e`. A falsy id leaves the index unchanged. Every other entry is unchanged. |
| `Classing.PushIndexConsistent` | src/index.ts:123-125 | Appending an element and pushing it to the index preserves last-write-wins: each non-empty id still maps to the last element carrying it. |
| `ClassificationLists.ClassificationList.MainClsGet` | src/index.ts:93-95 | Returns an element exactly when the id is indexed. That element carries the id and belongs to the list. For a non-empty id, it is the last list element carrying the id. |
| `ClassificationLists.ClassificationList.AddCustomClassification` | src/index.ts:57-74 | Installs the scheme under `name` with empty classes, discarding what the name held before. When `init` is true, the whole list is scanned into it. Nothing else changes. |
| `ClassificationLists.ClassificationList.InitCustomClassification` | src/index.ts:76-83 | An unregistered name changes nothing. A registered scheme becomes `Scan(scheme, list)`: each element is classified in list order, on top of the existing classes, which are not cleared. |
| `ClassificationLists.ClassificationList.InitAllCustomClassifications` | src/index.ts:85-91 | Every registered scheme is re-scanned over the whole list. The set of names, the list and the main index are unchanged. |
| `ClassificationLists.ClassificationList.CustomClsGet` | src/index.ts:97-102 | Returns nothing for an unregistered scheme or an unused label. Otherwise returns the stored value: a single element in a mono scheme, a non-empty array in a grouping scheme. |
| `ClassificationLists.ClassificationList.GetCustomClassification` | src/index.ts:104-106 | Returns the scheme's definition exactly when it is registered. The definition is well formed. |
| `ClassificationLists.ClassificationList.GetCustomClassificationClassesNames` | src/index.ts:108-121 | Returns nothing exactly for an unregistered scheme. Otherwise returns exactly the labels that `CustomClsGet` finds a value for, which is empty for a scheme that was never assigned anything. |
| `ClassificationLists.ClassificationList.Push` | src/index.ts:123-138 | Appends the element at the end, keeping earlier elements. Updates the main index as `PushIndex` does. Classifies the element in every registered scheme, re-scanned or not. Keeps `Valid()`. |
| `ClassificationLists.ClassificationList.PushToMainClassing` | src/index.ts:140-144 | The main index becomes `PushIndex(old index, e)`. List and schemes are unchanged. |
| `ClassificationLists.ClassificationList.PushToCustomClass` | src/index.ts:154-166 | Requires a registered name, the source's unchecked precondition. Classifies the element in that scheme only: nothing for a falsy result, the one label of a truthy string, every label of an array in order. |
| `ClassificationLists.ClassificationList.PushToCustomClassOneClassName` | src/index.ts:168-180 | Requires a registered name. Scheme `name` gets `AssignOne` on label `cls`. Every other scheme, the list and the main index are unchanged. |
| `Classing.AssignOne` | src/index.ts:168-180 | Mono overwrites the label with the element. Grouping appends the element to an array already stored there, or else stores the one-element array. The label is added to the keys. No other label changes. |
| `Classing.FalsyResultAssignsNothing` | src/index.ts:155-157 | An undefined, `""` or empty-array mapping result leaves the scheme exactly as it was. |
| `Classing.SingleLabelIsOneTarget` | src/index.ts:162-164 | A truthy string result assigns exactly that one label. |
| `Classing.AssignAllUntouched` | src/index.ts:158-161 | Fan-out never touches a label that is not in the array. |
| `Classing.AssignAllMonoAt` | src/index.ts:158-172 | In a mono scheme, every label of the array ends up holding exactly the element. |
| `Classing.AssignAllGroupingAt` | src/index.ts:158-179 | In a grouping scheme, every label of the array ends up holding its earlier array followed by the element, once per occurrence of the label in the array. The earlier order is kept. |
| `Classing.GroupingClassifyAt` | src/index.ts:154-179 | Classifying one element in a grouping scheme appends it to exactly the labels its mapping result names. All other labels are unchanged. |
| `Classing.AssignAllWellFormed` | src/index.ts:171-179 | Assignments keep the scheme invariant: mono values are single elements, grouping values are non-empty arrays. |
| `Classing.ClassifyWellFormed` | src/index.ts:154-166 | Classifying one element keeps the scheme invariant. |
| `Classing.ScanWellFormed` | src/index.ts:76-83 | A re-scan keeps the scheme invariant. |
| `Classing.GroupingScanAt` | src/index.ts:76-83 | After a re-scan of a grouping scheme, a label that no element names is untouched. Any other label holds its earlier array followed by `Members`: the elements naming it, in list order. |
| `Classing.MonoScanAt` | src/index.ts:76-83 | After a re-scan of a mono scheme, a label that no element names is untouched. Any other label holds the last element in list order whose mapping result names it. |
| `Classing.RescanAppendsAgain` | src/index.ts:76-83 | Re-scanning a grouping scheme a second time appends every labelled element again, after the first scan's elements. |
| `Classing.MembersAreLabelled` | src/index.ts:154-166 | An element appears in a label's expected contents exactly when it is a list element whose mapping result names the label. |

## Left out

- `getList()` (src/index.ts:32-34) returns the backing array by reference, so a caller can change the list behind the indexes. The model owns the list, and the `list` field is the read access.
- `mappingMethod.call(this, element)` binds `this` for the mapping function. Mapping functions are pure Dafny functions here, so a mapping function cannot observe or change the structure.
- JavaScript truthiness of arbitrary element values is not modelled. Null elements, non-string ids, and falsy primitive elements are out of scope. An element is treated as truthy, and its id as a string with `""` for "none".
- The rebuild loop's key for an element without an id is `""` in the model. In JavaScript it is the string `"undefined"` for a missing id.
- Plain-object key behaviour is not modelled. Keys inherited from `Object.prototype` (such as `"toString"`) and the special key `"__proto__"` can make lookups and the registration check see inherited members. The model's maps hold only what was written.
- `Object.keys` enumeration order is not modelled. `GetCustomClassificationClassesNames` returns a set of labels rather than an ordered array, and schemes are re-scanned and pushed to in an unspecified order.
- The source has no removal path for elements, index entries or classes; the notes at src/index.ts:175 and 178 only plan one. None is modelled, and neither is the tree-based indexing the closing comment at src/index.ts:183-186 suggests.
- `initMainClassing` (src/index.ts:47, 50) and `_pushToMainClassing` (src/index.ts:141-142) read the `id` property of elements directly. The model takes that property as the constructor's `id` function instead, so it is fixed per structure.
- CustomClsGet: the source returns the stored array or element by reference (src/index.ts:99). A later push appends to that same array in place (src/index.ts:174), so an array a caller holds grows, and a caller who changes it changes the index. The model returns a value snapshot of the stored value. Changes a caller makes through a returned reference are outside its contract.
- GetCustomClassification: the source returns the live scheme object (src/index.ts:105), whose `classes`, `mappingMethod` and `mono` a caller can change. The model returns a value snapshot. Changes a caller makes through it are outside its contract.
