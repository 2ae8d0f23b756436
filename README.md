# HR onboarding: record store, dashboard statistics and screen logic

This project models the core of a small HR onboarding application written in
TypeScript and React. The core has three parts.

- **The data model** (types.ts), in module `Types`. An employee record is an
  `id` plus a `Profile` holding the 32 other keys. A `Patch` stands for
  `Partial<Employee>`: every key, `id` included, may be absent. The three
  onboarding states are stored in the source as their Chinese labels. `Key`,
  `Value`, `Get` and `PatchGet` give a key-by-key view of profiles and patches.
- **The record store** (store/useHRStore.ts), in modules `HRStore`, `HRStats`,
  `PropertyOrder` and `DeptMapJs`.
  - The `useHRStore` hook becomes the class `HRStore.Store`. Its one field is the
    ordered collection, which starts with one seed record.
  - The store has three operations: append with a caller-supplied id, shallow
    merge into every record with a given id, and removal of every record with a
    given id.
  - The dashboard statistics, as the program evidently intends them, are the
    pure function `HRStats.StatsOf`. `HRStats.ComputeStats` is the counting
    loop over a dictionary with no inherited keys: it fills the dictionary
    record by record and then lists it. It is proved to compute `StatsOf`.
  - `Object.entries` lists keys in a fixed order (ECMA-262, section 10.1.11.1,
    OrdinaryOwnPropertyKeys). Keys that are array indices (section 6.1.7) come
    first, in ascending numeric order. All other keys follow in the order they
    were created. This order is modelled in `PropertyOrder`.
  - The program's own loop fills an object literal `{}`, which inherits the
    keys of Object.prototype. `DeptMapJs.FillDeptMap` and
    `DeptMapJs.TableAsWritten` model that loop and its table as JavaScript
    evaluates them. `DeptMapJs.AsWrittenAgrees` proves they give the table of
    `StatsOf` whenever no department name is an Object.prototype key. For the
    other names the two differ (see "## Findings").
- **The screen logic** (App.tsx), in module `App`.
  - `ToDraft` maps an OCR extraction result to a draft, applying the `|| default`
    rule to each key.
  - The class `App.App` holds the component's three pieces of state:
    `currentView`, `editingEmployee` and `printingEmployee`.
  - Its methods are the event handlers. Submitting routes to update or to add:
    a record whose id is the placeholder `'temp'` is added, never updated.

Inputs that the source draws from the environment become parameters:

- `Math.random` for the new id becomes the `newId` argument of `AddEmployee`
  and `HandleFormSubmit`.
- The OCR service's answer becomes the `Extraction` argument of `HandleOCRData`.

The code has no collision check on new ids, raises no error on an unknown id,
keeps the hiring series constant and accepts only images:

- No collision check: `addEmployee` does not check the random id against the
  collection. `AddKeepsUnique` states exactly when uniqueness survives.
- No error on an unknown id: `updateEmployee` raises nothing for an id that
  matches no record. The call is a no-op (`UpdateNoOp`).
- Hiring series not derived: it is the constant single bucket
  `{ month: '4月', count: 1 }`. It is not bucketed by month from the records.
- Images only: the extraction input is an image scan. There is no document
  classification and no spreadsheet or word-processor text extraction.

## Model

| member | source | states |
|---|---|---|
| Types.Label | types.ts:59 | each status is one of the three three-character labels |
| Types.StatusOf | types.ts:59 | a label parsed back to a status is that status's label |
| Types.LabelRoundTrip | types.ts:59 | a status's label parses back to it, and a string parses to status `s` exactly when it is `s`'s label: the three labels are distinct |
| Types.EmptyPatch | types.ts:22-61 | the patch `{}` supplies neither `id` nor any profile key |
| HRStore.InitialEmployee | store/useHRStore.ts:5-40 | the seed record has id "1", department "客服部", status completed and no remarks |
| HRStore.Merge | store/useHRStore.ts:52 | the shallow merge `{ ...e, ...updates }`; `MergeAt`, `MergeByKey` and `MergeEmpty` establish that the patch wins on exactly the keys it supplies |
| HRStore.MergeAt | store/useHRStore.ts:52 | after `{ ...e, ...updates }` each key holds the patch's value if supplied and the record's value otherwise |
| HRStore.MergeByKey | store/useHRStore.ts:52 | the merge takes the patch's id if supplied, every supplied key from the patch, and every other key from the record |
| HRStore.MergeEmpty | store/useHRStore.ts:52 | merging `{}` leaves a record unchanged |
| HRStore.Updated | store/useHRStore.ts:52 | the update keeps the length of the collection |
| HRStore.UpdatedAt | store/useHRStore.ts:52 | at every position the updated record is the old one merged with the patch when its id matches, and the old one otherwise |
| HRStore.UpdateNoOp | store/useHRStore.ts:52 | an update with an id that no record has, or with `{}`, leaves the collection exactly as it was, with no error |
| HRStore.UpdateKeepsIds | store/useHRStore.ts:51-53 | an update that supplies no `id` leaves the id list, and so id uniqueness, unchanged |
| HRStore.AddKeepsUnique | store/useHRStore.ts:46-47 | appending a record keeps ids unique exactly when they were unique and its id is not yet present |
| HRStore.Deleted | store/useHRStore.ts:56 | delete never lengthens the collection |
| HRStore.DeletedMembers | store/useHRStore.ts:56 | a record survives delete exactly when it was present and its id differs from the given one |
| HRStore.DeletedAppend | store/useHRStore.ts:56 | delete distributes over concatenation, so survivors keep their relative order |
| HRStore.DeletedAbsent | store/useHRStore.ts:56 | deleting an id no record has is a no-op |
| HRStore.DeletedTwice | store/useHRStore.ts:56 | deleting the same id twice equals deleting it once |
| HRStore.DeletedIds | store/useHRStore.ts:56 | the ids after delete are a sub-multiset of the ids before |
| HRStore.DeleteKeepsUnique | store/useHRStore.ts:56 | delete preserves id uniqueness |
| HRStore.Store.constructor | store/useHRStore.ts:43 | the store starts with exactly the seed record |
| HRStore.Store.AddEmployee | store/useHRStore.ts:45-49 | returns the draft under the new id and appends exactly that record at the end, earlier records unchanged and in order |
| HRStore.Store.UpdateEmployee | store/useHRStore.ts:51-53 | the new collection is the old one with every matching record merged with the patch |
| HRStore.Store.DeleteEmployee | store/useHRStore.ts:55-57 | the new collection is the old one without the records of that id |
| HRStats.DeptCount | store/useHRStore.ts:61-63 | the number of records in one department, never more than the collection; `CountPositive` establishes that it is positive exactly for the departments present |
| HRStats.FirstSeen | store/useHRStore.ts:60-63 | the departments in the order their first records appear, i.e. the creation order of the dictionary's keys; `FirstSeenFacts` and `FirstSeenOrder` establish it is repeat-free, complete and in first-occurrence order |
| HRStats.CompletedCount | store/useHRStore.ts:67 | the number of completed records, never more than the collection; `CompletedCountBounds` characterises both extremes |
| HRStats.Progress | store/useHRStore.ts:67 | the completion percentage `completed / max(total, 1) * 100`; `ProgressSpec` establishes its range and extremes |
| HRStats.DepartmentDistribution | store/useHRStore.ts:60-68 | the intended department table, one entry per created key in `Object.entries` order; `DistributionSpec` and `DistributionOrder` establish its contents and order |
| HRStats.StatsOf | store/useHRStore.ts:59-73 | the intended value of `stats`; `StatsFigures`, `EmptyStats` and `InitialStats` state its figures, and `DeptMapJs.AsWrittenAgrees` where the program's value agrees with it |
| HRStats.ComputeStats | store/useHRStore.ts:59-73 | the counting loop, over a dictionary with no inherited keys, followed by `Object.entries`, yields exactly the statistics `StatsOf` specifies |
| HRStats.FirstSeenFacts | store/useHRStore.ts:60-63 | the keys the loop creates have no repeats and are exactly the departments present |
| HRStats.CountPositive | store/useHRStore.ts:61-63 | a department's count is positive exactly when some record is in it |
| HRStats.FirstSeenOrder | store/useHRStore.ts:60-63 | keys are created in the order of each department's first record |
| HRStats.FirstIndexPrefix | store/useHRStore.ts:61-63 | a later record does not move a department's first occurrence |
| HRStats.SumCountsCover | store/useHRStore.ts:61-63 | over a repeat-free list that covers every department, the counts add up to the number of records |
| HRStats.DistributionSpec | store/useHRStore.ts:60-68 | the table has one entry per distinct department, each valued by its head count, never zero, and the values add up to the record count |
| HRStats.DistributionOrder | store/useHRStore.ts:68 | array-index names come first in ascending order; the rest follow in first-seen order; with no such name the order is first-seen order |
| HRStats.CompletedCountBounds | store/useHRStore.ts:67 | the completed count equals the total exactly when all records are completed, and is 0 exactly when none is |
| HRStats.Percentage | store/useHRStore.ts:67 | `c / n * 100` for `c <= n`, `n >= 1` lies in [0, 100]; it is 100 exactly when `c = n` and 0 exactly when `c = 0` |
| HRStats.ProgressSpec | store/useHRStore.ts:67 | progress lies in [0, 100]; it is 0 for no records; otherwise 100 exactly when all are completed and 0 exactly when none is |
| HRStats.StatsFigures | store/useHRStore.ts:66-71 | the total is the collection length and the hiring series is always the single bucket ('4月', 1) |
| HRStats.EmptyStats | store/useHRStore.ts:66-71 | the empty collection gives total 0, progress 0, no departments and the fixed series |
| HRStats.InitialStats | store/useHRStore.ts:5-43 | the seed collection gives total 1, progress 100, the single entry ('客服部', 1) and the fixed series |
| PropertyOrder.IndexKeys | store/useHRStore.ts:68 | the array-index keys are exactly the created keys that are array indices |
| PropertyOrder.NamedKeys | store/useHRStore.ts:68 | the other keys are exactly the created keys that are not array indices |
| Distinctness.DistinctMultiset | store/useHRStore.ts:68 | a list has no repeats exactly when no element occurs twice in its multiset |
| PropertyOrder.OwnKeys | store/useHRStore.ts:68 | the `Object.entries` listing order of an object's created keys; `OwnKeysPermutes`, `OwnKeysOrder` and `OwnKeysCreationOrder` establish that it is a permutation in OrdinaryOwnPropertyKeys order |
| PropertyOrder.InsertAscending | store/useHRStore.ts:68 | inserting a key by numeric value keeps an ascending list ascending |
| PropertyOrder.SortByValueFacts | store/useHRStore.ts:68 | sorting the array-index keys yields an ascending permutation of them |
| PropertyOrder.OwnKeysPermutes | store/useHRStore.ts:68 | `Object.entries` lists each created key exactly once: the listing is a permutation of the created keys |
| PropertyOrder.OwnKeysOrder | store/useHRStore.ts:68 | the listing is the array-index keys in ascending numeric order, then the other keys in creation order |
| PropertyOrder.OwnKeysCreationOrder | store/useHRStore.ts:68 | with no array-index key the listing is the creation order |
| DeptMapJs.Lookup | store/useHRStore.ts:62 | `deptMap[d]` on an object literal: an own value, else what Object.prototype supplies, else `undefined` |
| DeptMapJs.Assign | store/useHRStore.ts:62 | `deptMap[d] = v`: creates or overwrites an own key, except that the `__proto__` setter ignores a non-object value |
| DeptMapJs.Bump | store/useHRStore.ts:62 | `deptMap[d] = (deptMap[d] \|\| 0) + 1`; `FillStep` establishes that for a name not inherited it adds one to the count, creating the key at 1 |
| DeptMapJs.FillStep | store/useHRStore.ts:62 | for a name Object.prototype does not supply, one step sets its count to one more and creates the key if it was new |
| DeptMapJs.TableAsWritten | store/useHRStore.ts:60-68 | `Object.entries(deptMap).map(...)` as JavaScript evaluates it; `AsWrittenAgrees` and the two counterexamples relate it to the intended table |
| DeptMapJs.FillDeptMap | store/useHRStore.ts:60-63 | the object's own keys are exactly the keys it recorded as created |
| DeptMapJs.FillAgrees | store/useHRStore.ts:60-63 | when no department is an Object.prototype key, the JavaScript object holds exactly the head counts, with keys created in first-seen order |
| DeptMapJs.AsWrittenAgrees | store/useHRStore.ts:60-68 | when no department is an Object.prototype key, the table JavaScript builds equals the specified table |
| DeptMapJs.InheritedMethodCounterexample | store/useHRStore.ts:62 | one record in department "toString" is listed with a string value instead of the count 1 |
| DeptMapJs.ProtoKeyCounterexample | store/useHRStore.ts:62 | one record in department "__proto__" is missing from the table instead of listed with count 1 |
| App.ToDraft | App.tsx:40-73 | the draft `handleOCRData` builds; `ToDraftAt` and `ToDraftSpec` establish the copy, default and fixed-field rules |
| App.AsPatch | App.tsx:21 | the submitted form passed as `Partial<Employee>`; `AsPatchAt` and `AsPatchSpec` establish which keys it supplies |
| App.ToDraftAt | App.tsx:41-70 | each copied key of the draft is the extracted value if truthy, else its default |
| App.ToDraftSpec | App.tsx:40-73 | truthy extracted values are copied; falsy or missing ones become "" ("女" for gender); education and employment are copied or default to empty; family, languages, status and remarks are fixed to [], "", pending, "" |
| App.AsPatchAt | App.tsx:19-21 | the submitted form supplies each key with its own value, `remarks` only when present, and never `id` |
| App.AsPatchSpec | App.tsx:19-21 | the submitted form as a patch supplies no `id`, every other key with the form's value, and `remarks` only when present |
| App.SubmitReplacesProfile | App.tsx:21 | saving an edit keeps the record's id and replaces its whole profile by the form; old remarks survive only if the form has none |
| App.App.constructor | App.tsx:14-17 | the app starts on the dashboard with nothing being edited or printed and a store holding the seed record |
| App.App.HandleFormSubmit | App.tsx:19-27 | an edited record whose id is not 'temp' is updated with the form; otherwise the form is appended under the new id. Either way editing is cleared and the view is the employee list |
| App.App.HandleEditClick | App.tsx:29-32 | editing becomes the record and the view the form; the print state and the collection are unchanged |
| App.App.HandlePrintClick | App.tsx:34-37 | printing becomes the record and the view the print preview; the edit state and the collection are unchanged |
| App.App.HandleOCRData | App.tsx:39-77 | editing becomes the mapped draft under id 'temp' and the view the form; nothing else changes |
| App.App.CancelForm | App.tsx:102-105 | editing is cleared and the view is the employee list; nothing else changes |
| App.App.ClosePrint | App.tsx:126-129 | printing is cleared and the view is the employee list; nothing else changes |
| App.App.Navigate | App.tsx:84 | the view becomes the requested one; nothing else changes |

## Left out

- Gemini service (services/geminiService.ts): network calls through a
  foreign SDK. The extraction result is an input of `HandleOCRData`.
- Image reading and scanning UI (components/OCRTool.tsx): file I/O and async
  display.
- Presentation components: Dashboard.tsx, EmployeeList.tsx, EmployeeForm.tsx,
  PrintTemplate.tsx and SmartAnalytics.tsx are markup and are not modelled.
  The record a form submits is an arbitrary `Profile`.
- The sidebar component (components/Sidebar) is not part of this model. The
  `setCurrentView` callback passed to it is `App.App.Navigate`.
- Random ids: `Math.random().toString(36).substr(2, 9)` is not modelled. The id
  is a parameter, and its formatting and freshness are not.
- Floating point: `onboardingProgress` is a JavaScript double. The model
  computes it as an exact real, with no rounding.
- React semantics: `useState` batching, `useCallback`/`useMemo` memoisation and
  render timing are not modelled. `stats` is a function of the current
  collection, and each handler applies its state changes in sequence.
- Extraction values other than strings: the extracted object is untyped. The
  model gives each key a string, or a list for education and employment, or
  absent. Numbers, booleans or other JSON values under a key are not modelled.
  Nor are education or employment rows with missing keys: the response schema
  marks none of their keys required (services/geminiService.ts:81-104), and
  `data.education || []` copies such rows as they are (App.tsx:61-62), while
  every `Education` and `Employment` of the model carries all its strings.
- Patches with `undefined` values: `{ ...e, ...updates }` copies a key whose
  value is `undefined`. A `Patch` only has "absent" and "present with a value",
  so this case is not modelled, apart from the form's missing `remarks`.
- Delete wiring: `onDelete={deleteEmployee}` passes the store operation straight
  to the list. There is no App handler beyond `HRStore.Store.DeleteEmployee`.
- Print fallback: the print screen renders nothing while `printingEmployee` is
  null (App.tsx:122). This is markup and is not modelled.

## Findings

| source | as written | input that shows it | evidently intended | confidence | as-written member | corrected member |
|---|---|---|---|---|---|---|
| store/useHRStore.ts:60-62 | `deptMap` is `{}`, which inherits Object.prototype. `deptMap[d] \|\| 0` reads an inherited property when `d` names one. | one record with department "toString": the table holds "toString" with a string value such as "function toString() { [native code] }1". One record with department "__proto__": the table is empty. | every department counted from zero, e.g. ("toString", 1) and ("__proto__", 1), as with `Object.create(null)` or a `Map` | not executed | DeptMapJs.InheritedMethodCounterexample | HRStats.DistributionSpec |
