# Household dashboard drawers in Dafny

A model of the record-keeping core of a household dashboard, a single-page
React app. It has five "drawers". Each keeps one record list in component
state and writes it to the browser's local storage after every change:

- **Car manager**: vehicles, each with its own list of maintenance records.
  It has derived views: miles remaining, a four-band urgency class, a preset
  catalog, and sorted views by creation time and due mileage.
- **Notes**: add, edit, delete and a case-insensitive search.
- **Planner**: tasks with add, toggle and delete. The tasks are split into
  upcoming (sorted by due date) and completed (newest first).
- **Kroger manager**: loyalty number, preferred store and a shopping list.
- **Cheese tracker**: opened cheeses, days open and a freshness band.

How the model is laid out:

- Each page is one module (`CarManager`, `Notes`, `Planner`, `KrogerManager`,
  `CheeseTracker`).
- Every state operation of the source replaces the list with a
  `map`/`filter`/prepend of the old list. The model gives each one a pure
  function from the old list to the new one (`WithVehicle`, `WithoutNote`,
  `Toggled`, ...). The function's contract states what the operation
  promises.
- Each page also has a class (`VehicleStore`, `NoteStore`, ...) holding that
  list and the storage slot (`saved`). Its methods carry the source's names
  and reassign the list to the function's result. `Valid()` states that the
  slot always equals the list, i.e. writes go straight through.
- `Strings` models the JavaScript string operations used: `trim`,
  `toLowerCase`, `includes`, `slice`, and `localeCompare` as lexicographic
  order.
- `Lists` models `Array.prototype.filter` and a stable comparator sort.

How inputs from outside are modelled:

- Clock values are parameters: `Date.now()` ids are `now: int` and
  `toISOString()` timestamps are `nowIso: string`.
- `Number(text) || 0` coercion is an abstract parse `Option<int>`, where
  `None` stands for NaN.
- Date parsing comes in as epoch milliseconds.

Two fields are renamed because their names are Dafny keywords. The records'
`type` field is `kind`, and the cheese's `opened` field is `openedOn`.

Where the design description and the code disagree, the model follows the
code:

- The design says mileage is coerced to a non-negative integer (stored as
  `max(0, parse || 0)`). The code stores `Number(x) || 0`, so a negative
  value is stored as is. `CarManager.WithMileage` and
  `CarManager.WithVehicle` keep negatives.
- The design says a maintenance record with neither a type nor a due mileage
  is rejected. The code fills a blank type with "Maintenance" before its
  guard runs, so the guard never rejects. `CarManager.CustomItem` proves
  that it always returns a record.

## Model

| member | source | states |
|---|---|---|
| Strings.Trim | src/pages/CarManager.jsx:47-50 | the trimmed string is a contiguous piece of the input (see `TrimRemovesOnlyWhitespace` for what it cuts off); it is empty exactly when the input is all whitespace, and otherwise neither starts nor ends with whitespace |
| Strings.TrimRemovesOnlyWhitespace | src/pages/CarManager.jsx:47-50 | the trimmed string sits in the input right after the leading whitespace, and every character before and after it is whitespace |
| Strings.TrimStart | src/pages/Planner.jsx:18 | the result is a suffix of the input that does not start with whitespace, and everything removed is whitespace |
| Strings.TrimEnd | src/pages/Planner.jsx:18 | the result is a prefix of the input that does not end with whitespace, and everything removed is whitespace |
| Strings.ToLower | src/pages/Notes.jsx:21-25 | same length; each ASCII capital becomes its small letter (code + 32), every other character is kept, and no ASCII capital remains |
| Strings.Includes | src/pages/Notes.jsx:25 | the start-position scan of `includes` is true exactly when the query occurs at some position of the text (the empty query included) |
| Strings.Prefix | src/pages/CarManager.jsx:186 | `slice(0, n)` is a prefix of length min(n, length) |
| Strings.LexLeTotal | src/pages/CarManager.jsx:88 | any two strings are comparable by the string order that `localeCompare` is modelled as |
| Strings.LexLeTransitive | src/pages/CarManager.jsx:88 | that string order is transitive |
| Strings.LexLeAntisymmetric | src/pages/CarManager.jsx:88 | two strings that each sort before-or-with the other are equal |
| Strings.EmptyIsLeast | src/pages/Planner.jsx:42 | only "" sorts before-or-with "" |
| Lists.Filter | src/pages/CarManager.jsx:67 | `filter` keeps input order and keeps each element exactly as often as it occurs in the input if it passes the test, and otherwise not at all |
| Lists.FilterKeepsAll | src/pages/CarManager.jsx:67 | when every element passes the test, the filter returns its input unchanged (the basis of "absent id is a no-op") |
| Lists.Insert | src/pages/CarManager.jsx:87-89 | one insertion step of the sort adds exactly the new element |
| Lists.SortBy | src/pages/CarManager.jsx:87-89 | the comparator sort is a permutation of its input |
| Lists.InsertSorted | src/pages/CarManager.jsx:87-89 | inserting into a sorted list keeps it sorted under a total preorder |
| Lists.SortBySorted | src/pages/CarManager.jsx:87-89 | the comparator sort's output is ordered by any total-preorder comparator |
| Lists.InsertStable | src/pages/CarManager.jsx:87-89 | an inserted element lands in front of every element it ties with, and the other tie groups are unchanged |
| Lists.SortByStable | src/pages/CarManager.jsx:87-89 | the comparator sort is stable: each group of mutually tied elements keeps its input order |
| Wrappers.OrZero | src/pages/CarManager.jsx:51 | `Number(x) \|\| 0`: NaN gives 0, a parsed number is kept, and a non-zero result is always the parsed number |
| CarManager.MilesRemaining | src/pages/CarManager.jsx:12-15 | "no value" exactly when due or current mileage is 0; otherwise current + remaining = due, so a negative value means overdue |
| CarManager.ClsOverdue | src/pages/CarManager.jsx:17-22 | every input is in exactly one band: no value → unknown, below 0 → overdue, 0..500 → due soon, above 500 → ok |
| CarManager.UrgencyMonotone | src/pages/CarManager.jsx:17-22 | fewer miles remaining never gives a less severe band |
| CarManager.RecordUrgency | src/pages/CarManager.jsx:298-305 | the band shown for a record, in terms of its due mileage and the odometer reading |
| CarManager.CreatedNoOlderIsTotalPreorder | src/pages/CarManager.jsx:87-89 | the newest-first comparator is a total preorder |
| CarManager.SortedVehicles | src/pages/CarManager.jsx:85-90 | the vehicles are permuted so that `createdAt` is descending, and vehicles with equal `createdAt` keep their list order |
| CarManager.MaintSorted | src/pages/CarManager.jsx:173-179 | a vehicle's records are permuted so that `dueMiles` is ascending (untracked records are 0, so they come first), and records with equal `dueMiles` keep their order |
| CarManager.PresetItem | src/pages/CarManager.jsx:181-189 | a preset record has the preset's type, is due exactly one interval past the vehicle's mileage, and has the first 10 characters of today's timestamp (its date part) as last done |
| CarManager.PresetRecordIsOk | src/pages/CarManager.jsx:6-10 | with a catalog preset (5000, 6000 or 12000 miles) on a vehicle with mileage, the new record is in the "ok" band |
| CarManager.CustomItem | src/pages/CarManager.jsx:191-201 | the guard never rejects; the type is the trimmed input or "Maintenance" when blank; due miles are the parse or 0; notes are trimmed |
| CarManager.WithVehicle | src/pages/CarManager.jsx:44-56 | blank make and model leave the list unchanged; otherwise exactly one vehicle is prepended, with the trimmed fields, the given id and timestamp, no records, and the parsed mileage or 0 |
| CarManager.WithMileage | src/pages/CarManager.jsx:61-64 | length and order are kept, every field except `mileage` is kept, only vehicles with the id get the parsed mileage or 0 (negatives kept), and an unknown id changes nothing |
| CarManager.WithoutVehicle | src/pages/CarManager.jsx:66-67 | the result is an order-preserving sublist holding each vehicle with another id exactly as often as the list does, and no vehicle with the id (its records go with it); an absent id changes nothing |
| CarManager.Stamp | src/pages/CarManager.jsx:72 | the stamped record carries the new id and exactly the item's fields |
| CarManager.WithMaint | src/pages/CarManager.jsx:69-74 | only vehicles with the id change, and only by one stamped record prepended to their maintenance; an unknown id changes nothing |
| CarManager.WithoutMaint | src/pages/CarManager.jsx:76-83 | only vehicles with `vehId` change, and only their maintenance, which becomes an order-preserving sublist keeping each record with another id exactly as often as before and none with `maintId` |
| CarManager.NewVehicleOilChange | src/pages/CarManager.jsx:51 | a vehicle added without a mileage has mileage 0, and an oil change preset on it is due at 5000 |
| CarManager.VehicleStore.constructor | src/pages/CarManager.jsx:25-28 | the list starts as the stored list, or empty when nothing is stored, and is written through |
| CarManager.VehicleStore.AddVehicle | src/pages/CarManager.jsx:44-59 | the list becomes `WithVehicle` of the old list and is written through |
| CarManager.VehicleStore.UpdateMileage | src/pages/CarManager.jsx:61-64 | the list becomes `WithMileage` of the old list and is written through |
| CarManager.VehicleStore.RemoveVehicle | src/pages/CarManager.jsx:66-67 | the list becomes `WithoutVehicle` of the old list and is written through |
| CarManager.VehicleStore.AddMaint | src/pages/CarManager.jsx:69-74 | the list becomes `WithMaint` of the old list and is written through |
| CarManager.VehicleStore.RemoveMaint | src/pages/CarManager.jsx:76-83 | the list becomes `WithoutMaint` of the old list and is written through |
| CarManager.VehicleStore.AddPreset | src/pages/CarManager.jsx:181-189 | the card's vehicle gets the preset record prepended |
| CarManager.VehicleStore.AddCustom | src/pages/CarManager.jsx:191-201 | the card's vehicle always gets the custom record prepended |
| Notes.Filtered | src/pages/Notes.jsx:20-27 | a blank query returns the whole list; otherwise an order-preserving sublist holding each note whose lower-cased title or body contains the trimmed, lower-cased query exactly as often as the list does, and no other note |
| Notes.WithNote | src/pages/Notes.jsx:29-41 | no-op only when both raw fields are empty; otherwise one note is prepended with the trimmed body, and the trimmed title or "Untitled" when that is blank |
| Notes.WhitespaceDraftAdded | src/pages/Notes.jsx:30 | a whitespace-only draft passes the guard and adds an "Untitled" note with an empty body |
| Notes.WithEdit | src/pages/Notes.jsx:45-52 | length and order are kept; other notes are unchanged; matching notes keep id and `createdAt` and take the new title and body |
| Notes.WithoutNote | src/pages/Notes.jsx:54 | an order-preserving sublist holding each note with another id exactly as often as the list does and no note with the id; an absent id changes nothing |
| Notes.NoteStore.constructor | src/pages/Notes.jsx:7-10 | the list starts as the stored list, or empty, and is written through |
| Notes.NoteStore.Add | src/pages/Notes.jsx:29-41 | the list becomes `WithNote` of the old list and is written through |
| Notes.NoteStore.SaveEdit | src/pages/Notes.jsx:45-52 | the list becomes `WithEdit` of the old list and is written through |
| Notes.NoteStore.Remove | src/pages/Notes.jsx:54 | the list becomes `WithoutNote` of the old list and is written through |
| Planner.DueNoLaterIsTotalPreorder | src/pages/Planner.jsx:42 | the due-date comparator is a total preorder |
| Planner.CreatedNoOlderIsTotalPreorder | src/pages/Planner.jsx:47 | the newest-first comparator is a total preorder |
| Planner.Upcoming | src/pages/Planner.jsx:38-44 | exactly the open tasks, each as often as in the list, with `due` ascending, and tasks with equal `due` in list order |
| Planner.Completed | src/pages/Planner.jsx:46-49 | exactly the done tasks, each as often as in the list, with `createdAt` descending, and tasks with equal `createdAt` in list order |
| Planner.UpcomingCompletedPartition | src/pages/Planner.jsx:38-49 | the two views together hold every task exactly as often as the list does |
| Planner.UndatedFirst | src/pages/Planner.jsx:40-42 | in the upcoming view no dated task comes before an undated one |
| Planner.Overdue | src/pages/Planner.jsx:103-104 | an open task whose due date is set, parses, and falls before the start of today is overdue, and no other task is |
| Planner.OverdueStays | src/pages/Planner.jsx:103-104 | a task overdue today is still overdue on any later day |
| Planner.OverdueIsUpcoming | src/pages/Planner.jsx:103-104 | a task marked overdue is always in the upcoming view |
| Planner.WithTask | src/pages/Planner.jsx:17-31 | blank text changes nothing; otherwise one open task is prepended with the trimmed (non-blank) text and the given due date |
| Planner.Toggled | src/pages/Planner.jsx:33-34 | length and order are kept; only matching tasks change, and only by flipping `done` |
| Planner.ToggleTwice | src/pages/Planner.jsx:33-34 | toggling an id twice restores the list |
| Planner.WithoutTask | src/pages/Planner.jsx:36 | an order-preserving sublist holding each task with another id exactly as often as the list does and no task with the id; an absent id changes nothing |
| Planner.TaskStore.constructor | src/pages/Planner.jsx:7-10 | the list starts as the stored list, or empty, and is written through |
| Planner.TaskStore.Add | src/pages/Planner.jsx:17-31 | the list becomes `WithTask` of the old list and is written through |
| Planner.TaskStore.Toggle | src/pages/Planner.jsx:33-34 | the list becomes `Toggled` of the old list and is written through |
| Planner.TaskStore.Remove | src/pages/Planner.jsx:36 | the list becomes `WithoutTask` of the old list and is written through |
| KrogerManager.WithField | src/pages/KrogerManager.jsx:20-21 | only the named field takes the value; the other field and the shopping list are kept |
| KrogerManager.WithItem | src/pages/KrogerManager.jsx:23-34 | blank text changes nothing; otherwise one open item with the trimmed text is prepended; loyalty and store are kept |
| KrogerManager.WithToggled | src/pages/KrogerManager.jsx:36-42 | loyalty, store, length and order are kept; only matching items change, and only by flipping `done` |
| KrogerManager.ToggleTwice | src/pages/KrogerManager.jsx:36-42 | toggling an id twice restores the record |
| KrogerManager.WithoutItem | src/pages/KrogerManager.jsx:44-48 | loyalty and store are kept; the list becomes an order-preserving sublist holding each item with another id exactly as often as before and no item with the id; an absent id changes nothing |
| KrogerManager.KrogerStore.constructor | src/pages/KrogerManager.jsx:7-12 | the record starts as the stored one, or empty fields and an empty list, and is written through |
| KrogerManager.KrogerStore.UpdateField | src/pages/KrogerManager.jsx:20-21 | the record becomes `WithField` of the old one and is written through |
| KrogerManager.KrogerStore.AddItem | src/pages/KrogerManager.jsx:23-34 | the record becomes `WithItem` of the old one and is written through |
| KrogerManager.KrogerStore.ToggleItem | src/pages/KrogerManager.jsx:36-42 | the record becomes `WithToggled` of the old one and is written through |
| KrogerManager.KrogerStore.RemoveItem | src/pages/KrogerManager.jsx:44-48 | the record becomes `WithoutItem` of the old one and is written through |
| CheeseTracker.DaysOpen | src/pages/CheeseTracker.jsx:4-9 | never negative; 0 for an unparsable or future date; otherwise the floor of elapsed milliseconds over 86,400,000 |
| CheeseTracker.StatusPill | src/pages/CheeseTracker.jsx:11-15 | green below 7 days, yellow for 7 to 13, red from 14 |
| CheeseTracker.PillMonotone | src/pages/CheeseTracker.jsx:11-15 | more days never give a fresher band |
| CheeseTracker.AgeingNeverImproves | src/pages/CheeseTracker.jsx:4-15 | looked at later, a cheese has at least as many days open and is never in a fresher band |
| CheeseTracker.Sorted | src/pages/CheeseTracker.jsx:28-34 | the cheeses are permuted so that opened time is descending, and cheeses opened at the same time keep their list order |
| CheeseTracker.WithCheese | src/pages/CheeseTracker.jsx:36-40 | any empty raw field changes nothing; otherwise exactly one cheese carrying the form fields and the new id is prepended |
| CheeseTracker.WithoutCheese | src/pages/CheeseTracker.jsx:42 | an order-preserving sublist holding each cheese with another id exactly as often as the list does and no cheese with the id; an absent id changes nothing |
| CheeseTracker.CheeseStore.constructor | src/pages/CheeseTracker.jsx:18-21 | the list starts as the stored list, or empty, and is written through |
| CheeseTracker.CheeseStore.Add | src/pages/CheeseTracker.jsx:36-40 | the list becomes `WithCheese` of the old list and is written through |
| CheeseTracker.CheeseStore.Remove | src/pages/CheeseTracker.jsx:42 | the list becomes `WithoutCheese` of the old list and is written through |

## Left out

- Local storage I/O is not modelled beyond write-through. That covers JSON serialisation, a stored value that does not parse, and a storage write that fails. The slot is a field holding the current value. The round trip "persist then reload gives the same collection" is not modelled.
- Rendering is left out: JSX, `toLocaleString` formatting and the colour strings' use in markup. The preset note's locale-formatted interval is a parameter (`intervalText`).
- UI-only state is left out: form draft resets, `activeId` (the expanded vehicle), `editingId` and `startEdit` in notes, and the draft inputs themselves. They decide nothing about the stored lists.
- The chat assistant page, the layout, the dashboard, routing and styling are not part of this model. They have no stored record logic: the chat page is a timed canned reply with random ids, and the others are navigation and static markup.
- Id uniqueness is not modelled. Ids come from the millisecond clock and can collide. The model treats ids as arbitrary integers, and every operation acts on all records with the id, as the source's `map`/`filter` do.
- Strings.ToLower: only ASCII letters are lower-cased. JavaScript's full Unicode case mapping is not modelled.
- Strings.LexLe: `localeCompare` is modelled as code-point lexicographic order. Locale collation is not modelled.
- Number parsing (`Number(text)`) is abstract: the model receives its result as an optional integer. Fractional and exponent forms are not modelled.
- Date parsing is abstract: `new Date(text)` reaches the model as epoch milliseconds (`Option<int>` for `daysOpen` and the overdue check, a total parser `timeOf` for the cheese sort).
- CheeseTracker.Sorted: an opened date that does not parse makes the source's comparator return NaN, and the resulting order depends on the engine. The model sorts by whatever total `timeOf` the caller supplies.
- KrogerManager.WithField: the source's `updateField` accepts any property name. The model accepts only the two the page passes, `loyalty` and `store`.
- Render-time captures are not modelled: `addVehicle` (src/pages/CarManager.jsx:56), the notes `add` (src/pages/Notes.jsx:38), the planner `add` (src/pages/Planner.jsx:28) and the cheese `add` and `remove` (src/pages/CheeseTracker.jsx:38, 42) build the new list from the list captured at render time rather than the latest state (`prev`). The store methods always apply the update to the current list; with one update per event, as the page runs, the two are the same.
