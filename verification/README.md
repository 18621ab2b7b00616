# RepairBox ticket ledger in Dafny

RepairBox is a single-page tracker for a phone-repair counter. Its state is
the day ledger `devices`, a map from an ISO date key to that day's repair
tickets in ticket order, plus three autocomplete pools (client names, device
models, part names) and a transient bulk-selection set of ticket indices.
This project models that state and the handlers that change it, with the
page, storage and timers taken away. It also models the figures derived from
one day: statistics, urgent count, workload gauge and reminders.

Modules, leaf to root:

- `Tickets` (`tickets.dfy`): the ticket record, its status, urgency and
  priority enumerations, the status keys, and the photo reminder predicate.
- `Text` (`text.dfy`): JavaScript `trim`, `split(',')` and string length in
  UTF-16 code units.
- `Suggestions` (`suggestions.dfy`): the three pools and the admission rule.
- `Day` (`day.dfy`): `splice(i, 1)`, the descending-order bulk splice, and
  `Without`, the list with a set of positions removed.
- `Stats` (`stats.dfy`): day statistics, urgent count, workload, reminders.
- `Backup` (`backup.dfy`): the decoded backup document, its record count,
  and what it installs.
- `Shop` (`shop.dfy`): the application state and its event handlers.

Inputs the program reads from the page or the clock are parameters. These
are the current date key, the formatted time and creation stamp, the form
fields, and the answers to `confirm`/`prompt`. A JavaScript error thrown
inside a handler is `Handled.Failed(state)`. Its state is whatever the
handler had already changed before the throw.

## Model

| member | source | states |
|---|---|---|
| Tickets.ParseStatus | script.js:15-21 | a typed key yields a status exactly when it is one of the five status keys, and then that status's key is the typed key |
| Tickets.ParseStatusKey | script.js:15-21 | every status's key reads back as that status |
| Tickets.GuardAdmitsInheritedName | script.js:1029 | the guard as written admits `"constructor"`, which is not a status key |
| Tickets.FromForm | script.js:819-833 | a submitted record carries every form field unchanged, the given time, date and creation stamp, no photos and no time spent, and so asks for a photo exactly when its status is received or repaired |
| Tickets.NeedsPhotoReminder | script.js:130-134 | only a received or a repaired ticket ever asks for a photo |
| Tickets.PhotosClearReminder | script.js:130-134 | a ticket with both photos on file never asks for one |
| Text.Trim | script.js:645-647 | trim yields the slice of the input between its leading and trailing whitespace; the result starts and ends with a non-space |
| Text.TrimAllSpace | script.js:645 | a value made only of whitespace trims to the empty string |
| Text.TrimIdempotent | script.js:647 | trimming an already trimmed value changes nothing |
| Text.TrimKeepsOut | script.js:657-658 | trimming never introduces a character, so a trimmed piece of a comma split holds no comma |
| Text.Split | script.js:657 | split gives at least one piece and no piece contains the separator |
| Text.JoinSplit | script.js:657 | joining the pieces with the separator rebuilds the input, so splitting loses nothing |
| Text.Units | script.js:645-659 | the length JavaScript reports lies between the character count and twice it, and equals the character count exactly when no character lies beyond the Basic Multilingual Plane |
| Text.UnitsOfChar | script.js:645-659 | one character is one code unit, or two when it lies beyond the Basic Multilingual Plane |
| Text.UnitsAppend | script.js:645-659 | the length of a concatenation is the sum of the lengths, so with UnitsOfChar the length is fixed for every string |
| Text.UnitsTwoEmoji | script.js:645-659 | two emoji are four code units long |
| Suggestions.PartNames | script.js:656-662 | the part names are exactly the trimmed comma-separated pieces longer than one code unit: each name is the trim of some piece, is at least two units long and comma-free, and every such piece is included |
| Suggestions.Add | script.js:644-665 | a value under two UTF-16 code units once trimmed changes nothing; otherwise clients and models gain the trimmed value and parts gain all its part names, and nothing else; nothing is removed; only the named pool changes |
| Suggestions.AddAdmitsOnlyClean | script.js:644-665 | every entry a pool gains is trimmed and at least two code units long |
| Suggestions.AddKnownClient | script.js:649-651 | offering a client name that is already in the pool, once trimmed, changes nothing |
| Suggestions.AddTrimmedParts | script.js:645-662 | a trimmed parts list at least two code units long adds exactly its part names to the parts pool and changes nothing else |
| Suggestions.AstralClientAdmitted | script.js:645-651 | a client name made of one emoji is two code units long and is admitted |
| Suggestions.AdmissionExamples | script.js:645-651 | " ab " is admitted as "ab"; "a" is refused |
| Suggestions.SplitExample | script.js:657 | "ab,c" splits into "ab" and "c" |
| Suggestions.PartNamesExample | script.js:656-662 | the parts list "ab,c" names only the part "ab" |
| Suggestions.PartsExample | script.js:656-662 | "ab,c" adds the part "ab" and nothing else |
| Day.RemoveAt | script.js:1192 | splice(i, 1) removes the element at i and moves later elements down one; an index past the end removes nothing |
| Day.Without | script.js:1078-1082 | removing a set of positions never lengthens the list |
| Day.WithoutDropsOnly | script.js:1078-1082 | every survivor of a removal, counted with multiplicity, was in the list |
| Day.WithoutLength | script.js:1078-1082 | removing a set of positions shortens the list by the number of distinct selected positions it has |
| Day.WithoutStep | script.js:1078-1082 | when every position already removed lies above m, splicing at m removes exactly the original element at m |
| Day.SortDescending | script.js:1078 | the selection sorted largest first holds each selected index exactly once |
| Day.SpliceEach | script.js:1080-1082 | splicing a strictly descending list of indices one after another removes exactly those positions |
| Day.DeleteSelected | script.js:1078-1082 | sort-then-splice equals the list without the selected positions, survivors in original order, shorter by the in-range selection size |
| Day.RemoveAtIsWithout | script.js:1192 | a single splice is the removal of a one-position selection |
| Day.DeleteFirstAndLast | script.js:1078-1082 | deleting positions 0 and 2 of [A, B, C] leaves [B] |
| Stats.StatsForDay | script.js:1345-1353 | total is the list length; repaired counts done tickets; pending counts the others; total = repaired + pending; the revenue is the takings rounded to the nearest unit |
| Stats.CountSplit | script.js:929-931 | each ticket is either done or pending, so the two counts add to the total |
| Stats.RevenueIsTakings | script.js:934-936 | the revenue sums the prices of exactly the done tickets that have one; every other ticket contributes zero |
| Stats.RevenueAppend | script.js:934-936 | the revenue of two lists together is the sum of their revenues |
| Stats.StatsExample | script.js:1345-1353 | prices 100 repaired, 50 waiting, 75 delivered give total 3, repaired 2, pending 1, revenue 175 |
| Stats.Round | script.js:1353 | Math.round lands within one half of its argument, halves going up |
| Stats.WorkloadPercent | script.js:938-939 | the workload gauge never exceeds 100 and equals 100 x hours / 12 whenever that is at most 100 |
| Stats.UnestimatedWorkload | script.js:938 | a ticket with no duration counts as one hour |
| Stats.TwelveTicketsFillTheDay | script.js:938-939 | twelve unestimated tickets fill the gauge to 100 |
| Stats.UrgentCount | script.js:932 | the urgent count is the number of tickets that are urgent or express, or of high or critical priority |
| Stats.Concerns | script.js:959-977 | the express and critical reminders only concern unfinished urgent tickets; the pickup reminder only finished ones |
| Stats.UrgentCoversReminders | script.js:932 | every ticket behind an express or a critical reminder is also in the urgent count |
| Stats.Reminders | script.js:953-980 | one entry per kind that concerns a ticket, carrying its count, in the fixed order express, critical, waiting for parts, ready for pickup; at most four |
| Stats.CollectSound | script.js:956-974 | each reminder the checks push names a kind that concerns at least one ticket, with that kind's count |
| Stats.CollectComplete | script.js:956-974 | every checked kind that concerns a ticket gets its reminder |
| Stats.CollectOrdered | script.js:956-974 | checks made in ascending rank push reminders in ascending rank |
| Stats.CountPointwise | script.js:932 | two lists that agree position by position on a test count it the same |
| Shop.Offer | script.js:836-839 | a submission only adds to the pools, and only the trimmed client, the trimmed model or part names; a client, model or parts list at least two code units long once trimmed is added (all its part names, for parts), and one shorter than that leaves its pool as it was |
| Shop.Submit | script.js:816-856 | only the submitted day can change and it exists afterwards; the pools become what the three fields offer; the selection is untouched; the handler completes exactly when there is no editing index or the index is within the day, and otherwise throws with pools and day already updated |
| Shop.Store | script.js:846-855 | without an editing index the ticket lands after the day's tickets, which stay; with one, only that slot changes, to the ticket with the old creation stamp when there was one |
| Shop.SubmitAppends | script.js:841-856 | a new ticket lands after the day's tickets, which stay as they were, and is the record the form describes |
| Shop.SubmitReplaces | script.js:846-851 | an edit replaces only the ticket at its index, keeps the day's length, and carries the old creation stamp over when there was one |
| Shop.SubmitPastTheEnd | script.js:841-848 | an edit index past the end throws, leaving the day as it was (created empty if missing) |
| Shop.EditKeepsCreation | script.js:846-850 | editing a ticket that has a creation stamp keeps that stamp |
| Shop.CopyOf | script.js:1173-1179 | the copy equals the source except client gets " (copie)", status becomes received, time and stamp are fresh |
| Shop.Duplicate | script.js:1170-1181 | the copy is appended after every existing ticket, which stay unchanged; a missing day or index throws and changes nothing |
| Shop.DuplicateStats | script.js:1170-1181 | after a duplicate the day has one more ticket, one more pending, the same done count and the same revenue |
| Shop.CopyPhotoReminder | script.js:130-134 | a copy asks for a before photo exactly when its source has none |
| Shop.Delete | script.js:1189-1196 | a confirmed delete removes the ticket at the index and leaves pools, selection and mode as they were; a declined one changes nothing; a missing day throws |
| Shop.ToggleBulkSelect | script.js:993-995 | the mode flips, the selection empties, the ledger stays |
| Shop.ToggleBulkSelectTwice | script.js:993-995 | toggling twice returns to the original mode with an empty selection |
| Shop.ToggleSelection | script.js:1007-1012 | the ticked index changes membership and no other index does |
| Shop.ToggleSelectionTwice | script.js:1007-1012 | ticking the same index twice restores the selection |
| Shop.Indices | script.js:1411 | the indices of a list of length n are exactly 0 to n-1, n of them |
| Shop.SelectAll | script.js:1406-1414 | in selection mode every index of the day joins the selection; outside it nothing changes |
| Shop.Restatus | script.js:1031-1035 | only the status changes, and only on selected in-range tickets |
| Shop.BulkChangeStatus | script.js:1022-1041 | an empty selection or a non-status answer changes nothing; otherwise only selected tickets' status changes, to the typed status, and the mode is left; a missing day throws |
| Shop.RestatusKeepsUrgent | script.js:932 | a status change does not move the urgent count |
| Shop.BulkChangeStatusKeepsCounts | script.js:1022-1041 | a bulk status change keeps the day's ticket count and urgent count |
| Shop.BulkDelete | script.js:1070-1088 | an empty selection or a declined confirmation changes nothing; otherwise the selected positions are gone, survivors in order, the length drops by the in-range selection size, and the mode is left |
| Shop.SelectAllThenDeleteEmpties | script.js:1406-1414 | after Ctrl+A in selection mode, removing the selected positions empties the day |
| Backup.RecordCountAt | script.js:583-584 | the record count sums per-day lengths independently of key order, a null day counting zero |
| Backup.CountRecords | script.js:583-584 | the reduce over the date keys computes that record count |
| Backup.Present | script.js:587 | the installed ledger has exactly the non-null days of the document, each list unchanged |
| Backup.PoolsOf | script.js:588-590 | each pool holds exactly the entries of its array, or is empty when the array is missing |
| Backup.Enumerate | script.js:538-540 | Array.from of a set lists each member once |
| Backup.Write | script.js:536-540 | the written document installs back the same ledger and pools |
| Shop.Import | script.js:568-596 | without devices the import is refused and nothing changes; declined changes nothing; confirmed replaces ledger and all pools wholesale, missing arrays giving empty pools |
| Shop.Load | script.js:494-508 | no stored document: nothing changes, answer false; otherwise ledger and pools are replaced, missing members empty, answer true; the selection and its mode are never touched |
| Shop.Export | script.js:534-542 | importing or loading the exported document restores the same ledger and pools |
| Shop.ClearAll | script.js:608-614 | two confirmations empty the ledger and the pools; anything less changes nothing |

## Left out

- Rendering: card, list, filter, thermal ticket, invoice, day report, client
  history and QR payload. They build HTML or text and hold no ledger logic.
- Browser I/O: `localStorage`, `FileReader`, downloads, `window.open`, the
  camera and the QR library. A confirmation or prompt answer is a parameter.
  A stored or imported file is an already-decoded `Backup.Document`.
- JSON encoding and decoding. A document that fails to parse is not modelled.
- Timers and the clock: auto-save, time tracking (`updateTimeSpent`) and
  day navigation. Date keys, `time` and `createdAt` are opaque strings.
- `parseFloat`, `toFixed` and floating point. Price and duration are exact
  `real`s, `None` when the field is empty. A non-numeric price, which makes
  the revenue NaN in the program, is not modelled.
- Math.round in the dashboard display of `updateStats`. It is modelled once,
  in `Stats.StatsForDay`.
- The analytics groupings and averages (`calculateAnalytics`) and
  `showClientHistory`: they need floating averages and sorting by float keys.
- Bulk SMS, notifications, dropdowns and keyboard wiring other than the
  Ctrl+A effect on the selection.
- Backup.Present: a day whose list is `null` in a document is dropped from
  the installed ledger instead of being kept as `null`. Every handler
  modelled here treats a `null` day and a missing day alike.
- Backup.PoolsOf: a suggestions member that is a string rather than an array
  becomes a set of its characters in the program; only arrays are modelled.
- Shop.Import: a `devices` member that is truthy but not an object (a number,
  say) is not modelled; the document type only has an object or nothing.
- Tickets.Device: imported records with a status, urgency or priority
  outside the enumerations are not modelled. A missing urgency or priority
  is `Normal`, which is how every read site treats it.
- The status prompt's cancel answer (`null`) is the empty string.
- Text.Units: a string is a sequence of Unicode scalar values, so a lone
  surrogate code unit, which a JavaScript string may hold, cannot occur.

## Findings

| source | as written | input that shows it | evidently intended | confidence | as-written member | corrected member |
|---|---|---|---|---|---|---|
| script.js:1029 | `statusLabels[newStatus]` is truthy for names every object literal inherits | typing `constructor` (or `toString`, `__proto__`) at the status prompt sets every selected ticket's status to that name | accept only the five status keys | high; not executed | Tickets.StatusGuardAsWritten (shown by Tickets.GuardAdmitsInheritedName) | Tickets.ParseStatus, used by Shop.BulkChangeStatus |

Two behaviours are kept as written because nothing shows they are unintended:

- Editing a ticket rebuilds it from the form. The edit keeps `createdAt`, but
  it drops its photos and time spent and takes a fresh `time` (script.js:816-851).
- Single deletes and imports leave the selection set untouched.
