/**
 * The application state and the event handlers that change it: the ticket
 * form, duplicate and delete, the bulk-selection mode and its batch actions,
 * and installing a backup document. Each handler takes the current date key,
 * the clock readings it would take and the user's answers as inputs.
 */
module Shop {
  import opened Tickets
  import opened Text
  import opened Suggestions
  import opened Day
  import opened Stats
  import opened Backup

  datatype State = State(devices: Ledger, pools: Pools, selecting: bool, selected: set<nat>)

  /**
   * What a handler leaves behind. `Failed` is a handler that stopped at a
   * thrown error; its state holds whatever the handler had already changed.
   */
  datatype Handled = Done(state: State) | Failed(state: State)

  /** The tickets of a day, none when the ledger has no such day. */
  function DayOf(st: State, key: string): seq<Device> {
    if key in st.devices then st.devices[key] else []
  }

  /** The ledger is `before` except possibly on day `key`. */
  predicate OnlyDayChanges(before: Ledger, after: Ledger, key: string) {
    after.Keys == before.Keys + {key} &&
    forall k :: k in before && k != key ==> k in after && after[k] == before[k]
  }

  /** Storing a list under one day changes only that day. */
  lemma UpdateChangesOnlyDay(l: Ledger, key: string, day: seq<Device>)
    ensures OnlyDayChanges(l, l[key := day], key)
  {
  }

  /**
   * The suggestion pools a submission leaves: each field is offered to its
   * own pool, and only the trimmed client and model names or the part names
   * of the parts list can join.
   */
  function Offer(pools: Pools, form: Form): (r: Pools)
    ensures Grows(pools, r)
    ensures forall x :: x in r.clients && x !in pools.clients ==> x == Trim(form.client)
    ensures forall x :: x in r.models && x !in pools.models ==> x == Trim(form.model)
    ensures forall x :: x in r.parts && x !in pools.parts ==> x in PartNames(Trim(form.parts))
    ensures Units(Trim(form.client)) >= 2 ==> Trim(form.client) in r.clients
    ensures Units(Trim(form.model)) >= 2 ==> Trim(form.model) in r.models
    ensures Units(Trim(form.parts)) >= 2 ==> PartNames(Trim(form.parts)) <= r.parts
    ensures Units(Trim(form.client)) < 2 ==> r.clients == pools.clients
    ensures Units(Trim(form.model)) < 2 ==> r.models == pools.models
    ensures Units(Trim(form.parts)) < 2 ==> r.parts == pools.parts
  {
    Add(Add(Add(pools, Client, form.client), Model, form.model), Parts, form.parts)
  }

  /**
   * Submitting the ticket form for day `today`. The three text fields are
   * offered to the suggestion pools and the day is created if missing; then
   * without an editing index the new ticket is appended, and with one the
   * ticket at that index is replaced, keeping its creation stamp when it had
   * one. An editing index past the end throws after the pools and the day
   * were already updated.
   */
  function Submit(st: State, today: string, editing: Option<nat>, form: Form,
                  time: string, stamp: string): (r: Handled)
    ensures OnlyDayChanges(st.devices, r.state.devices, today)
    ensures r.state.pools == Offer(st.pools, form)
    ensures r.state.selecting == st.selecting && r.state.selected == st.selected
    ensures r.Done? <==> editing.None? || editing.value < |DayOf(st, today)|
  {
    var day := DayOf(st, today);
    var prepared := st.(pools := Offer(st.pools, form), devices := st.devices[today := day]);
    if editing.Some? && editing.value >= |day| then
      UpdateChangesOnlyDay(st.devices, today, day);
      Failed(prepared)
    else
      var stored := Store(day, editing, FromForm(form, time, today, stamp));
      UpdateChangesOnlyDay(st.devices, today, stored);
      Done(prepared.(devices := st.devices[today := stored]))
  }

  /**
   * The day after storing a submitted ticket: appended without an editing
   * index, otherwise put in place of the edited ticket with that ticket's
   * creation stamp when it had one.
   */
  function Store(day: seq<Device>, editing: Option<nat>, ticket: Device): (r: seq<Device>)
    requires editing.Some? ==> editing.value < |day|
    ensures editing.None? ==> |r| == |day| + 1 && r[..|day|] == day && r[|day|] == ticket
    ensures editing.Some? ==> |r| == |day|
    ensures editing.Some? ==> forall j :: 0 <= j < |day| && j != editing.value ==> r[j] == day[j]
    ensures editing.Some? ==> r[editing.value].(createdAt := ticket.createdAt) == ticket
    ensures editing.Some? ==>
      r[editing.value].createdAt ==
        (if day[editing.value].createdAt != "" then day[editing.value].createdAt else ticket.createdAt)
  {
    match editing
    case None => day + [ticket]
    case Some(i) =>
      var kept := if day[i].createdAt != "" then day[i].createdAt else ticket.createdAt;
      day[i := ticket.(createdAt := kept)]
  }

  /** A new ticket is appended after the day's tickets, which stay as they were. */
  lemma SubmitAppends(st: State, today: string, form: Form, time: string, stamp: string)
    ensures var after := Submit(st, today, None, form, time, stamp).state.devices[today];
      && |after| == |DayOf(st, today)| + 1
      && after[..|DayOf(st, today)|] == DayOf(st, today)
      && after[|DayOf(st, today)|] == FromForm(form, time, today, stamp)
  {
  }

  /**
   * An edit replaces only the ticket at its index, keeps the day's length,
   * and carries the old creation stamp over when there was one.
   */
  lemma SubmitReplaces(st: State, today: string, i: nat, form: Form, time: string, stamp: string)
    requires i < |DayOf(st, today)|
    ensures var before := DayOf(st, today);
      var after := Submit(st, today, Some(i), form, time, stamp).state.devices[today];
      && |after| == |before|
      && (forall j :: 0 <= j < |before| && j != i ==> after[j] == before[j])
      && after[i].createdAt == (if before[i].createdAt != "" then before[i].createdAt else stamp)
      && after[i] == FromForm(form, time, today, after[i].createdAt)
  {
  }

  /** An edit at an index past the end throws with the day created but no ticket touched. */
  lemma SubmitPastTheEnd(st: State, today: string, i: nat, form: Form, time: string, stamp: string)
    requires i >= |DayOf(st, today)|
    ensures Submit(st, today, Some(i), form, time, stamp).Failed?
    ensures Submit(st, today, Some(i), form, time, stamp).state.devices[today] == DayOf(st, today)
  {
  }

  /** Re-editing a ticket never changes when it was created. */
  lemma EditKeepsCreation(st: State, today: string, i: nat, form: Form, time: string, stamp: string)
    requires i < |DayOf(st, today)| && DayOf(st, today)[i].createdAt != ""
    ensures Submit(st, today, Some(i), form, time, stamp).Done?
    ensures Submit(st, today, Some(i), form, time, stamp).state.devices[today][i].createdAt
         == DayOf(st, today)[i].createdAt
  {
  }

  /** The copy `duplicateDevice` makes: marked client, reset status, fresh time and stamp. */
  function CopyOf(d: Device, time: string, stamp: string): (c: Device)
    ensures c.(client := d.client, status := d.status, time := d.time, createdAt := d.createdAt) == d
    ensures c.client == d.client + " (copie)" && c.status == Received
    ensures c.time == time && c.createdAt == stamp
  {
    d.(client := d.client + " (copie)", time := time, status := Received, createdAt := stamp)
  }

  /**
   * Duplicating the ticket at `index`: its copy is appended to the same day
   * and every existing ticket, the original included, stays as it was. A
   * missing day or an index past the end throws before anything changes.
   */
  function Duplicate(st: State, today: string, index: nat, time: string, stamp: string): (r: Handled)
    ensures r.Done? <==> today in st.devices && index < |st.devices[today]|
    ensures r.Failed? ==> r.state == st
    ensures r.Done? ==>
      && OnlyDayChanges(st.devices, r.state.devices, today)
      && r.state.devices[today] == st.devices[today] + [CopyOf(st.devices[today][index], time, stamp)]
      && r.state.pools == st.pools && r.state.selected == st.selected && r.state.selecting == st.selecting
  {
    if today in st.devices && index < |st.devices[today]| then
      var day := st.devices[today];
      Done(st.(devices := st.devices[today := day + [CopyOf(day[index], time, stamp)]]))
    else
      Failed(st)
  }

  /**
   * A duplicate is one more pending ticket: the day grows by one, the done
   * count and the takings stay, and the pending count grows by one.
   */
  lemma DuplicateStats(st: State, today: string, index: nat, time: string, stamp: string)
    requires today in st.devices && index < |st.devices[today]|
    ensures var before := StatsForDay(st.devices[today]);
      var after := StatsForDay(Duplicate(st, today, index, time, stamp).state.devices[today]);
      && after.total == before.total + 1
      && after.repaired == before.repaired
      && after.pending == before.pending + 1
      && Revenue(Duplicate(st, today, index, time, stamp).state.devices[today]) == Revenue(st.devices[today])
  {
    var day := st.devices[today];
    var c := CopyOf(day[index], time, stamp);
    CountAppend(day, [c], IsDone);
    RevenueAppend(day, [c]);
    assert [c][1..] == [];
    assert Filter([c], Earns) == [];
  }

  /** The copy asks for a "before" photo exactly when the original has none. */
  lemma CopyPhotoReminder(d: Device, time: string, stamp: string)
    ensures NeedsPhotoReminder(CopyOf(d, time, stamp)) <==> d.photoBefore == ""
  {
  }

  /**
   * Deleting the ticket at `index` once the user confirms: the day loses that
   * ticket, the later ones move down. A declined confirmation changes nothing;
   * a missing day throws before anything changes.
   */
  function Delete(st: State, today: string, index: nat, confirmed: bool): (r: Handled)
    ensures !confirmed ==> r == Done(st)
    ensures confirmed && today !in st.devices ==> r == Failed(st)
    ensures confirmed && today in st.devices ==>
      && r.Done?
      && OnlyDayChanges(st.devices, r.state.devices, today)
      && r.state.devices[today] == Without(st.devices[today], {index})
      && r.state.pools == st.pools && r.state.selected == st.selected
      && r.state.selecting == st.selecting
  {
    if !confirmed then Done(st)
    else if today !in st.devices then Failed(st)
    else
      var day := st.devices[today];
      RemoveAtIsWithout(day, index);
      Done(st.(devices := st.devices[today := RemoveAt(day, index)]))
  }

  /** Entering or leaving bulk-selection mode: the mode flips and the selection empties. */
  function ToggleBulkSelect(st: State): (r: State)
    ensures r.selecting == !st.selecting && r.selected == {}
    ensures r.devices == st.devices && r.pools == st.pools
  {
    st.(selecting := !st.selecting, selected := {})
  }

  /** Leaving the mode and entering it again ends with an empty selection in the original mode. */
  lemma ToggleBulkSelectTwice(st: State)
    ensures ToggleBulkSelect(ToggleBulkSelect(st)) == st.(selected := {})
  {
  }

  /** Ticking a ticket's checkbox: that index changes membership, no other does. */
  function ToggleSelection(st: State, index: nat): (r: State)
    ensures index in r.selected <==> index !in st.selected
    ensures forall j :: j != index ==> (j in r.selected <==> j in st.selected)
    ensures r.devices == st.devices && r.selecting == st.selecting && r.pools == st.pools
  {
    if index in st.selected then st.(selected := st.selected - {index})
    else st.(selected := st.selected + {index})
  }

  /** Ticking the same checkbox twice restores the selection. */
  lemma ToggleSelectionTwice(st: State, index: nat)
    ensures ToggleSelection(ToggleSelection(st, index), index) == st
  {
    var once := ToggleSelection(st, index);
    assert ToggleSelection(once, index).selected == st.selected;
  }

  /** The indices of a list of length `n`. */
  function Indices(n: nat): (r: set<nat>)
    ensures forall j: nat :: j in r <==> j < n
    ensures |r| == n
  {
    if n == 0 then {} else Indices(n - 1) + {n - 1}
  }

  /** Ctrl+A: in bulk-selection mode, every index of the day joins the selection. */
  function SelectAll(st: State, today: string): (r: State)
    ensures !st.selecting ==> r == st
    ensures st.selecting ==> forall j: nat :: j in r.selected <==> (j in st.selected || j < |DayOf(st, today)|)
    ensures r.devices == st.devices && r.selecting == st.selecting && r.pools == st.pools
  {
    if st.selecting then
      st.(selected := st.selected + Indices(|DayOf(st, today)|))
    else st
  }

  /** Gives every selected ticket of `day` the new status; nothing else changes. */
  function Restatus(day: seq<Device>, selected: set<nat>, status: Status): (r: seq<Device>)
    ensures |r| == |day|
    ensures forall k :: 0 <= k < |r| ==> r[k].(status := day[k].status) == day[k]
    ensures forall k :: 0 <= k < |r| ==> r[k].status == (if k in selected then status else day[k].status)
  {
    seq(|day|, k requires 0 <= k < |day| => if k in selected then day[k].(status := status) else day[k])
  }

  /**
   * The bulk status change. With nothing selected, or an answer that is not
   * one of the five status keys, nothing changes. Otherwise the selected
   * tickets of the day take the new status and the mode is left. A missing
   * day throws before anything changes.
   */
  function BulkChangeStatus(st: State, today: string, answer: string): (r: Handled)
    ensures st.selected == {} || answer !in StatusKeys ==> r == Done(st)
    ensures st.selected != {} && answer in StatusKeys && today !in st.devices ==> r == Failed(st)
    ensures st.selected != {} && answer in StatusKeys && today in st.devices ==>
      && r.Done?
      && OnlyDayChanges(st.devices, r.state.devices, today)
      && var before := st.devices[today]; var after := r.state.devices[today];
      && |after| == |before|
      && (forall k :: 0 <= k < |before| ==> after[k].(status := before[k].status) == before[k])
      && (forall k :: 0 <= k < |before| ==>
            StatusKey(after[k].status) == (if k in st.selected then answer else StatusKey(before[k].status)))
      && r.state.selecting == !st.selecting && r.state.selected == {}
      && r.state.pools == st.pools
  {
    if st.selected == {} then Done(st)
    else
      match ParseStatus(answer)
      case None => Done(st)
      case Some(status) =>
        if today !in st.devices then Failed(st)
        else
          var day := st.devices[today];
          Done(ToggleBulkSelect(st.(devices := st.devices[today := Restatus(day, st.selected, status)])))
  }

  /** A status change keeps every ticket's urgency and priority, hence the urgent count. */
  lemma RestatusKeepsUrgent(day: seq<Device>, selected: set<nat>, status: Status)
    ensures UrgentCount(Restatus(day, selected, status)) == UrgentCount(day)
  {
    var r := Restatus(day, selected, status);
    forall k | 0 <= k < |r|
      ensures IsUrgent(r[k]) == IsUrgent(day[k])
    {
      assert r[k].(status := day[k].status) == day[k];
    }
    CountPointwise(r, day, IsUrgent);
  }

  /** A status change leaves the day's ticket count and its urgent count as they were. */
  lemma BulkChangeStatusKeepsCounts(st: State, today: string, answer: string)
    requires BulkChangeStatus(st, today, answer).Done?
    ensures var day := BulkChangeStatus(st, today, answer).state.devices;
      |DayOf(st, today)| == (if today in day then |day[today]| else 0) &&
      UrgentCount(DayOf(st, today)) == UrgentCount(if today in day then day[today] else [])
  {
    if st.selected != {} && answer in StatusKeys {
      RestatusKeepsUrgent(st.devices[today], st.selected, ParseStatus(answer).value);
    }
  }

  /**
   * The bulk delete. With nothing selected, or a declined confirmation,
   * nothing changes. Otherwise the selected indices are spliced out in
   * descending order and the mode is left. A missing day throws before
   * anything changes.
   */
  method BulkDelete(st: State, today: string, confirmed: bool) returns (r: Handled)
    ensures st.selected == {} || !confirmed ==> r == Done(st)
    ensures st.selected != {} && confirmed && today !in st.devices ==> r == Failed(st)
    ensures st.selected != {} && confirmed && today in st.devices ==>
      && r.Done?
      && OnlyDayChanges(st.devices, r.state.devices, today)
      && r.state.devices[today] == Without(st.devices[today], st.selected)
      && |r.state.devices[today]| == |st.devices[today]| - |InRange(st.selected, |st.devices[today]|)|
      && r.state.selecting == !st.selecting && r.state.selected == {}
      && r.state.pools == st.pools
  {
    if st.selected == {} || !confirmed {
      return Done(st);
    }
    if today !in st.devices {
      return Failed(st);
    }
    var day := DeleteSelected(st.devices[today], st.selected);
    r := Done(ToggleBulkSelect(st.(devices := st.devices[today := day])));
  }

  /** Ctrl+A followed by a confirmed bulk delete empties the day. */
  lemma SelectAllThenDeleteEmpties(st: State, today: string)
    requires st.selecting
    ensures Without(DayOf(st, today), SelectAll(st, today).selected) == []
  {
    var s := DayOf(st, today);
    var X := SelectAll(st, today).selected;
    WithoutLength(s, X);
    assert InRange(X, |s|) == Indices(|s|);
  }

  /**
   * Importing a backup document. A document without `devices` is refused and
   * nothing changes; a declined confirmation changes nothing; a confirmed one
   * replaces the ledger and all three pools wholesale.
   */
  function Import(st: State, doc: Document, confirmed: bool): (r: Handled)
    ensures doc.devices.None? <==> r.Failed?
    ensures r.Failed? || !confirmed ==> r.state == st
    ensures doc.devices.Some? && confirmed ==>
      && r.state.devices == Present(doc.devices.value)
      && r.state.pools == PoolsOf(doc)
      && r.state.selecting == st.selecting && r.state.selected == st.selected
  {
    if doc.devices.None? then Failed(st)
    else if !confirmed then Done(st)
    else Done(st.(devices := Present(doc.devices.value), pools := PoolsOf(doc)))
  }

  /**
   * Loading the stored document at start-up. No document: nothing changes and
   * the answer is false. Otherwise the ledger and the pools are replaced,
   * missing members counting as empty, and the answer is true.
   */
  function Load(st: State, stored: Option<Document>): (r: (State, bool))
    ensures r.1 <==> stored.Some?
    ensures stored.None? ==> r.0 == st
    ensures stored.Some? ==>
      && r.0.devices == (if stored.value.devices.Some? then Present(stored.value.devices.value) else map[])
      && r.0.pools == PoolsOf(stored.value)
    ensures r.0.selecting == st.selecting && r.0.selected == st.selected
  {
    match stored
    case None => (st, false)
    case Some(doc) =>
      (st.(devices := if doc.devices.Some? then Present(doc.devices.value) else map[],
           pools := PoolsOf(doc)), true)
  }

  /**
   * Exporting a backup: the written document, imported and confirmed, gives
   * back the same ledger and pools, and loading it does too.
   */
  method Export(st: State) returns (doc: Document)
    ensures doc.devices.Some?
    ensures Import(st, doc, true) == Done(st)
    ensures Load(st, Some(doc)) == (st, true)
  {
    doc := Write(st.devices, st.pools);
  }

  /** Clearing everything after two confirmations: empty ledger, empty pools. */
  function ClearAll(st: State, first: bool, second: bool): (r: State)
    ensures first && second ==> r.devices == map[] && r.pools == NoPools
    ensures !(first && second) ==> r == st
    ensures r.selecting == st.selecting && r.selected == st.selected
  {
    if first && second then st.(devices := map[], pools := NoPools) else st
  }
}
