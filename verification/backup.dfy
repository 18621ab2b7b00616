/**
 * The stored and exported document, taken as already decoded: which of its
 * members are present, how many tickets it holds, and what a load or an
 * import installs from it.
 */
module Backup {
  import opened Tickets
  import opened Suggestions

  /** The day ledger: ISO date key to that day's tickets in ticket order. */
  type Ledger = map<string, seq<Device>>

  /**
   * A decoded backup document. A member missing from the document is `None`;
   * so is a day whose list is `null`.
   */
  datatype Document = Document(
    devices: Option<map<string, Option<seq<Device>>>>,
    clientSuggestions: Option<seq<string>>,
    deviceSuggestions: Option<seq<string>>,
    partsSuggestions: Option<seq<string>>)

  /** The length of a day's list, zero for a `null` day. */
  function Len(day: Option<seq<Device>>): nat {
    if day.Some? then |day.value| else 0
  }

  /** The number of tickets a document's days hold, summed over its date keys in any order. */
  ghost function RecordCount(days: map<string, Option<seq<Device>>>): nat
    decreases |days|
  {
    if days == map[] then 0
    else
      var k :| k in days;
      assert |days - {k}| < |days| by {
        assert (days - {k}).Keys == days.Keys - {k};
      }
      Len(days[k]) + RecordCount(days - {k})
  }

  /** The count does not depend on which date key is taken first. */
  lemma {:induction false} RecordCountAt(days: map<string, Option<seq<Device>>>, k: string)
    requires k in days
    ensures RecordCount(days) == Len(days[k]) + RecordCount(days - {k})
    decreases |days|
  {
    assert (days - {k}).Keys == days.Keys - {k};
    var j :| j in days && RecordCount(days) == Len(days[j]) + RecordCount(days - {j});
    if j != k {
      assert (days - {j}).Keys == days.Keys - {j};
      RecordCountAt(days - {j}, k);
      RecordCountAt(days - {k}, j);
      assert days - {j} - {k} == days - {k} - {j};
    }
  }

  /**
   * The ticket count the import confirmation reports, accumulated over the
   * document's date keys in whatever order they are visited.
   */
  method CountRecords(days: map<string, Option<seq<Device>>>) returns (n: nat)
    ensures n == RecordCount(days)
  {
    n := 0;
    var rest := days;
    while rest != map[]
      invariant n + RecordCount(rest) == RecordCount(days)
      decreases |rest|
    {
      var k :| k in rest;
      RecordCountAt(rest, k);
      assert (rest - {k}).Keys == rest.Keys - {k};
      n := n + Len(rest[k]);
      rest := rest - {k};
    }
  }

  /** The days a document installs: every date key whose list is not `null`. */
  function Present(days: map<string, Option<seq<Device>>>): (l: Ledger)
    ensures forall d :: d in l <==> d in days && days[d].Some?
    ensures forall d :: d in l ==> l[d] == days[d].value
  {
    map d | d in days && days[d].Some? :: days[d].value
  }

  /** The days of a ledger as a document writes them. */
  function Lift(l: Ledger): map<string, Option<seq<Device>>> {
    map d | d in l :: Some(l[d])
  }

  /** Installing a written ledger gives that ledger back. */
  lemma PresentLift(l: Ledger)
    ensures Present(Lift(l)) == l
  {
  }

  /** The pools a document installs; a missing array gives an empty pool. */
  function PoolsOf(doc: Document): (p: Pools)
    ensures doc.clientSuggestions.None? ==> p.clients == {}
    ensures doc.deviceSuggestions.None? ==> p.models == {}
    ensures doc.partsSuggestions.None? ==> p.parts == {}
    ensures doc.clientSuggestions.Some? ==> forall x :: x in p.clients <==> x in doc.clientSuggestions.value
    ensures doc.deviceSuggestions.Some? ==> forall x :: x in p.models <==> x in doc.deviceSuggestions.value
    ensures doc.partsSuggestions.Some? ==> forall x :: x in p.parts <==> x in doc.partsSuggestions.value
  {
    Pools(Elems(ValueOr(doc.clientSuggestions, [])),
          Elems(ValueOr(doc.deviceSuggestions, [])),
          Elems(ValueOr(doc.partsSuggestions, [])))
  }

  /** A set turned into an array: each member once, in some order. */
  method Enumerate(s: set<string>) returns (r: seq<string>)
    ensures Elems(r) == s
    ensures |r| == |s|
  {
    r := [];
    var rest := s;
    while rest != {}
      invariant rest <= s
      invariant Elems(r) + rest == s
      invariant Elems(r) !! rest
      invariant |r| + |rest| == |s|
      invariant |Elems(r)| == |r|
      decreases rest
    {
      var x :| x in rest;
      assert Elems(r + [x]) == Elems(r) + {x};
      r := r + [x];
      rest := rest - {x};
    }
  }

  /** The document a save or an export writes for a ledger and its pools. */
  method Write(l: Ledger, pools: Pools) returns (doc: Document)
    ensures doc.devices == Some(Lift(l))
    ensures Present(doc.devices.value) == l
    ensures PoolsOf(doc) == pools
  {
    var clients := Enumerate(pools.clients);
    var models := Enumerate(pools.models);
    var parts := Enumerate(pools.parts);
    doc := Document(Some(Lift(l)), Some(clients), Some(models), Some(parts));
    PresentLift(l);
  }
}
