/**
 * The three autocomplete pools (client names, device models, part names)
 * and the admission rule a submitted value has to pass to join them.
 */
module Suggestions {
  import opened Text

  /** Which pool a submitted value is offered to. */
  datatype Kind = Client | Model | Parts

  datatype Pools = Pools(clients: set<string>, models: set<string>, parts: set<string>)

  const NoPools: Pools := Pools({}, {}, {})

  /** Every entry a pool can gain: trimmed and at least two code units long. */
  predicate Admissible(x: string) {
    Units(x) >= 2 && Trimmed(x)
  }

  /** `a` is `b` with possibly more entries in each pool. */
  predicate Grows(a: Pools, b: Pools) {
    a.clients <= b.clients && a.models <= b.models && a.parts <= b.parts
  }

  /** `x` is one of the comma-separated pieces of `list`, trimmed. */
  predicate TrimsAPiece(x: string, list: string) {
    exists k :: 0 <= k < |Split(list, ',')| && x == Trim(Split(list, ',')[k])
  }

  /** The pieces, trimmed, that are longer than one code unit. */
  function Names(pieces: seq<string>): set<string> {
    set k | 0 <= k < |pieces| && Units(Trim(pieces[k])) > 1 :: Trim(pieces[k])
  }

  /**
   * The part names a comma-separated list contributes: each comma-separated
   * piece, trimmed, when it is longer than one code unit.
   */
  function PartNames(list: string): (r: set<string>)
    ensures forall x :: x in r ==> Admissible(x) && ',' !in x
    ensures forall x :: x in r ==> TrimsAPiece(x, list)
    ensures forall k :: 0 <= k < |Split(list, ',')| && Units(Trim(Split(list, ',')[k])) > 1 ==>
      Trim(Split(list, ',')[k]) in r
  {
    var pieces := Split(list, ',');
    assert forall k :: 0 <= k < |pieces| ==> ',' !in Trim(pieces[k]) by {
      forall k | 0 <= k < |pieces| {
        TrimKeepsOut(pieces[k], ',');
      }
    }
    var r := Names(pieces);
    assert forall x :: x in r ==> TrimsAPiece(x, list) by {
      forall x | x in r
        ensures TrimsAPiece(x, list)
      {
        var k :| 0 <= k < |pieces| && Units(Trim(pieces[k])) > 1 && x == Trim(pieces[k]);
      }
    }
    r
  }

  /**
   * Offers `value` to the pool of `kind`. A value shorter than two code
   * units once trimmed changes nothing; otherwise clients and models gain exactly
   * the trimmed value and parts gain the names of its comma-separated pieces.
   * Nothing is ever removed, and only the pool of `kind` changes.
   */
  function Add(pools: Pools, kind: Kind, value: string): (r: Pools)
    ensures Grows(pools, r)
    ensures Units(Trim(value)) < 2 ==> r == pools
    ensures kind != Client ==> r.clients == pools.clients
    ensures kind != Model ==> r.models == pools.models
    ensures kind != Parts ==> r.parts == pools.parts
    ensures forall x :: x in r.clients && x !in pools.clients ==> x == Trim(value)
    ensures forall x :: x in r.models && x !in pools.models ==> x == Trim(value)
    ensures forall x :: x in r.parts && x !in pools.parts ==> x in PartNames(Trim(value))
    ensures Units(Trim(value)) >= 2 && kind == Client ==> Trim(value) in r.clients
    ensures Units(Trim(value)) >= 2 && kind == Model ==> Trim(value) in r.models
    ensures Units(Trim(value)) >= 2 && kind == Parts ==> PartNames(Trim(value)) <= r.parts
  {
    var clean := Trim(value);
    if Units(clean) < 2 then pools
    else
      match kind
      case Client => pools.(clients := pools.clients + {clean})
      case Model => pools.(models := pools.models + {clean})
      case Parts => pools.(parts := pools.parts + PartNames(clean))
  }

  /** Every entry admitted by `Add` is trimmed and at least two code units long. */
  lemma AddAdmitsOnlyClean(pools: Pools, kind: Kind, value: string, x: string)
    requires x in Add(pools, kind, value).clients + Add(pools, kind, value).models
                  + Add(pools, kind, value).parts
    requires x !in pools.clients + pools.models + pools.parts
    ensures Admissible(x)
  {
    var clean := Trim(value);
    if x in Add(pools, kind, value).parts && x !in pools.parts {
      assert x in PartNames(clean);
    } else {
      assert x == clean;
      TrimIdempotent(value);
    }
  }

  /** Offering a value that is already in its pool changes nothing. */
  lemma AddKnownClient(pools: Pools, value: string)
    requires Trim(value) in pools.clients
    ensures Add(pools, Client, value) == pools
  {
  }

  /** A surrounding-space value is admitted trimmed; a one-letter value is refused. */
  lemma AdmissionExamples()
    ensures Add(NoPools, Client, " ab ") == Pools({"ab"}, {}, {})
    ensures Add(NoPools, Client, "a") == NoPools
  {
    PaddedTrim();
    ShortPieces();
    AdmitOnlyClient(" ab ", "ab");
    OneLetter();
  }

  /** A value that trims to an admissible name joins an empty client pool alone. */
  lemma AdmitOnlyClient(value: string, clean: string)
    requires Trim(value) == clean && Units(clean) >= 2
    ensures Add(NoPools, Client, value) == Pools({clean}, {}, {})
  {
    assert {} + {clean} == {clean};
  }

  lemma PaddedTrim()
    ensures Trim(" ab ") == "ab"
  {
    assert Lead(" ab ") == 1 by {
      assert Lead(" ab "[1..]) == 0;
    }
    assert " ab "[1..] == "ab ";
    assert Body("ab ") == 2 by {
      assert "ab "[..2] == "ab";
    }
  }

  lemma OneLetter()
    ensures Units(Trim("a")) == 1
  {
    TrimmedIsFixed("a");
    assert "a"[1..] == [];
  }

  /**
   * A single character beyond the Basic Multilingual Plane is two code units
   * long, so it passes the two-unit threshold and joins the client pool.
   */
  lemma AstralClientAdmitted()
    ensures Add(NoPools, Client, "\U{1F600}") == Pools({"\U{1F600}"}, {}, {})
  {
    TrimmedIsFixed("\U{1F600}");
    assert Units("\U{1F600}") == 2;
  }

  lemma SplitExample()
    ensures Split("ab,c", ',') == ["ab", "c"]
  {
    assert "c"[1..] == "" && "c"[0] == 'c';
    assert Split("", ',') == [""];
    assert Split("c", ',') == [['c'] + ""] + [""][1..];
    assert ['c'] + "" == "c" && [""][1..] == [];
    assert ",c"[1..] == "c";
    assert Split(",c", ',') == ["", "c"];
    assert "b,c"[1..] == ",c";
    assert "b,c"[0] == 'b' && ['b'] + "" == "b";
    assert Split("b,c", ',') == [['b'] + ""] + ["", "c"][1..];
    assert "ab,c"[1..] == "b,c";
    assert "ab,c"[0] == 'a' && ['a'] + "b" == "ab";
    assert Split("ab,c", ',') == [['a'] + "b"] + ["b", "c"][1..];
  }

  lemma ShortPieces()
    ensures Trim("ab") == "ab" && Trim("c") == "c"
    ensures Units("ab") == 2 && Units("c") == 1
  {
    TrimmedIsFixed("ab");
    TrimmedIsFixed("c");
    assert "ab"[1..] == "b" && "b"[1..] == [] && "c"[1..] == [];
  }

  /** Of two pieces, only the first long enough, just the first is a name. */
  lemma NamesOfTwo(a: string, b: string)
    requires Units(Trim(a)) > 1 && Units(Trim(b)) <= 1
    ensures Names([a, b]) == {Trim(a)}
  {
    var pieces := [a, b];
    assert Trim(pieces[0]) in Names(pieces);
    forall x | x in Names(pieces)
      ensures x == Trim(a)
    {
      var k :| 0 <= k < 2 && Units(Trim(pieces[k])) > 1 && x == Trim(pieces[k]);
      assert k != 1;
    }
  }

  lemma PartNamesExample()
    ensures PartNames("ab,c") == {"ab"}
  {
    SplitExample();
    ShortPieces();
    NamesOfTwo("ab", "c");
  }

  /** A trimmed parts list long enough to pass the threshold adds its part names. */
  lemma AddTrimmedParts(pools: Pools, list: string)
    requires Trimmed(list) && Units(list) >= 2
    ensures Add(pools, Parts, list) == pools.(parts := pools.parts + PartNames(list))
  {
    TrimmedIsFixed(list);
  }

  lemma LongList()
    ensures Trimmed("ab,c") && Units("ab,c") >= 2
  {
    assert |"ab,c"| == 4;
  }

  /** A parts list contributes each comma-separated piece of two code units or more. */
  lemma PartsExample()
    ensures Add(NoPools, Parts, "ab,c") == Pools({}, {}, {"ab"})
  {
    PartNamesExample();
    LongList();
    AddTrimmedParts(NoPools, "ab,c");
    assert NoPools.(parts := NoPools.parts + {"ab"}) == Pools({}, {}, {"ab"});
  }
}
