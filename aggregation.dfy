/** The by-category accumulator the pages build with
    `acc[t.category] = (acc[t.category] || 0) + t.amount`. A JavaScript
    record is modelled as its keys in insertion order plus a map from key to
    value. */
module Aggregation {
  import opened Seqs
  import opened FinanceTypes
  import opened Ledger

  /** The distinct category names of `s`, in the order they are first seen. */
  function Names(s: seq<Transaction>): seq<string>
  {
    if s == [] then [] else
      var n := Names(s[..|s| - 1]);
      var c := s[|s| - 1].category;
      if c in n then n else n + [c]
  }

  /** A name is listed exactly when some transaction carries it, and none
      is listed twice. */
  lemma {:induction false} NamesMembers(s: seq<Transaction>)
    ensures forall c :: c in Names(s) <==> exists i :: 0 <= i < |s| && s[i].category == c
    ensures Distinct(Names(s))
  {
    if s != [] {
      var prefix := s[..|s| - 1];
      NamesMembers(prefix);
      assert forall i :: 0 <= i < |prefix| ==> prefix[i] == s[i];
      assert s[|s| - 1].category in Names(s);
    }
  }

  /** Holds when `totals` maps exactly the category names of `s` to their totals. */
  ghost predicate IsTally(s: seq<Transaction>, totals: map<string, int>)
  {
    (forall c :: c in totals <==> c in Names(s)) &&
    (forall c :: c in totals ==> totals[c] == CategoryTotal(s, c))
  }

  /** Folds `s` into the record: the names in first-seen order and each
      name's total. */
  method Tally(s: seq<Transaction>) returns (keys: seq<string>, totals: map<string, int>)
    ensures keys == Names(s)
    ensures IsTally(s, totals)
  {
    keys, totals := [], map[];
    var i := 0;
    while i < |s|
      invariant 0 <= i <= |s|
      invariant keys == Names(s[..i])
      invariant IsTally(s[..i], totals)
    {
      var t := s[i];
      TallyAdvance(s, i, totals);
      var before := if t.category in totals then totals[t.category] else 0;
      if t.category !in totals {
        keys := keys + [t.category];
      }
      totals := totals[t.category := before + t.amount];
      i := i + 1;
    }
    assert s[..i] == s;
  }

  /** One turn of the loop in `Tally`, from `s[..i]` to `s[..i + 1]`. */
  lemma TallyAdvance(s: seq<Transaction>, i: nat, totals: map<string, int>)
    requires i < |s| && IsTally(s[..i], totals)
    ensures Names(s[..i + 1]) == if s[i].category in Names(s[..i]) then Names(s[..i]) else Names(s[..i]) + [s[i].category]
    ensures IsTally(s[..i + 1], totals[s[i].category := (if s[i].category in totals then totals[s[i].category] else 0) + s[i].amount])
  {
    assert s[..i + 1] == s[..i] + [s[i]];
    NamesSnoc(s[..i], s[i]);
    TallyStep(s[..i], s[i], totals);
  }

  lemma NamesSnoc(s: seq<Transaction>, t: Transaction)
    ensures Names(s + [t]) == if t.category in Names(s) then Names(s) else Names(s) + [t.category]
  {
    assert (s + [t])[..|s|] == s;
  }

  /** One step of the fold keeps the record a tally of the longer prefix. */
  lemma TallyStep(s: seq<Transaction>, t: Transaction, totals: map<string, int>)
    requires IsTally(s, totals)
    ensures IsTally(s + [t], totals[t.category := (if t.category in totals then totals[t.category] else 0) + t.amount])
  {
    var next := totals[t.category := (if t.category in totals then totals[t.category] else 0) + t.amount];
    NamesSnoc(s, t);
    forall c | c in next ensures next[c] == CategoryTotal(s + [t], c) {
      CategoryTotalSnoc(s, t, c);
      if c == t.category && c !in totals {
        UnnamedTotal(s, c);
      }
    }
  }

  /** A name no transaction carries totals 0. */
  lemma {:induction false} UnnamedTotal(s: seq<Transaction>, c: string)
    requires c !in Names(s)
    ensures CategoryTotal(s, c) == 0
  {
    if s != [] {
      var p, t := s[..|s| - 1], s[|s| - 1];
      assert s == p + [t];
      NamesSnoc(p, t);
      UnnamedTotal(p, c);
      CategoryTotalSnoc(p, t, c);
    }
  }

  /** The totals of the given names added up. */
  function TotalsOver(names: seq<string>, s: seq<Transaction>): int
  {
    if names == [] then 0 else CategoryTotal(s, names[0]) + TotalsOver(names[1..], s)
  }

  lemma {:induction false} TotalsOverAppend(a: seq<string>, b: seq<string>, s: seq<Transaction>)
    ensures TotalsOver(a + b, s) == TotalsOver(a, s) + TotalsOver(b, s)
  {
    if a != [] {
      assert (a + b)[1..] == a[1..] + b;
      TotalsOverAppend(a[1..], b, s);
    } else {
      assert a + b == b;
    }
  }

  lemma {:induction false} TotalsOverSnoc(names: seq<string>, s: seq<Transaction>, t: Transaction)
    requires Distinct(names)
    ensures TotalsOver(names, s + [t]) == TotalsOver(names, s) + (if t.category in names then t.amount else 0)
  {
    if names != [] {
      assert names == [names[0]] + names[1..];
      TotalsOverSnoc(names[1..], s, t);
      CategoryTotalSnoc(s, t, names[0]);
      if t.category == names[0] {
        assert t.category !in names[1..];
      }
    }
  }

  /** The record accounts for every transaction exactly once: its totals add
      up to the sum of all the amounts. */
  lemma {:induction false} TallyAccountsForAll(s: seq<Transaction>)
    ensures TotalsOver(Names(s), s) == SumAmounts(s)
  {
    if s != [] {
      var p, t := s[..|s| - 1], s[|s| - 1];
      assert s == p + [t];
      TallyAccountsForAll(p);
      NamesSnoc(p, t);
      SumAppend(p, [t]);
      NamesMembers(p);
      TotalsOverSnoc(Names(p), p, t);
      if t.category !in Names(p) {
        TotalsOverAppend(Names(p), [t.category], s);
        CategoryTotalSnoc(p, t, t.category);
        UnnamedTotal(p, t.category);
      }
    }
  }

  /** `[name, total]`, one element of `Object.entries(record)`. */
  datatype Entry = Entry(name: string, total: int)

  /** `Object.entries` of the record that `Tally(s)` builds. */
  function Entries(s: seq<Transaction>): (r: seq<Entry>)
    ensures |r| == |Names(s)|
    ensures forall i :: 0 <= i < |r| ==> r[i] == Entry(Names(s)[i], CategoryTotal(s, Names(s)[i]))
  {
    var names := Names(s);
    seq(|names|, i requires 0 <= i < |names| => Entry(names[i], CategoryTotal(s, names[i])))
  }

  /** The totals of an entry list added up. */
  function SumTotals(e: seq<Entry>): int
  {
    if e == [] then 0 else e[0].total + SumTotals(e[1..])
  }

  lemma {:induction false} SumTotalsOver(e: seq<Entry>, names: seq<string>, s: seq<Transaction>)
    requires |e| == |names|
    requires forall i :: 0 <= i < |e| ==> e[i].total == CategoryTotal(s, names[i])
    ensures SumTotals(e) == TotalsOver(names, s)
  {
    if e != [] {
      SumTotalsOver(e[1..], names[1..], s);
    }
  }

  /** `Object.entries` of the record lists each category that some
      transaction carries, exactly once and with its total, and nothing
      else; the totals add up to the sum of all the amounts. */
  lemma EntriesMeaning(s: seq<Transaction>)
    ensures forall c :: Entry(c, CategoryTotal(s, c)) in Entries(s) <==> exists j :: 0 <= j < |s| && s[j].category == c
    ensures forall x :: x in Entries(s) ==> x == Entry(x.name, CategoryTotal(s, x.name))
    ensures forall i, j :: 0 <= i < j < |Entries(s)| ==> Entries(s)[i].name != Entries(s)[j].name
    ensures SumTotals(Entries(s)) == SumAmounts(s)
  {
    EntriesOfNames(s);
    NamesMembers(s);
    SumTotalsOver(Entries(s), Names(s), s);
    TallyAccountsForAll(s);
  }

  /** An entry is in the list exactly when its name is a key, and it then
      carries that key's total. */
  lemma EntriesOfNames(s: seq<Transaction>)
    ensures forall c :: Entry(c, CategoryTotal(s, c)) in Entries(s) <==> c in Names(s)
    ensures forall x :: x in Entries(s) ==> x == Entry(x.name, CategoryTotal(s, x.name))
    ensures Distinct(Names(s)) ==>
              forall i, j :: 0 <= i < j < |Entries(s)| ==> Entries(s)[i].name != Entries(s)[j].name
  {
    var e, names := Entries(s), Names(s);
    forall c ensures Entry(c, CategoryTotal(s, c)) in e <==> c in names {
      if c in names {
        var i :| 0 <= i < |names| && names[i] == c;
        assert e[i] == Entry(c, CategoryTotal(s, c));
      }
    }
  }
}
