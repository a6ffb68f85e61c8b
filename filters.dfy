/**
 * The filter object of the `App` component (frontend/src/App.js): how
 * `handleFilterChange` merges one field into it and how `fetchData` turns it
 * into the parameters of its `/api/data` query.
 */
module Filters {
  import opened Wire
  import opened Sequences

  /** The keys of the filter object as `useState` declares them. */
  const FilterKeys: seq<string> :=
    ["batter", "pitcher", "minExitSpeed", "maxExitSpeed", "minLaunchAngle", "maxLaunchAngle"]

  /** The `name` attributes of the four text fields whose `onChange` is `handleFilterChange`. */
  const InputNames: seq<string> := ["batter", "pitcher", "minExitSpeed", "maxExitSpeed"]

  /** The initial filter object: every key set to the empty string. */
  const InitialFilters: Entries :=
    [("batter", ""), ("pitcher", ""), ("minExitSpeed", ""), ("maxExitSpeed", ""),
     ("minLaunchAngle", ""), ("maxLaunchAngle", "")]

  /**
   * `{...prev, [name]: value}` on an object's entries: a key already present
   * keeps its position and takes the new value, a new key goes last.
   */
  function SetField(e: Entries, name: string, value: string): Entries {
    if e == [] then [(name, value)]
    else if e[0].0 == name then [(name, value)] + e[1..]
    else [e[0]] + SetField(e[1..], name, value)
  }

  /** The merge changes the named field and no other. */
  lemma {:induction false} SetFieldLookup(e: Entries, name: string, value: string, k: string)
    ensures Lookup(SetField(e, name, value), k) == if k == name then Some(value) else Lookup(e, k)
  {
    if e != [] && e[0].0 != name {
      SetFieldLookup(e[1..], name, value, k);
      assert SetField(e, name, value)[1..] == SetField(e[1..], name, value);
    } else if e != [] {
      assert SetField(e, name, value)[1..] == e[1..];
    }
  }

  /** The merge keeps the key order, appending the name only when it is new. */
  lemma {:induction false} SetFieldKeys(e: Entries, name: string, value: string)
    ensures Keys(SetField(e, name, value)) == if name in Keys(e) then Keys(e) else Keys(e) + [name]
  {
    if e != [] {
      assert Keys(e) == [e[0].0] + Keys(e[1..]);
      var r := SetField(e, name, value);
      if e[0].0 == name {
        assert Keys(r) == [name] + Keys(e[1..]);
      } else {
        SetFieldKeys(e[1..], name, value);
        assert Keys(r) == [e[0].0] + Keys(SetField(e[1..], name, value));
      }
    }
  }

  /** An object's keys stay distinct through the merge. */
  lemma SetFieldDistinct(e: Entries, name: string, value: string)
    requires DistinctKeys(e)
    ensures DistinctKeys(SetField(e, name, value))
  {
    var r := SetField(e, name, value);
    SetFieldKeys(e, name, value);
    assert forall i :: 0 <= i < |r| ==> r[i].0 == Keys(r)[i];
    assert forall i :: 0 <= i < |e| ==> e[i].0 == Keys(e)[i];
  }

  /** A change from one of the four inputs leaves the declared keys, in order. */
  lemma InputKeepsKeys(e: Entries, name: string, value: string)
    requires Keys(e) == FilterKeys
    requires name in InputNames
    ensures Keys(SetField(e, name, value)) == FilterKeys
  {
    SetFieldKeys(e, name, value);
  }

  /**
   * The pairs that `Object.entries(filters).forEach` appends to the
   * `URLSearchParams`: those whose value is truthy, i.e. not the empty string.
   */
  function QueryOf(e: Entries): (q: Entries)
    ensures |q| <= |e|
  {
    if e == [] then []
    else (if e[0].1 != "" then [e[0]] else []) + QueryOf(e[1..])
  }

  lemma {:induction false} QueryOfAppend(a: Entries, b: Entries)
    ensures QueryOf(a + b) == QueryOf(a) + QueryOf(b)
  {
    if a == [] {
      assert a + b == b;
    } else {
      var ab := a + b;
      assert ab[0] == a[0];
      assert ab[1..] == a[1..] + b;
      var head := if a[0].1 != "" then [a[0]] else [];
      QueryOfAppend(a[1..], b);
      calc {
        QueryOf(ab);
        head + QueryOf(a[1..] + b);
        head + (QueryOf(a[1..]) + QueryOf(b));
        (head + QueryOf(a[1..])) + QueryOf(b);
      }
    }
  }

  /** The query-building loop of `fetchData`. */
  method BuildParams(filters: Entries) returns (params: Entries)
    ensures params == QueryOf(filters)
  {
    params := [];
    var i := 0;
    while i < |filters|
      invariant 0 <= i <= |filters|
      invariant params == QueryOf(filters[..i])
    {
      var (key, value) := filters[i];
      QueryOfAppend(filters[..i], [filters[i]]);
      assert filters[..i + 1] == filters[..i] + [filters[i]];
      assert QueryOf([filters[i]]) == (if value != "" then [filters[i]] else []) + QueryOf([]);
      if value != "" {
        params := params + [(key, value)];
      }
      i := i + 1;
    }
    assert filters[..i] == filters;
  }

  /** A pair is sent exactly when it is a filter entry with a non-empty value. */
  lemma {:induction false} QueryExactly(e: Entries, kv: (string, string))
    ensures kv in QueryOf(e) <==> kv in e && kv.1 != ""
  {
    if e != [] {
      QueryExactly(e[1..], kv);
      assert e == [e[0]] + e[1..];
    }
  }

  /** The parameters keep the filter object's key order. */
  lemma {:induction false} QueryInOrder(e: Entries)
    ensures IsSubsequence(QueryOf(e), e)
  {
    if e != [] {
      QueryInOrder(e[1..]);
      assert e == [e[0]] + e[1..];
      if e[0].1 != "" {
        assert QueryOf(e) == [e[0]] + QueryOf(e[1..]);
        SubsequenceKeep(e[0], QueryOf(e[1..]), e[1..]);
      } else {
        assert QueryOf(e) == QueryOf(e[1..]);
        SubsequenceSkip(QueryOf(e[1..]), e[0], e[1..]);
      }
    }
  }

  /**
   * Reading a key back from the query gives the filter's literal value when
   * that value is non-empty, and nothing when it is empty or the key is absent.
   */
  lemma {:induction false} QueryByKey(e: Entries, k: string)
    requires DistinctKeys(e)
    ensures Lookup(QueryOf(e), k) == if Lookup(e, k).Some? && Lookup(e, k).value != "" then Lookup(e, k) else None
  {
    if e != [] {
      assert DistinctKeys(e[1..]) by {
        forall i, j | 0 <= i < j < |e[1..]| ensures e[1..][i].0 != e[1..][j].0 {
          assert e[1..][i] == e[i + 1] && e[1..][j] == e[j + 1];
        }
      }
      QueryByKey(e[1..], k);
      if e[0].1 != "" {
        assert QueryOf(e) == [e[0]] + QueryOf(e[1..]);
      } else {
        assert QueryOf(e) == QueryOf(e[1..]);
      }
    }
  }

  /** With every field empty the query is empty. */
  lemma {:induction false} BlankFiltersSendNothing(e: Entries)
    requires forall i :: 0 <= i < |e| ==> e[i].1 == ""
    ensures QueryOf(e) == []
  {
    if e != [] {
      assert forall i :: 0 <= i < |e[1..]| ==> e[1..][i] == e[i + 1];
      BlankFiltersSendNothing(e[1..]);
    }
  }

  /** "0" is a non-empty value, so a zero bound is sent. */
  lemma ZeroBoundIsSent()
    ensures QueryOf(SetField(InitialFilters, "minExitSpeed", "0")) == [("minExitSpeed", "0")]
  {
    var f := SetField(InitialFilters, "minExitSpeed", "0");
    var blank := [("batter", ""), ("pitcher", "")];
    var rest := [("maxExitSpeed", ""), ("minLaunchAngle", ""), ("maxLaunchAngle", "")];
    assert f == blank + [("minExitSpeed", "0")] + rest;
    QueryOfAppend(blank + [("minExitSpeed", "0")], rest);
    QueryOfAppend(blank, [("minExitSpeed", "0")]);
    BlankFiltersSendNothing(blank);
    BlankFiltersSendNothing(rest);
  }

  /** Typing "Smith" as batter, then "95" as minimum exit speed, into a fresh page. */
  lemma SmithAt95Filters()
    ensures SetField(SetField(InitialFilters, "batter", "Smith"), "minExitSpeed", "95")
            == [("batter", "Smith"), ("pitcher", ""), ("minExitSpeed", "95"),
                ("maxExitSpeed", ""), ("minLaunchAngle", ""), ("maxLaunchAngle", "")]
  {
    var g := SetField(InitialFilters, "batter", "Smith");
    assert g == [("batter", "Smith")] + InitialFilters[1..];
    assert SetField(g[2..], "minExitSpeed", "95") == [("minExitSpeed", "95")] + g[3..];
    assert SetField(g[1..], "minExitSpeed", "95") == [g[1]] + SetField(g[2..], "minExitSpeed", "95");
  }

  /** Batter "Smith" and minimum exit speed "95": exactly those two pairs, in declaration order. */
  lemma SmithAt95()
    ensures QueryOf(SetField(SetField(InitialFilters, "batter", "Smith"), "minExitSpeed", "95"))
            == [("batter", "Smith"), ("minExitSpeed", "95")]
  {
    SmithAt95Filters();
    var head := [("batter", "Smith"), ("pitcher", ""), ("minExitSpeed", "95")];
    var rest := [("maxExitSpeed", ""), ("minLaunchAngle", ""), ("maxLaunchAngle", "")];
    assert head + rest == [("batter", "Smith"), ("pitcher", ""), ("minExitSpeed", "95"),
                           ("maxExitSpeed", ""), ("minLaunchAngle", ""), ("maxLaunchAngle", "")];
    QueryOfAppend(head, rest);
    BlankFiltersSendNothing(rest);
  }
}
