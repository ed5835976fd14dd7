/** Looking a model up by name fragments: a synced overlay in front of a static table
    (services/api/internal/provider/catalog.go). Names are already lower case. */
module ModelCatalog {
  import opened Wrappers
  import opened Strings

  datatype Spec = Spec(fragment: string, window: nat, deprecated: bool)

  /** strings.Contains. */
  predicate Contains(s: string, p: string) { StartsWith(s, p) || (s != "" && Contains(s[1..], p)) }

  /** The first row whose fragment occurs in the name, or |table|. */
  function FirstMatch(table: seq<Spec>, name: string): (i: nat)
    ensures i <= |table|
    ensures i < |table| ==> Contains(name, table[i].fragment)
  {
    if table == [] || Contains(name, table[0].fragment) then 0 else 1 + FirstMatch(table[1..], name)
  }

  function Match(table: seq<Spec>, name: string): Option<Spec> {
    var i := FirstMatch(table, name);
    if i < |table| then Some(table[i]) else None
  }

  function Lookup(overlay: seq<Spec>, rows: seq<Spec>, name: string): Option<Spec> {
    if Match(overlay, name).Some? then Match(overlay, name) else Match(rows, name)
  }

  function Deprecated(overlay: seq<Spec>, name: string): bool {
    Match(overlay, name).Some? && Match(overlay, name).value.deprecated
  }

  predicate LongestFirst(s: seq<Spec>) { forall i, j :: 0 <= i < j < |s| ==> |s[i].fragment| >= |s[j].fragment| }

  /** Any order sort.Slice may leave behind: ties come as they like. */
  predicate OverlayOf(overlay: seq<Spec>, specs: seq<Spec>) { multiset(overlay) == multiset(specs) && LongestFirst(overlay) }

  // ----------------------------------------------------------------- programs

  class Catalog {
    const rows: seq<Spec>
    var overlay: seq<Spec>

    constructor (rows: seq<Spec>)
      ensures this.rows == rows && overlay == []
    {
      this.rows, overlay := rows, [];
    }

    method SetCatalogOverlay(specs: seq<Spec>)
      modifies this
      ensures OverlayOf(overlay, specs)
    {
      var sorted: seq<Spec> := [];
      for k := 0 to |specs|
        invariant OverlayOf(sorted, specs[..k])
      {
        sorted := Insert(sorted, specs[k]);
        assert specs[..k + 1] == specs[..k] + [specs[k]];
      }
      assert specs[..|specs|] == specs;
      overlay := sorted;
    }

    method Insert(sorted: seq<Spec>, spec: Spec) returns (more: seq<Spec>)
      requires LongestFirst(sorted)
      ensures multiset(more) == multiset(sorted) + multiset{spec} && LongestFirst(more)
    {
      var i := 0;
      while i < |sorted| && |sorted[i].fragment| >= |spec.fragment|
        invariant i <= |sorted| && forall j :: 0 <= j < i ==> |sorted[j].fragment| >= |spec.fragment|
      {
        i := i + 1;
      }
      more := sorted[..i] + [spec] + sorted[i..];
      InsertedOnce(sorted, i, spec);
      InsertedInOrder(sorted, i, spec, more);
    }

    method Scan(table: seq<Spec>, name: string) returns (row: Option<Spec>)
      ensures row == Match(table, name)
    {
      assert table[0..] == table;
      for i := 0 to |table|
        invariant FirstMatch(table, name) == i + FirstMatch(table[i..], name)
      {
        assert table[i..][1..] == table[i + 1..];
        if Contains(name, table[i].fragment) {
          return Some(table[i]);
        }
      }
      row := None;
    }

    method LookupModel(name: string) returns (row: Option<Spec>)
      ensures row == Lookup(overlay, rows, name)
    {
      row := Scan(overlay, name);
      if row.None? {
        row := Scan(rows, name);
      }
    }

    method IsDeprecatedModel(name: string) returns (deprecated: bool)
      ensures deprecated == Deprecated(overlay, name)
    {
      var row := Scan(overlay, name);
      deprecated := row.Some? && row.value.deprecated;
    }
  }

  lemma InsertedOnce(sorted: seq<Spec>, i: nat, spec: Spec)
    requires i <= |sorted|
    ensures multiset(sorted[..i] + [spec] + sorted[i..]) == multiset(sorted) + multiset{spec}
  {
    assert sorted == sorted[..i] + sorted[i..];
  }

  lemma InsertedAt(sorted: seq<Spec>, i: nat, spec: Spec, more: seq<Spec>, k: nat)
    requires i <= |sorted| && more == sorted[..i] + [spec] + sorted[i..] && k < |more|
    ensures more[k] == if k < i then sorted[k] else if k == i then spec else sorted[k - 1]
  {
  }

  lemma InsertedInOrder(sorted: seq<Spec>, i: nat, spec: Spec, more: seq<Spec>)
    requires i <= |sorted| && more == sorted[..i] + [spec] + sorted[i..]
    requires LongestFirst(sorted) && (i < |sorted| ==> |sorted[i].fragment| <= |spec.fragment|)
    requires forall j :: 0 <= j < i ==> |sorted[j].fragment| >= |spec.fragment|
    ensures LongestFirst(more)
  {
    forall a, b | 0 <= a < b < |more| ensures |more[a].fragment| >= |more[b].fragment| {
      InsertedAt(sorted, i, spec, more, a);
      InsertedAt(sorted, i, spec, more, b);
    }
  }

  // -------------------------------------------------------------- properties

  /** A name contains a fragment exactly when it is made up of the fragment with something
      before and behind it. */
  lemma {:induction false} ContainsExactly(s: string, p: string)
    ensures Contains(s, p) <==> exists before: string, behind: string :: s == before + p + behind
  {
    if Contains(s, p) { var before, behind := Around(s, p); }
    if before: string, behind: string :| s == before + p + behind { ContainsAround(before, p, behind); }
  }

  lemma {:induction false} Around(s: string, p: string) returns (before: string, behind: string)
    requires Contains(s, p)
    ensures s == before + p + behind
    decreases |s|
  {
    if StartsWith(s, p) {
      before, behind := "", s[|p|..];
      assert s == s[..|p|] + s[|p|..];
    } else {
      before, behind := Around(s[1..], p);
      before := [s[0]] + before;
    }
  }

  lemma {:induction false} ContainsAround(before: string, p: string, behind: string)
    ensures Contains(before + p + behind, p)
    decreases |before|
  {
    var s := before + p + behind;
    if before == "" {
      assert s[..|p|] == p;
    } else {
      assert s[1..] == before[1..] + p + behind;
      ContainsAround(before[1..], p, behind);
    }
  }

  lemma {:induction false} FirstMatchIsFirst(table: seq<Spec>, name: string, j: nat)
    requires j < |table| && Contains(name, table[j].fragment)
    ensures FirstMatch(table, name) <= j
    decreases j
  {
    if j > 0 && !Contains(name, table[0].fragment) { FirstMatchIsFirst(table[1..], name, j - 1); }
  }

  lemma {:induction false} FirstMatchIs(table: seq<Spec>, name: string, j: nat)
    requires j < |table| && Contains(name, table[j].fragment)
    requires forall i :: 0 <= i < j ==> !Contains(name, table[i].fragment)
    ensures FirstMatch(table, name) == j
    decreases j
  {
    if j > 0 {
      assert forall i :: 0 <= i < j - 1 ==> table[1..][i] == table[i + 1];
      FirstMatchIs(table[1..], name, j - 1);
    }
  }

  ghost predicate Matches(specs: seq<Spec>, name: string, spec: Spec) { spec in specs && Contains(name, spec.fragment) }

  /** After any overlay has been set: a name that some synced spec matches is given a
      synced spec, and none that matches is longer. */
  lemma OverlayIsMostSpecific(overlay: seq<Spec>, specs: seq<Spec>, rows: seq<Spec>, name: string, other: Spec)
    requires OverlayOf(overlay, specs) && Matches(specs, name, other)
    ensures var row := Lookup(overlay, rows, name);
            row.Some? && Matches(specs, name, row.value) && |row.value.fragment| >= |other.fragment|
  {
    assert other in multiset(overlay);
    var j :| 0 <= j < |overlay| && overlay[j] == other;
    FirstMatchIsFirst(overlay, name, j);
    assert overlay[FirstMatch(overlay, name)] in multiset(specs);
  }

  /** A name that no synced spec matches gets the static row. */
  lemma {:induction false} OverlayFallsThrough(overlay: seq<Spec>, specs: seq<Spec>, rows: seq<Spec>, name: string)
    requires OverlayOf(overlay, specs) && forall spec :: spec in specs ==> !Contains(name, spec.fragment)
    ensures Lookup(overlay, rows, name) == Match(rows, name)
  {
    forall k | 0 <= k < |overlay| ensures overlay[k] in specs {
      assert overlay[k] in multiset(overlay);
    }
  }

  lemma {:induction false} ContainsPrefixed(s: string, p: string, q: string)
    requires StartsWith(s, p) && Contains(p, q)
    ensures Contains(s, q)
    decreases |p|
  {
    if StartsWith(p, q) {
      assert s[..|q|] == s[..|p|][..|q|];
    } else {
      assert s[1..][..|p| - 1] == s[..|p|][1..];
      ContainsPrefixed(s[1..], p[1..], q);
    }
  }

  lemma {:induction false} ContainsTransitive(s: string, p: string, q: string)
    requires Contains(s, p) && Contains(p, q)
    ensures Contains(s, q)
    decreases |s|
  {
    if StartsWith(s, p) { ContainsPrefixed(s, p, q); } else { ContainsTransitive(s[1..], p, q); }
  }

  ghost predicate Reachable(table: seq<Spec>, j: nat) { exists name: string :: FirstMatch(table, name) == j }

  /** A row can be found by some name exactly when no earlier fragment occurs in its own. */
  lemma ReachableExactly(table: seq<Spec>, j: nat)
    requires j < |table|
    ensures Reachable(table, j) <==> forall i :: 0 <= i < j ==> !Contains(table[j].fragment, table[i].fragment)
  {
    if Reachable(table, j) {
      var name: string :| FirstMatch(table, name) == j;
      forall i | 0 <= i < j ensures !Contains(table[j].fragment, table[i].fragment) {
        if Contains(table[j].fragment, table[i].fragment) {
          ContainsTransitive(name, table[j].fragment, table[i].fragment);
          FirstMatchIsFirst(table, name, i);
        }
      }
    }
    if forall i :: 0 <= i < j ==> !Contains(table[j].fragment, table[i].fragment) {
      assert StartsWith(table[j].fragment, table[j].fragment);
      FirstMatchIs(table, table[j].fragment, j);
    }
  }

  predicate MostSpecificFirst(table: seq<Spec>) {
    forall i, j :: 0 <= i < j < |table| ==> !Contains(table[j].fragment, table[i].fragment)
  }

  /** In a table in which all rows can be found, the row found is maximal: no other row
      that matches has a fragment containing its own. */
  lemma {:induction false} FirstMatchIsMaximal(table: seq<Spec>, name: string, j: nat)
    requires MostSpecificFirst(table) && j < |table| && Contains(name, table[j].fragment)
    ensures var i := FirstMatch(table, name);
            i <= j && (i != j ==> !Contains(table[j].fragment, table[i].fragment))
  {
    FirstMatchIsFirst(table, name, j);
  }

  /** As long as the static table deprecates nothing, the check says what the lookup says. */
  lemma DeprecatedAgrees(overlay: seq<Spec>, rows: seq<Spec>, name: string)
    requires forall r :: r in rows ==> !r.deprecated
    ensures Deprecated(overlay, name) <==> Lookup(overlay, rows, name).Some? && Lookup(overlay, rows, name).value.deprecated
  {
  }

  /** In general the two differ exactly on a name that falls through to a static row
      that is deprecated. */
  lemma DeprecationExactly(overlay: seq<Spec>, rows: seq<Spec>, name: string)
    ensures (Deprecated(overlay, name) <==> Lookup(overlay, rows, name).Some? && Lookup(overlay, rows, name).value.deprecated)
            <==> Match(overlay, name).Some? || Match(rows, name).None? || !Match(rows, name).value.deprecated
  {
  }
}
