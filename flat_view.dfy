/** The flat ledger table: the row filter, the option lists of its multi-selects,
    the regrouping of rows into runs by processing id, and the sort-column state. */
module FlatView {
  import opened Types
  import opened Text

  // ---------------------------------------------------------------------------
  // Filters

  /** The filter inputs: three text boxes, two multi-selects and the id select. */
  datatype Filters = Filters(
    fileName: string,
    fileType: string,
    actionType: string,
    connectorType: seq<string>,
    connectorName: seq<string>,
    ingestionId: string)

  const InitialFilters: Filters := Filters("", "", "", [], [], "")

  /** `clearFilters`: every input back to empty. */
  function ClearFilters(current: Filters): Filters {
    InitialFilters
  }

  /** A row is kept when every non-empty filter matches it. */
  predicate RowMatches(f: Filters, row: FlatTableRow) {
    && (f.fileName == "" || Includes(Lower(row.fileName), Lower(f.fileName)))
    && (f.fileType == "" || row.fileType == f.fileType)
    && (f.actionType == "" || ActionTypeText(row.actionType) == f.actionType)
    && (f.ingestionId == "" || row.ingestionId == f.ingestionId)
    && (|f.connectorType| == 0 || ConnectorTypeText(row.connectorType) in f.connectorType)
    && (|f.connectorName| == 0 || row.udmoName in f.connectorName)
  }

  /** `data.filter(row => RowMatches(filters, row))`. */
  function FilterRows(f: Filters, rows: seq<FlatTableRow>): seq<FlatTableRow> {
    if rows == [] then []
    else FilterRows(f, rows[..|rows| - 1]) + (if RowMatches(f, rows[|rows| - 1]) then [rows[|rows| - 1]] else [])
  }

  /** The kept rows are exactly the matching rows, with their multiplicities. */
  lemma {:induction false} FilterRowsMembers(f: Filters, rows: seq<FlatTableRow>)
    ensures forall r :: r in FilterRows(f, rows) <==> r in rows && RowMatches(f, r)
    ensures forall r :: RowMatches(f, r) ==> multiset(FilterRows(f, rows))[r] == multiset(rows)[r]
  {
    if rows != [] {
      var init := rows[..|rows| - 1];
      FilterRowsMembers(f, init);
      assert rows == init + [rows[|rows| - 1]];
    }
  }

  /** The filter keeps the rows' order: it distributes over concatenation. */
  lemma {:induction false} FilterRowsAppend(f: Filters, a: seq<FlatTableRow>, b: seq<FlatTableRow>)
    ensures FilterRows(f, a + b) == FilterRows(f, a) + FilterRows(f, b)
    decreases |b|
  {
    if b == [] {
      assert a + b == a;
    } else {
      var b0 := b[..|b| - 1];
      assert (a + b)[..|a + b| - 1] == a + b0;
      assert (a + b)[|a + b| - 1] == b[|b| - 1];
      FilterRowsAppend(f, a, b0);
    }
  }

  lemma IncludesEmpty(hay: string)
    ensures Includes(hay, "")
  {
  }

  /** Every row matches the initial filters. */
  lemma InitialMatchesAll(row: FlatTableRow)
    ensures RowMatches(InitialFilters, row)
  {
  }

  /** With the initial filters, and so after `clearFilters`, every row is kept. */
  lemma {:induction false} ClearedKeepsAll(current: Filters, rows: seq<FlatTableRow>)
    ensures FilterRows(ClearFilters(current), rows) == rows
  {
    if rows != [] {
      var init := rows[..|rows| - 1];
      ClearedKeepsAll(current, init);
      InitialMatchesAll(rows[|rows| - 1]);
      assert rows == init + [rows[|rows| - 1]];
    }
  }

  /** The filters combine by conjunction: a row matches exactly when it matches
      each filter set on its own. */
  lemma Conjunctive(f: Filters, row: FlatTableRow)
    ensures RowMatches(f, row) <==>
      && RowMatches(InitialFilters.(fileName := f.fileName), row)
      && RowMatches(InitialFilters.(fileType := f.fileType), row)
      && RowMatches(InitialFilters.(actionType := f.actionType), row)
      && RowMatches(InitialFilters.(ingestionId := f.ingestionId), row)
      && RowMatches(InitialFilters.(connectorType := f.connectorType), row)
      && RowMatches(InitialFilters.(connectorName := f.connectorName), row)
  {
    IncludesEmpty(Lower(row.fileName));
  }

  lemma {:induction false} LowerIdempotent(s: string)
    ensures Lower(Lower(s)) == Lower(s)
  {
    var l := Lower(s);
    forall k | 0 <= k < |s| ensures Lower(l)[k] == l[k] {
    }
  }

  /** The file-name filter ignores the letter case of the filter text. */
  lemma FileNameFilterIgnoresCase(f: Filters, row: FlatTableRow)
    ensures RowMatches(f.(fileName := Lower(f.fileName)), row) <==> RowMatches(f, row)
  {
    LowerIdempotent(f.fileName);
    if f.fileName != "" {
      assert |Lower(f.fileName)| == |f.fileName|;
    }
  }

  /** The file-name filter ignores the letter case of the row's file name too. */
  lemma FileNameFilterIgnoresRowCase(f: Filters, row: FlatTableRow)
    ensures RowMatches(f, row.(fileName := Lower(row.fileName))) <==> RowMatches(f, row)
  {
    LowerIdempotent(row.fileName);
  }

  // ---------------------------------------------------------------------------
  // Option lists of the multi-selects

  /** `new Set` filled with the non-empty values in row order, then sorted. */
  method DistinctSortedValues(data: seq<FlatTableRow>, key: FlatTableRow -> string) returns (values: seq<string>)
    ensures Distinct(values) && StrictlySortedStrings(values)
    ensures forall x :: x in values <==> x != "" && exists i :: 0 <= i < |data| && key(data[i]) == x
  {
    var names: seq<string> := [];
    for i := 0 to |data|
      invariant Distinct(names)
      invariant forall x :: x in names <==> x != "" && exists j :: 0 <= j < i && key(data[j]) == x
    {
      var v := key(data[i]);
      if v != "" && v !in names {
        names := names + [v];
      }
    }
    values := SortStrings(names);
    SortKeepsDistinct(names);
    SortedDistinctIsStrict(values);
    forall x ensures x in values <==> x in names {
      assert x in values <==> x in multiset(values);
      assert x in names <==> x in multiset(names);
    }
  }

  /** The connector-name options: every non-empty connector name of the rows, once,
      ascending. */
  method ConnectorNames(data: seq<FlatTableRow>) returns (names: seq<string>)
    ensures Distinct(names) && StrictlySortedStrings(names)
    ensures forall x :: x in names <==> x != "" && exists i :: 0 <= i < |data| && data[i].udmoName == x
  {
    names := DistinctSortedValues(data, (r: FlatTableRow) => r.udmoName);
  }

  /** The processing-id options: every non-empty processing id of the rows, once,
      ascending. */
  method IngestionIds(data: seq<FlatTableRow>) returns (ids: seq<string>)
    ensures Distinct(ids) && StrictlySortedStrings(ids)
    ensures forall x :: x in ids <==> x != "" && exists i :: 0 <= i < |data| && data[i].ingestionId == x
  {
    ids := DistinctSortedValues(data, (r: FlatTableRow) => r.ingestionId);
  }

  lemma HeadIsMember(s: seq<string>)
    requires s != []
    ensures s[0] in s
  {
  }

  /** Two ascending lists without repetitions that hold the same values are equal:
      the option list is determined by the set of values. */
  lemma {:induction false} StrictlySortedUnique(a: seq<string>, b: seq<string>)
    requires StrictlySortedStrings(a) && StrictlySortedStrings(b)
    requires forall x :: x in a <==> x in b
    ensures a == b
  {
    if a != [] && b != [] {
      if a[0] != b[0] {
        assert a[0] in b && b[0] in a;
        var j :| 0 <= j < |b| && b[j] == a[0];
        var i :| 0 <= i < |a| && a[i] == b[0];
        StrLessAsymmetric(a[0], a[i]);
      }
      forall x ensures x in a[1..] <==> x in b[1..] {
        if x in a[1..] {
          var i :| 1 <= i < |a| && a[i] == x;
          StrLessAsymmetric(a[0], a[i]);
          assert x in b;
          var j :| 0 <= j < |b| && b[j] == x;
        }
        if x in b[1..] {
          var j :| 1 <= j < |b| && b[j] == x;
          StrLessAsymmetric(b[0], b[j]);
          assert x in a;
          var i :| 0 <= i < |a| && a[i] == x;
        }
      }
      StrictlySortedUnique(a[1..], b[1..]);
      assert a == [a[0]] + a[1..] && b == [b[0]] + b[1..];
    } else if a != [] {
      HeadIsMember(a);
      assert false;
    } else if b != [] {
      HeadIsMember(b);
      assert false;
    }
  }

  // ---------------------------------------------------------------------------
  // Regrouping into runs by processing id

  /** The group of a row: its processing id, or "no-id" when that is empty. */
  function GroupKey(r: FlatTableRow): string {
    if r.ingestionId == "" then "no-id" else r.ingestionId
  }

  /** The group keys in order of first occurrence: the key order of the `grouped`
      object. */
  function FirstKeys(rows: seq<FlatTableRow>): (keys: seq<string>)
    ensures Distinct(keys)
    ensures forall k :: k in keys <==> exists i :: 0 <= i < |rows| && GroupKey(rows[i]) == k
  {
    if rows == [] then []
    else
      var init := rows[..|rows| - 1];
      var k := FirstKeys(init);
      assert forall i :: 0 <= i < |init| ==> init[i] == rows[i];
      if GroupKey(rows[|rows| - 1]) in k then k else k + [GroupKey(rows[|rows| - 1])]
  }

  /** The rows of one group, in row order: `grouped[k]`. */
  function Members(rows: seq<FlatTableRow>, k: string): (g: seq<FlatTableRow>)
    ensures forall i :: 0 <= i < |g| ==> GroupKey(g[i]) == k
  {
    if rows == [] then []
    else Members(rows[..|rows| - 1], k) + (if GroupKey(rows[|rows| - 1]) == k then [rows[|rows| - 1]] else [])
  }

  /** How the group ids are ordered: by first occurrence, unless the table is sorted
      by processing id. */
  datatype IdOrder = FirstSeen | Ascending | Descending

  function Reverse(s: seq<string>): (r: seq<string>)
    ensures |r| == |s| && forall i :: 0 <= i < |s| ==> r[i] == s[|s| - 1 - i]
    ensures multiset(r) == multiset(s)
  {
    if s == [] then []
    else
      assert s == [s[0]] + s[1..];
      Reverse(s[1..]) + [s[0]]
  }

  /** `Object.keys(grouped).sort(cmp)`: the comparator is 0 unless the table is
      sorted by processing id, and a stable sort with a 0 comparator keeps the
      order. */
  function OrderKeys(keys: seq<string>, o: IdOrder): (r: seq<string>)
    ensures multiset(r) == multiset(keys)
  {
    match o
    case FirstSeen => keys
    case Ascending => SortStrings(keys)
    case Descending => Reverse(SortStrings(keys))
  }

  /** Within-group arrangement: the engine's sort of a group under a comparator that
      is not a consistent order, left as a parameter. */
  type Arrange = seq<FlatTableRow> -> seq<FlatTableRow>

  ghost predicate Permutes(arrange: Arrange) {
    forall g :: multiset(arrange(g)) == multiset(g)
  }

  /** The groups named by `order`, each arranged, one after the other. */
  function Flatten(rows: seq<FlatTableRow>, order: seq<string>, arrange: Arrange): seq<FlatTableRow> {
    if order == [] then []
    else Flatten(rows, order[..|order| - 1], arrange) + arrange(Members(rows, order[|order| - 1]))
  }

  /** The rows of `rows` whose group is in `ks`. */
  function WithKeyIn(rows: seq<FlatTableRow>, ks: set<string>): seq<FlatTableRow> {
    if rows == [] then []
    else WithKeyIn(rows[..|rows| - 1], ks) + (if GroupKey(rows[|rows| - 1]) in ks then [rows[|rows| - 1]] else [])
  }

  lemma {:induction false} WithKeyInAdd(rows: seq<FlatTableRow>, ks: set<string>, k: string)
    requires k !in ks
    ensures multiset(WithKeyIn(rows, ks + {k})) == multiset(WithKeyIn(rows, ks)) + multiset(Members(rows, k))
  {
    if rows != [] {
      var init, last := rows[..|rows| - 1], rows[|rows| - 1];
      WithKeyInAdd(init, ks, k);
      var x := if GroupKey(last) in ks then [last] else [];
      var y := if GroupKey(last) == k then [last] else [];
      var xy := if GroupKey(last) in ks + {k} then [last] else [];
      assert WithKeyIn(rows, ks + {k}) == WithKeyIn(init, ks + {k}) + xy;
      assert WithKeyIn(rows, ks) == WithKeyIn(init, ks) + x;
      assert Members(rows, k) == Members(init, k) + y;
      assert multiset(xy) == multiset(x) + multiset(y);
      MultisetRegroup(WithKeyIn(init, ks + {k}), WithKeyIn(init, ks), Members(init, k), x, y, xy);
    }
  }

  lemma MultisetRegroup(a: seq<FlatTableRow>, b: seq<FlatTableRow>, c: seq<FlatTableRow>,
                        x: seq<FlatTableRow>, y: seq<FlatTableRow>, xy: seq<FlatTableRow>)
    requires multiset(a) == multiset(b) + multiset(c)
    requires multiset(xy) == multiset(x) + multiset(y)
    ensures multiset(a + xy) == multiset(b + x) + multiset(c + y)
  {
  }

  lemma {:induction false} WithAllKeys(rows: seq<FlatTableRow>, ks: set<string>)
    requires forall i :: 0 <= i < |rows| ==> GroupKey(rows[i]) in ks
    ensures WithKeyIn(rows, ks) == rows
  {
    if rows != [] {
      var init, last := rows[..|rows| - 1], rows[|rows| - 1];
      forall i | 0 <= i < |init| ensures GroupKey(init[i]) in ks {
        assert init[i] == rows[i];
      }
      WithAllKeys(init, ks);
      assert GroupKey(last) in ks;
      assert rows == init + [last];
    }
  }

  /** Flattening distinct group ids gives, up to order, the rows of those groups. */
  lemma {:induction false} FlattenMultiset(rows: seq<FlatTableRow>, order: seq<string>, arrange: Arrange)
    requires Permutes(arrange) && Distinct(order)
    ensures multiset(Flatten(rows, order, arrange)) == multiset(WithKeyIn(rows, set k | k in order))
  {
    if order == [] {
      assert (set k | k in order) == {};
      WithKeyInNone(rows);
    } else {
      var init, last := order[..|order| - 1], order[|order| - 1];
      FlattenMultiset(rows, init, arrange);
      assert (set k | k in order) == (set k | k in init) + {last} by {
        assert order == init + [last];
      }
      WithKeyInAdd(rows, (set k | k in init), last);
    }
  }

  lemma {:induction false} WithKeyInNone(rows: seq<FlatTableRow>)
    ensures WithKeyIn(rows, {}) == []
  {
    if rows != [] {
      WithKeyInNone(rows[..|rows| - 1]);
    }
  }

  /** `s` holds each group in one run: two rows of one group have only rows of that
      group between them. */
  predicate Contiguous(s: seq<FlatTableRow>) {
    forall i, j, l :: 0 <= i < j < l < |s| && GroupKey(s[i]) == GroupKey(s[l]) ==> GroupKey(s[j]) == GroupKey(s[i])
  }

  lemma ContiguousAppend(p: seq<FlatTableRow>, b: seq<FlatTableRow>, k: string)
    requires Contiguous(p)
    requires forall i :: 0 <= i < |b| ==> GroupKey(b[i]) == k
    requires forall i :: 0 <= i < |p| ==> GroupKey(p[i]) != k
    ensures Contiguous(p + b)
  {
    var s := p + b;
    assert forall x :: 0 <= x < |s| ==> s[x] == if x < |p| then p[x] else b[x - |p|];
    forall i, j, l | 0 <= i < j < l < |s| && GroupKey(s[i]) == GroupKey(s[l])
      ensures GroupKey(s[j]) == GroupKey(s[i])
    {
      if l < |p| {
        assert s[i] == p[i] && s[j] == p[j] && s[l] == p[l];
      } else if i < |p| {
        assert false;
      }
    }
  }

  /** The flattened groups of distinct ids form one run per group, and every row of
      them belongs to one of the ids. */
  lemma {:induction false} FlattenContiguous(rows: seq<FlatTableRow>, order: seq<string>, arrange: Arrange)
    requires Permutes(arrange) && Distinct(order)
    ensures var s := Flatten(rows, order, arrange);
      Contiguous(s) && forall i :: 0 <= i < |s| ==> GroupKey(s[i]) in order
  {
    if order != [] {
      var init, last := order[..|order| - 1], order[|order| - 1];
      FlattenContiguous(rows, init, arrange);
      var p := Flatten(rows, init, arrange);
      var b := arrange(Members(rows, last));
      ArrangedGroup(rows, last, arrange);
      assert last !in init;
      ContiguousAppend(p, b, last);
      var s := p + b;
      forall i | 0 <= i < |s| ensures GroupKey(s[i]) in order {
        if i < |p| { assert s[i] == p[i]; } else { assert s[i] == b[i - |p|]; }
      }
    }
  }

  /** An arranged group holds the group's rows, so only rows of that group. */
  lemma ArrangedGroup(rows: seq<FlatTableRow>, k: string, arrange: Arrange)
    requires Permutes(arrange)
    ensures forall i :: 0 <= i < |arrange(Members(rows, k))| ==> GroupKey(arrange(Members(rows, k))[i]) == k
  {
    var g := Members(rows, k);
    var b := arrange(g);
    assert multiset(b) == multiset(g);
    forall i | 0 <= i < |b| ensures GroupKey(b[i]) == k {
      assert b[i] in multiset(g);
      var j :| 0 <= j < |g| && g[j] == b[i];
    }
  }

  /** The group keys of a concatenation: those of the first part, then the new ones
      of the second. With the second part one group not in the first, that group
      comes last. */
  lemma {:induction false} FirstKeysAppendRun(p: seq<FlatTableRow>, b: seq<FlatTableRow>, k: string)
    requires b != []
    requires forall i :: 0 <= i < |b| ==> GroupKey(b[i]) == k
    requires k !in FirstKeys(p)
    ensures FirstKeys(p + b) == FirstKeys(p) + [k]
    decreases |b|
  {
    var s := p + b;
    var init := s[..|s| - 1];
    assert init == p + b[..|b| - 1];
    assert GroupKey(s[|s| - 1]) == k by {
      assert s[|s| - 1] == b[|b| - 1];
    }
    FirstKeysSnoc(s);
    if |b| == 1 {
      assert init == p;
    } else {
      FirstKeysAppendRun(p, b[..|b| - 1], k);
      assert k in FirstKeys(init);
    }
  }

  lemma FirstKeysSnoc(rows: seq<FlatTableRow>)
    requires rows != []
    ensures var init, k := rows[..|rows| - 1], GroupKey(rows[|rows| - 1]);
      FirstKeys(rows) == if k in FirstKeys(init) then FirstKeys(init) else FirstKeys(init) + [k]
  {
  }

  /** A group of a key that occurs is not empty. */
  lemma {:induction false} MembersNonEmpty(rows: seq<FlatTableRow>, k: string)
    requires k in FirstKeys(rows)
    ensures Members(rows, k) != []
  {
    var init := rows[..|rows| - 1];
    assert forall i :: 0 <= i < |init| ==> init[i] == rows[i];
    if GroupKey(rows[|rows| - 1]) != k {
      MembersNonEmpty(init, k);
    }
  }

  /** Flattening keys that occur, in a given order, puts the groups in that order. */
  lemma {:induction false} FlattenKeyOrder(rows: seq<FlatTableRow>, order: seq<string>, arrange: Arrange)
    requires Permutes(arrange) && Distinct(order)
    requires forall k :: k in order ==> k in FirstKeys(rows)
    ensures FirstKeys(Flatten(rows, order, arrange)) == order
  {
    if order != [] {
      var init, last := order[..|order| - 1], order[|order| - 1];
      assert order == init + [last];
      assert Distinct(init) && last !in init by {
        forall i, j | 0 <= i < j < |init| ensures init[i] != init[j] {
          assert init[i] == order[i] && init[j] == order[j];
        }
        forall i | 0 <= i < |init| ensures init[i] != last {
          assert init[i] == order[i];
        }
      }
      assert forall k :: k in init ==> k in order;
      FlattenKeyOrder(rows, init, arrange);
      var p := Flatten(rows, init, arrange);
      var g := Members(rows, last);
      var b := arrange(g);
      MembersNonEmpty(rows, last);
      assert b != [] by {
        assert |multiset(b)| == |multiset(g)|;
      }
      ArrangedGroup(rows, last, arrange);
      FirstKeysAppendRun(p, b, last);
    }
  }

  /** Ordering the keys keeps the same keys. */
  lemma OrderKeysMembers(keys: seq<string>, o: IdOrder)
    ensures forall k :: k in OrderKeys(keys, o) <==> k in keys
  {
    forall k ensures k in OrderKeys(keys, o) <==> k in keys {
      assert k in OrderKeys(keys, o) <==> k in multiset(OrderKeys(keys, o));
    }
  }

  /** The regrouped table: each group once, in the chosen key order. */
  function Regrouped(rows: seq<FlatTableRow>, o: IdOrder, arrange: Arrange): seq<FlatTableRow> {
    Flatten(rows, OrderKeys(FirstKeys(rows), o), arrange)
  }

  lemma DistinctOrderKeys(keys: seq<string>, o: IdOrder)
    requires Distinct(keys)
    ensures Distinct(OrderKeys(keys, o))
  {
    match o
    case FirstSeen =>
    case Ascending => SortKeepsDistinct(keys);
    case Descending =>
      SortKeepsDistinct(keys);
      ReverseDistinct(SortStrings(keys));
  }

  lemma ReverseDistinct(s: seq<string>)
    requires Distinct(s)
    ensures Distinct(Reverse(s))
  {
    var r := Reverse(s);
    forall i, j | 0 <= i < j < |r| ensures r[i] != r[j] {
      assert r[i] == s[|s| - 1 - i] && r[j] == s[|s| - 1 - j];
    }
  }

  /** The regrouped table is a permutation of its input, holds each group in one
      run, and lists the groups in the chosen order: by first occurrence, or by
      processing id ascending or descending. */
  lemma Regrouping(rows: seq<FlatTableRow>, o: IdOrder, arrange: Arrange)
    requires Permutes(arrange)
    ensures multiset(Regrouped(rows, o, arrange)) == multiset(rows)
    ensures Contiguous(Regrouped(rows, o, arrange))
    ensures FirstKeys(Regrouped(rows, o, arrange)) == OrderKeys(FirstKeys(rows), o)
  {
    var keys := FirstKeys(rows);
    var order := OrderKeys(keys, o);
    DistinctOrderKeys(keys, o);
    OrderKeysMembers(keys, o);
    FlattenMultiset(rows, order, arrange);
    var ks := set k | k in order;
    forall i | 0 <= i < |rows| ensures GroupKey(rows[i]) in ks {
      assert GroupKey(rows[i]) in keys;
    }
    WithAllKeys(rows, ks);
    FlattenContiguous(rows, order, arrange);
    FlattenKeyOrder(rows, order, arrange);
  }

  /** The grouping loop: each row pushed onto `grouped[id]`, the group created on the
      id's first row. `keys` is the object's key order. */
  method GroupRows(filtered: seq<FlatTableRow>)
    returns (grouped: map<string, seq<FlatTableRow>>, keys: seq<string>)
    ensures keys == FirstKeys(filtered)
    ensures forall k :: k in grouped <==> k in keys
    ensures forall k :: k in grouped ==> grouped[k] == Members(filtered, k)
  {
    grouped := map[];
    keys := [];
    for i := 0 to |filtered|
      invariant keys == FirstKeys(filtered[..i])
      invariant forall k :: k in grouped <==> k in keys
      invariant forall k :: k in grouped ==> grouped[k] == Members(filtered[..i], k)
    {
      var row := filtered[i];
      var id := if row.ingestionId == "" then "no-id" else row.ingestionId;
      GroupRowsStep(filtered, i, grouped, keys);
      if id !in grouped {
        grouped := grouped[id := []];
        keys := keys + [id];
      }
      grouped := grouped[id := grouped[id] + [row]];
    }
    assert filtered[..|filtered|] == filtered;
  }

  /** The grouped table: the rows grouped, the group ids sorted, then each group
      arranged and appended in that order. */
  method GroupByIngestionId(filtered: seq<FlatTableRow>, o: IdOrder, arrange: Arrange)
    returns (result: seq<FlatTableRow>)
    ensures result == Regrouped(filtered, o, arrange)
  {
    var grouped, keys := GroupRows(filtered);
    var sortedGroupIds := OrderKeys(keys, o);
    OrderKeysMembers(keys, o);
    result := [];
    for j := 0 to |sortedGroupIds|
      invariant result == Flatten(filtered, sortedGroupIds[..j], arrange)
    {
      var id := sortedGroupIds[j];
      assert id in keys;
      var group := arrange(grouped[id]);
      FlattenSnoc(filtered, sortedGroupIds, j, arrange);
      result := result + group;
    }
    assert sortedGroupIds[..|sortedGroupIds|] == sortedGroupIds;
  }

  /** One pass of the grouping loop keeps its invariant. */
  lemma GroupRowsStep(rows: seq<FlatTableRow>, i: nat, grouped: map<string, seq<FlatTableRow>>, keys: seq<string>)
    requires i < |rows|
    requires keys == FirstKeys(rows[..i])
    requires forall k :: k in grouped <==> k in keys
    requires forall k :: k in grouped ==> grouped[k] == Members(rows[..i], k)
    ensures var id := GroupKey(rows[i]);
      var keys' := if id in grouped then keys else keys + [id];
      var started := if id in grouped then grouped else grouped[id := []];
      var grouped' := started[id := started[id] + [rows[i]]];
      && keys' == FirstKeys(rows[..i + 1])
      && (forall k :: k in grouped' <==> k in keys')
      && (forall k :: k in grouped' ==> grouped'[k] == Members(rows[..i + 1], k))
  {
    var id := GroupKey(rows[i]);
    GroupStep(rows, i);
    if id !in grouped {
      MembersAbsent(rows[..i], id);
    }
    var started := if id in grouped then grouped else grouped[id := []];
    var grouped' := started[id := started[id] + [rows[i]]];
    forall k | k in grouped' ensures grouped'[k] == Members(rows[..i + 1], k) {
      if k != id {
        assert GroupKey(rows[i]) != k;
      }
    }
  }

  /** Flattening one more key appends that key's arranged group. */
  lemma FlattenSnoc(rows: seq<FlatTableRow>, order: seq<string>, j: nat, arrange: Arrange)
    requires j < |order|
    ensures Flatten(rows, order[..j + 1], arrange)
         == Flatten(rows, order[..j], arrange) + arrange(Members(rows, order[j]))
  {
    assert order[..j + 1][..j] == order[..j];
  }

  /** One more row: its key joins the key list if new, and its group grows by it. */
  lemma GroupStep(rows: seq<FlatTableRow>, i: nat)
    requires i < |rows|
    ensures var k := GroupKey(rows[i]);
      FirstKeys(rows[..i + 1]) == if k in FirstKeys(rows[..i]) then FirstKeys(rows[..i]) else FirstKeys(rows[..i]) + [k]
    ensures forall k :: Members(rows[..i + 1], k) == Members(rows[..i], k) + (if GroupKey(rows[i]) == k then [rows[i]] else [])
  {
    assert rows[..i + 1][..i] == rows[..i];
  }

  /** A key that does not occur has an empty group. */
  lemma {:induction false} MembersAbsent(rows: seq<FlatTableRow>, k: string)
    requires k !in FirstKeys(rows)
    ensures Members(rows, k) == []
  {
    if rows != [] {
      var init := rows[..|rows| - 1];
      assert forall i :: 0 <= i < |init| ==> init[i] == rows[i];
      MembersAbsent(init, k);
    }
  }

  // ---------------------------------------------------------------------------
  // Sort-column state

  /** The keys of a ledger row, as sort columns. */
  datatype Column = FileNameColumn | FileTypeColumn | ActionTypeColumn | TimeColumn | SizeColumn
                  | ReasonColumn | ConnectorTypeColumn | UdmoNameColumn | IngestionIdColumn | CreditsColumn

  datatype Direction = Asc | Desc

  /** The sort column (`null` when none) and the direction. */
  datatype SortState = SortState(column: Option<Column>, direction: Direction)

  const InitialSort: SortState := SortState(None, Asc)

  /** `handleSort`: the current column flips direction; another column becomes
      the sort column, ascending. */
  function HandleSort(s: SortState, column: Option<Column>): SortState {
    if s.column == column then s.(direction := if s.direction == Asc then Desc else Asc)
    else SortState(column, Asc)
  }

  /** After a click the clicked column is the sort column; its direction is the
      opposite of the old one when it was already the sort column, else ascending. */
  lemma HandleSortSpec(s: SortState, column: Option<Column>)
    ensures HandleSort(s, column).column == column
    ensures s.column == column ==> HandleSort(s, column).direction != s.direction
    ensures s.column != column ==> HandleSort(s, column).direction == Asc
  {
  }

  /** Clicking the sort column twice restores the state; clicking a new column twice
      sorts by it descending. */
  lemma HandleSortTwice(s: SortState, column: Option<Column>)
    ensures HandleSort(HandleSort(s, column), column)
      == if s.column == column then s else SortState(column, Desc)
  {
  }

  /** The header marker of a column: unsorted, ascending or descending. */
  function SortIndicator(s: SortState, column: Column): string {
    if s.column != Some(column) then " ↕" else if s.direction == Asc then " ↑" else " ↓"
  }

  /** After a click on a column only that column shows a direction, and a second
      click on it reverses the marker. */
  lemma SortIndicatorAfterClick(s: SortState, clicked: Column, other: Column)
    requires other != clicked
    ensures SortIndicator(HandleSort(s, Some(clicked)), other) == " ↕"
    ensures SortIndicator(HandleSort(s, Some(clicked)), clicked) in {" ↑", " ↓"}
    ensures SortIndicator(HandleSort(s, Some(clicked)), clicked) == " ↑" <==>
      SortIndicator(HandleSort(HandleSort(s, Some(clicked)), Some(clicked)), clicked) == " ↓"
  {
  }

  /** The group-key order a sort state asks for. */
  function IdOrderOf(s: SortState): IdOrder {
    if s.column == Some(IngestionIdColumn) then (if s.direction == Asc then Ascending else Descending)
    else FirstSeen
  }

  // ---------------------------------------------------------------------------
  // Column comparator

  /** A cell as the comparator sees it: text, a number, or missing (`undefined`). */
  datatype Cell = Text(t: string) | Number(n: real) | Missing

  function ReasonText(r: UpdateReason): string {
    match r
    case Added => "Added"
    case Updated => "Updated"
    case Deleted => "Deleted"
  }

  /** `row[column]`. */
  function CellOf(row: FlatTableRow, column: Column): Cell {
    match column
    case FileNameColumn => Text(row.fileName)
    case FileTypeColumn => Text(row.fileType)
    case ActionTypeColumn => Text(ActionTypeText(row.actionType))
    case TimeColumn => Text(row.time)
    case SizeColumn => Number(row.size)
    case ReasonColumn => Text(ReasonText(row.reason))
    case ConnectorTypeColumn => Text(ConnectorTypeText(row.connectorType))
    case UdmoNameColumn => Text(row.udmoName)
    case IngestionIdColumn => Text(row.ingestionId)
    case CreditsColumn => if row.credits.Some? then Number(row.credits.value) else Missing
  }

  /** `localeCompare`, as code-unit order: -1, 0 or 1. */
  function StrCompare(a: string, b: string): int {
    if a == b then 0 else if StrLess(a, b) then -1 else 1
  }

  /** The column comparator: a missing left value sorts after, then a missing right
      value before; texts compare case-insensitively, numbers by difference; the
      result is negated for a descending sort. */
  function CompareCells(a: Cell, b: Cell, d: Direction): real {
    if a.Missing? then 1.0
    else if b.Missing? then -1.0
    else
      var comparison :=
        if a.Text? && b.Text? then StrCompare(Lower(a.t), Lower(b.t)) as real
        else if a.Number? && b.Number? then a.n - b.n
        else 0.0;
      if d == Asc then comparison else -comparison
  }

  /** Missing values go last in both directions, and a descending comparison is an
      ascending one negated when both values are present. */
  lemma CompareCellsSpec(a: Cell, b: Cell, d: Direction)
    ensures a.Missing? ==> CompareCells(a, b, d) > 0.0
    ensures !a.Missing? && b.Missing? ==> CompareCells(a, b, d) < 0.0
    ensures !a.Missing? && !b.Missing? ==> CompareCells(a, b, Desc) == -CompareCells(a, b, Asc)
  {
  }

  /** Between two present values of a column the comparator is antisymmetric: swapping
      the rows swaps the sign. */
  lemma CompareAntisymmetric(x: FlatTableRow, y: FlatTableRow, column: Column, d: Direction)
    requires !CellOf(x, column).Missing? && !CellOf(y, column).Missing?
    ensures CompareCells(CellOf(x, column), CellOf(y, column), d)
         == -CompareCells(CellOf(y, column), CellOf(x, column), d)
  {
    var a, b := CellOf(x, column), CellOf(y, column);
    if a.Text? {
      var la, lb := Lower(a.t), Lower(b.t);
      if la != lb {
        StrLessTotal(la, lb);
        if StrLess(la, lb) { StrLessAsymmetric(la, lb); } else { StrLessAsymmetric(lb, la); }
      }
    }
  }

  /** Two rows without credits each compare as after the other, so the credits
      ordering is not a consistent comparator and the engine's result for it is
      implementation-defined. */
  lemma CompareCreditsInconsistent(x: FlatTableRow, y: FlatTableRow, d: Direction)
    requires x.credits.None? && y.credits.None?
    ensures CompareCells(CellOf(x, CreditsColumn), CellOf(y, CreditsColumn), d) > 0.0
    ensures CompareCells(CellOf(y, CreditsColumn), CellOf(x, CreditsColumn), d) > 0.0
  {
  }

  /** The within-group comparator: of two rows for the same file, the Ingestion row
      comes before the Indexing row; every other pair compares equal. */
  function GroupCompare(a: FlatTableRow, b: FlatTableRow): int {
    if a.fileName == b.fileName && a.actionType != b.actionType then
      if a.actionType == Ingestion && b.actionType == Indexing then -1
      else if a.actionType == Indexing && b.actionType == Ingestion then 1
      else 0
    else 0
  }

  /** The within-group comparator orders only an Ingestion and an Indexing row of
      the same file, and swapping its arguments negates it. */
  lemma GroupCompareSpec(a: FlatTableRow, b: FlatTableRow)
    ensures GroupCompare(a, b) < 0 <==> a.fileName == b.fileName && a.actionType == Ingestion && b.actionType == Indexing
    ensures GroupCompare(a, b) > 0 <==> a.fileName == b.fileName && a.actionType == Indexing && b.actionType == Ingestion
    ensures GroupCompare(b, a) == -GroupCompare(a, b)
  {
  }

  /** Equality under the within-group comparator is not transitive: a row of
      another file sits "equal" between the Ingestion and the Indexing row of one
      file, so the comparator is not a consistent order either. */
  lemma GroupCompareInconsistent(a: FlatTableRow, b: FlatTableRow, c: FlatTableRow)
    requires a.fileName == c.fileName && a.fileName != b.fileName
    requires a.actionType == Ingestion && c.actionType == Indexing
    ensures GroupCompare(a, b) == 0 && GroupCompare(b, c) == 0
    ensures GroupCompare(a, c) < 0
  {
  }

  /** The table body: filtered rows, column-sorted when a column is chosen (the
      engine's sort under an inconsistent comparator, a parameter here), then
      regrouped. */
  method FilteredAndSortedData(data: seq<FlatTableRow>, filters: Filters, sort: SortState,
                               columnSort: Arrange, arrange: Arrange)
    returns (result: seq<FlatTableRow>)
    ensures result == Regrouped(if sort.column.Some? then columnSort(FilterRows(filters, data))
                                else FilterRows(filters, data), IdOrderOf(sort), arrange)
  {
    var filtered := FilterRows(filters, data);
    if sort.column.Some? {
      filtered := columnSort(filtered);
    }
    result := GroupByIngestionId(filtered, IdOrderOf(sort), arrange);
  }

  /** Whatever the two engine sorts do, so long as they permute, the table shows
      exactly the filtered rows, one run per group. */
  lemma TableIsFilteredPermutation(data: seq<FlatTableRow>, filters: Filters, sort: SortState,
                                   columnSort: Arrange, arrange: Arrange)
    requires Permutes(columnSort) && Permutes(arrange)
    ensures var rows := if sort.column.Some? then columnSort(FilterRows(filters, data)) else FilterRows(filters, data);
      && multiset(Regrouped(rows, IdOrderOf(sort), arrange)) == multiset(FilterRows(filters, data))
      && Contiguous(Regrouped(rows, IdOrderOf(sort), arrange))
  {
    var rows := if sort.column.Some? then columnSort(FilterRows(filters, data)) else FilterRows(filters, data);
    Regrouping(rows, IdOrderOf(sort), arrange);
  }
}
