/// The table layout of the Word exporter (document_utils.py): records are
/// grouped by level, the levels are visited in ascending string order, and
/// each level gets a table with one numbered row per record, numbering
/// restarting at `01` in every table.
module Grouping {
  import opened Content
  import opened Merge

  /// The records of one level, in input order (the list `_group_by_level`
  /// builds for that key).
  function Filter(chunks: seq<Chunk>, level: string): (r: seq<Chunk>)
    ensures |r| <= |chunks|
  {
    if chunks == [] then []
    else
      var last := chunks[|chunks| - 1];
      Filter(chunks[..|chunks| - 1], level) + (if last.level == level then [last] else [])
  }

  /// The levels in the order a dict keyed by level first sees them.
  function FirstSeen(chunks: seq<Chunk>): (r: seq<string>)
    ensures forall l :: l in r <==> HasLevel(chunks, l)
    ensures Distinct(r)
  {
    if chunks == [] then []
    else
      var init := chunks[..|chunks| - 1];
      var last := chunks[|chunks| - 1];
      assert forall c :: c in chunks <==> c in init || c == last by {
        assert chunks == init + [last];
      }
      FirstSeen(init) + (if last.level in FirstSeen(init) then [] else [last.level])
  }

  /// Whether some record carries `level`.
  predicate HasLevel(chunks: seq<Chunk>, level: string)
  {
    exists c :: c in chunks && c.level == level
  }

  /// A level has a non-empty group exactly when some record carries it.
  lemma {:induction false} FilterNonEmpty(chunks: seq<Chunk>, level: string)
    ensures Filter(chunks, level) != [] <==> level in FirstSeen(chunks)
  {
    if chunks != [] {
      FilterNonEmpty(chunks[..|chunks| - 1], level);
    }
  }

  /// `_group_by_level`: one `setdefault(level, []).append(chunk)` per
  /// record. The dict is its key-to-list map together with its key order.
  method GroupByLevel(chunks: seq<Chunk>) returns (grouped: map<string, seq<Chunk>>, order: seq<string>)
    ensures order == FirstSeen(chunks)
    ensures forall l :: l in grouped <==> l in order
    ensures forall l :: l in grouped ==> grouped[l] == Filter(chunks, l) && grouped[l] != []
  {
    grouped := map[];
    order := [];
    for i := 0 to |chunks|
      invariant order == FirstSeen(chunks[..i])
      invariant forall l :: l in grouped <==> l in order
      invariant forall l :: l in grouped ==> grouped[l] == Filter(chunks[..i], l)
    {
      var c := chunks[i];
      ghost var seen, next := chunks[..i], chunks[..i + 1];
      assert next[..|next| - 1] == seen && next[|next| - 1] == c;
      assert FirstSeen(next) == order + (if c.level in order then [] else [c.level]);
      forall l
        ensures Filter(next, l) == Filter(seen, l) + (if c.level == l then [c] else [])
      {
      }
      if c.level !in grouped {
        FilterNonEmpty(seen, c.level);
        grouped := grouped[c.level := []];
        order := order + [c.level];
      }
      grouped := grouped[c.level := grouped[c.level] + [c]];
    }
    assert chunks[..|chunks|] == chunks;
    forall l | l in grouped
      ensures grouped[l] != []
    {
      FilterNonEmpty(chunks, l);
    }
  }

  /// A record is in the group of a level exactly when it is one of the
  /// records and carries that level.
  lemma {:induction false} FilterMembers(chunks: seq<Chunk>, level: string, c: Chunk)
    ensures c in Filter(chunks, level) <==> c in chunks && c.level == level
  {
    if chunks != [] {
      var init := chunks[..|chunks| - 1];
      FilterMembers(init, level, c);
      assert chunks == init + [chunks[|chunks| - 1]];
    }
  }

  /// Grouping keeps relative order: the group of a concatenation is the
  /// group of the first part followed by the group of the second.
  lemma {:induction false} FilterConcat(xs: seq<Chunk>, ys: seq<Chunk>, level: string)
    ensures Filter(xs + ys, level) == Filter(xs, level) + Filter(ys, level)
    decreases |ys|
  {
    if ys == [] {
      assert xs + ys == xs;
    } else {
      var init := ys[..|ys| - 1];
      assert (xs + ys)[..|xs + ys| - 1] == xs + init;
      FilterConcat(xs, init, level);
    }
  }

  /// How often `x` occurs in `s`.
  function Count(s: seq<string>, x: string): nat
  {
    if s == [] then 0 else (if s[0] == x then 1 else 0) + Count(s[1..], x)
  }

  lemma {:induction false} CountDistinct(s: seq<string>, x: string)
    requires Distinct(s) && x in s
    ensures Count(s, x) == 1
  {
    if s[0] != x {
      CountDistinct(s[1..], x);
    } else {
      assert x !in s[1..];
      CountAbsent(s[1..], x);
    }
  }

  lemma {:induction false} CountAbsent(s: seq<string>, x: string)
    requires x !in s
    ensures Count(s, x) == 0
  {
    if s != [] {
      CountAbsent(s[1..], x);
    }
  }

  /// The sizes of the groups of the given levels, added up.
  function GroupSizes(chunks: seq<Chunk>, levels: seq<string>): nat
  {
    if levels == [] then 0 else |Filter(chunks, levels[0])| + GroupSizes(chunks, levels[1..])
  }

  lemma {:induction false} GroupSizesStep(chunks: seq<Chunk>, c: Chunk, levels: seq<string>)
    ensures GroupSizes(chunks + [c], levels) == GroupSizes(chunks, levels) + Count(levels, c.level)
  {
    if levels != [] {
      assert (chunks + [c])[..|chunks|] == chunks;
      GroupSizesStep(chunks, c, levels[1..]);
    }
  }

  /// The groups partition the records: over any list of distinct levels
  /// that covers every record's level, the group sizes add up to the number
  /// of records.
  lemma {:induction false} Partition(chunks: seq<Chunk>, levels: seq<string>)
    requires Distinct(levels)
    requires forall c :: c in chunks ==> c.level in levels
    ensures GroupSizes(chunks, levels) == |chunks|
  {
    if chunks == [] {
      EmptyGroupSizes(levels);
    } else {
      var init := chunks[..|chunks| - 1];
      var last := chunks[|chunks| - 1];
      assert chunks == init + [last];
      Partition(init, levels);
      GroupSizesStep(init, last, levels);
      CountDistinct(levels, last.level);
    }
  }

  lemma {:induction false} EmptyGroupSizes(levels: seq<string>)
    ensures GroupSizes([], levels) == 0
  {
    if levels != [] {
      EmptyGroupSizes(levels[1..]);
    }
  }

  /// Python's `<` on `str`: lexicographic by code point, a proper prefix
  /// coming first.
  predicate Below(a: string, b: string)
    decreases |a|
  {
    b != [] && (a == [] || a[0] < b[0] || (a[0] == b[0] && Below(a[1..], b[1..])))
  }

  lemma {:induction false} BelowIrreflexive(a: string)
    ensures !Below(a, a)
    decreases |a|
  {
    if a != [] {
      BelowIrreflexive(a[1..]);
    }
  }

  lemma {:induction false} BelowTransitive(a: string, b: string, c: string)
    requires Below(a, b) && Below(b, c)
    ensures Below(a, c)
    decreases |a|
  {
    if a != [] && a[0] == b[0] && b[0] == c[0] {
      BelowTransitive(a[1..], b[1..], c[1..]);
    }
  }

  lemma {:induction false} BelowTotal(a: string, b: string)
    requires a != b
    ensures Below(a, b) || Below(b, a)
    decreases |a|
  {
    if a != [] && b != [] && a[0] == b[0] {
      assert a == [a[0]] + a[1..] && b == [b[0]] + b[1..];
      BelowTotal(a[1..], b[1..]);
    }
  }

  /// Strictly ascending in Python's string order.
  predicate Ascending(s: seq<string>)
  {
    forall i, j :: 0 <= i < j < |s| ==> Below(s[i], s[j])
  }

  /// Inserting one key into a sorted list.
  function Insert(x: string, s: seq<string>): (r: seq<string>)
    ensures |r| == |s| + 1
    ensures forall y :: y in r <==> y == x || y in s
  {
    if s == [] then [x]
    else if Below(x, s[0]) then [x] + s
    else [s[0]] + Insert(x, s[1..])
  }

  /// `sorted` on the level keys.
  function SortLevels(s: seq<string>): (r: seq<string>)
    ensures |r| == |s|
    ensures forall y :: y in r <==> y in s
  {
    if s == [] then [] else Insert(s[0], SortLevels(s[1..]))
  }

  lemma {:induction false} InsertAscending(x: string, s: seq<string>)
    requires Ascending(s) && x !in s
    ensures Ascending(Insert(x, s))
  {
    if s != [] && !Below(x, s[0]) {
      BelowTotal(x, s[0]);
      InsertAscending(x, s[1..]);
      var r := Insert(x, s[1..]);
      forall j | 0 <= j < |r|
        ensures Below(s[0], r[j])
      {
        if r[j] != x {
          assert r[j] in s[1..];
        }
      }
    } else if s != [] {
      forall j | 0 <= j < |s|
        ensures Below(x, s[j])
      {
        if j > 0 {
          BelowTransitive(x, s[0], s[j]);
        }
      }
    }
  }

  /// Sorting distinct keys yields them in strictly ascending order.
  lemma {:induction false} SortAscending(s: seq<string>)
    requires Distinct(s)
    ensures Ascending(SortLevels(s))
  {
    if s != [] {
      SortAscending(s[1..]);
      InsertAscending(s[0], SortLevels(s[1..]));
    }
  }

  /// There is only one strictly ascending list of a given set of keys, so
  /// the visiting order depends only on which levels occur.
  lemma {:induction false} AscendingUnique(a: seq<string>, b: seq<string>)
    requires Ascending(a) && Ascending(b)
    requires forall y :: y in a <==> y in b
    ensures a == b
    decreases |a|
  {
    if a == [] {
      assert forall i :: 0 <= i < |b| ==> b[i] in b;
    } else {
      assert a[0] in b && b[0] in a;
      BelowIrreflexive(a[0]);
      if a[0] != b[0] {
        var k :| 0 <= k < |a| && a[k] == b[0];
        var m :| 0 <= m < |b| && b[m] == a[0];
        BelowTransitive(a[0], b[0], a[0]);
      }
      forall y
        ensures y in a[1..] <==> y in b[1..]
      {
        if y in a[1..] {
          var k :| 1 <= k < |a| && a[k] == y;
          assert Below(a[0], y) && y in b;
          var m :| 0 <= m < |b| && b[m] == y;
          assert m != 0;
          assert b[1..][m - 1] == y;
        }
        if y in b[1..] {
          var k :| 1 <= k < |b| && b[k] == y;
          assert Below(b[0], y) && y in a;
          var m :| 0 <= m < |a| && a[m] == y;
          assert m != 0;
          assert a[1..][m - 1] == y;
        }
      }
      AscendingUnique(a[1..], b[1..]);
    }
  }

  /// The levels in the order `generate_tables` visits them.
  function VisitOrder(chunks: seq<Chunk>): (r: seq<string>)
    ensures forall l :: l in r <==> HasLevel(chunks, l)
  {
    SortLevels(FirstSeen(chunks))
  }

  /// Every level is visited exactly once, in ascending order, and the
  /// order does not depend on the order of the records.
  lemma VisitOrderSpec(chunks: seq<Chunk>, others: seq<Chunk>)
    ensures Ascending(VisitOrder(chunks)) && Distinct(VisitOrder(chunks))
    ensures forall l :: l in VisitOrder(chunks) <==> HasLevel(chunks, l)
    ensures (forall l :: HasLevel(chunks, l) <==> HasLevel(others, l))
            ==> VisitOrder(chunks) == VisitOrder(others)
  {
    SortAscending(FirstSeen(chunks));
    SortAscending(FirstSeen(others));
    var v := VisitOrder(chunks);
    forall i, j | 0 <= i < j < |v|
      ensures v[i] != v[j]
    {
      if v[i] == v[j] {
        BelowIrreflexive(v[i]);
      }
    }
    if forall l :: HasLevel(chunks, l) <==> HasLevel(others, l) {
      AscendingUnique(v, VisitOrder(others));
    }
  }

  /// The character of a decimal digit.
  function Digit(d: nat): char
    requires d < 10
  {
    (48 + d) as char
  }

  predicate IsDigits(s: string)
  {
    forall i :: 0 <= i < |s| ==> '0' <= s[i] <= '9'
  }

  /// `str(n)` for a natural number.
  function Decimal(n: nat): (r: string)
    ensures r != [] && IsDigits(r)
  {
    if n < 10 then [Digit(n)] else Decimal(n / 10) + [Digit(n % 10)]
  }

  /// The value of a string of decimal digits (leading zeros allowed).
  function ParseDecimal(s: string): nat
    requires IsDigits(s)
  {
    if s == [] then 0 else 10 * ParseDecimal(s[..|s| - 1]) + (s[|s| - 1] as int - 48)
  }

  lemma {:induction false} DecimalRoundTrip(n: nat)
    ensures ParseDecimal(Decimal(n)) == n
  {
    if n >= 10 {
      var d := Decimal(n / 10) + [Digit(n % 10)];
      assert d[..|d| - 1] == Decimal(n / 10);
      DecimalRoundTrip(n / 10);
    }
  }

  /// A leading zero does not change the value.
  lemma {:induction false} LeadingZero(s: string)
    requires IsDigits(s)
    ensures ParseDecimal(['0'] + s) == ParseDecimal(s)
    decreases |s|
  {
    if s != [] {
      var t := ['0'] + s;
      assert t[..|t| - 1] == ['0'] + s[..|s| - 1];
      LeadingZero(s[..|s| - 1]);
    }
  }

  /// The first digit of `str(n)` is zero only for zero itself.
  lemma {:induction false} DecimalLeading(n: nat)
    ensures Decimal(n)[0] == '0' <==> n == 0
  {
    if n >= 10 {
      DecimalLeading(n / 10);
    }
  }

  /// `f"{n:02d}"`: the decimal digits of `n`, zero-padded to two.
  function Ordinal(n: nat): (r: string)
    ensures |r| >= 2 && IsDigits(r)
  {
    if n < 10 then ['0'] + Decimal(n) else Decimal(n)
  }

  /// The ordinal reads back as its number; it has a zero pad exactly when
  /// the number has one digit; it is exactly two characters wide exactly
  /// below one hundred.
  lemma OrdinalSpec(n: nat)
    ensures ParseDecimal(Ordinal(n)) == n
    ensures Ordinal(n)[0] == '0' <==> n < 10
    ensures |Ordinal(n)| == 2 <==> n < 100
  {
    DecimalRoundTrip(n);
    if n < 10 {
      LeadingZero(Decimal(n));
    } else {
      DecimalLeading(n);
      if n >= 100 {
        assert |Decimal(n / 10)| >= 2;
      }
    }
  }

  /// One row of a level's table: the ordinal, the merged front and the
  /// merged back, three columns.
  datatype Row = Row(ordinal: string, front: string, back: string)

  /// The rows `_fill_table_data` writes for one group.
  function Rows(chunks: seq<Chunk>): (r: seq<Row>)
    ensures |r| == |chunks|
  {
    seq(|chunks|, i requires 0 <= i < |chunks| => Row(Ordinal(i + 1), MergedFront(chunks[i]), MergedBack(chunks[i])))
  }

  /// Row `i` is numbered `i + 1`, at least two digits wide, and holds the
  /// merged front and merged back of the same record `i`.
  lemma RowsSpec(chunks: seq<Chunk>, i: nat)
    requires i < |chunks|
    ensures ParseDecimal(Rows(chunks)[i].ordinal) == i + 1 && |Rows(chunks)[i].ordinal| >= 2
    ensures Rows(chunks)[i].front == MergedFront(chunks[i]) && Rows(chunks)[i].back == MergedBack(chunks[i])
    ensures i == 0 ==> Rows(chunks)[i].ordinal == "01"
  {
    OrdinalSpec(i + 1);
  }

  /// A level heading and its table.
  datatype Table = Table(level: string, rows: seq<Row>)

  function TablesFor(chunks: seq<Chunk>, levels: seq<string>): (r: seq<Table>)
    ensures |r| == |levels|
    ensures forall k :: 0 <= k < |r| ==> r[k].level == levels[k]
  {
    if levels == [] then []
    else [Table(levels[0], Rows(Filter(chunks, levels[0])))] + TablesFor(chunks, levels[1..])
  }

  /// `generate_tables`: one table per level, in visiting order.
  function Tables(chunks: seq<Chunk>): (r: seq<Table>)
    ensures |r| == |VisitOrder(chunks)|
    ensures forall k :: 0 <= k < |r| ==> r[k].level == VisitOrder(chunks)[k] && HasLevel(chunks, r[k].level)
  {
    TablesFor(chunks, VisitOrder(chunks))
  }

  function TotalRows(tables: seq<Table>): nat
  {
    if tables == [] then 0 else |tables[0].rows| + TotalRows(tables[1..])
  }

  lemma {:induction false} TotalRowsFor(chunks: seq<Chunk>, levels: seq<string>)
    ensures TotalRows(TablesFor(chunks, levels)) == GroupSizes(chunks, levels)
  {
    if levels != [] {
      TotalRowsFor(chunks, levels[1..]);
    }
  }

  /// The tables are headed by the levels in visiting order (ascending, each
  /// once), each table holds exactly the records of its level, is non-empty
  /// and numbered from `01`.
  lemma TablesSpec(chunks: seq<Chunk>)
    ensures |Tables(chunks)| == |VisitOrder(chunks)|
    ensures forall k :: 0 <= k < |Tables(chunks)| ==>
              && Tables(chunks)[k].level == VisitOrder(chunks)[k]
              && Tables(chunks)[k].rows == Rows(Filter(chunks, VisitOrder(chunks)[k]))
              && Tables(chunks)[k].rows != [] && Tables(chunks)[k].rows[0].ordinal == "01"
  {
    var v := VisitOrder(chunks);
    forall k | 0 <= k < |v|
      ensures Tables(chunks)[k].rows == Rows(Filter(chunks, v[k]))
      ensures Tables(chunks)[k].rows != [] && Tables(chunks)[k].rows[0].ordinal == "01"
    {
      TableAt(chunks, v, k);
      FilterNonEmpty(chunks, v[k]);
      RowsSpec(Filter(chunks, v[k]), 0);
    }
  }

  /// Together the tables hold exactly one row per record.
  lemma TablesRowCount(chunks: seq<Chunk>)
    ensures TotalRows(Tables(chunks)) == |chunks|
  {
    var v := VisitOrder(chunks);
    VisitOrderSpec(chunks, chunks);
    TotalRowsFor(chunks, v);
    forall c | c in chunks
      ensures c.level in v
    {
      assert HasLevel(chunks, c.level);
    }
    Partition(chunks, v);
  }

  lemma {:induction false} TableAt(chunks: seq<Chunk>, levels: seq<string>, k: nat)
    requires k < |levels|
    ensures TablesFor(chunks, levels)[k] == Table(levels[k], Rows(Filter(chunks, levels[k])))
  {
    if k > 0 {
      TableAt(chunks, levels[1..], k - 1);
    }
  }
}
