/** TeslaFi's monthly files: rows grouped by the month of their date, and read back in date
    order. A directory is what each file name holds; cells are written and read unchanged. */
module TeslaFi {
  import opened Clock
  import opened Vehicle

  datatype Row = Row(date: string, cells: seq<string>)

  // A time zone as the date column needs it: the layout's parser and the calendar.
  datatype Zone = Zone(parse: string -> Option<Time>, month: Time -> nat, year: Time -> nat)

  type Directory = map<string, seq<Row>>

  function Decimal(n: nat): string {
    if n < 10 then [DIGITS[n]] else Decimal(n / 10) + [DIGITS[n % 10]]
  }

  const DIGITS := "0123456789"

  // No padding on either number, so short years can share a name across months.
  function FileName(z: Zone, t: Time): string {
    "TeslaFi" + Decimal(z.month(t)) + Decimal(z.year(t)) + ".csv"
  }

  predicate Matches(name: string) {
    |name| >= 11 && name[..7] == "TeslaFi" && name[|name| - 4..] == ".csv"
  }

  predicate Dated(z: Zone, r: Row) {
    z.parse(r.date).Some?
  }

  predicate AllDated(z: Zone, rows: seq<Row>) {
    forall r <- rows :: Dated(z, r)
  }

  // A date that does not parse sorts as the zero time.
  function When(z: Zone, r: Row): Time {
    if Dated(z, r) then z.parse(r.date).value else ZERO
  }

  function NameOf(z: Zone, r: Row): string {
    FileName(z, When(z, r))
  }

  // ---------- Writing ----------

  function InFile(z: Zone, rows: seq<Row>, name: string): seq<Row> {
    if rows == [] then []
    else
      var rest, r := InFile(z, rows[..|rows| - 1], name), rows[|rows| - 1];
      if NameOf(z, r) == name then rest + [r] else rest
  }

  predicate Grouped(z: Zone, rows: seq<Row>, files: Directory) {
    && (forall r <- rows :: NameOf(z, r) in files)
    && forall name <- files :: files[name] == InFile(z, rows, name) != []
  }

  // Groups by month, or names the first date that does not parse.
  method GroupByMonth(z: Zone, rows: seq<Row>) returns (byMonth: Directory, bad: Option<string>)
    ensures bad.None? ==> AllDated(z, rows) && Grouped(z, rows, byMonth)
    ensures bad.Some? ==> exists i :: 0 <= i < |rows| && bad.value == rows[i].date && !Dated(z, rows[i])
                                      && AllDated(z, rows[..i])
  {
    byMonth, bad := map[], None;
    for i := 0 to |rows|
      invariant AllDated(z, rows[..i]) && Grouped(z, rows[..i], byMonth)
    {
      var r := rows[i];
      var t := z.parse(r.date);
      if t.None? {
        return byMonth, Some(r.date);
      }
      var name := FileName(z, t.value);
      assert rows[..i + 1] == rows[..i] + [r];
      GroupOne(z, rows[..i], r, byMonth);
      byMonth := byMonth[name := (if name in byMonth then byMonth[name] else []) + [r]];
    }
    assert rows[..|rows|] == rows;
  }

  // One more row changes only its own month.
  lemma GroupOne(z: Zone, rows: seq<Row>, r: Row, files: Directory)
    requires Grouped(z, rows, files)
    ensures var name := NameOf(z, r);
            Grouped(z, rows + [r], files[name := (if name in files then files[name] else []) + [r]])
  {
    assert (rows + [r])[..|rows|] == rows;
    var name := NameOf(z, r);
    if name !in files {
      NoneInFile(z, rows, name);
    }
    var after := files[name := (if name in files then files[name] else []) + [r]];
    forall n <- after
      ensures after[n] == InFile(z, rows + [r], n) != []
    {
    }
  }

  lemma {:induction false} NoneInFile(z: Zone, rows: seq<Row>, name: string)
    requires forall q <- rows :: NameOf(z, q) != name
    ensures InFile(z, rows, name) == []
  {
    if rows != [] {
      NoneInFile(z, rows[..|rows| - 1], name);
    }
  }

  // Writes one file a month, in any order, and nothing at all when some date is bad.
  method WriteMonthly(dir: Directory, z: Zone, rows: seq<Row>) returns (after: Directory, bad: Option<string>)
    ensures bad.None? <==> AllDated(z, rows)
    ensures bad.Some? ==> after == dir
    ensures bad.None? ==> exists files :: Grouped(z, rows, files) && after == dir + files
  {
    var byMonth;
    byMonth, bad := GroupByMonth(z, rows);
    after := dir;
    if bad.Some? {
      return;
    }
    var left := byMonth.Keys;
    while left != {}
      invariant left <= byMonth.Keys
      invariant after == dir + (byMonth - left)
    {
      var name :| name in left;
      left := left - {name};
      after := after[name := byMonth[name]];
    }
    assert byMonth - left == byMonth;
  }

  // ---------- Reading ----------

  // The rows with one date, in order.
  function Alike(z: Zone, rows: seq<Row>, t: Time): seq<Row> {
    if rows == [] then []
    else
      var rest, r := Alike(z, rows[..|rows| - 1], t), rows[|rows| - 1];
      if When(z, r) == t then rest + [r] else rest
  }

  predicate Sorted(z: Zone, rows: seq<Row>) {
    forall i, j :: 0 <= i < j < |rows| ==> When(z, rows[i]) <= When(z, rows[j])
  }

  // What a stable sort promises: in date order, and rows of one date keep their order.
  ghost predicate StablySorts(z: Zone, rows: seq<Row>, sorted: seq<Row>) {
    Sorted(z, sorted) && forall t :: Alike(z, sorted, t) == Alike(z, rows, t)
  }

  // Puts a row behind every row not later than it.
  function Insert(z: Zone, sorted: seq<Row>, r: Row): seq<Row> {
    if sorted != [] && When(z, r) < When(z, sorted[|sorted| - 1])
    then Insert(z, sorted[..|sorted| - 1], r) + [sorted[|sorted| - 1]]
    else sorted + [r]
  }

  function StableSort(z: Zone, rows: seq<Row>): seq<Row> {
    if rows == [] then [] else Insert(z, StableSort(z, rows[..|rows| - 1]), rows[|rows| - 1])
  }

  lemma {:induction false} InsertIsSorted(z: Zone, sorted: seq<Row>, r: Row)
    requires Sorted(z, sorted)
    ensures Sorted(z, Insert(z, sorted, r))
    ensures forall q <- Insert(z, sorted, r) :: q == r || q in sorted
  {
    if sorted != [] && When(z, r) < When(z, sorted[|sorted| - 1]) {
      var front, last := sorted[..|sorted| - 1], sorted[|sorted| - 1];
      InsertIsSorted(z, front, r);
      forall q <- Insert(z, front, r)
        ensures When(z, q) <= When(z, last)
      {
      }
    }
  }

  // Moving past a later row changes no date's own order.
  lemma {:induction false} InsertIsStable(z: Zone, sorted: seq<Row>, r: Row, t: Time)
    ensures Alike(z, Insert(z, sorted, r), t) == Alike(z, sorted + [r], t)
  {
    AlikeSnoc(z, sorted, r, t);
    if sorted != [] && When(z, r) < When(z, sorted[|sorted| - 1]) {
      var front, last := sorted[..|sorted| - 1], sorted[|sorted| - 1];
      InsertIsStable(z, front, r, t);
      AlikeSnoc(z, front, r, t);
      AlikeSnoc(z, Insert(z, front, r), last, t);
    }
  }

  lemma AlikeSnoc(z: Zone, rows: seq<Row>, r: Row, t: Time)
    ensures Alike(z, rows + [r], t) == if When(z, r) == t then Alike(z, rows, t) + [r] else Alike(z, rows, t)
  {
    assert (rows + [r])[..|rows|] == rows;
  }

  lemma {:induction false} StableSortSorts(z: Zone, rows: seq<Row>)
    ensures StablySorts(z, rows, StableSort(z, rows))
  {
    if rows != [] {
      var front, last := rows[..|rows| - 1], rows[|rows| - 1];
      StableSortSorts(z, front);
      InsertIsSorted(z, StableSort(z, front), last);
      forall t
        ensures Alike(z, StableSort(z, rows), t) == Alike(z, rows, t)
      {
        InsertIsStable(z, StableSort(z, front), last, t);
        AlikeSnoc(z, StableSort(z, front), last, t);
      }
    }
  }

  // There is only one stable order, so which sorting algorithm the library uses is no matter.
  lemma {:induction false} StableOrderIsUnique(z: Zone, a: seq<Row>, b: seq<Row>)
    requires Sorted(z, a) && Sorted(z, b)
    requires forall t :: Alike(z, a, t) == Alike(z, b, t)
    ensures a == b
    decreases |a|
  {
    NoDates(z, a);
    NoDates(z, b);
    if a != [] {
      var a', b' := a[..|a| - 1], b[..|b| - 1];
      LatestDateIsLast(z, a, b);
      SameFronts(z, a, b, a', b');
      StableOrderIsUnique(z, a', b');
      assert a == a' + [a[|a| - 1]] && b == b' + [b[|b| - 1]];
    }
  }

  lemma NoDates(z: Zone, rows: seq<Row>)
    ensures rows == [] <==> forall t :: Alike(z, rows, t) == []
  {
    if rows != [] {
      var t := When(z, rows[|rows| - 1]);
      assert Alike(z, rows, t) != [];
    }
  }

  lemma LatestDateIsLast(z: Zone, a: seq<Row>, b: seq<Row>)
    requires Sorted(z, a) && Sorted(z, b) && a != [] && b != []
    requires forall t :: Alike(z, a, t) == Alike(z, b, t)
    ensures When(z, a[|a| - 1]) == When(z, b[|b| - 1])
  {
    var s, t := When(z, a[|a| - 1]), When(z, b[|b| - 1]);
    assert Alike(z, a, s) != [] && Alike(z, b, t) != [];
    AlikeMember(z, b, s);
    var i :| 0 <= i < |b| && When(z, b[i]) == s;
    assert When(z, b[i]) <= t;
    AlikeMember(z, a, t);
    var j :| 0 <= j < |a| && When(z, a[j]) == t;
    assert When(z, a[j]) <= s;
  }

  lemma SameFronts(z: Zone, a: seq<Row>, b: seq<Row>, a': seq<Row>, b': seq<Row>)
    requires a != [] && b != [] && When(z, a[|a| - 1]) == When(z, b[|b| - 1])
    requires a' == a[..|a| - 1] && b' == b[..|b| - 1]
    requires forall t :: Alike(z, a, t) == Alike(z, b, t)
    ensures a[|a| - 1] == b[|b| - 1]
    ensures forall u :: Alike(z, a', u) == Alike(z, b', u)
  {
    var t := When(z, a[|a| - 1]);
    var l, r := Alike(z, a, t), Alike(z, b, t);
    assert l[|l| - 1] == a[|a| - 1] && r[|r| - 1] == b[|b| - 1];
    assert l[..|l| - 1] == Alike(z, a', t) && r[..|r| - 1] == Alike(z, b', t);
    forall u
      ensures Alike(z, a', u) == Alike(z, b', u)
    {
      assert Alike(z, a, u) == Alike(z, b, u);
    }
  }

  lemma {:induction false} AlikeMember(z: Zone, rows: seq<Row>, t: Time)
    ensures Alike(z, rows, t) != [] ==> exists i :: 0 <= i < |rows| && When(z, rows[i]) == t
  {
    if rows != [] {
      AlikeMember(z, rows[..|rows| - 1], t);
    }
  }

  // Each matching file once, in some order.
  predicate Listing(dir: Directory, names: seq<string>) {
    && (forall i, j :: 0 <= i < j < |names| ==> names[i] != names[j])
    && (forall name <- names :: name in dir && Matches(name))
    && forall name <- dir :: Matches(name) ==> name in names
  }

  function AllRows(dir: Directory, names: seq<string>): seq<Row>
    requires forall name <- names :: name in dir
  {
    if names == [] then [] else AllRows(dir, names[..|names| - 1]) + dir[names[|names| - 1]]
  }

  // Files are read one after another, in the order listed, so rows of one date from two files
  // keep that order.
  lemma FilesAreReadInOrder(dir: Directory, names: seq<string>, name: string)
    requires forall n <- names :: n in dir
    requires name in dir
    ensures forall n <- names + [name] :: n in dir
    ensures AllRows(dir, names + [name]) == AllRows(dir, names) + dir[name]
    ensures AllRows(dir, []) == []
  {
    assert (names + [name])[..|names|] == names;
  }

  method ReadDir(dir: Directory, names: seq<string>, z: Zone) returns (all: seq<Row>)
    requires Listing(dir, names)
    ensures StablySorts(z, AllRows(dir, names), all)
  {
    all := [];
    for i := 0 to |names|
      invariant all == AllRows(dir, names[..i])
    {
      assert names[..i + 1][..i] == names[..i];
      all := all + dir[names[i]];
    }
    assert names[..|names|] == names;
    StableSortSorts(z, all);
    all := StableSort(z, all);
  }

  // ---------- Written and read back ----------

  // Rows of one date share a file, so the order in which files are read cannot matter.
  lemma {:induction false} DateIsInOneFile(z: Zone, rows: seq<Row>, name: string, t: Time)
    ensures Alike(z, InFile(z, rows, name), t) == if FileName(z, t) == name then Alike(z, rows, t) else []
  {
    if rows != [] {
      var front, last := rows[..|rows| - 1], rows[|rows| - 1];
      DateIsInOneFile(z, front, name, t);
      if NameOf(z, last) == name {
        AlikeSnoc(z, InFile(z, front, name), last, t);
      }
    }
  }

  lemma {:induction false} AlikeAppend(z: Zone, a: seq<Row>, b: seq<Row>, t: Time)
    ensures Alike(z, a + b, t) == Alike(z, a, t) + Alike(z, b, t)
  {
    if b == [] {
      assert a + b == a;
    } else {
      AlikeAppend(z, a, b[..|b| - 1], t);
      assert a + b == (a + b[..|b| - 1]) + [b[|b| - 1]];
      AlikeSnoc(z, a + b[..|b| - 1], b[|b| - 1], t);
    }
  }

  lemma {:induction false} ReadingFindsDate(z: Zone, rows: seq<Row>, files: Directory, names: seq<string>, t: Time)
    requires Grouped(z, rows, files) && forall name <- names :: name in files
    requires forall i, j :: 0 <= i < j < |names| ==> names[i] != names[j]
    ensures Alike(z, AllRows(files, names), t) == if FileName(z, t) in names then Alike(z, rows, t) else []
  {
    if names != [] {
      var front, last := names[..|names| - 1], names[|names| - 1];
      ReadingFindsDate(z, rows, files, front, t);
      AlikeAppend(z, AllRows(files, front), files[last], t);
      DateIsInOneFile(z, rows, last, t);
      assert FileName(z, t) in names <==> FileName(z, t) in front || FileName(z, t) == last;
    }
  }

  // Written into an empty directory, the rows come back as their stable order by date,
  // whatever order the files are listed in.
  lemma WrittenIsReadBack(z: Zone, rows: seq<Row>, files: Directory, names: seq<string>, read: seq<Row>)
    requires Grouped(z, rows, files) && Listing(files, names)
    requires StablySorts(z, AllRows(files, names), read)
    ensures read == StableSort(z, rows)
    ensures Sorted(z, rows) ==> read == rows
  {
    StableSortSorts(z, rows);
    forall t
      ensures Alike(z, read, t) == Alike(z, rows, t)
    {
      ReadingFindsDate(z, rows, files, names, t);
      AlikeMember(z, rows, t);
      if Alike(z, rows, t) != [] {
        var i :| 0 <= i < |rows| && When(z, rows[i]) == t;
        assert NameOf(z, rows[i]) in files;
        NamesMatch(z, t);
      }
    }
    StableOrderIsUnique(z, read, StableSort(z, rows));
    if Sorted(z, rows) {
      StableOrderIsUnique(z, rows, read);
    }
  }

  // Every file written is one the reader's pattern finds.
  lemma NamesMatch(z: Zone, t: Time)
    ensures Matches(FileName(z, t))
  {
    var digits := Decimal(z.month(t)) + Decimal(z.year(t));
    assert FileName(z, t) == "TeslaFi" + digits + ".csv";
  }

  // Writing what was read gives the same files, each in date order.
  lemma RewritingSortsFiles(z: Zone, rows: seq<Row>, name: string)
    ensures InFile(z, StableSort(z, rows), name) == StableSort(z, InFile(z, rows, name))
  {
    StableSortSorts(z, rows);
    StableSortSorts(z, InFile(z, rows, name));
    FilesKeepOrder(z, StableSort(z, rows), name);
    forall t
      ensures Alike(z, InFile(z, StableSort(z, rows), name), t) == Alike(z, StableSort(z, InFile(z, rows, name)), t)
    {
      DateIsInOneFile(z, StableSort(z, rows), name, t);
      DateIsInOneFile(z, rows, name, t);
    }
    StableOrderIsUnique(z, InFile(z, StableSort(z, rows), name), StableSort(z, InFile(z, rows, name)));
  }

  lemma {:induction false} FilesKeepOrder(z: Zone, rows: seq<Row>, name: string)
    requires Sorted(z, rows)
    ensures Sorted(z, InFile(z, rows, name)) && forall r <- InFile(z, rows, name) :: r in rows
  {
    if rows != [] {
      var front, last := rows[..|rows| - 1], rows[|rows| - 1];
      FilesKeepOrder(z, front, name);
      forall r <- InFile(z, front, name)
        ensures When(z, r) <= When(z, last)
      {
        assert r in front;
      }
    }
  }

  // ---------- One file a month ----------

  lemma {:induction false} DecimalLength(n: nat)
    ensures 1 <= |Decimal(n)|
    ensures n < 10 <==> |Decimal(n)| == 1
    ensures 10 <= n < 100 <==> |Decimal(n)| == 2
    ensures 100 <= n < 1000 <==> |Decimal(n)| == 3
    ensures 1000 <= n < 10000 <==> |Decimal(n)| == 4
  {
    if n >= 10 {
      DecimalLength(n / 10);
    }
  }

  lemma {:induction false} DecimalIsInjective(m: nat, n: nat)
    requires Decimal(m) == Decimal(n)
    ensures m == n
  {
    DecimalLength(m);
    DecimalLength(n);
    if m < 10 {
      DigitIsInjective(m, n);
    } else {
      var a, b := Decimal(m), Decimal(n);
      assert a[..|a| - 1] == Decimal(m / 10) && b[..|b| - 1] == Decimal(n / 10);
      DecimalIsInjective(m / 10, n / 10);
      assert a[|a| - 1] == DIGITS[m % 10] && b[|b| - 1] == DIGITS[n % 10];
      DigitIsInjective(m % 10, n % 10);
    }
  }

  lemma DigitIsInjective(i: nat, j: nat)
    requires i < 10 && j < 10 && DIGITS[i] == DIGITS[j]
    ensures i == j
  {
    assert forall k :: 0 <= k < 10 ==> DIGITS[k] as int == '0' as int + k;
  }

  // With a year of four digits, dates share a file exactly when they share year and month.
  lemma OneFileAMonth(z: Zone, t: Time, u: Time)
    requires 1000 <= z.year(t) <= 9999 && 1000 <= z.year(u) <= 9999
    ensures FileName(z, t) == FileName(z, u) <==> z.month(t) == z.month(u) && z.year(t) == z.year(u)
  {
    if FileName(z, t) == FileName(z, u) {
      var a, b := Decimal(z.month(t)), Decimal(z.month(u));
      var c, d := Decimal(z.year(t)), Decimal(z.year(u));
      DecimalLength(z.year(t));
      DecimalLength(z.year(u));
      var s, r := FileName(z, t), FileName(z, u);
      assert s == "TeslaFi" + a + c + ".csv" && r == "TeslaFi" + b + d + ".csv";
      assert s[7..7 + |a|] == a && s[7 + |a|..11 + |a|] == c;
      assert r[7..7 + |b|] == b && r[7 + |b|..11 + |b|] == d;
      DecimalIsInjective(z.month(t), z.month(u));
      DecimalIsInjective(z.year(t), z.year(u));
    }
  }

  // With shorter years they may not: December of year 1 and January of year 21.
  lemma ShortYearsCollide(z: Zone, t: Time, u: Time)
    requires z.month(t) == 12 && z.year(t) == 1 && z.month(u) == 1 && z.year(u) == 21
    ensures FileName(z, t) == FileName(z, u) == "TeslaFi121.csv"
  {
    assert Decimal(12) == Decimal(1) + "2" == "12" && Decimal(21) == Decimal(2) + "1" == "21";
  }
}
