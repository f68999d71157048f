/** The vessel list of src/components/VesselTable.tsx and the single-vessel
    panel of src/components/VesselDetails.tsx: live updates merged into the
    list by id, the search/filter/sort pipeline, the filter choices, the
    status badge colours, and the time-left and date labels. "Now" is a
    parameter (the ISO text `new Date().toISOString()` would give). */
module Vessels {
  import opened Strings
  import Socket

  /** A vessel record as the backend sends it (src/types/vessel.ts).
      Measures are exact reals; `timeLeftMinutes` is a whole number. */
  datatype Vessel = Vessel(
    id: string,
    name: string,
    vesselType: string,
    status: string,
    capacityTons: real,
    loadTons: real,
    loadType: string,
    arrivedFrom: string,
    arrivedTo: string,
    nextDestination: string,
    arrivalTime: string,
    timeLeftMinutes: int,
    color: string,
    lengthMeters: real,
    widthMeters: real,
    latitude: real,
    longitude: real,
    fuelConsumptionLitersPerHour: real,
    createdAt: string,
    updatedAt: string)

  function Ids(vs: seq<Vessel>): set<string> {
    set i | 0 <= i < |vs| :: vs[i].id
  }

  predicate UniqueIds(vs: seq<Vessel>) {
    forall i, j :: 0 <= i < j < |vs| ==> vs[i].id != vs[j].id
  }

  // ---------------------------------------------------------------------
  // Merging a live update

  /** `vessels.findIndex(v => v.id === id)`: the first position holding `id`,
      or -1. */
  function FindIndex(vs: seq<Vessel>, id: string): (i: int)
    ensures -1 <= i < |vs|
    ensures i == -1 <==> id !in Ids(vs)
    ensures 0 <= i ==> vs[i].id == id && forall j :: 0 <= j < i ==> vs[j].id != id
  {
    if vs == [] then -1
    else if vs[0].id == id then 0
    else
      var k := FindIndex(vs[1..], id);
      assert Ids(vs) == {vs[0].id} + Ids(vs[1..]) by {
        forall x | x in Ids(vs) ensures x in {vs[0].id} + Ids(vs[1..]) {
          var j :| 0 <= j < |vs| && vs[j].id == x;
          if j > 0 { assert vs[1..][j - 1].id == x; }
        }
      }
      if k == -1 then -1 else k + 1
  }

  /** `{...prev, ...incoming, createdAt: prev.createdAt, updatedAt: now}`:
      every field from the update except the two timestamps. */
  function Merge(prev: Vessel, incoming: Vessel, now: string): Vessel {
    incoming.(createdAt := prev.createdAt, updatedAt := now)
  }

  /** A vessel seen for the first time, stamped with `now` twice. */
  function Stamp(incoming: Vessel, now: string): Vessel {
    incoming.(createdAt := now, updatedAt := now)
  }

  /** The list after one `vesselData` event: an unknown id goes in front, a
      known id is overwritten where it stands. */
  function Upsert(vs: seq<Vessel>, incoming: Vessel, now: string): (r: seq<Vessel>)
    ensures |r| == if incoming.id in Ids(vs) then |vs| else |vs| + 1
    ensures Ids(r) == Ids(vs) + {incoming.id}
  {
    var i := FindIndex(vs, incoming.id);
    if i == -1 then
      var r := [Stamp(incoming, now)] + vs;
      assert Ids(r) == Ids(vs) + {incoming.id} by {
        forall x | x in Ids(r) ensures x in Ids(vs) + {incoming.id} {
          var j :| 0 <= j < |r| && r[j].id == x;
          if j > 0 { assert vs[j - 1].id == x; }
        }
        forall x | x in Ids(vs) ensures x in Ids(r) {
          var j :| 0 <= j < |vs| && vs[j].id == x;
          assert r[j + 1].id == x;
        }
        assert r[0].id == incoming.id;
      }
      r
    else
      var r := vs[i := Merge(vs[i], incoming, now)];
      assert Ids(r) == Ids(vs) by {
        forall x | x in Ids(r) ensures x in Ids(vs) {
          var j :| 0 <= j < |r| && r[j].id == x;
          assert vs[j].id == x;
        }
        forall x | x in Ids(vs) ensures x in Ids(r) {
          var j :| 0 <= j < |vs| && vs[j].id == x;
          assert r[j].id == x;
        }
      }
      r
  }

  /** An unseen id is prepended with both timestamps set to `now`; the old
      entries follow in their old order. */
  lemma UpsertUnseen(vs: seq<Vessel>, incoming: Vessel, now: string)
    requires incoming.id !in Ids(vs)
    ensures var r := Upsert(vs, incoming, now);
      |r| == |vs| + 1 && r[1..] == vs &&
      r[0] == incoming.(createdAt := now, updatedAt := now)
  {
  }

  /** A seen id keeps its place: the first entry holding it takes every
      incoming field but keeps its creation time and gets `now` as update
      time; all other entries, later ones with the same id included, are
      untouched. */
  lemma UpsertSeen(vs: seq<Vessel>, incoming: Vessel, now: string, i: nat)
    requires i < |vs| && vs[i].id == incoming.id
    requires forall j :: 0 <= j < i ==> vs[j].id != incoming.id
    ensures var r := Upsert(vs, incoming, now);
      && |r| == |vs|
      && r[i] == incoming.(createdAt := vs[i].createdAt, updatedAt := now)
      && forall j :: 0 <= j < |vs| && j != i ==> r[j] == vs[j]
  {
    assert FindIndex(vs, incoming.id) == i;
  }

  /** Re-sending a vessel never moves another vessel's creation time, nor its
      own: every old entry is found again, one place further down when the
      update was a new vessel, with its creation time. */
  lemma UpsertKeepsCreation(vs: seq<Vessel>, incoming: Vessel, now: string, i: nat)
    requires i < |vs|
    ensures var r := Upsert(vs, incoming, now);
      var j := if incoming.id in Ids(vs) then i else i + 1;
      r[j].id == vs[i].id && r[j].createdAt == vs[i].createdAt
  {
    if incoming.id in Ids(vs) {
      var k := FindIndex(vs, incoming.id);
      UpsertSeen(vs, incoming, now, k);
    }
  }

  /** A list the back end sent with a repeated id: only the first of the
      two entries takes the update. */
  lemma UpsertDuplicateIds(a: Vessel, b: Vessel, incoming: Vessel, now: string)
    requires a.id == incoming.id && b.id == incoming.id
    ensures Upsert([a, b], incoming, now) == [Merge(a, incoming, now), b]
  {
    UpsertSeen([a, b], incoming, now, 0);
  }

  /** Ids that were unique before an update are unique after it. */
  lemma UpsertKeepsIdsUnique(vs: seq<Vessel>, incoming: Vessel, now: string)
    requires UniqueIds(vs)
    ensures UniqueIds(Upsert(vs, incoming, now))
  {
    var r := Upsert(vs, incoming, now);
    var k := FindIndex(vs, incoming.id);
    if k == -1 {
      forall i, j | 0 <= i < j < |r| ensures r[i].id != r[j].id {
        if i == 0 {
          assert r[j].id == vs[j - 1].id;
          assert vs[j - 1].id in Ids(vs);
        } else {
          assert r[i] == vs[i - 1] && r[j] == vs[j - 1];
        }
      }
    }
  }

  // ---------------------------------------------------------------------
  // Search and filters

  /** The four drop-down filters; "" means "all". */
  datatype FilterState = FilterState(vesselType: string, status: string, loadType: string, arrivedTo: string)

  const NoFilters := FilterState("", "", "", "")

  datatype FilterKey = TypeKey | StatusKey | LoadTypeKey | ArrivedToKey

  /** The vessel field a filter key selects. */
  function FieldText(v: Vessel, key: FilterKey): string {
    match key
    case TypeKey => v.vesselType
    case StatusKey => v.status
    case LoadTypeKey => v.loadType
    case ArrivedToKey => v.arrivedTo
  }

  function FilterValue(f: FilterState, key: FilterKey): string {
    match key
    case TypeKey => f.vesselType
    case StatusKey => f.status
    case LoadTypeKey => f.loadType
    case ArrivedToKey => f.arrivedTo
  }

  /** `handleFilterChange(key, value)`: one filter changes, the others stay. */
  function SetFilter(f: FilterState, key: FilterKey, value: string): (g: FilterState)
    ensures FilterValue(g, key) == value
    ensures forall other :: other != key ==> FilterValue(g, other) == FilterValue(f, other)
  {
    match key
    case TypeKey => f.(vesselType := value)
    case StatusKey => f.(status := value)
    case LoadTypeKey => f.(loadType := value)
    case ArrivedToKey => f.(arrivedTo := value)
  }

  /** The search box matches on name or id, ignoring case. */
  predicate SearchMatch(v: Vessel, term: string) {
    term == "" || Includes(Lower(v.name), Lower(term)) || Includes(Lower(v.id), Lower(term))
  }

  predicate FilterMatch(v: Vessel, f: FilterState, key: FilterKey) {
    FilterValue(f, key) == "" || FieldText(v, key) == FilterValue(f, key)
  }

  /** The predicate of the `.filter(...)` step. */
  predicate Matches(v: Vessel, term: string, f: FilterState) {
    && SearchMatch(v, term)
    && FilterMatch(v, f, TypeKey)
    && FilterMatch(v, f, StatusKey)
    && FilterMatch(v, f, LoadTypeKey)
    && FilterMatch(v, f, ArrivedToKey)
  }

  function FilterVessels(vs: seq<Vessel>, term: string, f: FilterState): (r: seq<Vessel>)
    ensures |r| <= |vs|
    ensures forall i :: 0 <= i < |r| ==> r[i] in vs && Matches(r[i], term, f)
  {
    if vs == [] then []
    else (if Matches(vs[0], term, f) then [vs[0]] else []) + FilterVessels(vs[1..], term, f)
  }

  /** A vessel survives the filter exactly when it is in the list and matches
      the search term (on name or id, case-insensitively) and every
      non-empty filter. */
  lemma {:induction false} FilterKeepsExactlyMatches(vs: seq<Vessel>, term: string, f: FilterState, v: Vessel)
    ensures v in FilterVessels(vs, term, f) <==>
      v in vs &&
      (term == "" ||
       (exists i :: 0 <= i <= |v.name| && StartsWith(Lower(v.name)[i..], Lower(term))) ||
       (exists i :: 0 <= i <= |v.id| && StartsWith(Lower(v.id)[i..], Lower(term)))) &&
      forall key :: FilterValue(f, key) == "" || FieldText(v, key) == FilterValue(f, key)
  {
    IncludesIffOccurs(Lower(v.name), Lower(term));
    IncludesIffOccurs(Lower(v.id), Lower(term));
    FilterMembership(vs, term, f, v);
    assert Matches(v, term, f) <==> SearchMatch(v, term) && forall key :: FilterMatch(v, f, key);
  }

  lemma {:induction false} FilterMembership(vs: seq<Vessel>, term: string, f: FilterState, v: Vessel)
    ensures v in FilterVessels(vs, term, f) <==> v in vs && Matches(v, term, f)
  {
    if vs != [] {
      FilterMembership(vs[1..], term, f, v);
      assert vs == [vs[0]] + vs[1..];
    }
  }

  /** Filtering keeps the list's order: it distributes over concatenation. */
  lemma {:induction false} FilterAppend(a: seq<Vessel>, b: seq<Vessel>, term: string, f: FilterState)
    ensures FilterVessels(a + b, term, f) == FilterVessels(a, term, f) + FilterVessels(b, term, f)
  {
    if a == [] {
      assert a + b == b;
    } else {
      assert (a + b)[0] == a[0] && (a + b)[1..] == a[1..] + b;
      FilterAppend(a[1..], b, term, f);
      var h := if Matches(a[0], term, f) then [a[0]] else [];
      assert FilterVessels(a + b, term, f) == h + FilterVessels(a[1..] + b, term, f);
      assert FilterVessels(a, term, f) == h + FilterVessels(a[1..], term, f);
    }
  }

  /** With an empty search box and no filter chosen every vessel is shown. */
  lemma {:induction false} FilterNothingKeepsAll(vs: seq<Vessel>)
    ensures FilterVessels(vs, "", NoFilters) == vs
  {
    if vs != [] {
      FilterNothingKeepsAll(vs[1..]);
    }
  }

  // ---------------------------------------------------------------------
  // Sorting

  /** `keyof Vessel`: the column a sort is on. */
  datatype VesselField =
    | IdField | NameField | TypeField | StatusField | CapacityTonsField | LoadTonsField
    | LoadTypeField | ArrivedFromField | ArrivedToField | NextDestinationField
    | ArrivalTimeField | TimeLeftMinutesField | ColorField | LengthMetersField
    | WidthMetersField | LatitudeField | LongitudeField | FuelConsumptionField
    | CreatedAtField | UpdatedAtField

  datatype FieldValue = Text(text: string) | Number(number: real)

  function ValueOf(v: Vessel, field: VesselField): FieldValue {
    match field
    case IdField => Text(v.id)
    case NameField => Text(v.name)
    case TypeField => Text(v.vesselType)
    case StatusField => Text(v.status)
    case CapacityTonsField => Number(v.capacityTons)
    case LoadTonsField => Number(v.loadTons)
    case LoadTypeField => Text(v.loadType)
    case ArrivedFromField => Text(v.arrivedFrom)
    case ArrivedToField => Text(v.arrivedTo)
    case NextDestinationField => Text(v.nextDestination)
    case ArrivalTimeField => Text(v.arrivalTime)
    case TimeLeftMinutesField => Number(v.timeLeftMinutes as real)
    case ColorField => Text(v.color)
    case LengthMetersField => Number(v.lengthMeters)
    case WidthMetersField => Number(v.widthMeters)
    case LatitudeField => Number(v.latitude)
    case LongitudeField => Number(v.longitude)
    case FuelConsumptionField => Number(v.fuelConsumptionLitersPerHour)
    case CreatedAtField => Text(v.createdAt)
    case UpdatedAtField => Text(v.updatedAt)
  }

  datatype Direction = Asc | Desc

  /** The key the comparator orders by. Numbers are compared as they are;
      text (compared by parsed date or by `localeCompare`) is ordered by the
      rank `textRank` gives it. */
  function SortKey(v: Vessel, field: VesselField, textRank: string -> real): real {
    match ValueOf(v, field)
    case Number(x) => x
    case Text(s) => textRank(s)
  }

  /** `a` may come before `b` under the direction. */
  predicate InOrder(a: real, b: real, dir: Direction) {
    if dir == Asc then a <= b else a >= b
  }

  predicate SortedBy(vs: seq<Vessel>, key: Vessel -> real, dir: Direction) {
    forall i, j :: 0 <= i < j < |vs| ==> InOrder(key(vs[i]), key(vs[j]), dir)
  }

  /** Insert `x` before the first element it may precede. */
  function InsertBy(x: Vessel, vs: seq<Vessel>, key: Vessel -> real, dir: Direction): (r: seq<Vessel>)
    ensures multiset(r) == multiset(vs) + multiset{x}
    ensures |r| == |vs| + 1
  {
    if vs == [] then [x]
    else if InOrder(key(x), key(vs[0]), dir) then [x] + vs
    else
      var rest := InsertBy(x, vs[1..], key, dir);
      assert vs == [vs[0]] + vs[1..];
      [vs[0]] + rest
  }

  /** A stable sort of `vs` by `key` in direction `dir` (the
      `.sort((a, b) => ...)` step). */
  function SortBy(vs: seq<Vessel>, key: Vessel -> real, dir: Direction): (r: seq<Vessel>)
    ensures multiset(r) == multiset(vs)
    ensures |r| == |vs|
  {
    if vs == [] then []
    else
      assert vs == [vs[0]] + vs[1..];
      InsertBy(vs[0], SortBy(vs[1..], key, dir), key, dir)
  }

  lemma {:induction false} InsertByHead(x: Vessel, vs: seq<Vessel>, key: Vessel -> real, dir: Direction)
    ensures var r := InsertBy(x, vs, key, dir);
      r[0] == x || (vs != [] && r[0] == vs[0])
  {
  }

  lemma {:induction false} InsertBySorted(x: Vessel, vs: seq<Vessel>, key: Vessel -> real, dir: Direction)
    requires SortedBy(vs, key, dir)
    ensures SortedBy(InsertBy(x, vs, key, dir), key, dir)
  {
    if vs != [] && !InOrder(key(x), key(vs[0]), dir) {
      var rest := InsertBy(x, vs[1..], key, dir);
      InsertBySorted(x, vs[1..], key, dir);
      InsertByHead(x, vs[1..], key, dir);
      var r := [vs[0]] + rest;
      forall i, j | 0 <= i < j < |r| ensures InOrder(key(r[i]), key(r[j]), dir) {
        if i == 0 {
          assert r[j] in multiset(rest);
          assert r[j] == x || r[j] in vs[1..];
          if r[j] != x {
            var k :| 0 <= k < |vs[1..]| && vs[1..][k] == r[j];
            assert vs[k + 1] == r[j];
          }
        }
      }
    }
  }

  /** The sorted list is a permutation of its input, in order for the
      direction: non-decreasing keys for "asc", non-increasing for "desc". */
  lemma {:induction false} SortByCorrect(vs: seq<Vessel>, key: Vessel -> real, dir: Direction)
    ensures multiset(SortBy(vs, key, dir)) == multiset(vs)
    ensures SortedBy(SortBy(vs, key, dir), key, dir)
  {
    if vs != [] {
      SortByCorrect(vs[1..], key, dir);
      InsertBySorted(vs[0], SortBy(vs[1..], key, dir), key, dir);
    }
  }

  /** The rows shown: the filtered vessels, sorted on the current column. */
  function Visible(vs: seq<Vessel>, term: string, f: FilterState, field: VesselField, dir: Direction,
                   textRank: string -> real): seq<Vessel>
  {
    SortBy(FilterVessels(vs, term, f), v => SortKey(v, field, textRank), dir)
  }

  /** The shown rows are exactly the matching vessels, each as often as in
      the list, in order for the chosen column and direction. */
  lemma VisibleCorrect(vs: seq<Vessel>, term: string, f: FilterState, field: VesselField, dir: Direction,
                       textRank: string -> real)
    ensures var r := Visible(vs, term, f, field, dir, textRank);
      && multiset(r) == multiset(FilterVessels(vs, term, f))
      && (forall v :: v in r <==> v in vs && Matches(v, term, f))
      && forall i, j :: 0 <= i < j < |r| ==>
           InOrder(SortKey(r[i], field, textRank), SortKey(r[j], field, textRank), dir)
  {
    var key := v => SortKey(v, field, textRank);
    SortByCorrect(FilterVessels(vs, term, f), key, dir);
    forall v ensures v in Visible(vs, term, f, field, dir, textRank) <==> v in vs && Matches(v, term, f) {
      FilterMembership(vs, term, f, v);
      assert v in multiset(FilterVessels(vs, term, f)) <==> v in FilterVessels(vs, term, f);
    }
  }

  /** `handleSort(field)`: the current column flips direction; another
      column becomes current, descending. */
  function NextSort(current: VesselField, dir: Direction, clicked: VesselField): (r: (VesselField, Direction))
    ensures r.0 == clicked
    ensures clicked == current ==> r.1 != dir
    ensures clicked != current ==> r.1 == Desc
  {
    if clicked == current then (current, if dir == Asc then Desc else Asc)
    else (clicked, Desc)
  }

  /** Clicking the same column twice restores the direction. */
  lemma NextSortTwice(current: VesselField, dir: Direction)
    ensures NextSort(current, NextSort(current, dir, current).1, current) == (current, dir)
  {
  }

  // ---------------------------------------------------------------------
  // Filter choices: `Array.from(new Set(values)).sort()`

  /** Where a character stands in the default `sort()` order, which compares
      UTF-16 code units: characters below U+D800 first, then every character
      above U+FFFF (their encodings start with a high surrogate, 0xD800 to
      0xDBFF), and U+E000 to U+FFFF last. */
  function CodeUnitRank(c: char): (r: int)
    ensures c as int < 0xD800 ==> r == c as int
    ensures 0xE000 <= c as int <= 0xFFFF ==> r > 0x10FFFF
    ensures c as int > 0xFFFF ==> 0xD800 <= r <= 0x10FFFF
  {
    if c as int < 0xD800 then c as int
    else if c as int <= 0xFFFF then c as int + 0x200000
    else c as int
  }

  /** The default `sort()` order on strings, a proper prefix first. */
  predicate TextLess(a: string, b: string)
    decreases |a|
  {
    |b| > 0 && (|a| == 0 || CodeUnitRank(a[0]) < CodeUnitRank(b[0])
      || (a[0] == b[0] && TextLess(a[1..], b[1..])))
  }

  /** The UTF-16 encoding of one character. */
  function Utf16(c: char): (u: seq<int>)
    ensures |u| == 1 || |u| == 2
  {
    if c as int <= 0xFFFF then [c as int]
    else [0xD800 + (c as int - 0x10000) / 0x400, 0xDC00 + (c as int - 0x10000) % 0x400]
  }

  function Utf16String(s: string): seq<int> {
    if s == [] then [] else Utf16(s[0]) + Utf16String(s[1..])
  }

  /** JavaScript's `<` on strings: code unit by code unit, a proper prefix first. */
  predicate UnitsLess(u: seq<int>, v: seq<int>)
    decreases |u|
  {
    |v| > 0 && (|u| == 0 || u[0] < v[0] || (u[0] == v[0] && UnitsLess(u[1..], v[1..])))
  }

  lemma {:induction false} UnitsLessCommonPrefix(p: seq<int>, x: seq<int>, y: seq<int>)
    ensures UnitsLess(p + x, p + y) == UnitsLess(x, y)
  {
    if p != [] {
      assert (p + x)[1..] == p[1..] + x && (p + y)[1..] == p[1..] + y;
      UnitsLessCommonPrefix(p[1..], x, y);
    } else {
      assert p + x == x && p + y == y;
    }
  }

  /** Two different characters decide the comparison of their encodings,
      whatever follows them, and they decide it by their rank. */
  lemma FirstCharDecides(c: char, d: char, x: seq<int>, y: seq<int>)
    requires c != d
    ensures UnitsLess(Utf16(c) + x, Utf16(d) + y) == (CodeUnitRank(c) < CodeUnitRank(d))
  {
    var u, v := Utf16(c) + x, Utf16(d) + y;
    var cv, dv := c as int, d as int;
    assert u[0] == Utf16(c)[0] && v[0] == Utf16(d)[0];
    if cv > 0xFFFF && dv > 0xFFFF {
      var qc, rc := (cv - 0x10000) / 0x400, (cv - 0x10000) % 0x400;
      var qd, rd := (dv - 0x10000) / 0x400, (dv - 0x10000) % 0x400;
      assert cv == 0x10000 + 0x400 * qc + rc && 0 <= rc < 0x400;
      assert dv == 0x10000 + 0x400 * qd + rd && 0 <= rd < 0x400;
      if qc == qd {
        assert u[1..][0] == 0xDC00 + rc && v[1..][0] == 0xDC00 + rd;
        assert rc != rd;
      } else if qc < qd {
        assert 0x400 * qc + 0x400 <= 0x400 * qd;
      } else {
        assert 0x400 * qd + 0x400 <= 0x400 * qc;
      }
    }
  }

  /** `TextLess` is exactly JavaScript's comparison of the two strings'
      UTF-16 encodings. */
  lemma {:induction false} TextLessIsCodeUnitOrder(a: string, b: string)
    ensures TextLess(a, b) <==> UnitsLess(Utf16String(a), Utf16String(b))
    decreases |a|
  {
    if a == [] || b == [] {
      if b != [] {
        assert |Utf16String(b)| > 0;
      }
    } else if a[0] == b[0] {
      UnitsLessCommonPrefix(Utf16(a[0]), Utf16String(a[1..]), Utf16String(b[1..]));
      TextLessIsCodeUnitOrder(a[1..], b[1..]);
    } else {
      FirstCharDecides(a[0], b[0], Utf16String(a[1..]), Utf16String(b[1..]));
    }
  }

  /** A full-width exclamation mark (U+FF01) sorts after an emoji (U+1F600),
      although its code point is smaller. */
  lemma EmojiBeforeFullWidth()
    ensures TextLess("\U{1F600}", "\U{FF01}")
    ensures !TextLess("\U{FF01}", "\U{1F600}")
  {
  }

  lemma {:induction false} TextLessIrreflexive(a: string)
    ensures !TextLess(a, a)
  {
    if |a| > 0 {
      TextLessIrreflexive(a[1..]);
    }
  }

  lemma {:induction false} TextLessTransitive(a: string, b: string, c: string)
    requires TextLess(a, b) && TextLess(b, c)
    ensures TextLess(a, c)
  {
    if |a| > 0 && a[0] == b[0] && b[0] == c[0] {
      TextLessTransitive(a[1..], b[1..], c[1..]);
    }
  }

  lemma {:induction false} TextLessTotal(a: string, b: string)
    requires a != b
    ensures TextLess(a, b) || TextLess(b, a)
  {
    if |a| > 0 && |b| > 0 && a[0] == b[0] {
      assert a == [a[0]] + a[1..] && b == [b[0]] + b[1..];
      TextLessTotal(a[1..], b[1..]);
    }
  }

  predicate StrictlySorted(s: seq<string>) {
    forall i, j :: 0 <= i < j < |s| ==> TextLess(s[i], s[j])
  }

  /** Add `x` to a strictly sorted list unless it is already there. */
  function InsertUnique(x: string, s: seq<string>): (r: seq<string>)
    ensures forall y :: y in r <==> y in s || y == x
  {
    if s == [] then [x]
    else if x == s[0] then s
    else if TextLess(x, s[0]) then [x] + s
    else
      assert s == [s[0]] + s[1..];
      [s[0]] + InsertUnique(x, s[1..])
  }

  lemma {:induction false} InsertUniqueSorted(x: string, s: seq<string>)
    requires StrictlySorted(s)
    ensures StrictlySorted(InsertUnique(x, s))
  {
    if s == [] || x == s[0] {
    } else if TextLess(x, s[0]) {
      var r := [x] + s;
      forall i, j | 0 <= i < j < |r| ensures TextLess(r[i], r[j]) {
        if i == 0 && j > 1 { TextLessTransitive(x, s[0], s[j - 1]); }
      }
    } else {
      TextLessTotal(x, s[0]);
      var rest := InsertUnique(x, s[1..]);
      InsertUniqueSorted(x, s[1..]);
      var r := [s[0]] + rest;
      forall i, j | 0 <= i < j < |r| ensures TextLess(r[i], r[j]) {
        if i == 0 {
          assert r[j] in rest;
          assert r[j] == x || r[j] in s[1..];
        }
      }
    }
  }

  /** The values of one filter column, deduplicated and sorted. */
  function UniqueValues(vs: seq<Vessel>, key: FilterKey): (r: seq<string>)
    ensures StrictlySorted(r)
  {
    if vs == [] then []
    else
      var rest := UniqueValues(vs[1..], key);
      InsertUniqueSorted(FieldText(vs[0], key), rest);
      InsertUnique(FieldText(vs[0], key), rest)
  }

  /** The choices offered for a filter are free of duplicates and exactly
      the values that column takes in the list. */
  lemma {:induction false} UniqueValuesCorrect(vs: seq<Vessel>, key: FilterKey)
    ensures forall i, j :: 0 <= i < j < |UniqueValues(vs, key)| ==>
      UniqueValues(vs, key)[i] != UniqueValues(vs, key)[j]
    ensures forall x :: x in UniqueValues(vs, key) <==> exists v :: v in vs && FieldText(v, key) == x
  {
    if vs != [] {
      UniqueValuesCorrect(vs[1..], key);
      forall x ensures x in UniqueValues(vs, key) <==> exists v :: v in vs && FieldText(v, key) == x {
        if x in UniqueValues(vs, key) && x != FieldText(vs[0], key) {
          var v :| v in vs[1..] && FieldText(v, key) == x;
          assert v in vs;
        }
        if exists v :: v in vs && FieldText(v, key) == x {
          var v :| v in vs && FieldText(v, key) == x;
          if v != vs[0] {
            assert v in vs[1..];
          }
        }
      }
    }
    var r := UniqueValues(vs, key);
    forall i, j | 0 <= i < j < |r| ensures r[i] != r[j] {
      if r[i] == r[j] { TextLessIrreflexive(r[i]); }
    }
  }

  // ---------------------------------------------------------------------
  // Status badge

  const DefaultStatusColor := "bg-gray-100 text-gray-800"

  const StatusColors: map<string, string> := map[
    "Docked" := "bg-green-100 text-green-800",
    "Anchored" := "bg-blue-100 text-blue-800",
    "In Transit" := "bg-purple-100 text-purple-800",
    "Loading" := "bg-yellow-100 text-yellow-800",
    "Unloading" := "bg-orange-100 text-orange-800"]

  /** `getStatusColor(status)`: the status's badge classes, grey otherwise. */
  function StatusColor(status: string): (c: string)
    ensures status in StatusColors ==> c == StatusColors[status]
    ensures status !in StatusColors ==> c == DefaultStatusColor
  {
    if status in StatusColors then StatusColors[status] else DefaultStatusColor
  }

  /** The five known statuses get five different badges, none of them grey,
      so the badge tells the status apart. */
  lemma StatusColorDistinguishes(a: string, b: string)
    requires a in StatusColors && a != b
    ensures StatusColor(a) != StatusColor(b)
    ensures StatusColor(a) != DefaultStatusColor
  {
  }

  // ---------------------------------------------------------------------
  // Time-left label

  /** JavaScript `a % b` for `b > 0`: the remainder takes the sign of `a`. */
  function TruncRem(a: int, b: int): (r: int)
    requires b > 0
    ensures a >= 0 ==> 0 <= r < b
    ensures a < 0 ==> -b < r <= 0
    ensures a == b * (if a >= 0 then a / b else -((-a) / b)) + r
  {
    if a >= 0 then a % b else -((-a) % b)
  }

  /** `${hours}h ${mins}m` */
  function RenderTimeLeft(hours: int, mins: int): string {
    IntToString(hours) + "h " + IntToString(mins) + "m"
  }

  /** Reads a `"{h}h {m}m"` label back into its two numbers. */
  function ParseTimeLeft(s: string): Option<(int, int)> {
    match IndexOf(s, 'h')
    case None => None
    case Some(k) =>
      if k + 2 < |s| && s[k + 1] == ' ' && s[|s| - 1] == 'm' then
        match (ParseInt(s[..k]), ParseInt(s[k + 2..|s| - 1]))
        case (Some(h), Some(m)) => Some((h, m))
        case _ => None
      else None
  }

  /** Every rendered label reads back as the two numbers it was made of. */
  lemma TimeLeftRoundTrip(hours: int, mins: int)
    ensures ParseTimeLeft(RenderTimeLeft(hours, mins)) == Some((hours, mins))
  {
    var hs, ms := IntToString(hours), IntToString(mins);
    var s := RenderTimeLeft(hours, mins);
    assert s == hs + ['h', ' '] + ms + ['m'];
    forall k | 0 <= k < |hs| ensures s[k] != 'h' {
      IntToStringChars(hours, k);
    }
    assert IndexOf(s, 'h') == Some(|hs|);
    assert s[..|hs|] == hs;
    assert s[|hs| + 2..|s| - 1] == ms;
    IntRoundTrip(hours);
    IntRoundTrip(mins);
  }

  /** `formatTimeLeft(minutes)` as written: `Math.floor(minutes / 60)` hours
      and `minutes % 60` minutes; `None` stands for a value that is not a
      number (or NaN). */
  function FormatTimeLeft(minutes: Option<int>): (r: string)
    ensures minutes.None? <==> r == "N/A"
    ensures minutes.Some? ==> var p := ParseTimeLeft(r);
      && p.Some? && p.value.0 == minutes.value / 60
      && -60 < p.value.1 < 60 && p.value.1 == minutes.value - 60 * (if minutes.value >= 0 then minutes.value / 60 else -((-minutes.value) / 60))
  {
    match minutes
    case None => "N/A"
    case Some(m) =>
      TimeLeftRoundTrip(m / 60, TruncRem(m, 60));
      RenderTimeLeft(m / 60, TruncRem(m, 60))
  }

  /** For a non-negative count the label splits it into whole hours and
      0 to 59 remaining minutes. */
  lemma FormatTimeLeftNonNegative(m: int)
    requires m >= 0
    ensures var p := ParseTimeLeft(FormatTimeLeft(Some(m)));
      p.Some? && p.value.0 * 60 + p.value.1 == m && 0 <= p.value.1 < 60
  {
    TimeLeftRoundTrip(m / 60, TruncRem(m, 60));
  }

  /** For a negative count that is not a whole number of hours the label is
      an hour off: flooring the hours and truncating the minutes disagree,
      so -1 prints as "-1h -1m", which reads as -61 minutes. */
  lemma FormatTimeLeftNegativeOffByAnHour(m: int)
    requires m < 0 && m % 60 != 0
    ensures var p := ParseTimeLeft(FormatTimeLeft(Some(m)));
      p.Some? && p.value.0 * 60 + p.value.1 == m - 60
  {
    NegativeSplit(m);
    TimeLeftRoundTrip(m / 60, TruncRem(m, 60));
  }

  /** The smallest witness: one minute overdue prints as "-1h -1m". */
  lemma FormatTimeLeftMinusOne()
    ensures FormatTimeLeft(Some(-1)) == "-1h -1m"
    ensures ParseTimeLeft(FormatTimeLeft(Some(-1))) == Some((-1, -1))
  {
    assert -1 / 60 == -1 && TruncRem(-1, 60) == -1;
    assert NatToDecimal(1) == "1";
    assert IntToString(-1) == "-1";
    TimeLeftRoundTrip(-1, -1);
  }

  lemma NegativeSplit(m: int)
    requires m < 0 && m % 60 != 0
    ensures (m / 60) * 60 + TruncRem(m, 60) == m - 60
  {
    var q, e := m / 60, m % 60;
    assert m == 60 * q + e && 0 < e < 60;
    var n := -m;
    assert n == 60 * (-q - 1) + (60 - e);
    assert n % 60 == 60 - e && n / 60 == -q - 1 by {
      LemmaDivModUnique(n, 60, -q - 1, 60 - e);
    }
  }

  lemma LemmaDivModUnique(n: int, d: int, q: int, r: int)
    requires d > 0 && 0 <= r < d && n == d * q + r
    ensures n / d == q && n % d == r
  {
    var q', r' := n / d, n % d;
    assert n == d * q' + r' && 0 <= r' < d;
    if q' > q {
      assert d * q' >= d * (q + 1) by { LemmaMulMono(d, q + 1, q'); }
    } else if q' < q {
      assert d * q >= d * (q' + 1) by { LemmaMulMono(d, q' + 1, q); }
    }
  }

  lemma LemmaMulMono(d: int, a: int, b: int)
    requires d > 0 && a <= b
    ensures d * a <= d * b
  {
    assert d * b - d * a == d * (b - a);
  }

  /** The label with the minutes taken as the floored remainder, so that
      hours and minutes always add back up to the count. */
  function FormatTimeLeftFloored(minutes: Option<int>): string {
    match minutes
    case None => "N/A"
    case Some(m) => RenderTimeLeft(m / 60, m % 60)
  }

  /** For every whole count, negative ones included, the corrected label
      reads back as hours and 0 to 59 minutes that add up to the count, and
      on non-negative counts it prints what the original prints. */
  lemma FormatTimeLeftFlooredCorrect(m: int)
    ensures var p := ParseTimeLeft(FormatTimeLeftFloored(Some(m)));
      p.Some? && p.value.0 * 60 + p.value.1 == m && 0 <= p.value.1 < 60
    ensures m >= 0 ==> FormatTimeLeftFloored(Some(m)) == FormatTimeLeft(Some(m))
  {
    TimeLeftRoundTrip(m / 60, m % 60);
  }

  // ---------------------------------------------------------------------
  // Date label

  /** `formatDate(dateString)`: "N/A" for a missing or empty string,
      "Invalid Date" when parsing yields no time, otherwise the rendering.
      Parsing and locale rendering are the parameters `parse` and `render`. */
  function FormatDate(dateString: Option<string>, parse: string -> Option<int>, render: int -> string): (r: string)
    ensures dateString.None? || dateString == Some("") ==> r == "N/A"
    ensures dateString.Some? && dateString.value != "" && parse(dateString.value).None? ==> r == "Invalid Date"
    ensures dateString.Some? && dateString.value != "" && parse(dateString.value).Some? ==>
      r == render(parse(dateString.value).value)
  {
    if dateString.None? || dateString.value == "" then "N/A"
    else match parse(dateString.value)
      case None => "Invalid Date"
      case Some(t) => render(t)
  }

  // ---------------------------------------------------------------------
  // The list component

  /** What the initial fetch of all vessels returns. */
  datatype FetchResult = FetchResult(vessels: seq<Vessel>, error: Option<string>)

  /** `error || "Connection lost"` */
  function ConnectionErrorText(error: Option<string>): (t: string)
    ensures t != ""
    ensures error.Some? && error.value != "" ==> t == error.value
    ensures error.None? || error.value == "" ==> t == "Connection lost"
  {
    if error.Some? && error.value != "" then error.value else "Connection lost"
  }

  /** The state of the vessel table. */
  class VesselTable {
    var vessels: seq<Vessel>
    var searchTerm: string
    var sortField: VesselField
    var sortDirection: Direction
    var connectionError: Option<string>
    var isLoading: bool
    var selectedVessel: Option<Vessel>
    var filters: FilterState

    constructor ()
      ensures vessels == [] && searchTerm == "" && sortField == CreatedAtField && sortDirection == Desc
      ensures connectionError.None? && isLoading && selectedVessel.None? && filters == NoFilters
    {
      vessels := [];
      searchTerm := "";
      sortField := CreatedAtField;
      sortDirection := Desc;
      connectionError := None;
      isLoading := true;
      selectedVessel := None;
      filters := NoFilters;
    }

    /** The error page replaces the table while an error message is set. */
    predicate ShowsError()
      reads this
    {
      connectionError.Some? && connectionError.value != ""
    }

    /** The rows the table shows, for a given ordering of text values. */
    function Rows(textRank: string -> real): seq<Vessel>
      reads this
    {
      Visible(vessels, searchTerm, filters, sortField, sortDirection, textRank)
    }

    /** `getUniqueValues(field)` */
    function Choices(key: FilterKey): seq<string>
      reads this
    {
      UniqueValues(vessels, key)
    }

    /** `loadInitialData`: keeps the fetched list, or the error, then stops loading. */
    method LoadInitialData(result: FetchResult)
      modifies this
      ensures !isLoading
      ensures result.error.Some? && result.error.value != "" ==>
        connectionError == result.error && vessels == old(vessels)
      ensures !(result.error.Some? && result.error.value != "") ==>
        vessels == result.vessels && connectionError == old(connectionError)
      ensures searchTerm == old(searchTerm) && filters == old(filters) && selectedVessel == old(selectedVessel)
      ensures sortField == old(sortField) && sortDirection == old(sortDirection)
    {
      isLoading := true;
      if result.error.Some? && result.error.value != "" {
        connectionError := result.error;
      } else {
        vessels := result.vessels;
      }
      isLoading := false;
    }

    /** `handleVesselData`: merges the update into the list (and into the
        selected vessel when it is the one updated) and clears the error. */
    method HandleVesselData(incoming: Vessel, now: string)
      modifies this
      ensures vessels == Upsert(old(vessels), incoming, now)
      ensures old(selectedVessel).Some? && old(selectedVessel).value.id == incoming.id ==>
        selectedVessel == Some(Merge(old(selectedVessel).value, incoming, now))
      ensures !(old(selectedVessel).Some? && old(selectedVessel).value.id == incoming.id) ==>
        selectedVessel == old(selectedVessel)
      ensures connectionError.None?
      ensures searchTerm == old(searchTerm) && filters == old(filters) && isLoading == old(isLoading)
      ensures sortField == old(sortField) && sortDirection == old(sortDirection)
    {
      var index := FindIndex(vessels, incoming.id);
      if index == -1 {
        vessels := [Stamp(incoming, now)] + vessels;
      } else {
        var newVessels := vessels;
        newVessels := newVessels[index := Merge(newVessels[index], incoming, now)];
        vessels := newVessels;
      }
      if selectedVessel.Some? && selectedVessel.value.id == incoming.id {
        selectedVessel := Some(Merge(selectedVessel.value, incoming, now));
      }
      connectionError := None;
    }

    /** `checkConnection`: a disconnected service sets the error text. */
    method CheckConnection(status: Socket.ConnectionStatus)
      modifies this
      ensures !status.isConnected ==> connectionError == Some(ConnectionErrorText(status.error)) && ShowsError()
      ensures status.isConnected ==> connectionError == old(connectionError)
      ensures vessels == old(vessels) && searchTerm == old(searchTerm) && filters == old(filters)
      ensures selectedVessel == old(selectedVessel) && isLoading == old(isLoading)
      ensures sortField == old(sortField) && sortDirection == old(sortDirection)
    {
      if !status.isConnected {
        connectionError := Some(ConnectionErrorText(status.error));
      }
    }

    /** The table's `connect` handler clears the error. */
    method HandleConnect()
      modifies this`connectionError
      ensures connectionError.None? && !ShowsError()
    {
      connectionError := None;
    }

    /** `handleSort(field)` */
    method HandleSort(field: VesselField)
      modifies this`sortField, this`sortDirection
      ensures (sortField, sortDirection) == NextSort(old(sortField), old(sortDirection), field)
    {
      if field == sortField {
        sortDirection := if sortDirection == Asc then Desc else Asc;
      } else {
        sortField := field;
        sortDirection := Desc;
      }
    }

    /** `handleFilterChange(key, value)` */
    method HandleFilterChange(key: FilterKey, value: string)
      modifies this`filters
      ensures filters == SetFilter(old(filters), key, value)
    {
      filters := SetFilter(filters, key, value);
    }

    method SetSearchTerm(term: string)
      modifies this`searchTerm
      ensures searchTerm == term
    {
      searchTerm := term;
    }

    /** `handleVesselSelect` / `handleCloseDetails` */
    method SelectVessel(v: Option<Vessel>)
      modifies this`selectedVessel
      ensures selectedVessel == v
    {
      selectedVessel := v;
    }
  }

  // ---------------------------------------------------------------------
  // The details panel

  /** The state of the details panel for one vessel. */
  class VesselDetails {
    var vessel: Vessel

    constructor (initial: Vessel)
      ensures vessel == initial
    {
      vessel := initial;
    }

    /** `handleVesselUpdate`: only an update for the shown vessel's id is
        merged; it keeps the creation time and stamps the update time. */
    method HandleVesselUpdate(incoming: Vessel, now: string)
      modifies this
      ensures incoming.id != old(vessel).id ==> vessel == old(vessel)
      ensures incoming.id == old(vessel).id ==> vessel == Merge(old(vessel), incoming, now)
      ensures vessel.id == old(vessel).id && vessel.createdAt == old(vessel).createdAt
    {
      if incoming.id == vessel.id {
        vessel := Merge(vessel, incoming, now);
      }
    }
  }

  /** An update accepted by the details panel takes the incoming fields,
      keeps the id and the creation time, and stamps `now`. */
  lemma MergeForSameId(prev: Vessel, incoming: Vessel, now: string)
    requires incoming.id == prev.id
    ensures var m := Merge(prev, incoming, now);
      && m.id == prev.id && m.createdAt == prev.createdAt && m.updatedAt == now
      && m.(createdAt := incoming.createdAt, updatedAt := incoming.updatedAt) == incoming
  {
  }

  /** The table row and the details panel agree after the same update: when
      the panel shows the vessel at position `i` of a list with unique ids,
      both end up with the same record. */
  lemma TableAndDetailsAgree(vs: seq<Vessel>, i: nat, incoming: Vessel, now: string)
    requires i < |vs| && UniqueIds(vs)
    ensures var shown := if incoming.id == vs[i].id then Merge(vs[i], incoming, now) else vs[i];
      var j := if incoming.id in Ids(vs) then i else i + 1;
      Upsert(vs, incoming, now)[j] == shown
  {
    if incoming.id in Ids(vs) {
      var k := FindIndex(vs, incoming.id);
      UpsertSeen(vs, incoming, now, k);
    }
  }
}
