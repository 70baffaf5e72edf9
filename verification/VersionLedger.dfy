/** The high-water mark of tool versions, kept across runs of `check --update`. */
module VersionLedger {
  import opened Options
  import Json

  /* ---------- Versions ---------- */

  predicate IsNumber(s: string) { s != "" && forall i | 0 <= i < |s| :: Json.IsDigit(s[i]) }

  function Number(s: string): nat
    requires forall i | 0 <= i < |s| :: Json.IsDigit(s[i])
  {
    if s == "" then 0 else assert Json.IsDigit(s[|s| - 1]); 10 * Number(s[..|s| - 1]) + (s[|s| - 1] as int - '0' as int)
  }

  /** `s.split(".")`. */
  function SplitDots(s: string): (r: seq<string>)
    ensures r != []
  {
    if s == "" then [""]
    else
      var rest := SplitDots(s[1..]);
      if s[0] == '.' then [""] + rest else [[s[0]] + rest[0]] + rest[1..]
  }

  datatype Version = Version(major: nat, minor: nat, patch: nat)

  /** Python's `<` on the three numbers. */
  predicate Below(a: Version, b: Version) {
    a.major < b.major || (a.major == b.major && (a.minor < b.minor || (a.minor == b.minor && a.patch < b.patch)))
  }

  /** `_version_tuple`; `None` is `InvalidLedgerVersion`. */
  function VersionTuple(s: string): Option<Version> {
    var parts := SplitDots(s);
    if |parts| != 3 || !IsNumber(parts[0]) || !IsNumber(parts[1]) || !IsNumber(parts[2]) then None
    else Some(Version(Number(parts[0]), Number(parts[1]), Number(parts[2])))
  }

  /** MAJOR.MINOR.PATCH in decimal. */
  function Show(v: Version): string {
    Json.Digits(v.major) + "." + (Json.Digits(v.minor) + "." + Json.Digits(v.patch))
  }

  lemma {:induction false} NumberOfDigits(n: nat)
    ensures IsNumber(Json.Digits(n)) && Number(Json.Digits(n)) == n
  {
    var d := Json.Digits(n);
    if n >= 10 {
      NumberOfDigits(n / 10);
      assert d == Json.Digits(n / 10) + [d[|d| - 1]];
      assert d[..|d| - 1] == Json.Digits(n / 10);
    } else {
      assert d[..0] == "";
    }
  }

  lemma {:induction false} SplitAtDot(s: string, rest: string)
    requires IsNumber(s)
    ensures SplitDots(s) == [s]
    ensures SplitDots(s + "." + rest) == [s] + SplitDots(rest)
  {
    var t := s + "." + rest;
    assert Json.IsDigit(s[0]) && t[0] == s[0];
    assert s == [s[0]] + s[1..];
    if |s| == 1 {
      var u := "." + rest;
      assert t[1..] == u && u[0] == '.' && u[1..] == rest;
      assert SplitDots(u) == [""] + SplitDots(rest);
      assert s[1..] == "" && SplitDots("") == [""];
    } else {
      SplitAtDot(s[1..], rest);
      assert t[1..] == s[1..] + "." + rest;
    }
  }

  /** Versions are read as numbers, of any size, not compared as text. */
  lemma VersionReadsBack(v: Version)
    ensures VersionTuple(Show(v)) == Some(v)
  {
    var (a, b, c) := (Json.Digits(v.major), Json.Digits(v.minor), Json.Digits(v.patch));
    NumberOfDigits(v.major);
    NumberOfDigits(v.minor);
    NumberOfDigits(v.patch);
    SplitAtDot(a, b + "." + c);
    SplitAtDot(b, c);
    SplitAtDot(c, "");
    assert SplitDots(Show(v)) == [a, b, c];
  }

  function Joined(parts: seq<string>): string
    requires parts != []
  {
    if |parts| == 1 then parts[0] else parts[0] + "." + Joined(parts[1..])
  }

  lemma {:induction false} SplitJoins(s: string)
    ensures Joined(SplitDots(s)) == s
  {
    if s != "" {
      var parts := SplitDots(s[1..]);
      SplitJoins(s[1..]);
      assert s == [s[0]] + s[1..];
      if s[0] == '.' {
        assert ([""] + parts)[1..] == parts;
      } else {
        assert ([[s[0]] + parts[0]] + parts[1..])[1..] == parts[1..];
      }
    }
  }

  lemma JoinedThree(parts: seq<string>)
    requires |parts| == 3
    ensures Joined(parts) == parts[0] + "." + (parts[1] + "." + parts[2])
  {
    var (two, one) := (parts[1..], parts[2..]);
    assert two[1..] == one;
    assert Joined(one) == parts[2] && Joined(two) == parts[1] + "." + parts[2];
  }

  predicate AllDigits(s: string) { s != "" && forall i | 0 <= i < |s| :: '0' <= s[i] <= '9' }

  /** The text is these three numbers with dots between them. */
  ghost predicate Spells(s: string, v: Version, a: string, b: string, c: string) {
    && s == a + "." + (b + "." + c) && AllDigits(a) && AllDigits(b) && AllDigits(c)
    && v == Version(Number(a), Number(b), Number(c))
  }

  /** Exactly the texts of three numbers with two dots parse, and to those numbers. */
  lemma VersionTupleIff(s: string, v: Version)
    ensures VersionTuple(s) == Some(v) <==> exists a, b, c :: Spells(s, v, a, b, c)
  {
    if VersionTuple(s) == Some(v) {
      var parts := SplitDots(s);
      SplitJoins(s);
      JoinedThree(parts);
      assert Joined(parts) == parts[0] + "." + (parts[1] + "." + parts[2]);
      assert Spells(s, v, parts[0], parts[1], parts[2]);
    }
    forall a, b, c | Spells(s, v, a, b, c) ensures VersionTuple(s) == Some(v) {
      SplitAtDot(a, b + "." + c);
      SplitAtDot(b, c);
      SplitAtDot(c, "");
      assert s == a + "." + (b + "." + c);
      assert SplitDots(s) == [a] + ([b] + [c]);
    }
  }

  /* ---------- The order of versions ---------- */

  function Part(v: Version, i: nat): nat {
    match i case 0 => v.major case 1 => v.minor case _ => v.patch
  }

  /** `a` is the later version: it is larger at `i`, the first of MAJOR, MINOR, PATCH where they differ. */
  predicate LaterAt(a: Version, b: Version, i: nat) {
    i < 3 && Part(a, i) > Part(b, i) && forall j | 0 <= j < i :: Part(a, j) == Part(b, j)
  }

  predicate Later(a: Version, b: Version) { exists i | 0 <= i < 3 :: LaterAt(a, b, i) }

  /** Of two versions one is later or they are the same. */
  lemma OneIsLater(a: Version, b: Version)
    ensures !(Later(a, b) && Later(b, a)) && (Later(a, b) || Later(b, a) <==> a != b)
  {
    if a.major != b.major {
      assert LaterAt(a, b, 0) || LaterAt(b, a, 0);
    } else if a.minor != b.minor {
      assert LaterAt(a, b, 1) || LaterAt(b, a, 1);
    } else if a.patch != b.patch {
      assert LaterAt(a, b, 2) || LaterAt(b, a, 2);
    }
  }

  lemma BelowIffLater(a: Version, b: Version)
    ensures Below(a, b) <==> Later(b, a)
  {
    OneIsLater(a, b);
    if a.major != b.major {
      assert LaterAt(a, b, 0) || LaterAt(b, a, 0);
    } else if a.minor != b.minor {
      assert LaterAt(a, b, 1) || LaterAt(b, a, 1);
    } else if a.patch != b.patch {
      assert LaterAt(a, b, 2) || LaterAt(b, a, 2);
    }
  }

  predicate WellFormed(s: string) { VersionTuple(s).Some? }

  /* ---------- One check ---------- */

  /** The tools of a catalog with their versions, in the catalog's order. */
  type Catalog = seq<Entry>

  datatype Entry = Entry(name: string, version: string)

  type Ledger = map<string, string>

  /** What a downgrade's message is made of: the tool, its version in the catalog, its mark. */
  datatype Downgrade = Downgrade(name: string, version: string, mark: string)

  datatype CheckResult = Checked(downgrades: seq<Downgrade>, updated: Ledger) | InvalidLedgerVersion

  /** What the loop does with one tool: the downgrades and the ledger, or an invalid version. */
  function CheckEntry(e: Entry, found: seq<Downgrade>, ledger: Ledger): CheckResult {
    if e.name !in ledger then Checked(found, ledger[e.name := e.version])
    else
      match (VersionTuple(e.version), VersionTuple(ledger[e.name]))
      case (Some(v), Some(mark)) =>
        if Below(v, mark) then Checked(found + [Downgrade(e.name, e.version, ledger[e.name])], ledger)
        else if Below(mark, v) then Checked(found, ledger[e.name := e.version])
        else Checked(found, ledger)
      case _ => InvalidLedgerVersion
  }

  function CheckAll(catalog: Catalog, found: seq<Downgrade>, ledger: Ledger): CheckResult {
    if catalog == [] then Checked(found, ledger)
    else
      match CheckEntry(catalog[0], found, ledger)
      case InvalidLedgerVersion => InvalidLedgerVersion
      case Checked(found', ledger') => CheckAll(catalog[1..], found', ledger')
  }

  method CheckForDowngrades(catalog: Catalog, ledger: Ledger) returns (r: CheckResult)
    ensures r == CheckAll(catalog, [], ledger)
  {
    var downgrades: seq<Downgrade> := [];
    var updated := ledger;
    for i := 0 to |catalog|
      invariant CheckAll(catalog, [], ledger) == CheckAll(catalog[i..], downgrades, updated)
    {
      var e := catalog[i];
      assert catalog[i..][0] == e && catalog[i..][1..] == catalog[i + 1..];
      if e.name !in updated {
        updated := updated[e.name := e.version];
        continue;
      }
      var recorded := updated[e.name];
      var version, mark := VersionTuple(e.version), VersionTuple(recorded);
      if version.None? || mark.None? {
        return InvalidLedgerVersion;
      }
      if Below(version.value, mark.value) {
        downgrades := downgrades + [Downgrade(e.name, e.version, recorded)];
        continue;
      }
      if Below(mark.value, version.value) {
        updated := updated[e.name := e.version];
      }
    }
    return Checked(downgrades, updated);
  }

  /* ---------- What one check finds ---------- */

  /** A catalog is a dict: each name once. */
  predicate DistinctNames(catalog: Catalog) {
    forall i, j | 0 <= i < j < |catalog| :: catalog[i].name != catalog[j].name
  }

  function VersionIn(catalog: Catalog, name: string): Option<string> {
    if catalog == [] then None
    else if catalog[0].name == name then Some(catalog[0].version)
    else VersionIn(catalog[1..], name)
  }

  function Mark(ledger: Ledger, name: string): Option<string> {
    if name in ledger then Some(ledger[name]) else None
  }

  predicate Less(a: string, b: string) {
    WellFormed(a) && WellFormed(b) && Below(VersionTuple(a).value, VersionTuple(b).value)
  }

  /** A tool's mark after a catalog that may mention it. */
  function Raise(mark: Option<string>, version: Option<string>): Option<string> {
    match (mark, version)
    case (_, None) => mark
    case (None, Some(_)) => version
    case (Some(m), Some(v)) => if Less(m, v) then version else mark
  }

  predicate Drops(mark: Option<string>, version: Option<string>) {
    mark.Some? && version.Some? && Less(version.value, mark.value)
  }

  /** The downgrade reported for a tool with this mark and version. */
  predicate Reports(d: Downgrade, mark: Option<string>, version: Option<string>) {
    Drops(mark, version) && d.version == version.value && d.mark == mark.value
  }

  /** The two versions can be compared, or need not be. */
  predicate Comparable(mark: Option<string>, version: Option<string>) {
    mark.Some? && version.Some? ==> WellFormed(mark.value) && WellFormed(version.value)
  }

  lemma {:induction false} AbsentVersion(catalog: Catalog, name: string)
    ensures VersionIn(catalog, name) == None <==> forall e | e in catalog :: e.name != name
  {
    if catalog != [] {
      AbsentVersion(catalog[1..], name);
      assert catalog == [catalog[0]] + catalog[1..];
    }
  }

  lemma EntryMeans(e: Entry, found: seq<Downgrade>, ledger: Ledger, name: string)
    ensures
      match CheckEntry(e, found, ledger)
      case InvalidLedgerVersion => !Comparable(Mark(ledger, e.name), Some(e.version))
      case Checked(found', ledger') =>
        var version := if e.name == name then Some(e.version) else None;
        && Comparable(Mark(ledger, e.name), Some(e.version))
        && Mark(ledger', name) == Raise(Mark(ledger, name), version)
        && (forall d: Downgrade | d.name == name ::
              d in found' <==> d in found || Reports(d, Mark(ledger, name), version))
  {}

  /** A check that ends normally raises each tool's mark to the catalog's version and reports exactly the tools
      the catalog has below their mark. */
  lemma {:induction false} CheckMeans(catalog: Catalog, found: seq<Downgrade>, ledger: Ledger, name: string)
    requires DistinctNames(catalog) && CheckAll(catalog, found, ledger).Checked?
    ensures
      var r := CheckAll(catalog, found, ledger);
      && Mark(r.updated, name) == Raise(Mark(ledger, name), VersionIn(catalog, name))
      && forall d: Downgrade | d.name == name ::
          d in r.downgrades <==> d in found || Reports(d, Mark(ledger, name), VersionIn(catalog, name))
  {
    if catalog != [] {
      var step := CheckEntry(catalog[0], found, ledger);
      EntryMeans(catalog[0], found, ledger, name);
      CheckMeans(catalog[1..], step.downgrades, step.updated, name);
      AbsentVersion(catalog[1..], name);
    }
  }

  /** It ends normally exactly when every tool that already has a mark has two versions that parse. */
  lemma {:induction false} CheckedIff(catalog: Catalog, found: seq<Downgrade>, ledger: Ledger)
    requires DistinctNames(catalog)
    ensures CheckAll(catalog, found, ledger).Checked? <==>
      forall e | e in catalog :: Comparable(Mark(ledger, e.name), Some(e.version))
  {
    if catalog != [] {
      var (e, rest) := (catalog[0], catalog[1..]);
      assert catalog == [e] + rest;
      var step := CheckEntry(e, found, ledger);
      EntryMeans(e, found, ledger, e.name);
      if step.Checked? {
        CheckedIff(rest, step.downgrades, step.updated);
        forall x | x in rest ensures Mark(step.updated, x.name) == Mark(ledger, x.name) {
          EntryMeans(e, found, ledger, x.name);
        }
      }
    }
  }

  lemma DowngradeMeans(catalog: Catalog, ledger: Ledger, d: Downgrade)
    requires DistinctNames(catalog) && CheckAll(catalog, [], ledger).Checked?
    ensures d in CheckAll(catalog, [], ledger).downgrades <==>
      Reports(d, Mark(ledger, d.name), VersionIn(catalog, d.name))
  {
    CheckMeans(catalog, [], ledger, d.name);
  }

  predicate Ok(r: CheckResult) { r.Checked? && r.downgrades == [] }

  /** A readable catalog is rejected exactly when it has some tool below its mark. */
  lemma RejectedIff(catalog: Catalog, ledger: Ledger)
    requires DistinctNames(catalog) && CheckAll(catalog, [], ledger).Checked?
    ensures !Ok(CheckAll(catalog, [], ledger)) <==> exists name :: Drops(Mark(ledger, name), VersionIn(catalog, name))
  {
    var r := CheckAll(catalog, [], ledger);
    forall d: Downgrade { DowngradeMeans(catalog, ledger, d); }
    if r.downgrades != [] {
      assert r.downgrades[0] in r.downgrades;
    }
    forall name | Drops(Mark(ledger, name), VersionIn(catalog, name)) ensures r.downgrades != [] {
      assert Downgrade(name, VersionIn(catalog, name).value, Mark(ledger, name).value) in r.downgrades;
    }
  }

  /** A tool with a mark: a later version raises it, an earlier one is reported and leaves it, the same version
      does neither. */
  lemma CheckOrders(catalog: Catalog, ledger: Ledger, e: Entry, v: Version, m: Version)
    requires DistinctNames(catalog) && CheckAll(catalog, [], ledger).Checked?
    requires e in catalog && VersionTuple(e.version) == Some(v)
    requires e.name in ledger && VersionTuple(ledger[e.name]) == Some(m)
    ensures
      var r := CheckAll(catalog, [], ledger);
      && Mark(r.updated, e.name) == Some(if Later(v, m) then e.version else ledger[e.name])
      && (forall d: Downgrade | d.name == e.name ::
            d in r.downgrades <==> Later(m, v) && d == Downgrade(e.name, e.version, ledger[e.name]))
  {
    CheckMeans(catalog, [], ledger, e.name);
    VersionInMeans(catalog, e.name, e.version);
    BelowIffLater(v, m);
    BelowIffLater(m, v);
  }

  /** A tool without one gets the catalog's version, whatever it is. */
  lemma NewToolIsStored(catalog: Catalog, ledger: Ledger, e: Entry)
    requires DistinctNames(catalog) && CheckAll(catalog, [], ledger).Checked?
    requires e in catalog && e.name !in ledger
    ensures
      var r := CheckAll(catalog, [], ledger);
      Mark(r.updated, e.name) == Some(e.version) && forall d | d in r.downgrades :: d.name != e.name
  {
    CheckMeans(catalog, [], ledger, e.name);
    VersionInMeans(catalog, e.name, e.version);
  }

  /** A catalog of one tool, in numbers. */
  lemma OneToolCheck(name: string, v: Version, m: Version)
    ensures
      CheckAll([Entry(name, Show(v))], [], map[name := Show(m)])
        == if Later(m, v) then Checked([Downgrade(name, Show(v), Show(m))], map[name := Show(m)])
           else Checked([], map[name := Show(v)])
  {
    VersionReadsBack(v);
    VersionReadsBack(m);
    BelowIffLater(v, m);
    BelowIffLater(m, v);
    OneIsLater(v, m);
    var (e, ledger) := (Entry(name, Show(v)), map[name := Show(m)]);
    assert CheckAll([e], [], ledger) == CheckEntry(e, [], ledger);
  }

  lemma {:induction false} VersionInMeans(catalog: Catalog, name: string, version: string)
    requires DistinctNames(catalog)
    ensures VersionIn(catalog, name) == Some(version) <==> Entry(name, version) in catalog
  {
    if catalog != [] {
      VersionInMeans(catalog[1..], name, version);
      assert catalog == [catalog[0]] + catalog[1..];
    }
  }

  /** The order in which the catalog is walked changes neither the marks nor the verdict. */
  lemma CheckIgnoresOrder(catalog: Catalog, catalog': Catalog, ledger: Ledger)
    requires DistinctNames(catalog) && DistinctNames(catalog')
    requires forall e :: e in catalog <==> e in catalog'
    ensures
      var (r, r') := (CheckAll(catalog, [], ledger), CheckAll(catalog', [], ledger));
      && r.Checked? == r'.Checked?
      && (r.Checked? ==>
            && r.updated == r'.updated && Ok(r) == Ok(r')
            && forall d :: d in r.downgrades <==> d in r'.downgrades)
  {
    CheckedIff(catalog, [], ledger);
    CheckedIff(catalog', [], ledger);
    var (r, r') := (CheckAll(catalog, [], ledger), CheckAll(catalog', [], ledger));
    if r.Checked? {
      forall name ensures Mark(r.updated, name) == Mark(r'.updated, name) {
        CheckMeans(catalog, [], ledger, name);
        CheckMeans(catalog', [], ledger, name);
        SameVersion(catalog, catalog', name);
      }
      SameMarks(r.updated, r'.updated);
      forall d: Downgrade ensures d in r.downgrades <==> d in r'.downgrades {
        DowngradeMeans(catalog, ledger, d);
        DowngradeMeans(catalog', ledger, d);
        SameVersion(catalog, catalog', d.name);
      }
      assert r.downgrades != [] ==> r.downgrades[0] in r.downgrades;
      assert r'.downgrades != [] ==> r'.downgrades[0] in r'.downgrades;
    }
  }

  lemma SameVersion(catalog: Catalog, catalog': Catalog, name: string)
    requires DistinctNames(catalog) && DistinctNames(catalog')
    requires forall e :: e in catalog <==> e in catalog'
    ensures VersionIn(catalog, name) == VersionIn(catalog', name)
  {
    var a, b := VersionIn(catalog, name), VersionIn(catalog', name);
    if a.Some? { VersionInMeans(catalog, name, a.value); VersionInMeans(catalog', name, a.value); }
    if b.Some? { VersionInMeans(catalog, name, b.value); VersionInMeans(catalog', name, b.value); }
  }

  lemma SameMarks(a: Ledger, b: Ledger)
    requires forall name :: Mark(a, name) == Mark(b, name)
    ensures a == b
  {
    assert forall name :: name in a <==> Mark(a, name).Some?;
    forall name | name in a ensures name in b && a[name] == b[name] {
      assert Mark(a, name) == Mark(b, name);
    }
    forall name | name in b ensures name in a {
      assert Mark(a, name) == Mark(b, name);
    }
  }

  /* ---------- Runs of `check --update` ---------- */

  /** The ledger after one run, and the clean catalogs so far: only a clean check is persisted. */
  function Update(ledger: Ledger, clean: seq<Catalog>, catalog: Catalog): (Ledger, seq<Catalog>) {
    var r := CheckAll(catalog, [], ledger);
    if Ok(r) then (r.updated, clean + [catalog]) else (ledger, clean)
  }

  function Runs(ledger: Ledger, clean: seq<Catalog>, catalogs: seq<Catalog>): (Ledger, seq<Catalog>)
    decreases |catalogs|
  {
    if catalogs == [] then (ledger, clean)
    else
      var (ledger', clean') := Update(ledger, clean, catalogs[0]);
      Runs(ledger', clean', catalogs[1..])
  }

  predicate GoodCatalog(catalog: Catalog) {
    DistinctNames(catalog) && forall e | e in catalog :: WellFormed(e.version)
  }

  /** The mark is one of the versions the catalogs have for the tool and none of them is above it; no mark, no
      version. */
  ghost predicate IsHighWater(mark: Option<string>, name: string, catalogs: seq<Catalog>) {
    && (forall c | c in catalogs && VersionIn(c, name).Some? ::
          mark.Some? && WellFormed(mark.value) && WellFormed(VersionIn(c, name).value)
          && !Less(mark.value, VersionIn(c, name).value))
    && (mark.Some? ==> exists c | c in catalogs :: VersionIn(c, name) == mark)
  }

  lemma UpdateKeepsHighWater(ledger: Ledger, clean: seq<Catalog>, catalog: Catalog, name: string)
    requires GoodCatalog(catalog) && IsHighWater(Mark(ledger, name), name, clean)
    ensures
      var (ledger', clean') := Update(ledger, clean, catalog);
      IsHighWater(Mark(ledger', name), name, clean') && (name in ledger ==> name in ledger')
  {
    var r := CheckAll(catalog, [], ledger);
    if Ok(r) {
      CheckMeans(catalog, [], ledger, name);
      var version := VersionIn(catalog, name);
      if version.Some? { VersionInMeans(catalog, name, version.value); }
      assert clean + [catalog] == clean + [catalog] && catalog in clean + [catalog];
      assert forall c | c in clean :: c in clean + [catalog];
    }
  }

  /** After any sequence of runs each tool's mark is the highest of the versions in the clean catalogs so far,
      and no tool is ever forgotten. */
  lemma {:induction false} LedgerIsHighWater(ledger: Ledger, clean: seq<Catalog>, catalogs: seq<Catalog>, name: string)
    requires forall c | c in catalogs :: GoodCatalog(c)
    requires IsHighWater(Mark(ledger, name), name, clean)
    ensures
      var (ledger', clean') := Runs(ledger, clean, catalogs);
      IsHighWater(Mark(ledger', name), name, clean') && (name in ledger ==> name in ledger')
    decreases |catalogs|
  {
    if catalogs != [] {
      var (ledger', clean') := Update(ledger, clean, catalogs[0]);
      UpdateKeepsHighWater(ledger, clean, catalogs[0], name);
      LedgerIsHighWater(ledger', clean', catalogs[1..], name);
    }
  }

  /** In numbers: the mark of a tool is its version in some clean catalog, and no clean catalog has a later one. */
  lemma MarkIsLatest(catalogs: seq<Catalog>, name: string, catalog: Catalog)
    requires forall c | c in catalogs :: GoodCatalog(c)
    requires catalog in Runs(map[], [], catalogs).1 && VersionIn(catalog, name).Some?
    ensures
      var (ledger, clean) := Runs(map[], [], catalogs);
      && name in ledger && VersionTuple(ledger[name]).Some? && VersionTuple(VersionIn(catalog, name).value).Some?
      && !Later(VersionTuple(VersionIn(catalog, name).value).value, VersionTuple(ledger[name]).value)
      && exists c | c in clean :: VersionIn(c, name) == Some(ledger[name])
  {
    LedgerIsHighWater(map[], [], catalogs, name);
    var ledger := Runs(map[], [], catalogs).0;
    BelowIffLater(VersionTuple(ledger[name]).value, VersionTuple(VersionIn(catalog, name).value).value);
  }

  /** Some clean catalog has the tool at a version above the given one. */
  ghost predicate BelowSome(clean: seq<Catalog>, name: string, version: Option<string>) {
    exists c | c in clean :: Drops(VersionIn(c, name), version)
  }

  lemma DropsBelowHighWater(mark: Option<string>, name: string, clean: seq<Catalog>, version: Option<string>)
    requires IsHighWater(mark, name, clean)
    ensures Drops(mark, version) <==> BelowSome(clean, name, version)
  {
    if Drops(mark, version) {
      var c :| c in clean && VersionIn(c, name) == mark;
      assert Drops(VersionIn(c, name), version);
    }
  }

  /** So a catalog is refused, however long its tool has been absent, exactly when it has some tool below a
      version that was once clean. */
  lemma DowngradesAreRefused(catalogs: seq<Catalog>, catalog: Catalog)
    requires GoodCatalog(catalog) && forall c | c in catalogs :: GoodCatalog(c)
    ensures
      var (ledger, clean) := Runs(map[], [], catalogs);
      !Ok(CheckAll(catalog, [], ledger)) <==> exists name :: BelowSome(clean, name, VersionIn(catalog, name))
  {
    var (ledger, clean) := Runs(map[], [], catalogs);
    forall name
      ensures Drops(Mark(ledger, name), VersionIn(catalog, name)) <==> BelowSome(clean, name, VersionIn(catalog, name))
    {
      LedgerIsHighWater(map[], [], catalogs, name);
      DropsBelowHighWater(Mark(ledger, name), name, clean, VersionIn(catalog, name));
    }
    ReadableAfterRuns(catalogs, catalog);
    RejectedIff(catalog, ledger);
  }

  lemma ReadableAfterRuns(catalogs: seq<Catalog>, catalog: Catalog)
    requires GoodCatalog(catalog) && forall c | c in catalogs :: GoodCatalog(c)
    ensures CheckAll(catalog, [], Runs(map[], [], catalogs).0).Checked?
  {
    var ledger := Runs(map[], [], catalogs).0;
    forall e | e in catalog ensures Comparable(Mark(ledger, e.name), Some(e.version)) {
      LedgerIsHighWater(map[], [], catalogs, e.name);
    }
    CheckedIff(catalog, [], ledger);
  }

  /* ---------- Versions that do not parse ---------- */

  ghost predicate MarksParse(ledger: Ledger) { forall name | name in ledger :: WellFormed(ledger[name]) }

  /** After a clean check every mark parses exactly when every mark did before and every new tool's version
      does: a first version is stored unread. */
  lemma MarksParseIff(catalog: Catalog, ledger: Ledger)
    requires DistinctNames(catalog) && Ok(CheckAll(catalog, [], ledger))
    ensures MarksParse(CheckAll(catalog, [], ledger).updated) <==>
      MarksParse(ledger) && forall e | e in catalog && e.name !in ledger :: WellFormed(e.version)
  {
    var updated := CheckAll(catalog, [], ledger).updated;
    CheckedIff(catalog, [], ledger);
    forall name ensures Mark(updated, name) == Raise(Mark(ledger, name), VersionIn(catalog, name)) {
      CheckMeans(catalog, [], ledger, name);
    }
    forall e | e in catalog ensures VersionIn(catalog, e.name) == Some(e.version) {
      VersionInMeans(catalog, e.name, e.version);
    }
    forall e | e in catalog && e.name !in ledger ensures Mark(updated, e.name) == Some(e.version) {}
    forall name | name in ledger ensures name in updated && WellFormed(ledger[name]) == WellFormed(updated[name]) {
      assert Mark(updated, name) == Raise(Mark(ledger, name), VersionIn(catalog, name));
    }
    forall name | name in updated && name !in ledger ensures Entry(name, updated[name]) in catalog {
      assert Mark(updated, name) == Raise(Mark(ledger, name), VersionIn(catalog, name));
      VersionInMeans(catalog, name, updated[name]);
    }
  }

  /** A mark that does not parse stays through any runs, and every catalog that has the tool raises. */
  lemma {:induction false} UnreadMarkStays(ledger: Ledger, clean: seq<Catalog>, catalogs: seq<Catalog>, name: string)
    requires name in ledger && !WellFormed(ledger[name])
    requires forall c | c in catalogs :: DistinctNames(c)
    ensures Mark(Runs(ledger, clean, catalogs).0, name) == Some(ledger[name])
    decreases |catalogs|
  {
    if catalogs != [] {
      var (ledger', clean') := Update(ledger, clean, catalogs[0]);
      if Ok(CheckAll(catalogs[0], [], ledger)) {
        CheckMeans(catalogs[0], [], ledger, name);
      }
      assert Mark(ledger', name) == Mark(ledger, name);
      UnreadMarkStays(ledger', clean', catalogs[1..], name);
    }
  }

  /** A new tool whose version does not parse is accepted by a clean check; from then on, whatever runs lie in
      between, every catalog that has the tool at all raises. */
  lemma UnreadVersionIsStored(
      ledger: Ledger, first: Catalog, catalogs: seq<Catalog>, later: Catalog,
      name: string, bad: string, version: string)
    requires DistinctNames(first) && DistinctNames(later) && forall c | c in catalogs :: DistinctNames(c)
    requires Entry(name, bad) in first && name !in ledger && !WellFormed(bad) && Ok(CheckAll(first, [], ledger))
    requires Entry(name, version) in later
    ensures
      var ledger' := Runs(ledger, [], [first] + catalogs).0;
      Mark(ledger', name) == Some(bad) && CheckAll(later, [], ledger') == InvalidLedgerVersion
  {
    var (ledger', clean') := Update(ledger, [], first);
    CheckMeans(first, [], ledger, name);
    VersionInMeans(first, name, bad);
    assert Mark(ledger', name) == Some(bad);
    UnreadMarkStays(ledger', clean', catalogs, name);
    assert ([first] + catalogs)[1..] == catalogs;
    CheckedIff(later, [], Runs(ledger', clean', catalogs).0);
  }

  lemma {:induction false} NoDots(s: string)
    requires '.' !in s
    ensures SplitDots(s) == [s]
  {
    if s != "" {
      NoDots(s[1..]);
      assert s == [s[0]] + s[1..];
    }
  }

  /** A version of this kind that the catalog's schema lets through: its pattern ends in `$`, which also matches
      before a final newline. */
  lemma NewlineVersionIsUnread(v: Version)
    ensures VersionTuple(Show(v) + "\n") == None
  {
    var (a, b, c) := (Json.Digits(v.major), Json.Digits(v.minor), Json.Digits(v.patch) + "\n");
    NumberOfDigits(v.major);
    NumberOfDigits(v.minor);
    SplitAtDot(a, b + "." + c);
    SplitAtDot(b, c);
    assert Show(v) + "\n" == a + "." + (b + "." + c);
    NumberOfDigits(v.patch);
    NoDots(c);
    assert SplitDots(Show(v) + "\n") == [a, b, c];
    assert !Json.IsDigit(c[|c| - 1]);
  }
}
