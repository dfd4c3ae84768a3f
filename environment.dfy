/** The configuration store of `src/environment.cpp`: three typed maps with
    zero defaults, filled by the built-in defaults, then the settings file,
    then the command line, and finally the derived grid resolution. */
module Settings {
  import opened Geometry

  /** The names of the settings the engines read. */
  const BOID_COUNT: string := "boidCount"
  const GRID: string := "grid"
  const SPACE_LOW: string := "spaceLow"
  const SPACE_HIGH: string := "spaceHigh"
  const FLOCKING_ZONE: string := "flockingZone"
  const SPEED_FACTOR: string := "speedFactor"
  const FORCE_LIMIT: string := "forceLimit"
  const BOID_SIZE: string := "boidSize"
  const TREE_MEMORY_LIMIT: string := "treeMemoryLimit"
  const DARK: string := "dark"

  /** One `addRecord` call. */
  datatype Record =
    | IntRecord(name: string, i: int)
    | FloatRecord(name: string, f: real)
    | VecRecord(name: string, v: Vec3)

  datatype Maps = Maps(ints: map<string, int>, floats: map<string, real>, vecs: map<string, Vec3>)

  const Empty: Maps := Maps(map[], map[], map[])

  /** `addRecord`: overwrites the entry of its own map only. */
  function Store(m: Maps, r: Record): Maps {
    match r
    case IntRecord(n, i) => m.(ints := m.ints[n := i])
    case FloatRecord(n, f) => m.(floats := m.floats[n := f])
    case VecRecord(n, v) => m.(vecs := m.vecs[n := v])
  }

  /** The records applied in order. */
  function StoreAll(m: Maps, rs: seq<Record>): Maps
    decreases |rs|
  {
    if rs == [] then m else StoreAll(Store(m, rs[0]), rs[1..])
  }

  /** `getInt`, `getFloat`, `getVec`: the stored value or zero. */
  function IntOf(m: Maps, name: string): int {
    if name in m.ints then m.ints[name] else 0
  }

  function FloatOf(m: Maps, name: string): real {
    if name in m.floats then m.floats[name] else 0.0
  }

  function VecOf(m: Maps, name: string): Vec3 {
    if name in m.vecs then m.vecs[name] else Zero
  }

  /** The integer the records leave for `name`: the last integer record of
      that name, or `prior` when there is none. */
  function LastInt(rs: seq<Record>, name: string, prior: int): int
    decreases |rs|
  {
    if rs == [] then prior
    else
      var rest := LastInt(rs[1..], name, prior);
      if HasInt(rs[1..], name) then rest
      else if rs[0].IntRecord? && rs[0].name == name then rs[0].i
      else prior
  }

  predicate HasInt(rs: seq<Record>, name: string) {
    exists k :: 0 <= k < |rs| && rs[k].IntRecord? && rs[k].name == name
  }

  function LastFloat(rs: seq<Record>, name: string, prior: real): real
    decreases |rs|
  {
    if rs == [] then prior
    else
      var rest := LastFloat(rs[1..], name, prior);
      if HasFloat(rs[1..], name) then rest
      else if rs[0].FloatRecord? && rs[0].name == name then rs[0].f
      else prior
  }

  predicate HasFloat(rs: seq<Record>, name: string) {
    exists k :: 0 <= k < |rs| && rs[k].FloatRecord? && rs[k].name == name
  }

  function LastVec(rs: seq<Record>, name: string, prior: Vec3): Vec3
    decreases |rs|
  {
    if rs == [] then prior
    else
      var rest := LastVec(rs[1..], name, prior);
      if HasVec(rs[1..], name) then rest
      else if rs[0].VecRecord? && rs[0].name == name then rs[0].v
      else prior
  }

  predicate HasVec(rs: seq<Record>, name: string) {
    exists k :: 0 <= k < |rs| && rs[k].VecRecord? && rs[k].name == name
  }

  lemma HasIntTail(rs: seq<Record>, name: string)
    requires rs != []
    ensures HasInt(rs, name) <==> HasInt(rs[1..], name) || (rs[0].IntRecord? && rs[0].name == name)
  {
    if HasInt(rs, name) {
      var k :| 0 <= k < |rs| && rs[k].IntRecord? && rs[k].name == name;
      if k > 0 { assert rs[1..][k - 1] == rs[k]; }
    }
    if HasInt(rs[1..], name) {
      var k :| 0 <= k < |rs[1..]| && rs[1..][k].IntRecord? && rs[1..][k].name == name;
      assert rs[k + 1] == rs[1..][k];
    }
  }

  /** Last write wins, per map: after a run of records every integer lookup
      sees the last integer record of its name, or the earlier value; records
      of the other two kinds never touch the integer map. */
  lemma {:induction false} StoreAllInt(m: Maps, rs: seq<Record>, name: string)
    ensures IntOf(StoreAll(m, rs), name) == LastInt(rs, name, IntOf(m, name))
    decreases |rs|
  {
    if rs != [] {
      StoreAllInt(Store(m, rs[0]), rs[1..], name);
      LastIntPrior(rs[1..], name, IntOf(Store(m, rs[0]), name), IntOf(m, name));
    }
  }

  /** Without a record of its name the prior value comes through. */
  lemma {:induction false} LastIntPrior(rs: seq<Record>, name: string, a: int, b: int)
    ensures HasInt(rs, name) ==> LastInt(rs, name, a) == LastInt(rs, name, b)
    ensures !HasInt(rs, name) ==> LastInt(rs, name, a) == a
    decreases |rs|
  {
    if rs != [] {
      LastIntPrior(rs[1..], name, a, b);
      HasIntTail(rs, name);
    }
  }

  lemma HasFloatTail(rs: seq<Record>, name: string)
    requires rs != []
    ensures HasFloat(rs, name) <==> HasFloat(rs[1..], name) || (rs[0].FloatRecord? && rs[0].name == name)
  {
    if HasFloat(rs, name) {
      var k :| 0 <= k < |rs| && rs[k].FloatRecord? && rs[k].name == name;
      if k > 0 { assert rs[1..][k - 1] == rs[k]; }
    }
    if HasFloat(rs[1..], name) {
      var k :| 0 <= k < |rs[1..]| && rs[1..][k].FloatRecord? && rs[1..][k].name == name;
      assert rs[k + 1] == rs[1..][k];
    }
  }

  lemma {:induction false} LastFloatPrior(rs: seq<Record>, name: string, a: real, b: real)
    ensures HasFloat(rs, name) ==> LastFloat(rs, name, a) == LastFloat(rs, name, b)
    ensures !HasFloat(rs, name) ==> LastFloat(rs, name, a) == a
    decreases |rs|
  {
    if rs != [] {
      LastFloatPrior(rs[1..], name, a, b);
      HasFloatTail(rs, name);
    }
  }

  lemma {:induction false} StoreAllFloat(m: Maps, rs: seq<Record>, name: string)
    ensures FloatOf(StoreAll(m, rs), name) == LastFloat(rs, name, FloatOf(m, name))
    decreases |rs|
  {
    if rs != [] {
      StoreAllFloat(Store(m, rs[0]), rs[1..], name);
      LastFloatPrior(rs[1..], name, FloatOf(Store(m, rs[0]), name), FloatOf(m, name));
    }
  }

  lemma HasVecTail(rs: seq<Record>, name: string)
    requires rs != []
    ensures HasVec(rs, name) <==> HasVec(rs[1..], name) || (rs[0].VecRecord? && rs[0].name == name)
  {
    if HasVec(rs, name) {
      var k :| 0 <= k < |rs| && rs[k].VecRecord? && rs[k].name == name;
      if k > 0 { assert rs[1..][k - 1] == rs[k]; }
    }
    if HasVec(rs[1..], name) {
      var k :| 0 <= k < |rs[1..]| && rs[1..][k].VecRecord? && rs[1..][k].name == name;
      assert rs[k + 1] == rs[1..][k];
    }
  }

  lemma {:induction false} LastVecPrior(rs: seq<Record>, name: string, a: Vec3, b: Vec3)
    ensures HasVec(rs, name) ==> LastVec(rs, name, a) == LastVec(rs, name, b)
    ensures !HasVec(rs, name) ==> LastVec(rs, name, a) == a
    decreases |rs|
  {
    if rs != [] {
      LastVecPrior(rs[1..], name, a, b);
      HasVecTail(rs, name);
    }
  }

  lemma {:induction false} StoreAllVec(m: Maps, rs: seq<Record>, name: string)
    ensures VecOf(StoreAll(m, rs), name) == LastVec(rs, name, VecOf(m, name))
    decreases |rs|
  {
    if rs != [] {
      StoreAllVec(Store(m, rs[0]), rs[1..], name);
      LastVecPrior(rs[1..], name, VecOf(Store(m, rs[0]), name), VecOf(m, name));
    }
  }

  // ------------------------------------------------------------ the pipeline

  /** The built-in settings. */
  function Defaults(): Maps {
    Maps(map["appType" := 0, "boidCount" := 1024, "dark" := 1, "treeMemoryLimit" := 4096],
         map["flockingZone" := 40.0, "speedFactor" := 2.0, "forceLimit" := 0.1, "boidSize" := 2.0],
         map["spaceLow" := Vec3(-1000.0, -1000.0, -1000.0), "spaceHigh" := Vec3(1000.0, 1000.0, 1000.0)])
  }

  /** The command-line overrides: `argv[1]` is the application type and
      `argv[2]` the exponent of the boid count, at least 1. `atoi` is the C
      library conversion. */
  function CliRecords(argv: seq<string>, atoi: string -> int): seq<Record> {
    (if |argv| > 1 then [IntRecord("appType", atoi(argv[1]))] else [])
    + (if |argv| > 2 then [IntRecord("boidCount", if atoi(argv[2]) > 1 then atoi(argv[2]) else 1)] else [])
  }

  /** One grid component: `max(space / zone, 1)` truncated to unsigned. */
  function GridComponent(space: real, zone: real): (r: int)
    requires zone != 0.0
    ensures r >= 1
    ensures space / zone >= 1.0 ==> r as real <= space / zone < r as real + 1.0
  {
    var c := if space / zone > 1.0 then space / zone else 1.0;
    c.Floor
  }

  /** The grid resolution derived from the space and twice the flocking zone. */
  function Grid(m: Maps): Vec3
    requires FloatOf(m, "flockingZone") != 0.0
  {
    var space := Sub(VecOf(m, "spaceHigh"), VecOf(m, "spaceLow"));
    var zone := 2.0 * FloatOf(m, "flockingZone");
    Vec3(GridComponent(space.x, zone) as real, GridComponent(space.y, zone) as real, GridComponent(space.z, zone) as real)
  }

  /** The maps before the grid is derived: defaults, then the settings file,
      then the command line. */
  function Loaded(file: seq<Record>, argv: seq<string>, atoi: string -> int): Maps {
    StoreAll(StoreAll(Defaults(), file), CliRecords(argv, atoi))
  }

  /** The whole configuration the constructor builds. */
  function Configured(file: seq<Record>, argv: seq<string>, atoi: string -> int): Maps
    requires FloatOf(Loaded(file, argv, atoi), "flockingZone") != 0.0
  {
    var m := Loaded(file, argv, atoi);
    Store(m, VecRecord("grid", Grid(m)))
  }

  /** With no settings file and no arguments the documented defaults hold. */
  lemma DefaultsHold(argv: seq<string>, atoi: string -> int)
    requires |argv| == 1
    ensures var m := Loaded([], argv, atoi);
      && IntOf(m, "appType") == 0 && IntOf(m, "boidCount") == 1024
      && IntOf(m, "dark") == 1 && IntOf(m, "treeMemoryLimit") == 4096
      && FloatOf(m, "flockingZone") == 40.0 && FloatOf(m, "speedFactor") == 2.0
      && FloatOf(m, "forceLimit") == 0.1 && FloatOf(m, "boidSize") == 2.0
      && VecOf(m, "spaceLow") == Vec3(-1000.0, -1000.0, -1000.0)
      && VecOf(m, "spaceHigh") == Vec3(1000.0, 1000.0, 1000.0)
  {
  }

  /** The command line overrides the file and the defaults; the boid-count
      exponent given there is at least 1. */
  lemma CommandLineWins(file: seq<Record>, argv: seq<string>, atoi: string -> int)
    ensures |argv| > 1 ==> IntOf(Loaded(file, argv, atoi), "appType") == atoi(argv[1])
    ensures |argv| > 2 ==> IntOf(Loaded(file, argv, atoi), "boidCount") >= 1
    ensures |argv| > 2 && atoi(argv[2]) >= 1 ==> IntOf(Loaded(file, argv, atoi), "boidCount") == atoi(argv[2])
  {
    var m := StoreAll(Defaults(), file);
    var cli := CliRecords(argv, atoi);
    StoreAllInt(m, cli, "appType");
    StoreAllInt(m, cli, "boidCount");
    if |argv| > 1 {
      assert cli[0] == IntRecord("appType", atoi(argv[1]));
      assert !HasInt(cli[1..], "appType");
    }
    if |argv| > 2 {
      assert cli[1..] == [cli[1]];
    }
  }

  /** A file setting survives when the command line does not name it. */
  lemma FileOverridesDefaults(file: seq<Record>, argv: seq<string>, atoi: string -> int, name: string)
    requires |argv| == 1 && HasFloat(file, name)
    ensures FloatOf(Loaded(file, argv, atoi), name) == LastFloat(file, name, 0.0)
  {
    var d := Defaults();
    StoreAllFloat(d, file, name);
    LastFloatPrior(file, name, FloatOf(d, name), 0.0);
  }

  // ---------------------------------------------------- the default count

  /** The command line names the boid-count exponent only from `argv[2]` on. */
  lemma CliKeepsCount(argv: seq<string>, atoi: string -> int)
    requires |argv| <= 2
    ensures !HasInt(CliRecords(argv, atoi), BOID_COUNT)
  {
  }

  /** As written: with neither a file entry nor `argv[2]`, the built-in
      `boidCount` of 1024 reaches the engines, which shift a 32-bit signed
      `1` by it: every exponent from 31 on is undefined. */
  lemma DefaultCountOverflows(file: seq<Record>, argv: seq<string>, atoi: string -> int)
    requires |argv| <= 2 && !HasInt(file, BOID_COUNT)
    ensures IntOf(Loaded(file, argv, atoi), BOID_COUNT) == 1024
    ensures !(0 <= IntOf(Loaded(file, argv, atoi), BOID_COUNT) < 31)
  {
    var m := StoreAll(Defaults(), file);
    CliKeepsCount(argv, atoi);
    StoreAllInt(m, CliRecords(argv, atoi), BOID_COUNT);
    LastIntPrior(CliRecords(argv, atoi), BOID_COUNT, IntOf(m, BOID_COUNT), 0);
    StoreAllInt(Defaults(), file, BOID_COUNT);
    LastIntPrior(file, BOID_COUNT, IntOf(Defaults(), BOID_COUNT), 0);
  }

  /** The built-in settings with the exponent the command-line parsing
      starts from (`boidsCountPower = 10`, that is 1024 boids). */
  function IntendedDefaults(): Maps {
    Defaults().(ints := Defaults().ints[BOID_COUNT := 10])
  }

  /** `Loaded` on the corrected built-in settings. */
  function LoadedIntended(file: seq<Record>, argv: seq<string>, atoi: string -> int): Maps {
    StoreAll(StoreAll(IntendedDefaults(), file), CliRecords(argv, atoi))
  }

  /** Corrected: without a file entry or `argv[2]` the exponent is 10, which
      every engine constructor accepts. */
  lemma IntendedCountFits(file: seq<Record>, argv: seq<string>, atoi: string -> int)
    requires |argv| <= 2 && !HasInt(file, BOID_COUNT)
    ensures IntOf(LoadedIntended(file, argv, atoi), BOID_COUNT) == 10
    ensures 0 <= IntOf(LoadedIntended(file, argv, atoi), BOID_COUNT) < 31
  {
    var m := StoreAll(IntendedDefaults(), file);
    CliKeepsCount(argv, atoi);
    StoreAllInt(m, CliRecords(argv, atoi), BOID_COUNT);
    LastIntPrior(CliRecords(argv, atoi), BOID_COUNT, IntOf(m, BOID_COUNT), 0);
    StoreAllInt(IntendedDefaults(), file, BOID_COUNT);
    LastIntPrior(file, BOID_COUNT, IntOf(IntendedDefaults(), BOID_COUNT), 0);
  }

  /** The correction changes nothing but the default exponent: every other
      setting, and the exponent whenever the file or `argv[2]` gives one,
      is what `Loaded` yields. */
  lemma IntendedAgrees(file: seq<Record>, argv: seq<string>, atoi: string -> int, name: string)
    ensures name != BOID_COUNT || HasInt(file, BOID_COUNT) || HasInt(CliRecords(argv, atoi), BOID_COUNT) ==>
      IntOf(LoadedIntended(file, argv, atoi), name) == IntOf(Loaded(file, argv, atoi), name)
    ensures FloatOf(LoadedIntended(file, argv, atoi), name) == FloatOf(Loaded(file, argv, atoi), name)
    ensures VecOf(LoadedIntended(file, argv, atoi), name) == VecOf(Loaded(file, argv, atoi), name)
  {
    var cli := CliRecords(argv, atoi);
    var mi, m := StoreAll(IntendedDefaults(), file), StoreAll(Defaults(), file);
    StoreAllInt(mi, cli, name);
    StoreAllInt(m, cli, name);
    LastIntPrior(cli, name, IntOf(mi, name), IntOf(m, name));
    StoreAllInt(IntendedDefaults(), file, name);
    StoreAllInt(Defaults(), file, name);
    LastIntPrior(file, name, IntOf(IntendedDefaults(), name), IntOf(Defaults(), name));
    StoreAllFloat(mi, cli, name);
    StoreAllFloat(m, cli, name);
    StoreAllFloat(IntendedDefaults(), file, name);
    StoreAllFloat(Defaults(), file, name);
    StoreAllVec(mi, cli, name);
    StoreAllVec(m, cli, name);
    StoreAllVec(IntendedDefaults(), file, name);
    StoreAllVec(Defaults(), file, name);
  }

  /** Every derived grid component is at least 1. */
  lemma GridPositive(file: seq<Record>, argv: seq<string>, atoi: string -> int)
    requires FloatOf(Loaded(file, argv, atoi), "flockingZone") != 0.0
    ensures var g := VecOf(Configured(file, argv, atoi), "grid");
      g.x >= 1.0 && g.y >= 1.0 && g.z >= 1.0
  {
  }

  // -------------------------------------------------------------- the path

  predicate Separator(c: char) {
    c == '/' || c == '\\'
  }

  /** The length of the directory part of `s`: one past its last separator,
      or 0 without one. */
  function DirLength(s: string, n: int): (r: int)
    requires 0 <= n <= |s|
    ensures 0 <= r <= n
    ensures r > 0 ==> Separator(s[r - 1])
    ensures forall k :: r <= k < n ==> !Separator(s[k])
  {
    if n == 0 then 0
    else if Separator(s[n - 1]) then n
    else DirLength(s, n - 1)
  }

  // ------------------------------------------------------------ the class

  /** `Environment`: the three maps and the directory of the executable. */
  class Environment {
    var mapInt: map<string, int>
    var mapFloat: map<string, real>
    var mapVec: map<string, Vec3>
    var path: string

    function Contents(): Maps
      reads this`mapInt, this`mapFloat, this`mapVec
    {
      Maps(mapInt, mapFloat, mapVec)
    }

    /** `addRecord(name, int)`. */
    method AddInt(name: string, value: int)
      modifies this`mapInt
      ensures Contents() == Store(old(Contents()), IntRecord(name, value))
    {
      mapInt := mapInt[name := value];
    }

    /** `addRecord(name, float)`. */
    method AddFloat(name: string, value: real)
      modifies this`mapFloat
      ensures Contents() == Store(old(Contents()), FloatRecord(name, value))
    {
      mapFloat := mapFloat[name := value];
    }

    /** `addRecord(name, x, y, z)`. */
    method AddVec(name: string, value: Vec3)
      modifies this`mapVec
      ensures Contents() == Store(old(Contents()), VecRecord(name, value))
    {
      mapVec := mapVec[name := value];
    }

    method Add(r: Record)
      modifies this`mapInt, this`mapFloat, this`mapVec
      ensures Contents() == Store(old(Contents()), r)
    {
      match r
      case IntRecord(n, i) => AddInt(n, i);
      case FloatRecord(n, f) => AddFloat(n, f);
      case VecRecord(n, v) => AddVec(n, v);
    }

    /** The records applied one after the other. */
    method AddAll(rs: seq<Record>)
      modifies this`mapInt, this`mapFloat, this`mapVec
      ensures Contents() == StoreAll(old(Contents()), rs)
    {
      var i := 0;
      while i < |rs|
        invariant 0 <= i <= |rs|
        invariant StoreAll(Contents(), rs[i..]) == StoreAll(old(Contents()), rs)
      {
        assert rs[i..][1..] == rs[i + 1..];
        Add(rs[i]);
        i := i + 1;
      }
    }

    function GetInt(name: string): int
      reads this`mapInt, this`mapFloat, this`mapVec
    {
      IntOf(Contents(), name)
    }

    function GetFloat(name: string): real
      reads this`mapInt, this`mapFloat, this`mapVec
    {
      FloatOf(Contents(), name)
    }

    function GetVec(name: string): Vec3
      reads this`mapInt, this`mapFloat, this`mapVec
    {
      VecOf(Contents(), name)
    }

    /** The scan of `argv[0]`: `j` is one past the last separator seen. */
    static method ScanPath(s: string) returns (path: string)
      ensures path == s[..DirLength(s, |s|)]
    {
      var i := 0;
      var j := 0;
      while i < |s|
        invariant 0 <= i <= |s|
        invariant j == DirLength(s, i)
      {
        if Separator(s[i]) {
          j := i + 1;
        }
        i := i + 1;
      }
      path := s[..j];
    }

    /** The first step of the constructor, in the order it records them. */
    method AddDefaults()
      requires Contents() == Empty
      modifies this`mapInt, this`mapFloat, this`mapVec
      ensures Contents() == Defaults()
    {
      AddInt("appType", 0);
      AddInt("boidCount", 1024);
      AddVec("spaceLow", Vec3(-1000.0, -1000.0, -1000.0));
      AddVec("spaceHigh", Vec3(1000.0, 1000.0, 1000.0));
      AddInt("dark", 1);
      AddFloat("flockingZone", 40.0);
      AddFloat("speedFactor", 2.0);
      AddFloat("forceLimit", 0.1);
      AddInt("treeMemoryLimit", 4096);
      AddFloat("boidSize", 2.0);
    }

    /** The last step of the constructor: the grid resolution. */
    method AddGrid()
      requires FloatOf(Contents(), "flockingZone") != 0.0
      modifies this`mapVec
      ensures Contents() == Store(old(Contents()), VecRecord("grid", Grid(old(Contents()))))
    {
      var space := Sub(GetVec("spaceHigh"), GetVec("spaceLow"));
      var zone := 2.0 * GetFloat("flockingZone");
      AddVec("grid", Vec3(GridComponent(space.x, zone) as real, GridComponent(space.y, zone) as real,
                          GridComponent(space.z, zone) as real));
    }

    /** `Environment(argc, argv)`: the defaults, the path of the executable,
        the records of the settings file (already read), the command-line
        overrides, and the grid. */
    constructor(argv: seq<string>, file: seq<Record>, atoi: string -> int)
      requires |argv| >= 1
      requires FloatOf(Loaded(file, argv, atoi), "flockingZone") != 0.0
      ensures Contents() == Configured(file, argv, atoi)
      ensures path == argv[0][..DirLength(argv[0], |argv[0]|)]
    {
      mapInt, mapFloat, mapVec := map[], map[], map[];
      path := [];
      new;
      AddDefaults();
      path := ScanPath(argv[0]);
      AddAll(file);
      AddAll(CliRecords(argv, atoi));
      AddGrid();
    }
  }
}
