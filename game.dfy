/**
 * Decoding of the rules document into the integer-keyed rule tables,
 * and the game record that holds them.
 *
 * Each table builder walks the members of a JSON object (or the items of
 * an array) and inserts into a fresh map or set, so a later member with
 * the same key overwrites an earlier one. The loops are methods; the
 * pure function `Tabulate` is the reference they are held to, and the
 * lemmas about `Tabulate` say what the tables contain.
 */
module Game {
  import opened Json
  import opened Rules

  // ---------------------------------------------------------------------
  // Member names read as ints: `int i = 0; std::istringstream(s) >> i;`
  // ---------------------------------------------------------------------

  const IntMin: int := -0x8000_0000
  const IntMax: int := 0x7fff_ffff

  /** The characters `isspace` accepts in the "C" locale. */
  predicate IsSpace(c: char)
  {
    c == ' ' || c == '\t' || c == '\n' || c == '\U{B}' || c == '\U{C}' || c == '\r'
  }

  predicate IsDigit(c: char)
  {
    '0' <= c <= '9'
  }

  predicate AllDigits(d: string)
  {
    forall i :: 0 <= i < |d| ==> IsDigit(d[i])
  }

  function SkipSpaces(s: string): (r: string)
    ensures |r| <= |s| && r == s[|s| - |r|..]
    ensures r == [] || !IsSpace(r[0])
  {
    if s != [] && IsSpace(s[0]) then SkipSpaces(s[1..]) else s
  }

  /** The longest prefix of `s` made of decimal digits. */
  function DigitRun(s: string): (d: string)
    ensures |d| <= |s| && d == s[..|d|]
    ensures AllDigits(d)
    ensures |d| < |s| ==> !IsDigit(s[|d|])
  {
    if s != [] && IsDigit(s[0]) then [s[0]] + DigitRun(s[1..]) else []
  }

  function DigitsValue(d: string): nat
    requires AllDigits(d)
  {
    if d == [] then 0 else DigitsValue(d[..|d| - 1]) * 10 + (d[|d| - 1] as int - '0' as int)
  }

  function Clamp(x: int): int
  {
    if x < IntMin then IntMin else if x > IntMax then IntMax else x
  }

  /**
   * The int that `istringstream >> int` extracts from a member name:
   * white space is skipped, then an optional sign and the longest run of
   * decimal digits are read and whatever follows is ignored. When no
   * digit follows a sign or other text, extraction fails and stores 0; for
   * an empty or all-space name nothing is extracted, and `i` keeps its
   * initial 0. A value outside the 32-bit range is replaced by the nearest
   * end of that range (the C++11 rules of num_get, stage 3).
   */
  function ReadInt(s: string): (i: int)
    ensures IntMin <= i <= IntMax
  {
    ReadSigned(SkipSpaces(s))
  }

  function ReadSigned(t: string): (i: int)
    ensures IntMin <= i <= IntMax
  {
    if t != [] && t[0] == '-' then ReadMagnitude(t[1..], true)
    else if t != [] && t[0] == '+' then ReadMagnitude(t[1..], false)
    else ReadMagnitude(t, false)
  }

  function ReadMagnitude(u: string, negative: bool): (i: int)
    ensures IntMin <= i <= IntMax
  {
    var d := DigitRun(u);
    if d == [] then 0
    else var m: int := DigitsValue(d); Clamp(if negative then -m else m)
  }

  /** Decimal notation of a natural number, most significant digit first. */
  function NatDigits(n: nat): (d: string)
    ensures d != [] && AllDigits(d)
  {
    var last := [(n % 10 + '0' as int) as char];
    if n < 10 then last else NatDigits(n / 10) + last
  }

  /** Decimal notation of an int, as a member name would spell the key. */
  function Decimal(k: int): string
  {
    if k < 0 then "-" + NatDigits(-k) else NatDigits(k)
  }

  lemma {:induction false} NatDigitsValue(n: nat)
    ensures DigitsValue(NatDigits(n)) == n
  {
    var d := NatDigits(n);
    if n >= 10 {
      assert d[..|d| - 1] == NatDigits(n / 10);
      NatDigitsValue(n / 10);
    }
  }

  lemma DigitRunOfDigits(d: string)
    requires AllDigits(d)
    ensures DigitRun(d) == d
  {
  }

  /** A bare run of digits reads as its value, clamped to the 32-bit range. */
  lemma {:induction false} ReadMagnitudeOfDigits(d: string, negative: bool)
    requires d != [] && AllDigits(d)
    ensures ReadMagnitude(d, negative) == Clamp(if negative then -(DigitsValue(d) as int) else DigitsValue(d))
  {
    DigitRunOfDigits(d);
  }

  /** A name that starts with a digit is read without sign. */
  lemma {:induction false} ReadIntOfUnsigned(d: string)
    requires d != [] && IsDigit(d[0])
    ensures ReadInt(d) == ReadMagnitude(d, false)
  {
    assert !IsSpace(d[0]) && d[0] != '-' && d[0] != '+';
    assert SkipSpaces(d) == d;
  }

  /** A name that is '-' followed by a digit is read as a negative magnitude. */
  lemma {:induction false} ReadIntOfMinus(d: string)
    requires d != [] && IsDigit(d[0])
    ensures ReadInt(['-'] + d) == ReadMagnitude(d, true)
  {
    var s := ['-'] + d;
    assert SkipSpaces(s) == s;
    assert s[1..] == d;
  }

  /** A key spelled in decimal reads back as that key. */
  lemma {:induction false} ReadIntDecimal(k: int)
    requires IntMin <= k <= IntMax
    ensures ReadInt(Decimal(k)) == k
  {
    var n: nat := if k < 0 then -k else k;
    var d := NatDigits(n);
    NatDigitsValue(n);
    ReadMagnitudeOfDigits(d, k < 0);
    assert IsDigit(d[0]);
    if k < 0 {
      assert Decimal(k) == ['-'] + d;
      ReadIntOfMinus(d);
    } else {
      ReadIntOfUnsigned(d);
    }
  }

  /** A member name with no digit at all is read as key 0. */
  lemma ReadIntWithoutDigits(s: string)
    requires forall i :: 0 <= i < |s| ==> !IsDigit(s[i])
    ensures ReadInt(s) == 0
  {
    var t := SkipSpaces(s);
    var u := if t != [] && (t[0] == '-' || t[0] == '+') then t[1..] else t;
    assert u == s[|s| - |u|..];
    if u != [] {
      assert u[0] == s[|s| - |u|];
    }
  }

  // ---------------------------------------------------------------------
  // Tables built by inserting in a loop: the last insertion for a key wins
  // ---------------------------------------------------------------------

  /**
   * The map obtained by `result[key(x)] = val(x)` for every `x` of `xs`,
   * in order.
   */
  function Tabulate<X, V>(xs: seq<X>, key: X -> int, val: X -> V): map<int, V>
  {
    if xs == [] then map[]
    else Tabulate(xs[..|xs| - 1], key, val)[key(xs[|xs| - 1]) := val(xs[|xs| - 1])]
  }

  /** One more insertion extends the table by the next element. */
  lemma TabulateStep<X, V>(xs: seq<X>, k: nat, key: X -> int, val: X -> V)
    requires k < |xs|
    ensures Tabulate(xs[..k + 1], key, val) == Tabulate(xs[..k], key, val)[key(xs[k]) := val(xs[k])]
  {
    assert xs[..k + 1][..k] == xs[..k];
  }

  /**
   * `t` holds exactly the keys of `xs`, and under each key the value of the
   * last element of `xs` with that key.
   */
  ghost predicate LastWins<X, V>(t: map<int, V>, xs: seq<X>, key: X -> int, val: X -> V)
  {
    && (forall k :: k in t <==> exists i :: 0 <= i < |xs| && key(xs[i]) == k)
    && (forall i :: 0 <= i < |xs| && (forall j :: i < j < |xs| ==> key(xs[j]) != key(xs[i])) ==>
          key(xs[i]) in t && t[key(xs[i])] == val(xs[i]))
  }

  /** The last element with a given key is the one whose value is kept. */
  lemma LastWinsAt<X, V>(t: map<int, V>, xs: seq<X>, key: X -> int, val: X -> V, i: int)
    requires LastWins(t, xs, key, val)
    requires 0 <= i < |xs| && forall j :: i < j < |xs| ==> key(xs[j]) != key(xs[i])
    ensures key(xs[i]) in t && t[key(xs[i])] == val(xs[i])
  {
  }

  lemma {:induction false} TabulateLastWins<X, V>(xs: seq<X>, key: X -> int, val: X -> V)
    ensures LastWins(Tabulate(xs, key, val), xs, key, val)
  {
    if xs != [] {
      var n := |xs|;
      var p := xs[..n - 1];
      var x := xs[n - 1];
      TabulateLastWins(p, key, val);
      var t := Tabulate(xs, key, val);
      assert t == Tabulate(p, key, val)[key(x) := val(x)];
      forall k
        ensures k in t <==> exists i :: 0 <= i < n && key(xs[i]) == k
      {
        if k in t && k != key(x) {
          var i :| 0 <= i < |p| && key(p[i]) == k;
          assert key(xs[i]) == k;
        }
        if exists i :: 0 <= i < n && key(xs[i]) == k {
          var i :| 0 <= i < n && key(xs[i]) == k;
          if i < n - 1 {
            assert key(p[i]) == k;
          }
        }
      }
      forall i | 0 <= i < n && (forall j :: i < j < n ==> key(xs[j]) != key(xs[i]))
        ensures key(xs[i]) in t && t[key(xs[i])] == val(xs[i])
      {
        if i < n - 1 {
          assert p[i] == xs[i];
          forall j | i < j < |p|
            ensures key(p[j]) != key(p[i])
          {
            assert p[j] == xs[j];
          }
        }
      }
    }
  }

  /** When the key of every element is read off its own value, every entry sits under its own key. */
  lemma {:induction false} TabulateSelfKeyed<X, V>(xs: seq<X>, key: X -> int, val: X -> V, idOf: V -> int)
    requires forall i :: 0 <= i < |xs| ==> key(xs[i]) == idOf(val(xs[i]))
    ensures forall k :: k in Tabulate(xs, key, val) ==> idOf(Tabulate(xs, key, val)[k]) == k
  {
    if xs != [] {
      TabulateSelfKeyed(xs[..|xs| - 1], key, val, idOf);
    }
  }

  // ---------------------------------------------------------------------
  // parseIntIntMap, parseIntIntMapWithNulls, parseIntOrNull, parseIntSet
  // ---------------------------------------------------------------------

  /** `parseIntOrNull`: a JSON null stands for `nullValue`. */
  function ParseIntOrNull(v: Json, nullValue: int): (r: int)
    ensures v.Null? ==> r == nullValue
    ensures v.Number? ==> r == v.n
    ensures !v.Null? && !v.Number? ==> r == 0
  {
    if v.Null? then nullValue else NumberValue(v)
  }

  function NumberAt(v: Json): string -> int
  {
    name => NumberValue(Get(v, name))
  }

  function NumberOrNullAt(v: Json, nullValue: int): string -> int
  {
    name => ParseIntOrNull(Get(v, name), nullValue)
  }

  /** What `parseIntIntMap` returns. */
  function IntIntMapOf(v: Json): map<int, int>
  {
    Tabulate(Properties(v), ReadInt, NumberAt(v))
  }

  /** What `parseIntIntMapWithNulls` returns. */
  function IntIntMapWithNullsOf(v: Json, nullValue: int): map<int, int>
  {
    Tabulate(Properties(v), ReadInt, NumberOrNullAt(v, nullValue))
  }

  method ParseIntIntMap(v: Json) returns (result: map<int, int>)
    ensures result == IntIntMapOf(v)
    ensures LastWins(result, Properties(v), ReadInt, NumberAt(v))
  {
    var props := Properties(v);
    result := map[];
    var k := 0;
    while k < |props|
      invariant 0 <= k <= |props|
      invariant result == Tabulate(props[..k], ReadInt, NumberAt(v))
    {
      var s := props[k];
      var i := ReadInt(s);
      result := result[i := NumberValue(Get(v, s))];
      TabulateStep(props, k, ReadInt, NumberAt(v));
      k := k + 1;
    }
    assert props[..k] == props;
    TabulateLastWins(props, ReadInt, NumberAt(v));
  }

  method ParseIntIntMapWithNulls(v: Json, nullValue: int) returns (result: map<int, int>)
    ensures result == IntIntMapWithNullsOf(v, nullValue)
    ensures LastWins(result, Properties(v), ReadInt, NumberOrNullAt(v, nullValue))
  {
    var props := Properties(v);
    result := map[];
    var k := 0;
    while k < |props|
      invariant 0 <= k <= |props|
      invariant result == Tabulate(props[..k], ReadInt, NumberOrNullAt(v, nullValue))
    {
      var s := props[k];
      var i := ReadInt(s);
      var prop := Get(v, s);
      TabulateStep(props, k, ReadInt, NumberOrNullAt(v, nullValue));
      if prop.Null? {
        result := result[i := nullValue];
      } else {
        result := result[i := NumberValue(prop)];
      }
      k := k + 1;
    }
    assert props[..k] == props;
    TabulateLastWins(props, ReadInt, NumberOrNullAt(v, nullValue));
  }

  /** The numbers of a sequence of JSON values, as inserted one by one into a set. */
  function NumbersOf(items: seq<Json>): set<int>
  {
    if items == [] then {} else NumbersOf(items[..|items| - 1]) + {NumberValue(items[|items| - 1])}
  }

  /** What `parseIntSet` returns. */
  function IntSetOf(v: Json): set<int>
  {
    if v.Array? then NumbersOf(v.items) else {}
  }

  lemma {:induction false} NumbersOfContents(items: seq<Json>)
    ensures forall n :: n in NumbersOf(items) <==> exists i :: 0 <= i < |items| && NumberValue(items[i]) == n
    ensures |NumbersOf(items)| <= |items|
  {
    if items != [] {
      var p := items[..|items| - 1];
      NumbersOfContents(p);
      forall n | n in NumbersOf(p)
        ensures exists i :: 0 <= i < |items| && NumberValue(items[i]) == n
      {
        var i :| 0 <= i < |p| && NumberValue(p[i]) == n;
        assert items[i] == p[i];
      }
      forall n | exists i :: 0 <= i < |items| && NumberValue(items[i]) == n
        ensures n in NumbersOf(items)
      {
        var i :| 0 <= i < |items| && NumberValue(items[i]) == n;
        if i < |p| {
          assert p[i] == items[i];
        }
      }
    }
  }

  method ParseIntSet(v: Json) returns (result: set<int>)
    ensures result == IntSetOf(v)
    ensures forall n :: n in result <==> exists i :: 0 <= i < Size(v) && NumberValue(At(v, i)) == n
    ensures |result| <= Size(v)
  {
    result := {};
    var i := 0;
    while i < Size(v)
      invariant 0 <= i <= Size(v)
      invariant v.Array? ==> result == NumbersOf(v.items[..i])
      invariant !v.Array? ==> result == {}
    {
      result := result + {NumberValue(At(v, i))};
      assert v.items[..i + 1][..i] == v.items[..i];
      i := i + 1;
    }
    if v.Array? {
      assert v.items[..i] == v.items;
      NumbersOfContents(v.items);
    }
    IntSetOfContents(v);
  }

  // ---------------------------------------------------------------------
  // parseAll: one table per section, keyed by each record's own id
  // ---------------------------------------------------------------------

  function EntityAt<T>(v: Json, parse: Json -> T): string -> T
  {
    name => parse(Get(v, name))
  }

  function IdAt<T>(v: Json, parse: Json -> T, idOf: T -> int): string -> int
  {
    name => idOf(parse(Get(v, name)))
  }

  /** What `parseAll<T>` returns, `parse` and `idOf` standing for `parse<T>` and the field `id`. */
  function AllOf<T>(v: Json, parse: Json -> T, idOf: T -> int): map<int, T>
  {
    Tabulate(Properties(v), IdAt(v, parse, idOf), EntityAt(v, parse))
  }

  /**
   * A table of records decoded from the members of `section`: it is keyed
   * by the records' own ids (the member names play no part), holds a key
   * iff some member decodes to a record with that id, and under it the
   * record of the last such member.
   */
  ghost predicate KeyedById<T>(table: map<int, T>, section: Json, parse: Json -> T, idOf: T -> int)
  {
    && LastWins(table, Properties(section), IdAt(section, parse, idOf), EntityAt(section, parse))
    && forall k :: k in table ==> idOf(table[k]) == k
  }

  lemma {:induction false} AllOfKeyedById<T>(v: Json, parse: Json -> T, idOf: T -> int)
    ensures KeyedById(AllOf(v, parse, idOf), v, parse, idOf)
  {
    var xs := Properties(v);
    TabulateLastWins(xs, IdAt(v, parse, idOf), EntityAt(v, parse));
    TabulateSelfKeyed(xs, IdAt(v, parse, idOf), EntityAt(v, parse), idOf);
  }

  method ParseAll<T>(v: Json, parse: Json -> T, idOf: T -> int) returns (result: map<int, T>)
    ensures result == AllOf(v, parse, idOf)
    ensures KeyedById(result, v, parse, idOf)
  {
    result := map[];
    var ids := Properties(v);
    var k := 0;
    while k < |ids|
      invariant 0 <= k <= |ids|
      invariant result == Tabulate(ids[..k], IdAt(v, parse, idOf), EntityAt(v, parse))
    {
      var id := ids[k];
      var json := Get(v, id);
      var t := parse(json);
      result := result[idOf(t) := t];
      TabulateStep(ids, k, IdAt(v, parse, idOf), EntityAt(v, parse));
      k := k + 1;
    }
    assert ids[..k] == ids;
    AllOfKeyedById(v, parse, idOf);
  }

  // ---------------------------------------------------------------------
  // parse<T>: one record per kind, read field by field
  // ---------------------------------------------------------------------

  function ParseWeapon(v: Json): (r: Weapon)
    ensures Get(v, "id").Number? ==> r.id == Get(v, "id").n
    ensures Get(v, "name").String? ==> r.name == Get(v, "name").s
    ensures Get(v, "requireDeployed").Bool? ==> r.requireDeployed == Get(v, "requireDeployed").b
    ensures !Get(v, "requireDeployed").Bool? ==> !r.requireDeployed
  {
    Weapon(
      id := NumberValue(Get(v, "id")),
      name := StringValue(Get(v, "name")),
      requireDeployed := BooleanValue(Get(v, "requireDeployed")),
      rangeMap := IntIntMapOf(Get(v, "rangeMap")),
      powerMap := IntIntMapOf(Get(v, "powerMap")))
  }

  function ParseArmor(v: Json): (r: Armor)
    ensures Get(v, "id").Number? ==> r.id == Get(v, "id").n
    ensures Get(v, "name").String? ==> r.name == Get(v, "name").s
  {
    Armor(NumberValue(Get(v, "id")), StringValue(Get(v, "name")))
  }

  function ParseUnitClass(v: Json): (r: UnitClass)
    ensures Get(v, "id").Number? ==> r.id == Get(v, "id").n
    ensures Get(v, "name").String? ==> r.name == Get(v, "name").s
  {
    UnitClass(NumberValue(Get(v, "id")), StringValue(Get(v, "name")))
  }

  function ParseTerrainFlag(v: Json): (r: TerrainFlag)
    ensures Get(v, "id").Number? ==> r.id == Get(v, "id").n
    ensures Get(v, "name").String? ==> r.name == Get(v, "name").s
  {
    TerrainFlag(NumberValue(Get(v, "id")), StringValue(Get(v, "name")))
  }

  function ParseTerrainType(v: Json): (r: TerrainType)
    ensures Get(v, "id").Number? ==> r.id == Get(v, "id").n
    ensures Get(v, "name").String? ==> r.name == Get(v, "name").s
  {
    TerrainType(
      id := NumberValue(Get(v, "id")),
      name := StringValue(Get(v, "name")),
      buildTypes := IntSetOf(Get(v, "buildTypes")),
      repairTypes := IntSetOf(Get(v, "repairTypes")),
      flags := IntSetOf(Get(v, "flags")))
  }

  function ParseMovementType(v: Json): MovementType
  {
    MovementType(
      id := NumberValue(Get(v, "id")),
      name := StringValue(Get(v, "name")),
      effectMap := IntIntMapWithNullsOf(Get(v, "effectMap"), -1))
  }

  function ParseUnitFlag(v: Json): (r: UnitFlag)
    ensures Get(v, "id").Number? ==> r.id == Get(v, "id").n
    ensures Get(v, "name").String? ==> r.name == Get(v, "name").s
  {
    UnitFlag(NumberValue(Get(v, "id")), StringValue(Get(v, "name")))
  }

  /** Note: the class is read from the "id" member, as the decoder does. */
  function ParseUnitType(v: Json): UnitType
  {
    UnitType(
      id := NumberValue(Get(v, "id")),
      name := StringValue(Get(v, "name")),
      unitClass := NumberValue(Get(v, "id")),
      price := NumberValue(Get(v, "price")),
      primaryWeapon := ParseIntOrNull(Get(v, "primaryWeapon"), -1),
      secondaryWeapon := ParseIntOrNull(Get(v, "secondaryWeapon"), -1),
      armor := NumberValue(Get(v, "armor")),
      defenseMap := IntIntMapOf(Get(v, "defenseMap")),
      movementType := NumberValue(Get(v, "movementType")),
      movement := NumberValue(Get(v, "movement")),
      carryClasses := IntSetOf(Get(v, "carryClasses")),
      carryNum := NumberValue(Get(v, "carryNum")),
      flags := IntSetOf(Get(v, "flags")))
  }

  /** `parse<Rules>`: each table from its named section. */
  function ParseRules(v: Json): Rules
  {
    Rules(
      weapons := AllOf(Get(v, "weapons"), ParseWeapon, WeaponId),
      armors := AllOf(Get(v, "armors"), ParseArmor, ArmorId),
      unitClasses := AllOf(Get(v, "unitClasses"), ParseUnitClass, UnitClassId),
      terrainFlags := AllOf(Get(v, "terrainFlags"), ParseTerrainFlag, TerrainFlagId),
      terrainTypes := AllOf(Get(v, "terrains"), ParseTerrainType, TerrainTypeId),
      movementTypes := AllOf(Get(v, "movementTypes"), ParseMovementType, MovementTypeId),
      unitFlags := AllOf(Get(v, "unitFlags"), ParseUnitFlag, UnitFlagId),
      unitTypes := AllOf(Get(v, "units"), ParseUnitType, UnitTypeId))
  }

  /**
   * Each of the eight tables comes from its own section, "terrains" and
   * "units" included, and is keyed by its records' own ids.
   */
  lemma {:induction false} RulesFromSections(v: Json)
    ensures var r := ParseRules(v);
      && KeyedById(r.weapons, Get(v, "weapons"), ParseWeapon, WeaponId)
      && KeyedById(r.armors, Get(v, "armors"), ParseArmor, ArmorId)
      && KeyedById(r.unitClasses, Get(v, "unitClasses"), ParseUnitClass, UnitClassId)
      && KeyedById(r.terrainFlags, Get(v, "terrainFlags"), ParseTerrainFlag, TerrainFlagId)
      && KeyedById(r.terrainTypes, Get(v, "terrains"), ParseTerrainType, TerrainTypeId)
      && KeyedById(r.movementTypes, Get(v, "movementTypes"), ParseMovementType, MovementTypeId)
      && KeyedById(r.unitFlags, Get(v, "unitFlags"), ParseUnitFlag, UnitFlagId)
      && KeyedById(r.unitTypes, Get(v, "units"), ParseUnitType, UnitTypeId)
  {
    AllOfKeyedById(Get(v, "weapons"), ParseWeapon, WeaponId);
    AllOfKeyedById(Get(v, "armors"), ParseArmor, ArmorId);
    AllOfKeyedById(Get(v, "unitClasses"), ParseUnitClass, UnitClassId);
    AllOfKeyedById(Get(v, "terrainFlags"), ParseTerrainFlag, TerrainFlagId);
    AllOfKeyedById(Get(v, "terrains"), ParseTerrainType, TerrainTypeId);
    AllOfKeyedById(Get(v, "movementTypes"), ParseMovementType, MovementTypeId);
    AllOfKeyedById(Get(v, "unitFlags"), ParseUnitFlag, UnitFlagId);
    AllOfKeyedById(Get(v, "units"), ParseUnitType, UnitTypeId);
  }

  /**
   * A weapon's range and power tables are filled as `parseIntIntMap` fills
   * them: a key for each member name read as an integer, holding the number
   * of the last member with that key.
   */
  lemma {:induction false} WeaponMaps(v: Json)
    ensures var w := ParseWeapon(v);
      && LastWins(w.rangeMap, Properties(Get(v, "rangeMap")), ReadInt, NumberAt(Get(v, "rangeMap")))
      && LastWins(w.powerMap, Properties(Get(v, "powerMap")), ReadInt, NumberAt(Get(v, "powerMap")))
  {
    TabulateLastWins(Properties(Get(v, "rangeMap")), ReadInt, NumberAt(Get(v, "rangeMap")));
    TabulateLastWins(Properties(Get(v, "powerMap")), ReadInt, NumberAt(Get(v, "powerMap")));
  }

  /** The table `parseIntSet` returns holds exactly the numbers of the array's items. */
  lemma {:induction false} IntSetOfContents(a: Json)
    ensures forall n :: n in IntSetOf(a) <==> exists i :: 0 <= i < Size(a) && NumberValue(At(a, i)) == n
  {
    if a.Array? {
      NumbersOfContents(a.items);
      forall j | 0 <= j < Size(a)
        ensures At(a, j) == a.items[j]
      {
      }
    }
  }

  /**
   * A terrain type's build, repair and flag sets each hold exactly the
   * numbers listed in the member of the same name.
   */
  lemma {:induction false} TerrainTypeSets(v: Json)
    ensures var t := ParseTerrainType(v);
      && (forall n :: n in t.buildTypes <==>
            exists i :: 0 <= i < Size(Get(v, "buildTypes")) && NumberValue(At(Get(v, "buildTypes"), i)) == n)
      && (forall n :: n in t.repairTypes <==>
            exists i :: 0 <= i < Size(Get(v, "repairTypes")) && NumberValue(At(Get(v, "repairTypes"), i)) == n)
      && (forall n :: n in t.flags <==>
            exists i :: 0 <= i < Size(Get(v, "flags")) && NumberValue(At(Get(v, "flags"), i)) == n)
  {
    IntSetOfContents(Get(v, "buildTypes"));
    IntSetOfContents(Get(v, "repairTypes"));
    IntSetOfContents(Get(v, "flags"));
  }

  /**
   * A unit type's class is its own id, and a null weapon slot reads as -1
   * (no weapon) while a number is taken as it is.
   */
  lemma {:induction false} UnitTypeFields(v: Json)
    ensures var u := ParseUnitType(v);
      && u.unitClass == u.id
      && (Get(v, "primaryWeapon").Null? ==> u.primaryWeapon == -1)
      && (Get(v, "secondaryWeapon").Null? ==> u.secondaryWeapon == -1)
      && (Get(v, "primaryWeapon").Number? ==> u.primaryWeapon == Get(v, "primaryWeapon").n)
      && (Get(v, "secondaryWeapon").Number? ==> u.secondaryWeapon == Get(v, "secondaryWeapon").n)
  {
  }

  /**
   * The table of `parseIntIntMapWithNulls` holds a key for each member
   * name read as an integer and, under it, the value of the last member
   * with that key: `nullValue` when that member is null, its number
   * otherwise.
   */
  lemma {:induction false} IntIntMapWithNullsContents(e: Json, nullValue: int)
    ensures var t := IntIntMapWithNullsOf(e, nullValue); var names := Properties(e);
      && (forall k :: k in t <==> exists i :: 0 <= i < |names| && ReadInt(names[i]) == k)
      && (forall i :: 0 <= i < |names| && (forall j :: i < j < |names| ==> ReadInt(names[j]) != ReadInt(names[i])) ==>
            ReadInt(names[i]) in t && t[ReadInt(names[i])] == ParseIntOrNull(Get(e, names[i]), nullValue))
  {
    var names := Properties(e);
    var val := NumberOrNullAt(e, nullValue);
    var t := IntIntMapWithNullsOf(e, nullValue);
    TabulateLastWins(names, ReadInt, val);
    forall i | 0 <= i < |names| && (forall j :: i < j < |names| ==> ReadInt(names[j]) != ReadInt(names[i]))
      ensures ReadInt(names[i]) in t && t[ReadInt(names[i])] == ParseIntOrNull(Get(e, names[i]), nullValue)
    {
      LastWinsAt(t, names, ReadInt, val, i);
    }
  }

  /**
   * A movement type's cost table: a key for each member of "effectMap"
   * and, under it, the cost from the last member with that key, -1
   * (impassable) when that member is null.
   */
  lemma {:induction false} MovementEffects(v: Json)
    ensures var e := Get(v, "effectMap"); var t := ParseMovementType(v).effectMap; var names := Properties(e);
      && (forall k :: k in t <==> exists i :: 0 <= i < |names| && ReadInt(names[i]) == k)
      && (forall i :: 0 <= i < |names| && (forall j :: i < j < |names| ==> ReadInt(names[j]) != ReadInt(names[i])) ==>
            ReadInt(names[i]) in t &&
            t[ReadInt(names[i])] == (if Get(e, names[i]).Null? then -1 else NumberValue(Get(e, names[i]))))
  {
    var e := Get(v, "effectMap");
    IntIntMapWithNullsContents(e, -1);
    forall i | 0 <= i < |Properties(e)|
      ensures ParseIntOrNull(Get(e, Properties(e)[i]), -1) ==
              (if Get(e, Properties(e)[i]).Null? then -1 else NumberValue(Get(e, Properties(e)[i])))
    {
    }
  }

  // ---------------------------------------------------------------------
  // The game record
  // ---------------------------------------------------------------------

  class Game {
    var gameId: string
    var authorId: string
    var name: string
    var mapId: string
    var state: int
    var turnStart: int
    var turnNumber: int
    var roundNumber: int
    var inTurnNumber: int
    var publicGame: bool
    var turnLength: int
    var bannedUnits: set<int>
    var rules: Rules

    constructor ()
      ensures gameId == "" && authorId == "" && name == "" && mapId == ""
      ensures state == 0 && turnStart == 0 && turnNumber == 0 && roundNumber == 0 && inTurnNumber == 0
      ensures !publicGame && turnLength == 0 && bannedUnits == {}
      ensures rules == EmptyRules
    {
      gameId, authorId, name, mapId := "", "", "", "";
      state, turnStart, turnNumber, roundNumber, inTurnNumber := 0, 0, 0, 0, 0;
      publicGame, turnLength, bannedUnits := false, 0, {};
      rules := EmptyRules;
    }

    /** `setRulesFromJSON`: replaces the rule tables, nothing else. */
    method SetRulesFromJson(v: Json)
      modifies this`rules
      ensures rules == ParseRules(v)
    {
      var weapons := ParseAll(Get(v, "weapons"), ParseWeapon, WeaponId);
      var armors := ParseAll(Get(v, "armors"), ParseArmor, ArmorId);
      var unitClasses := ParseAll(Get(v, "unitClasses"), ParseUnitClass, UnitClassId);
      var terrainFlags := ParseAll(Get(v, "terrainFlags"), ParseTerrainFlag, TerrainFlagId);
      var terrainTypes := ParseAll(Get(v, "terrains"), ParseTerrainType, TerrainTypeId);
      var movementTypes := ParseAll(Get(v, "movementTypes"), ParseMovementType, MovementTypeId);
      var unitFlags := ParseAll(Get(v, "unitFlags"), ParseUnitFlag, UnitFlagId);
      var unitTypes := ParseAll(Get(v, "units"), ParseUnitType, UnitTypeId);
      rules := Rules(weapons, armors, unitClasses, terrainFlags, terrainTypes, movementTypes, unitFlags, unitTypes);
    }

    /** `setGameDataFromJSON` has an empty body: it changes nothing. */
    method SetGameDataFromJson(v: Json)
    {
    }
  }
}
