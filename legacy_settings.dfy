/**
 * Spacerunner3/Settings.cs: the tunable constants, read from and written to a
 * flat `Name = value` text file. The fields are found by name through
 * reflection, so the settings are a map from field name to a typed value, and
 * the reading and writing are stated over any list of fields (a schema) whose
 * names are distinct; `InstanceFields` is the one the class declares.
 */
module LegacySettings {
  import opened Wrappers

  /** The declared type of a public field of `Settings`. */
  datatype FieldType = BoolField | IntField | FloatField | DoubleField | ScancodeField | SettingsField

  /** A field's value; an `SDL_Scancode` is its integer code, a float or double a real. */
  datatype Value =
    | BoolValue(b: bool)
    | IntValue(i: int)
    | FloatValue(f: real)
    | DoubleValue(d: real)
    | ScancodeValue(code: int)

  function TypeOf(v: Value): FieldType {
    match v
    case BoolValue(_) => BoolField
    case IntValue(_) => IntField
    case FloatValue(_) => FloatField
    case DoubleValue(_) => DoubleField
    case ScancodeValue(_) => ScancodeField
  }

  /** An instance field: its name, declared type and the value the constructor gives it. */
  datatype Field = Field(name: string, kind: FieldType, default: Value)

  /** The SDL scancodes the defaults use. */
  const ScancodeUnknown: int := 0
  const ScancodeA: int := 4
  const ScancodeD: int := 7
  const ScancodeW: int := 26
  const ScancodeEscape: int := 41
  const ScancodeSpace: int := 44

  /** The float literal `0.2f`, exactly. */
  const PointTwoF: real := 0.20000000298023223876953125

  /** The static field `Grab`, of type `Settings`, which `GetField` finds too. */
  const GrabName: string := "Grab"

  /** The instance fields in declaration order, with their defaults. */
  function InstanceFields(): seq<Field> {
    KeyFields() + JoystickFields() + AsteroidFields() + ShipFields()
  }

  /** The key bindings. */
  function KeyFields(): seq<Field> {[
    Field("KeyThrust", ScancodeField, ScancodeValue(ScancodeW)),
    Field("KeyTurnLeft", ScancodeField, ScancodeValue(ScancodeA)),
    Field("KeyTurnRight", ScancodeField, ScancodeValue(ScancodeD)),
    Field("KeyPause", ScancodeField, ScancodeValue(ScancodeEscape)),
    Field("KeyReset", ScancodeField, ScancodeValue(ScancodeSpace))]
  }

  /** The joystick settings. */
  function JoystickFields(): seq<Field> {[
    Field("UseJoystick", BoolField, BoolValue(false)),
    Field("JoystickAxisX", IntField, IntValue(0)),
    Field("JoystickAxisY", IntField, IntValue(1)),
    Field("JoystickInvertX", BoolField, BoolValue(false)),
    Field("JoystickInvertY", BoolField, BoolValue(true))]
  }

  /** The view and asteroid-field settings. */
  function AsteroidFields(): seq<Field> {
    SizeFields() + SpawnFields()
  }

  /** The `double` settings: the view size and the asteroid sizes and spacing. */
  function SizeFields(): seq<Field> {[
    Field("ScreenSize", DoubleField, DoubleValue(150.0)),
    Field("AsteroidRadius", DoubleField, DoubleValue(20.0)),
    Field("AsteroidSpacing", DoubleField, DoubleValue(3.0)),
    Field("AsteroidSizeVariety", DoubleField, DoubleValue(0.5))]
  }

  /** A new asteroid's initial motion and its vertex count bounds. */
  function SpawnFields(): seq<Field> {[
    Field("AsteroidInitialVel", FloatField, FloatValue(0.0)),
    Field("AsteroidInitialRot", FloatField, FloatValue(0.0)),
    Field("AsteroidMinVerts", IntField, IntValue(4)),
    Field("AsteroidMaxVerts", IntField, IntValue(8))]
  }

  /** The physics and ship settings. */
  function ShipFields(): seq<Field> {
    HullFields() + HandlingFields()
  }

  /** The restitution and the ship's shape and health. */
  function HullFields(): seq<Field> {[
    Field("ObjectRestitution", FloatField, FloatValue(PointTwoF)),
    Field("ShipSize", FloatField, FloatValue(2.0)),
    Field("ShipShapeAngle", FloatField, FloatValue(0.5)),
    Field("ShipHealth", FloatField, FloatValue(20000.0))]
  }

  /** How the ship turns, pushes and is followed by its trail. */
  function HandlingFields(): seq<Field> {[
    Field("ShipAngularDamping", FloatField, FloatValue(8.0)),
    Field("ShipThrust", FloatField, FloatValue(75.0)),
    Field("ShipTorque", FloatField, FloatValue(120.0)),
    Field("FuturePrediction", FloatField, FloatValue(0.0))]
  }

  /** `char.IsWhiteSpace`: the Unicode white-space characters. */
  predicate IsWhiteSpace(c: char) {
    || ('\U{0009}' <= c <= '\U{000D}') || c == '\U{0020}' || c == '\U{0085}' || c == '\U{00A0}'
    || c == '\U{1680}' || ('\U{2000}' <= c <= '\U{200A}') || c == '\U{2028}' || c == '\U{2029}'
    || c == '\U{202F}' || c == '\U{205F}' || c == '\U{3000}'
  }

  /** Neither end is white space. */
  predicate IsTrimmed(s: string) {
    |s| == 0 || (!IsWhiteSpace(s[0]) && !IsWhiteSpace(s[|s| - 1]))
  }

  /** A field name as the file holds it: not empty, no white space at its ends, no `=`, not a comment. */
  predicate PlainName(name: string) {
    |name| > 0 && IsTrimmed(name) && '=' !in name && name[0] != '#'
  }

  /** No two fields share a name. */
  ghost predicate DistinctNames(fs: seq<Field>) {
    forall i, j :: 0 <= i < j < |fs| ==> fs[i].name != fs[j].name
  }

  /** A list of instance fields reflection can tell apart from each other and from `Grab`, each with a default of its own type. */
  ghost predicate ValidSchema(fs: seq<Field>) {
    && DistinctNames(fs)
    && (forall i :: 0 <= i < |fs| ==> fs[i].name != GrabName && fs[i].kind != SettingsField && TypeOf(fs[i].default) == fs[i].kind)
  }

  /** Every field name is a plain name. */
  ghost predicate PlainNames(fs: seq<Field>) {
    forall i :: 0 <= i < |fs| ==> PlainName(fs[i].name)
  }

  /** Each field is a plain name other than `Grab`, of a type `Load` handles, with a default of that type. */
  ghost predicate FieldsOk(fs: seq<Field>) {
    NamesOk(fs) && TypesOk(fs)
  }

  ghost predicate NamesOk(fs: seq<Field>) {
    forall i :: 0 <= i < |fs| ==> fs[i].name != GrabName && PlainName(fs[i].name)
  }

  ghost predicate TypesOk(fs: seq<Field>) {
    forall i :: 0 <= i < |fs| ==> fs[i].kind != SettingsField && TypeOf(fs[i].default) == fs[i].kind
  }

  /** No name of `a` is a name of `b`. */
  ghost predicate Apart(a: seq<Field>, b: seq<Field>) {
    forall i, j :: 0 <= i < |a| && 0 <= j < |b| ==> a[i].name != b[j].name
  }

  lemma ConcatFields(a: seq<Field>, b: seq<Field>)
    requires DistinctNames(a) && FieldsOk(a) && DistinctNames(b) && FieldsOk(b) && Apart(a, b)
    ensures DistinctNames(a + b) && FieldsOk(a + b)
  {
    var c := a + b;
    forall i, j | 0 <= i < j < |c|
      ensures c[i].name != c[j].name
    {
      if j < |a| {
      } else if i < |a| {
        assert c[i] == a[i] && c[j] == b[j - |a|];
      } else {
        assert c[i] == b[i - |a|] && c[j] == b[j - |a|];
      }
    }
  }

  lemma ApartLeft(a: seq<Field>, b: seq<Field>, c: seq<Field>)
    requires Apart(a, c) && Apart(b, c)
    ensures Apart(a + b, c)
  {
    forall i, j | 0 <= i < |a + b| && 0 <= j < |c|
      ensures (a + b)[i].name != c[j].name
    {
      if i >= |a| {
        assert (a + b)[i] == b[i - |a|];
      }
    }
  }

  lemma ApartRight(a: seq<Field>, b: seq<Field>, c: seq<Field>)
    requires Apart(a, b) && Apart(a, c)
    ensures Apart(a, b + c)
  {
    forall i, j | 0 <= i < |a| && 0 <= j < |b + c|
      ensures a[i].name != (b + c)[j].name
    {
      if j >= |b| {
        assert (b + c)[j] == c[j - |b|];
      }
    }
  }

  /** The declared fields form a valid schema of plain names. */
  lemma InstanceFieldsValid()
    ensures ValidSchema(InstanceFields()) && PlainNames(InstanceFields())
  {
    var (k, j, a, s) := (KeyFields(), JoystickFields(), AsteroidFields(), ShipFields());
    KeyFieldsOk();
    JoystickFieldsOk();
    AsteroidFieldsOk();
    ShipFieldsOk();
    GroupsApart();
    ConcatFields(k, j);
    ApartLeft(k, j, a);
    ConcatFields(k + j, a);
    ApartLeft(k, j, s);
    ApartLeft(k + j, a, s);
    ConcatFields(k + j + a, s);
  }

  lemma KeyFieldsOk()
    ensures DistinctNames(KeyFields()) && FieldsOk(KeyFields())
  {
    KeyNamesOk();
  }

  lemma KeyNamesOk()
    ensures NamesOk(KeyFields())
  {
    LetterName("KeyThrust");
    LetterName("KeyTurnLeft");
    LetterName("KeyTurnRight");
    LetterName("KeyPause");
    LetterName("KeyReset");
  }

  lemma JoystickFieldsOk()
    ensures DistinctNames(JoystickFields()) && FieldsOk(JoystickFields())
  {
    JoystickNamesOk();
  }

  lemma JoystickNamesOk()
    ensures NamesOk(JoystickFields())
  {
    LetterName("UseJoystick");
    LetterName("JoystickAxisX");
    LetterName("JoystickAxisY");
    LetterName("JoystickInvertX");
    LetterName("JoystickInvertY");
  }

  lemma AsteroidFieldsOk()
    ensures DistinctNames(AsteroidFields()) && FieldsOk(AsteroidFields())
  {
    SizeFieldsOk();
    SpawnFieldsOk();
    SizeSpawnApart();
    ConcatFields(SizeFields(), SpawnFields());
  }

  lemma SizeFieldsOk()
    ensures DistinctNames(SizeFields()) && FieldsOk(SizeFields())
  {
    SizeNamesOk();
  }

  lemma SizeNamesOk()
    ensures NamesOk(SizeFields())
  {
    LetterName("ScreenSize");
    LetterName("AsteroidRadius");
    LetterName("AsteroidSpacing");
    LetterName("AsteroidSizeVariety");
  }

  lemma SpawnFieldsOk()
    ensures DistinctNames(SpawnFields()) && FieldsOk(SpawnFields())
  {
    SpawnNamesOk();
  }

  lemma SpawnNamesOk()
    ensures NamesOk(SpawnFields())
  {
    LetterName("AsteroidInitialVel");
    LetterName("AsteroidInitialRot");
    LetterName("AsteroidMinVerts");
    LetterName("AsteroidMaxVerts");
  }

  lemma ShipFieldsOk()
    ensures DistinctNames(ShipFields()) && FieldsOk(ShipFields())
  {
    HullFieldsOk();
    HandlingFieldsOk();
    HullHandlingApart();
    ConcatFields(HullFields(), HandlingFields());
  }

  lemma HullFieldsOk()
    ensures DistinctNames(HullFields()) && FieldsOk(HullFields())
  {
    HullNamesOk();
  }

  lemma HullNamesOk()
    ensures NamesOk(HullFields())
  {
    LetterName("ObjectRestitution");
    LetterName("ShipSize");
    LetterName("ShipShapeAngle");
    LetterName("ShipHealth");
  }

  lemma HandlingFieldsOk()
    ensures DistinctNames(HandlingFields()) && FieldsOk(HandlingFields())
  {
    HandlingNamesOk();
  }

  lemma HandlingNamesOk()
    ensures NamesOk(HandlingFields())
  {
    LetterName("ShipAngularDamping");
    LetterName("ShipThrust");
    LetterName("ShipTorque");
    LetterName("FuturePrediction");
  }

  lemma GroupsApart()
    ensures Apart(KeyFields(), JoystickFields()) && Apart(KeyFields(), AsteroidFields()) && Apart(KeyFields(), ShipFields())
    ensures Apart(JoystickFields(), AsteroidFields()) && Apart(JoystickFields(), ShipFields())
    ensures Apart(AsteroidFields(), ShipFields())
  {
    var (z, n, h, d) := (SizeFields(), SpawnFields(), HullFields(), HandlingFields());
    KeysJoystickApart();
    KeysSizeApart();
    KeysSpawnApart();
    KeysHullApart();
    KeysHandlingApart();
    JoystickSizeApart();
    JoystickSpawnApart();
    JoystickHullApart();
    JoystickHandlingApart();
    SizeHullApart();
    SizeHandlingApart();
    SpawnHullApart();
    SpawnHandlingApart();
    ApartRight(KeyFields(), z, n);
    ApartRight(KeyFields(), h, d);
    ApartRight(JoystickFields(), z, n);
    ApartRight(JoystickFields(), h, d);
    ApartRight(z, h, d);
    ApartRight(n, h, d);
    ApartLeft(z, n, h + d);
  }

  lemma KeysJoystickApart() ensures Apart(KeyFields(), JoystickFields()) {}
  lemma KeysSizeApart() ensures Apart(KeyFields(), SizeFields()) {}
  lemma KeysSpawnApart() ensures Apart(KeyFields(), SpawnFields()) {}
  lemma KeysHullApart() ensures Apart(KeyFields(), HullFields()) {}
  lemma KeysHandlingApart() ensures Apart(KeyFields(), HandlingFields()) {}
  lemma JoystickSizeApart() ensures Apart(JoystickFields(), SizeFields()) {}
  lemma JoystickSpawnApart() ensures Apart(JoystickFields(), SpawnFields()) {}
  lemma JoystickHullApart() ensures Apart(JoystickFields(), HullFields()) {}
  lemma JoystickHandlingApart() ensures Apart(JoystickFields(), HandlingFields()) {}
  lemma SizeSpawnApart() ensures Apart(SizeFields(), SpawnFields()) {}
  lemma SizeHullApart() ensures Apart(SizeFields(), HullFields()) {}
  lemma SizeHandlingApart() ensures Apart(SizeFields(), HandlingFields()) {}
  lemma SpawnHullApart() ensures Apart(SpawnFields(), HullFields()) {}
  lemma SpawnHandlingApart() ensures Apart(SpawnFields(), HandlingFields()) {}
  lemma HullHandlingApart() ensures Apart(HullFields(), HandlingFields()) {}

  /** A non-empty name of ASCII letters only is plain. */
  lemma LetterName(n: string)
    requires |n| > 0 && forall i :: 0 <= i < |n| ==> 'A' <= n[i] <= 'Z' || 'a' <= n[i] <= 'z'
    ensures PlainName(n)
  {
  }

  /** Every field of the schema holds a value of its declared type, and nothing else is held. */
  ghost predicate WellTyped(fs: seq<Field>, values: map<string, Value>) {
    && (forall k :: k in values <==> exists i :: 0 <= i < |fs| && fs[i].name == k)
    && (forall i :: 0 <= i < |fs| ==> fs[i].name in values && TypeOf(values[fs[i].name]) == fs[i].kind)
  }

  /** The constructor: every field set to its default. */
  function Defaults(fs: seq<Field>): (d: map<string, Value>)
    ensures forall k :: k in d <==> exists i :: 0 <= i < |fs| && fs[i].name == k
  {
    if |fs| == 0 then map[]
    else
      var d := Defaults(fs[..|fs| - 1])[fs[|fs| - 1].name := fs[|fs| - 1].default];
      assert forall i :: 0 <= i < |fs| - 1 ==> fs[..|fs| - 1][i] == fs[i];
      d
  }

  /** With distinct names, each field's default is what the constructor leaves in it. */
  lemma DefaultsHold(fs: seq<Field>)
    requires ValidSchema(fs)
    ensures WellTyped(fs, Defaults(fs))
    ensures forall i :: 0 <= i < |fs| ==> Defaults(fs)[fs[i].name] == fs[i].default
  {
    DefaultValues(fs);
  }

  lemma {:induction false} DefaultValues(fs: seq<Field>)
    requires ValidSchema(fs)
    ensures forall i :: 0 <= i < |fs| ==> Defaults(fs)[fs[i].name] == fs[i].default
  {
    if |fs| > 0 {
      SchemaPrefix(fs);
      DefaultValues(fs[..|fs| - 1]);
      DefaultsStep(fs);
    }
  }

  /** Dropping the last field keeps a schema valid. */
  lemma SchemaPrefix(fs: seq<Field>)
    requires ValidSchema(fs) && |fs| > 0
    ensures ValidSchema(fs[..|fs| - 1])
  {
    var init := fs[..|fs| - 1];
    assert forall i :: 0 <= i < |init| ==> init[i] == fs[i];
  }

  /** The defaults of all fields from those of all but the last. */
  lemma DefaultsStep(fs: seq<Field>)
    requires ValidSchema(fs) && |fs| > 0
    requires var init := fs[..|fs| - 1];
      forall i :: 0 <= i < |init| ==> Defaults(init)[init[i].name] == init[i].default
    ensures forall i :: 0 <= i < |fs| ==> Defaults(fs)[fs[i].name] == fs[i].default
  {
    var init := fs[..|fs| - 1];
    forall i | 0 <= i < |fs|
      ensures Defaults(fs)[fs[i].name] == fs[i].default
    {
      if i < |fs| - 1 {
        assert init[i] == fs[i];
        assert fs[i].name != fs[|fs| - 1].name;
      }
    }
  }

  function TrimStart(s: string): (r: string)
    ensures |r| <= |s|
    ensures |r| == 0 || !IsWhiteSpace(r[0])
  {
    if |s| > 0 && IsWhiteSpace(s[0]) then TrimStart(s[1..]) else s
  }

  function TrimEnd(s: string): (r: string)
    ensures |r| <= |s| && r == s[..|r|]
    ensures |r| == 0 || !IsWhiteSpace(r[|r| - 1])
  {
    if |s| > 0 && IsWhiteSpace(s[|s| - 1]) then TrimEnd(s[..|s| - 1]) else s
  }

  /** `string.Trim()`: the white space at both ends removed. */
  function Trim(s: string): (r: string)
    ensures IsTrimmed(r) && |r| <= |s|
  {
    var t := TrimStart(s);
    var r := TrimEnd(t);
    assert |r| > 0 ==> r[0] == t[0];
    r
  }

  /** A string with no white space at either end is its own trim. */
  lemma TrimOfTrimmed(s: string)
    requires IsTrimmed(s)
    ensures Trim(s) == s
  {
  }

  /** All of `s` is white space. */
  predicate Blank(s: string) {
    forall i :: 0 <= i < |s| ==> IsWhiteSpace(s[i])
  }

  /** White space around a trimmed, non-empty text is what `Trim` removes. */
  lemma TrimPadded(pre: string, s: string, post: string)
    requires IsTrimmed(s) && |s| > 0 && Blank(pre) && Blank(post)
    ensures Trim(pre + s + post) == s
  {
    assert pre + s + post == pre + (s + post);
    TrimStartPadded(pre, s + post);
    TrimEndPadded(s, post);
  }

  lemma {:induction false} TrimStartPadded(pre: string, s: string)
    requires |s| > 0 && !IsWhiteSpace(s[0]) && Blank(pre)
    ensures TrimStart(pre + s) == s
  {
    if |pre| > 0 {
      assert (pre + s)[1..] == pre[1..] + s;
      TrimStartPadded(pre[1..], s);
    } else {
      assert pre + s == s;
    }
  }

  lemma {:induction false} TrimEndPadded(s: string, post: string)
    requires |s| > 0 && !IsWhiteSpace(s[|s| - 1]) && Blank(post)
    ensures TrimEnd(s + post) == s
  {
    if |post| > 0 {
      assert (s + post)[..|s + post| - 1] == s + post[..|post| - 1];
      TrimEndPadded(s, post[..|post| - 1]);
    } else {
      assert s + post == s;
    }
  }

  /** `string.IndexOf(c)`: the first position of `c`, or -1. */
  function IndexOf(s: string, c: char): (k: int)
    ensures -1 <= k < |s|
    ensures k == -1 <==> c !in s
    ensures k >= 0 ==> s[k] == c && c !in s[..k]
  {
    if |s| == 0 then -1
    else if s[0] == c then 0
    else
      var k := IndexOf(s[1..], c);
      assert s == [s[0]] + s[1..];
      if k == -1 then -1
      else
        assert s[..k + 1] == [s[0]] + s[1..][..k];
        k + 1
  }

  /** How `Load` reads one line of the file. */
  datatype LineKind =
    | Skipped
    | NoEquals
    | Assignment(key: string, value: string)

  /**
   * Trim the line; skip it when empty or starting with `#`; without an `=` it is
   * invalid; otherwise the key is the trimmed text before the first `=`, and the
   * value the trimmed text after it (later `=` signs belong to the value).
   */
  function SplitLine(raw: string): LineKind
  {
    var line := Trim(raw);
    if |line| == 0 || line[0] == '#' then Skipped
    else
      var equal := IndexOf(line, '=');
      if equal == -1 then NoEquals
      else Assignment(Trim(line[..equal]), Trim(line[equal + 1..]))
  }

  /** The declared type of the instance field of that name, if there is one. */
  function Lookup(fs: seq<Field>, key: string): (r: Option<FieldType>)
    ensures r.Some? <==> exists i :: 0 <= i < |fs| && fs[i].name == key
    ensures r.Some? ==> exists i :: 0 <= i < |fs| && fs[i].name == key && fs[i].kind == r.value
  {
    if |fs| == 0 then None
    else if fs[0].name == key then Some(fs[0].kind)
    else
      assert forall i :: 1 <= i < |fs| ==> fs[i] == fs[1..][i - 1];
      Lookup(fs[1..], key)
  }

  /** `typeof(Settings).GetField(key)`: `Grab` or an instance field, by exact name. */
  function FieldTypeOf(fs: seq<Field>, key: string): (r: Option<FieldType>)
    ensures key == GrabName ==> r == Some(SettingsField)
  {
    if key == GrabName then Some(SettingsField) else Lookup(fs, key)
  }

  /** With distinct names, the lookup of a field's name gives that field's type. */
  lemma {:induction false} LookupFinds(fs: seq<Field>, i: nat)
    requires ValidSchema(fs) && i < |fs|
    ensures FieldTypeOf(fs, fs[i].name) == Some(fs[i].kind)
  {
    if i > 0 {
      var tail := fs[1..];
      assert ValidSchema(tail) by {
        assert forall j :: 0 <= j < |tail| ==> tail[j] == fs[j + 1];
      }
      assert tail[i - 1] == fs[i];
      LookupFinds(tail, i - 1);
    }
  }

  /** `bool.TryParse`, `int.TryParse`, `float.TryParse`, `double.TryParse` and `SDL_GetScancodeFromName`. */
  datatype Parsers = Parsers(
    parseBool: string -> Option<bool>,
    parseInt: string -> Option<int>,
    parseFloat: string -> Option<real>,
    parseDouble: string -> Option<real>,
    scancodeFromName: string -> int)

  /** The typed assignment: the branch of the field's type, taken only when the text parses for it. */
  function Parse(t: FieldType, text: string, p: Parsers): (r: Option<Value>)
    ensures r.Some? ==> TypeOf(r.value) == t
    ensures t == SettingsField ==> r.None?
    ensures t == ScancodeField ==> (r.Some? <==> p.scancodeFromName(text) != ScancodeUnknown)
    ensures t == BoolField ==> (r.Some? <==> p.parseBool(text).Some?)
    ensures t == IntField ==> (r.Some? <==> p.parseInt(text).Some?)
    ensures t == FloatField ==> (r.Some? <==> p.parseFloat(text).Some?)
    ensures t == DoubleField ==> (r.Some? <==> p.parseDouble(text).Some?)
    ensures r.Some? && t == BoolField ==> r.value == BoolValue(p.parseBool(text).value)
    ensures r.Some? && t == IntField ==> r.value == IntValue(p.parseInt(text).value)
    ensures r.Some? && t == FloatField ==> r.value == FloatValue(p.parseFloat(text).value)
    ensures r.Some? && t == DoubleField ==> r.value == DoubleValue(p.parseDouble(text).value)
    ensures r.Some? && t == ScancodeField ==> r.value == ScancodeValue(p.scancodeFromName(text))
  {
    match t
    case BoolField => if p.parseBool(text).Some? then Some(BoolValue(p.parseBool(text).value)) else None
    case IntField => if p.parseInt(text).Some? then Some(IntValue(p.parseInt(text).value)) else None
    case FloatField => if p.parseFloat(text).Some? then Some(FloatValue(p.parseFloat(text).value)) else None
    case DoubleField => if p.parseDouble(text).Some? then Some(DoubleValue(p.parseDouble(text).value)) else None
    case ScancodeField =>
      var code := p.scancodeFromName(text);
      if code != ScancodeUnknown then Some(ScancodeValue(code)) else None
    case SettingsField => None
  }

  /**
   * The assignment one line of the file makes, if any: the field its key names
   * and the parsed value, when the key names a field and the text parses for
   * that field's type.
   */
  function LineEffect(fs: seq<Field>, raw: string, p: Parsers): (e: Option<(string, Value)>)
    ensures e.Some? ==> Assigns(raw, e.value.0)
    ensures e.Some? ==> e.value.0 != GrabName
    ensures e.Some? ==> exists i :: 0 <= i < |fs| && fs[i].name == e.value.0 && fs[i].kind == TypeOf(e.value.1)
  {
    match SplitLine(raw)
    case Assignment(key, text) =>
      var t := FieldTypeOf(fs, key);
      if t.None? then None
      else
        var v := Parse(t.value, text, p);
        if v.Some? then Some((key, v.value)) else None
    case _ => None
  }

  /** Whether a line is an assignment to `key`. */
  predicate Assigns(raw: string, key: string) {
    SplitLine(raw).Assignment? && SplitLine(raw).key == key
  }

  /** What one line does to the fields: one field set to a value, or nothing. */
  type Effect = Option<(string, Value)>

  function Update(values: map<string, Value>, e: Effect): map<string, Value> {
    if e.Some? then values[e.value.0 := e.value.1] else values
  }

  /** The effect of each line, as `Load` computes it. */
  function Effects(fs: seq<Field>, p: Parsers): string -> Effect {
    raw => LineEffect(fs, raw, p)
  }

  /** The lines applied in order, each through `effect`. */
  function LoadWith(values: map<string, Value>, lines: seq<string>, effect: string -> Effect): map<string, Value> {
    if |lines| == 0 then values
    else Update(LoadWith(values, lines[..|lines| - 1], effect), effect(lines[|lines| - 1]))
  }

  /** The loop of `Load`: the file's lines applied in order to the fields. */
  function LoadAll(fs: seq<Field>, values: map<string, Value>, lines: seq<string>, p: Parsers): map<string, Value> {
    LoadWith(values, lines, Effects(fs, p))
  }

  lemma LoadWithSnoc(values: map<string, Value>, lines: seq<string>, raw: string, effect: string -> Effect)
    ensures LoadWith(values, lines + [raw], effect) == Update(LoadWith(values, lines, effect), effect(raw))
  {
    assert (lines + [raw])[..|lines|] == lines;
  }

  /** An effect that sets a field of the schema to a value of its declared type. */
  ghost predicate TypedEffect(fs: seq<Field>, e: Effect) {
    e.Some? ==> exists i :: 0 <= i < |fs| && fs[i].name == e.value.0 && fs[i].kind == TypeOf(e.value.1)
  }

  lemma UpdateWellTyped(fs: seq<Field>, values: map<string, Value>, e: Effect)
    requires DistinctNames(fs) && WellTyped(fs, values) && TypedEffect(fs, e)
    ensures WellTyped(fs, Update(values, e))
  {
    if e.Some? {
      var (key, v) := e.value;
      var i :| 0 <= i < |fs| && fs[i].name == key && fs[i].kind == TypeOf(v);
      var r := values[key := v];
      forall j | 0 <= j < |fs|
        ensures TypeOf(r[fs[j].name]) == fs[j].kind
      {
        if fs[j].name == key {
          assert i == j;
        }
      }
    }
  }

  lemma {:induction false} LoadWithWellTyped(fs: seq<Field>, values: map<string, Value>, lines: seq<string>, effect: string -> Effect)
    requires DistinctNames(fs) && WellTyped(fs, values)
    requires forall i :: 0 <= i < |lines| ==> TypedEffect(fs, effect(lines[i]))
    ensures WellTyped(fs, LoadWith(values, lines, effect))
  {
    if |lines| > 0 {
      LoadWithWellTyped(fs, values, lines[..|lines| - 1], effect);
      UpdateWellTyped(fs, LoadWith(values, lines[..|lines| - 1], effect), effect(lines[|lines| - 1]));
    }
  }

  /** Loading keeps the fields well typed, whatever the file says: a line sets at most one field, to a value of its type. */
  lemma LoadAllWellTyped(fs: seq<Field>, values: map<string, Value>, lines: seq<string>, p: Parsers)
    requires ValidSchema(fs) && WellTyped(fs, values)
    ensures WellTyped(fs, LoadAll(fs, values, lines, p))
  {
    forall i | 0 <= i < |lines|
      ensures TypedEffect(fs, Effects(fs, p)(lines[i]))
    {
      var e := LineEffect(fs, lines[i], p);
      assert Effects(fs, p)(lines[i]) == e;
    }
    LoadWithWellTyped(fs, values, lines, Effects(fs, p));
  }

  lemma {:induction false} UntouchedKept(values: map<string, Value>, lines: seq<string>, effect: string -> Effect, key: string)
    requires key in values
    requires forall i :: 0 <= i < |lines| ==> effect(lines[i]).None? || effect(lines[i]).value.0 != key
    ensures key in LoadWith(values, lines, effect) && LoadWith(values, lines, effect)[key] == values[key]
  {
    if |lines| > 0 {
      UntouchedKept(values, lines[..|lines| - 1], effect, key);
      assert lines[|lines| - 1] == lines[..|lines|][|lines| - 1];
    }
  }

  /** A field no line assigns keeps the value it had: the default, when the file is loaded. */
  lemma UnassignedFieldKept(fs: seq<Field>, values: map<string, Value>, lines: seq<string>, p: Parsers, key: string)
    requires key in values
    requires forall i :: 0 <= i < |lines| ==> !Assigns(lines[i], key)
    ensures key in LoadAll(fs, values, lines, p) && LoadAll(fs, values, lines, p)[key] == values[key]
  {
    forall i | 0 <= i < |lines|
      ensures Effects(fs, p)(lines[i]).None? || Effects(fs, p)(lines[i]).value.0 != key
    {
      var e := LineEffect(fs, lines[i], p);
      assert Effects(fs, p)(lines[i]) == e;
    }
    UntouchedKept(values, lines, Effects(fs, p), key);
  }

  /**
   * A blank or comment line, a line without `=`, an unknown key, the key `Grab`,
   * or a value that does not parse for the field's type: the line changes nothing.
   */
  lemma IgnoredLines(fs: seq<Field>, values: map<string, Value>, lines: seq<string>, raw: string, p: Parsers)
    requires || SplitLine(raw).Skipped? || SplitLine(raw).NoEquals?
             || (SplitLine(raw).Assignment? && FieldTypeOf(fs, SplitLine(raw).key).None?)
             || Assigns(raw, GrabName)
             || (SplitLine(raw).Assignment? && FieldTypeOf(fs, SplitLine(raw).key).Some?
                 && Parse(FieldTypeOf(fs, SplitLine(raw).key).value, SplitLine(raw).value, p).None?)
    ensures LineEffect(fs, raw, p).None?
    ensures LoadAll(fs, values, lines + [raw], p) == LoadAll(fs, values, lines, p)
  {
    LoadWithSnoc(values, lines, raw, Effects(fs, p));
    assert Effects(fs, p)(raw) == LineEffect(fs, raw, p);
  }

  lemma LaterEffectWins(values: map<string, Value>, lines: seq<string>, first: string, second: string, effect: string -> Effect)
    requires effect(second).Some? && (effect(first).None? || effect(first).value.0 == effect(second).value.0)
    ensures LoadWith(values, lines + [first, second], effect) == LoadWith(values, lines + [second], effect)
  {
    LoadWithSnoc(values, lines, first, effect);
    LoadWithSnoc(values, lines + [first], second, effect);
    assert lines + [first] + [second] == lines + [first, second];
    LoadWithSnoc(values, lines, second, effect);
  }

  /** Of two lines for the same field, the later one wins when its value parses. */
  lemma LaterLineWins(fs: seq<Field>, values: map<string, Value>, lines: seq<string>, first: string, second: string, p: Parsers)
    requires LineEffect(fs, second, p).Some? && Assigns(first, LineEffect(fs, second, p).value.0)
    ensures LoadAll(fs, values, lines + [first, second], p) == LoadAll(fs, values, lines + [second], p)
  {
    assert Effects(fs, p)(first) == LineEffect(fs, first, p);
    assert Effects(fs, p)(second) == LineEffect(fs, second, p);
    LaterEffectWins(values, lines, first, second, Effects(fs, p));
  }

  /** `ToString()` and `SDL_GetScancodeName`. */
  datatype Printers = Printers(toText: Value -> string, scancodeName: int -> string)

  /** The text `FieldToString` writes for a value. */
  function Printed(v: Value, pr: Printers): string {
    if v.ScancodeValue? then pr.scancodeName(v.code) else pr.toText(v)
  }

  /** `FieldToString`: `Name = value`. */
  function FieldLine(name: string, v: Value, pr: Printers): string {
    name + " = " + Printed(v, pr)
  }

  /**
   * What `Save` writes: `GetFields()` without `Grab` is the instance fields in
   * declaration order, one `Name = value` line each.
   */
  function SaveLines(fs: seq<Field>, values: map<string, Value>, pr: Printers): (r: seq<string>)
    requires forall i :: 0 <= i < |fs| ==> fs[i].name in values
    ensures |r| == |fs|
    ensures forall i :: 0 <= i < |r| ==> r[i] == FieldLine(fs[i].name, values[fs[i].name], pr)
  {
    seq(|fs|, i requires 0 <= i < |fs| => FieldLine(fs[i].name, values[fs[i].name], pr))
  }

  /** A saved line reads back as an assignment of the same name and the same text. */
  lemma SavedLineSplits(name: string, text: string)
    requires PlainName(name) && IsTrimmed(text)
    ensures SplitLine(name + " = " + text) == Assignment(name, text)
  {
    var rest := if |text| > 0 then " " + text else [];
    SavedLineTrim(name, text);
    SavedLineEquals(name, rest);
    KeyTrims(name);
    ValueTrims(text);
    SplitOfParts(name + " = " + text, |name| + 1, name, text);
  }

  /** The key of a saved line, with the space before its `=`, trims to the name. */
  lemma KeyTrims(name: string)
    requires PlainName(name)
    ensures Trim(name + " ") == name
  {
    TrimPadded([], name, " ");
    assert [] + name + " " == name + " ";
  }

  /** The value of a saved line, with the space after its `=`, trims to the text. */
  lemma ValueTrims(text: string)
    requires IsTrimmed(text)
    ensures Trim(if |text| > 0 then " " + text else []) == text
  {
    if |text| > 0 {
      TrimPadded(" ", text, []);
      assert " " + text + [] == " " + text;
    }
  }

  /** `SplitLine` from the parts of its computation. */
  lemma SplitOfParts(raw: string, eq: nat, key: string, value: string)
    requires eq < |Trim(raw)| && Trim(raw)[0] != '#'
    requires IndexOf(Trim(raw), '=') == eq
    requires Trim(Trim(raw)[..eq]) == key && Trim(Trim(raw)[eq + 1..]) == value
    ensures SplitLine(raw) == Assignment(key, value)
  {
  }

  /** The trim of a saved line drops the space after `=` when the value text is empty. */
  lemma SavedLineTrim(name: string, text: string)
    requires PlainName(name) && IsTrimmed(text)
    ensures Trim(name + " = " + text) == name + " =" + (if |text| > 0 then " " + text else [])
  {
    var line := name + " = " + text;
    if |text| > 0 {
      assert line == name + " =" + (" " + text);
      TrimPadded([], line, []);
      assert [] + line + [] == line;
    } else {
      var trimmed := name + " =";
      assert trimmed + [] == trimmed;
      TrimPadded([], trimmed, " ");
      assert [] + trimmed + " " == line;
    }
  }

  /** In a trimmed saved line the first `=` follows the name and a space. */
  lemma SavedLineEquals(name: string, rest: string)
    requires PlainName(name)
    ensures var trimmed := name + " =" + rest;
      && IndexOf(trimmed, '=') == |name| + 1
      && trimmed[..|name| + 1] == name + " "
      && trimmed[|name| + 2..] == rest
  {
    var trimmed := name + " =" + rest;
    var eq := |name| + 1;
    assert trimmed[..eq] == name + " ";
    assert '=' !in name + " ";
    assert trimmed[eq] == '=';
  }

  /** The values `values` gives the first `k` fields, laid over `base`. */
  function Overlay(fs: seq<Field>, base: map<string, Value>, values: map<string, Value>, k: nat): map<string, Value>
    requires k <= |fs|
    requires forall i :: 0 <= i < |fs| ==> fs[i].name in values
  {
    if k == 0 then base else Overlay(fs, base, values, k - 1)[fs[k - 1].name := values[fs[k - 1].name]]
  }

  /** With distinct names, the overlay of the first `k` fields holds their saved values. */
  lemma {:induction false} OverlayHolds(fs: seq<Field>, base: map<string, Value>, values: map<string, Value>, k: nat)
    requires DistinctNames(fs) && k <= |fs|
    requires forall i :: 0 <= i < |fs| ==> fs[i].name in values
    ensures forall i :: 0 <= i < k ==> fs[i].name in Overlay(fs, base, values, k) && Overlay(fs, base, values, k)[fs[i].name] == values[fs[i].name]
  {
    if k > 0 {
      OverlayHolds(fs, base, values, k - 1);
      forall i | 0 <= i < k
        ensures fs[i].name in Overlay(fs, base, values, k) && Overlay(fs, base, values, k)[fs[i].name] == values[fs[i].name]
      {
        if i < k - 1 {
          assert fs[i].name != fs[k - 1].name;
        }
      }
    }
  }

  /** The overlay holds the base's fields and the first `k` fields. */
  lemma {:induction false} OverlayKeys(fs: seq<Field>, base: map<string, Value>, values: map<string, Value>, k: nat)
    requires k <= |fs|
    requires forall i :: 0 <= i < |fs| ==> fs[i].name in values
    ensures forall key :: key in Overlay(fs, base, values, k) <==> key in base || exists i :: 0 <= i < k && fs[i].name == key
  {
    if k > 0 {
      OverlayKeys(fs, base, values, k - 1);
    }
  }

  /** The line saved for field `i` sets that field, to the value saved. */
  lemma SavedLineEffect(fs: seq<Field>, i: nat, values: map<string, Value>, pr: Printers, p: Parsers)
    requires ValidSchema(fs) && PlainNames(fs) && i < |fs| && fs[i].name in values && TypeOf(values[fs[i].name]) == fs[i].kind
    requires IsTrimmed(Printed(values[fs[i].name], pr))
    requires Parse(fs[i].kind, Printed(values[fs[i].name], pr), p) == Some(values[fs[i].name])
    ensures LineEffect(fs, FieldLine(fs[i].name, values[fs[i].name], pr), p) == Some((fs[i].name, values[fs[i].name]))
  {
    SavedLineSplits(fs[i].name, Printed(values[fs[i].name], pr));
    LookupFinds(fs, i);
  }

  /** Lines that set the first fields in turn give the overlay of those fields. */
  lemma {:induction false} LoadEffects(fs: seq<Field>, base: map<string, Value>, values: map<string, Value>, lines: seq<string>, effect: string -> Effect)
    requires |lines| <= |fs|
    requires forall i :: 0 <= i < |fs| ==> fs[i].name in values
    requires forall i :: 0 <= i < |lines| ==> effect(lines[i]) == Some((fs[i].name, values[fs[i].name]))
    ensures LoadWith(base, lines, effect) == Overlay(fs, base, values, |lines|)
  {
    if |lines| > 0 {
      var k := |lines|;
      var init := lines[..k - 1];
      assert forall i :: 0 <= i < |init| ==> init[i] == lines[i];
      LoadEffects(fs, base, values, init, effect);
    }
  }

  /**
   * Loading what `Save` wrote gives back the saved settings, provided every saved
   * value's text parses back to that value and has no white space at its ends.
   */
  lemma SaveLoadRoundTrip(fs: seq<Field>, values: map<string, Value>, pr: Printers, p: Parsers)
    requires ValidSchema(fs) && PlainNames(fs) && WellTyped(fs, values)
    requires forall key :: key in values ==> IsTrimmed(Printed(values[key], pr))
    requires forall key :: key in values ==> Parse(TypeOf(values[key]), Printed(values[key], pr), p) == Some(values[key])
    ensures LoadAll(fs, Defaults(fs), SaveLines(fs, values, pr), p) == values
  {
    var lines := SaveLines(fs, values, pr);
    SavedEffects(fs, values, pr, p);
    LoadEffects(fs, Defaults(fs), values, lines, Effects(fs, p));
    OverlayAll(fs, Defaults(fs), values);
  }

  /** Each saved line, read back, sets its own field to the value saved. */
  lemma SavedEffects(fs: seq<Field>, values: map<string, Value>, pr: Printers, p: Parsers)
    requires ValidSchema(fs) && PlainNames(fs) && WellTyped(fs, values)
    requires forall key :: key in values ==> IsTrimmed(Printed(values[key], pr))
    requires forall key :: key in values ==> Parse(TypeOf(values[key]), Printed(values[key], pr), p) == Some(values[key])
    ensures var lines := SaveLines(fs, values, pr);
      forall i :: 0 <= i < |lines| ==> Effects(fs, p)(lines[i]) == Some((fs[i].name, values[fs[i].name]))
  {
    var lines := SaveLines(fs, values, pr);
    forall i | 0 <= i < |lines|
      ensures Effects(fs, p)(lines[i]) == Some((fs[i].name, values[fs[i].name]))
    {
      var v := values[fs[i].name];
      assert IsTrimmed(Printed(v, pr)) && Parse(TypeOf(v), Printed(v, pr), p) == Some(v);
      SavedLineEffect(fs, i, values, pr, p);
    }
  }

  /** Overlaying every field, when the base holds only fields, gives exactly the values. */
  lemma OverlayAll(fs: seq<Field>, base: map<string, Value>, values: map<string, Value>)
    requires DistinctNames(fs) && WellTyped(fs, values)
    requires forall key :: key in base ==> exists i :: 0 <= i < |fs| && fs[i].name == key
    ensures Overlay(fs, base, values, |fs|) == values
  {
    var o := Overlay(fs, base, values, |fs|);
    OverlayHolds(fs, base, values, |fs|);
    OverlaySameKeys(fs, base, values);
    OverlaySameValues(fs, o, values);
    SameMaps(o, values);
  }

  /** The full overlay has exactly the fields' names as keys. */
  lemma OverlaySameKeys(fs: seq<Field>, base: map<string, Value>, values: map<string, Value>)
    requires WellTyped(fs, values)
    requires forall key :: key in base ==> exists i :: 0 <= i < |fs| && fs[i].name == key
    ensures forall key :: key in Overlay(fs, base, values, |fs|) <==> key in values
  {
    OverlayKeys(fs, base, values, |fs|);
  }

  /** A map that holds each field's value agrees with `values` on every key it has. */
  lemma OverlaySameValues(fs: seq<Field>, o: map<string, Value>, values: map<string, Value>)
    requires WellTyped(fs, values)
    requires forall i :: 0 <= i < |fs| ==> fs[i].name in o && o[fs[i].name] == values[fs[i].name]
    ensures forall key :: key in o && key in values ==> o[key] == values[key]
  {
    forall key | key in o && key in values
      ensures o[key] == values[key]
    {
      var i :| 0 <= i < |fs| && fs[i].name == key;
    }
  }

  /** Two maps with the same keys and the same value at each key are equal. */
  lemma SameMaps(a: map<string, Value>, b: map<string, Value>)
    requires forall key :: key in a <==> key in b
    requires forall key :: key in a && key in b ==> a[key] == b[key]
    ensures a == b
  {
  }

  /** The loop of `Load` over the file's lines, applied to the fields `values`. */
  method LoadLines(fs: seq<Field>, values: map<string, Value>, lines: seq<string>, p: Parsers) returns (loaded: map<string, Value>)
    ensures loaded == LoadAll(fs, values, lines, p)
  {
    loaded := values;
    var i := 0;
    while i < |lines|
      invariant 0 <= i <= |lines|
      invariant loaded == LoadAll(fs, values, lines[..i], p)
    {
      LoadStep(fs, values, lines, i, p);
      var parsed := SplitLine(lines[i]);
      if parsed.Assignment? {
        var t := FieldTypeOf(fs, parsed.key);
        if t.Some? {
          var v := Parse(t.value, parsed.value, p);
          if v.Some? {
            loaded := loaded[parsed.key := v.value];
          }
        }
      }
      i := i + 1;
    }
    LinesWhole(lines);
  }

  /** One more line of the file applied. */
  lemma LoadStep(fs: seq<Field>, values: map<string, Value>, lines: seq<string>, i: nat, p: Parsers)
    requires i < |lines|
    ensures LoadAll(fs, values, lines[..i + 1], p) == Update(LoadAll(fs, values, lines[..i], p), LineEffect(fs, lines[i], p))
  {
    assert lines[..i + 1][..i] == lines[..i];
  }

  lemma LinesWhole(lines: seq<string>)
    ensures lines[..|lines|] == lines
  {
  }

  /** The loop of `Save` over the fields. */
  method SaveFields(fs: seq<Field>, values: map<string, Value>, pr: Printers) returns (contents: seq<string>)
    requires forall i :: 0 <= i < |fs| ==> fs[i].name in values
    ensures contents == SaveLines(fs, values, pr)
  {
    contents := [];
    var i := 0;
    while i < |fs|
      invariant 0 <= i <= |fs|
      invariant contents == SaveLines(fs, values, pr)[..i]
    {
      var f := fs[i];
      contents := contents + [FieldLine(f.name, values[f.name], pr)];
      i := i + 1;
    }
  }

  class Settings {
    /** The instance fields, by name. */
    var values: map<string, Value>

    /** The constructor assigns every field its default. */
    constructor()
      ensures values == Defaults(InstanceFields()) && WellTyped(InstanceFields(), values)
    {
      values := Defaults(InstanceFields());
      InstanceFieldsValid();
      DefaultsHold(InstanceFields());
    }

    /** `Load`: start from the defaults, then apply the file's lines in order. */
    static method Load(lines: seq<string>, p: Parsers) returns (s: Settings)
      ensures fresh(s) && s.values == LoadAll(InstanceFields(), Defaults(InstanceFields()), lines, p)
      ensures WellTyped(InstanceFields(), s.values)
    {
      s := new Settings();
      s.values := LoadLines(InstanceFields(), s.values, lines, p);
      InstanceFieldsValid();
      DefaultsHold(InstanceFields());
      LoadAllWellTyped(InstanceFields(), Defaults(InstanceFields()), lines, p);
    }

    /** `Save`: one `Name = value` line per field except `Grab`, in declaration order. */
    method Save(pr: Printers) returns (contents: seq<string>)
      requires WellTyped(InstanceFields(), values)
      ensures contents == SaveLines(InstanceFields(), values, pr)
    {
      contents := SaveFields(InstanceFields(), values, pr);
    }
  }

  /** What `Save` writes, `Load` reads back into the same settings, when each value's text parses back to it. */
  lemma SettingsReload(values: map<string, Value>, pr: Printers, p: Parsers)
    requires WellTyped(InstanceFields(), values)
    requires forall key :: key in values ==> IsTrimmed(Printed(values[key], pr))
    requires forall key :: key in values ==> Parse(TypeOf(values[key]), Printed(values[key], pr), p) == Some(values[key])
    ensures LoadAll(InstanceFields(), Defaults(InstanceFields()), SaveLines(InstanceFields(), values, pr), p) == values
  {
    InstanceFieldsValid();
    SaveLoadRoundTrip(InstanceFields(), values, pr, p);
  }
}
