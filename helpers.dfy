/** The pure part of the user-setting migration helper: the setting
    definition, its validation and default resolution, and the one insert
    statement into the `user_setting` table that it turns into. The statement
    is structured (conflict mode, column list, value list), not SQL text. */
module MigrationHelpers {
  import opened Wrappers

  /** The value types a setting may declare, stored as a small integer tag. */
  datatype UserSettingValueType = String | Int | Float | Object | Array | Boolean {
    function Tag(): (n: nat)
      ensures n <= 5
    {
      match this
      case String => 0
      case Int => 1
      case Float => 2
      case Object => 3
      case Array => 4
      case Boolean => 5
    }
  }

  /** The value type whose tag is `n`, if there is one. */
  function ValueTypeOfTag(n: int): (r: Option<UserSettingValueType>)
    ensures r.Some? <==> 0 <= n <= 5
    ensures r.Some? ==> r.value.Tag() == n
  {
    match n
    case 0 => Some(String)
    case 1 => Some(Int)
    case 2 => Some(Float)
    case 3 => Some(Object)
    case 4 => Some(Array)
    case 5 => Some(Boolean)
    case _ => None
  }

  /** Tags tell the value types apart: decoding a tag gives back its type. */
  lemma TagRoundTrip(t: UserSettingValueType)
    ensures ValueTypeOfTag(t.Tag()) == Some(t)
  {
  }

  /** The three things a caller may pass as `userValue`: nothing, null, or a string. */
  datatype UserValueInput = Undefined | NullInput | Defined(value: string)

  /** The options of one setting as the caller passes them. `None` stands for a
      field that is left out (undefined), including the two required ones,
      which the helper checks for at run time. */
  datatype AddUserSettingOptions = AddUserSettingOptions(
    defaultValue: Option<string>,
    valueType: Option<UserSettingValueType>,
    userValue: UserValueInput,
    linuxDefault: Option<string>,
    macDefault: Option<string>,
    windowsDefault: Option<string>,
    insertOrIgnore: Option<bool>)

  /** One entry of a batch. */
  datatype UserSettingConfig = UserSettingConfig(key: string, options: AddUserSettingOptions)

  /** A setting after validation, with every optional field resolved to its default. */
  datatype Setting = Setting(
    key: string,
    defaultValue: string,
    valueType: UserSettingValueType,
    userValue: Option<string>,
    linuxDefault: string,
    macDefault: string,
    windowsDefault: string,
    insertOrIgnore: bool)

  /** What a call can fail with: the validation error, carrying the three
      checked inputs as its message does, or a failure the executor raised,
      passed on unchanged. */
  datatype Error =
    | MissingRequiredFields(key: string, defaultValue: Option<string>, valueType: Option<UserSettingValueType>)
    | QueryFailed(cause: string)

  datatype ConflictMode = Insert | InsertOrIgnore

  datatype Column = Key | UserValue | DefaultValue | LinuxDefault | MacDefault | WindowsDefault | ValueType

  datatype SqlValue = Text(text: string) | Null | Integer(number: int)

  datatype Statement = Statement(mode: ConflictMode, table: string, columns: seq<Column>, values: seq<SqlValue>)

  datatype Shape = Simple | Full

  const UserSettingTable := "user_setting"

  const SimpleColumns: seq<Column> := [Key, DefaultValue, ValueType]

  const FullColumns: seq<Column> := [Key, UserValue, DefaultValue, LinuxDefault, MacDefault, WindowsDefault, ValueType]

  /** A statement names the table, gives one value per column and no column twice. */
  ghost predicate WellFormed(st: Statement)
  {
    && st.table == UserSettingTable
    && |st.columns| == |st.values|
    && forall i, j | 0 <= i < j < |st.columns| :: st.columns[i] != st.columns[j]
  }

  /** The value the statement writes into `column`, if the column is listed. */
  function ValueOf(columns: seq<Column>, values: seq<SqlValue>, column: Column): Option<SqlValue>
    decreases |columns|
  {
    if columns == [] || values == [] then None
    else if columns[0] == column then Some(values[0])
    else ValueOf(columns[1..], values[1..], column)
  }

  function Get(st: Statement, column: Column): Option<SqlValue>
  {
    ValueOf(st.columns, st.values, column)
  }

  /** In a column list without repeats, looking a listed column up finds its own value. */
  lemma {:induction false} ValueOfAt(columns: seq<Column>, values: seq<SqlValue>, i: nat)
    requires |columns| == |values| && i < |columns|
    requires forall j | 0 <= j < i :: columns[j] != columns[i]
    ensures ValueOf(columns, values, columns[i]) == Some(values[i])
  {
    if i > 0 {
      ValueOfAt(columns[1..], values[1..], i - 1);
    }
  }

  /** A column that is not listed has no value. */
  lemma {:induction false} ValueOfMissing(columns: seq<Column>, values: seq<SqlValue>, column: Column)
    requires column !in columns
    ensures ValueOf(columns, values, column) == None
  {
    if columns != [] && values != [] {
      ValueOfMissing(columns[1..], values[1..], column);
    }
  }

  /** The required-field check. A key fails only when empty; the default
      value and the value type fail only when left out, so an empty default
      value and the `string` type (tag 0) pass. */
  function Validate(key: string, options: AddUserSettingOptions): (r: Outcome<Error>)
    ensures r.Pass? <==> key != "" && options.defaultValue.Some? && options.valueType.Some?
    ensures r.Fail? ==> r.error == MissingRequiredFields(key, options.defaultValue, options.valueType)
  {
    if key == "" || options.defaultValue.None? || options.valueType.None? then
      Fail(MissingRequiredFields(key, options.defaultValue, options.valueType))
    else
      Pass
  }

  /** Validation followed by default resolution: a missing user value (left
      out or null) becomes no value, a missing platform default the empty
      string, a missing conflict flag `false`. */
  function Resolve(key: string, options: AddUserSettingOptions): (r: Result<Setting, Error>)
    ensures r.Success? <==> Validate(key, options).Pass?
    ensures r.Failure? ==> r.error == Validate(key, options).error
    ensures r.Success? ==> r.value.key == key && Some(r.value.defaultValue) == options.defaultValue && Some(r.value.valueType) == options.valueType
  {
    match Validate(key, options)
    case Fail(e) => Failure(e)
    case Pass =>
      Success(Setting(
        key,
        options.defaultValue.value,
        options.valueType.value,
        if options.userValue.Defined? then Some(options.userValue.value) else None,
        options.linuxDefault.GetOr(""),
        options.macDefault.GetOr(""),
        options.windowsDefault.GetOr(""),
        options.insertOrIgnore.GetOr(false)))
  }

  /** The full shape is needed when there is a user value or a non-empty
      platform default; otherwise the three-column shape is enough. */
  function ChooseShape(s: Setting): Shape
  {
    var hasUserValue := s.userValue.Some?;
    var hasPlatformDefaults := s.linuxDefault != "" || s.macDefault != "" || s.windowsDefault != "";
    if hasPlatformDefaults || hasUserValue then Full else Simple
  }

  function Mode(s: Setting): ConflictMode
  {
    if s.insertOrIgnore then InsertOrIgnore else Insert
  }

  /** The seven-column insert of a setting, whichever shape it needs. */
  function FullStatement(s: Setting): (st: Statement)
    ensures st.columns == FullColumns
  {
    Statement(Mode(s), UserSettingTable, FullColumns, [
      Text(s.key),
      if s.userValue.Some? then Text(s.userValue.value) else Null,
      Text(s.defaultValue),
      Text(s.linuxDefault),
      Text(s.macDefault),
      Text(s.windowsDefault),
      Integer(s.valueType.Tag())])
  }

  /** The three-column insert of a setting. */
  function SimpleStatement(s: Setting): (st: Statement)
    ensures st.columns == SimpleColumns
  {
    Statement(Mode(s), UserSettingTable, SimpleColumns, [
      Text(s.key),
      Text(s.defaultValue),
      Integer(s.valueType.Tag())])
  }

  /** The one insert statement the helper sends for a valid setting. */
  function BuildStatement(s: Setting): (st: Statement)
    ensures WellFormed(st)
    ensures st.columns == (if ChooseShape(s) == Full then FullColumns else SimpleColumns)
  {
    if ChooseShape(s) == Full then FullStatement(s) else SimpleStatement(s)
  }

  /** The pure part of one call: validate, resolve, build. */
  function Plan(key: string, options: AddUserSettingOptions): (r: Result<Statement, Error>)
    ensures r.Success? <==> Validate(key, options).Pass?
    ensures r.Failure? ==> r.error == MissingRequiredFields(key, options.defaultValue, options.valueType)
  {
    match Resolve(key, options)
    case Failure(e) => Failure(e)
    case Success(s) => Success(BuildStatement(s))
  }

  /** A platform default counts only when given and non-empty. */
  predicate NonEmpty(o: Option<string>)
  {
    o.Some? && o.value != ""
  }

  /** The key, the default value and the type tag reach the statement unchanged, in either shape. */
  lemma StatementCarriesRequiredFields(key: string, options: AddUserSettingOptions)
    requires Plan(key, options).Success?
    ensures var st := Plan(key, options).value;
      && Get(st, Key) == Some(Text(key))
      && Get(st, DefaultValue) == Some(Text(options.defaultValue.value))
      && Get(st, ValueType) == Some(Integer(options.valueType.value.Tag()))
  {
    var s := Resolve(key, options).value;
    FullStatementValues(s);
    SimpleStatementValues(s);
  }

  /** The full shape is chosen exactly when a user value is given (an empty
      string counts, null does not) or some platform default is a non-empty
      string; otherwise the statement lists only key, default value and type. */
  lemma ShapeFollowsOptions(key: string, options: AddUserSettingOptions)
    requires Plan(key, options).Success?
    ensures var full := options.userValue.Defined? || NonEmpty(options.linuxDefault)
                        || NonEmpty(options.macDefault) || NonEmpty(options.windowsDefault);
      Plan(key, options).value.columns == if full then FullColumns else SimpleColumns
  {
  }

  /** "Insert or ignore" is used exactly when the flag is given as true; a
      left-out flag gives a plain insert. */
  lemma ModeFollowsFlag(key: string, options: AddUserSettingOptions)
    requires Plan(key, options).Success?
    ensures Plan(key, options).value.mode == InsertOrIgnore <==> options.insertOrIgnore == Some(true)
    ensures Plan(key, options).value.mode == Insert <==> options.insertOrIgnore != Some(true)
  {
  }

  /** Looking up each of the seven columns of the full insert finds the value written for it. */
  lemma FullColumnsLookup(values: seq<SqlValue>)
    requires |values| == 7
    ensures && ValueOf(FullColumns, values, Key) == Some(values[0])
            && ValueOf(FullColumns, values, UserValue) == Some(values[1])
            && ValueOf(FullColumns, values, DefaultValue) == Some(values[2])
            && ValueOf(FullColumns, values, LinuxDefault) == Some(values[3])
            && ValueOf(FullColumns, values, MacDefault) == Some(values[4])
            && ValueOf(FullColumns, values, WindowsDefault) == Some(values[5])
            && ValueOf(FullColumns, values, ValueType) == Some(values[6])
  {
    ValueOfAt(FullColumns, values, 0);
    ValueOfAt(FullColumns, values, 1);
    ValueOfAt(FullColumns, values, 2);
    ValueOfAt(FullColumns, values, 3);
    ValueOfAt(FullColumns, values, 4);
    ValueOfAt(FullColumns, values, 5);
    ValueOfAt(FullColumns, values, 6);
  }

  /** Looking up each of the three columns of the simple insert finds the value
      written for it; the other four are not there. */
  lemma SimpleColumnsLookup(values: seq<SqlValue>)
    requires |values| == 3
    ensures && ValueOf(SimpleColumns, values, Key) == Some(values[0])
            && ValueOf(SimpleColumns, values, DefaultValue) == Some(values[1])
            && ValueOf(SimpleColumns, values, ValueType) == Some(values[2])
            && ValueOf(SimpleColumns, values, UserValue) == None
            && ValueOf(SimpleColumns, values, LinuxDefault) == None
            && ValueOf(SimpleColumns, values, MacDefault) == None
            && ValueOf(SimpleColumns, values, WindowsDefault) == None
  {
    ValueOfAt(SimpleColumns, values, 0);
    ValueOfAt(SimpleColumns, values, 1);
    ValueOfAt(SimpleColumns, values, 2);
    ValueOfMissing(SimpleColumns, values, UserValue);
    ValueOfMissing(SimpleColumns, values, LinuxDefault);
    ValueOfMissing(SimpleColumns, values, MacDefault);
    ValueOfMissing(SimpleColumns, values, WindowsDefault);
  }

  lemma FullStatementValues(s: Setting)
    ensures var st := FullStatement(s);
      && Get(st, Key) == Some(Text(s.key))
      && Get(st, UserValue) == Some(if s.userValue.Some? then Text(s.userValue.value) else Null)
      && Get(st, DefaultValue) == Some(Text(s.defaultValue))
      && Get(st, LinuxDefault) == Some(Text(s.linuxDefault))
      && Get(st, MacDefault) == Some(Text(s.macDefault))
      && Get(st, WindowsDefault) == Some(Text(s.windowsDefault))
      && Get(st, ValueType) == Some(Integer(s.valueType.Tag()))
  {
    FullColumnsLookup(FullStatement(s).values);
  }

  lemma SimpleStatementValues(s: Setting)
    ensures var st := SimpleStatement(s);
      && Get(st, Key) == Some(Text(s.key))
      && Get(st, DefaultValue) == Some(Text(s.defaultValue))
      && Get(st, ValueType) == Some(Integer(s.valueType.Tag()))
      && Get(st, UserValue) == None
      && Get(st, LinuxDefault) == None
      && Get(st, MacDefault) == None
      && Get(st, WindowsDefault) == None
  {
    SimpleColumnsLookup(SimpleStatement(s).values);
  }

  /** In the full shape the user-value slot is NULL unless a string is given,
      and a left-out platform default is written as the empty string. */
  lemma FullShapeSlots(key: string, options: AddUserSettingOptions)
    requires Plan(key, options).Success?
    requires Plan(key, options).value.columns == FullColumns
    ensures var st := Plan(key, options).value;
      && Get(st, UserValue) == Some(if options.userValue.Defined? then Text(options.userValue.value) else Null)
      && Get(st, LinuxDefault) == Some(Text(options.linuxDefault.GetOr("")))
      && Get(st, MacDefault) == Some(Text(options.macDefault.GetOr("")))
      && Get(st, WindowsDefault) == Some(Text(options.windowsDefault.GetOr("")))
  {
    var s := Resolve(key, options).value;
    assert Plan(key, options).value == FullStatement(s);
    FullStatementValues(s);
  }

  /** An empty-string user value is a value: it selects the full shape and is
      written as the empty string, not as NULL. */
  lemma EmptyUserValueIsWritten(key: string, options: AddUserSettingOptions)
    requires Plan(key, options).Success?
    requires options.userValue == Defined("")
    ensures Plan(key, options).value.columns == FullColumns
    ensures Get(Plan(key, options).value, UserValue) == Some(Text(""))
  {
    FullStatementValues(Resolve(key, options).value);
  }

  /** When the simple shape is chosen, the seven-column insert of the same
      setting would write NULL for `userValue` and the empty string for the
      three platform defaults: exactly the columns the simple insert leaves out. */
  lemma SimpleShapeOmitsOnlyEmptyFields(s: Setting)
    requires ChooseShape(s) == Simple
    ensures var st := FullStatement(s);
      && Get(st, UserValue) == Some(Null)
      && Get(st, LinuxDefault) == Some(Text(""))
      && Get(st, MacDefault) == Some(Text(""))
      && Get(st, WindowsDefault) == Some(Text(""))
  {
    FullStatementValues(s);
  }

  /** The simple shape leaves `userValue` and the platform defaults out; the
      table is assumed to fill them with NULL and the empty string. The other
      columns have no default. This is an assumption about the table, whose
      definition is not part of this model. */
  function AssumedColumnDefault(column: Column): Option<SqlValue>
  {
    match column
    case UserValue => Some(Null)
    case LinuxDefault | MacDefault | WindowsDefault => Some(Text(""))
    case _ => None
  }

  /** The value a column of the stored row gets from a statement: the written
      one, or else the assumed table default. */
  function StoredValue(st: Statement, column: Column): Option<SqlValue>
  {
    match Get(st, column)
    case Some(v) => Some(v)
    case None => AssumedColumnDefault(column)
  }

  /** Under the assumed column defaults, both shapes describe the same row:
      the statement sent stores, column by column, what the seven-column
      insert of the same setting would store. */
  lemma ShapesStoreSameRow(s: Setting, column: Column)
    ensures StoredValue(BuildStatement(s), column) == StoredValue(FullStatement(s), column)
  {
    FullStatementValues(s);
    if ChooseShape(s) == Simple {
      SimpleStatementValues(s);
      SimpleShapeOmitsOnlyEmptyFields(s);
    }
  }

  /** Empty defaults and the `string` type are not mistaken for missing fields. */
  lemma FalsyLookingInputsPass(key: string, options: AddUserSettingOptions)
    requires key != ""
    requires options.defaultValue == Some("") && options.valueType == Some(String)
    ensures Plan(key, options).Success?
    ensures Get(Plan(key, options).value, ValueType) == Some(Integer(0))
  {
    StatementCarriesRequiredFields(key, options);
  }

  /** Setting "theme" with default "dark" and type `string` alone gives the
      three-column insert ("theme", "dark", 0). */
  lemma ThemeSimpleScenario()
    ensures Plan("theme", AddUserSettingOptions(Some("dark"), Some(String), Undefined, None, None, None, None))
         == Success(Statement(Insert, "user_setting", [Key, DefaultValue, ValueType], [Text("theme"), Text("dark"), Integer(0)]))
  {
  }

  /** With Linux and Mac defaults given, the insert has all seven columns, a
      NULL user value and an empty Windows default. */
  lemma ThemeFullScenario()
    ensures Plan("theme", AddUserSettingOptions(Some("dark"), Some(String), Undefined, Some("dark"), Some("light"), None, None))
         == Success(Statement(Insert, "user_setting", FullColumns,
                              [Text("theme"), Null, Text("dark"), Text("dark"), Text("light"), Text(""), Integer(0)]))
  {
  }
}
