/** The record-mapping layer of transwarp/orm.py: field declarations, the
    schema a model class compiles to, its DDL, and the operations on one
    record. */
module Orm {
  import opened Common
  import Db

  // ---------------------------------------------------------------------
  // Fields (orm.py:12-98)
  // ---------------------------------------------------------------------

  /** A field's `_default`: a plain value, or a callable (named by `id`)
      that is invoked again on every read. */
  datatype Default = Literal(value: Value) | Producer(id: string)

  /** The `default` property (orm.py:31-34). `produced` is what a callable
      default returns on this particular read. */
  function ReadDefault(d: Default, produced: Value): (v: Value)
    ensures d.Literal? ==> v == d.value
    ensures d.Producer? ==> v == produced
  {
    match d
    case Literal(x) => x
    case Producer(_) => produced
  }

  /** A field object after `Field.__init__`. */
  datatype Field = Field(
    name: Option<string>,
    default: Default,
    primaryKey: bool,
    nullable: bool,
    updatable: bool,
    insertable: bool,
    ddl: string,
    foreignKey: bool,
    foreignTable: Option<string>,
    foreignField: Option<string>,
    order: nat)

  /** The keyword arguments a field constructor receives; `None` is an
      absent keyword. */
  datatype FieldArgs = FieldArgs(
    name: Option<string>,
    default: Option<Default>,
    primaryKey: Option<bool>,
    nullable: Option<bool>,
    updatable: Option<bool>,
    insertable: Option<bool>,
    ddl: Option<string>,
    foreignKey: Option<bool>,
    foreignTable: Option<string>,
    foreignField: Option<string>)

  const NoArgs := FieldArgs(None, None, None, None, None, None, None, None, None, None)

  /** `Field` itself and its typed subclasses. */
  datatype Kind = Plain | Integer | String | Float | Boolean | Text | Blob

  /** The default each kind supplies (orm.py:45-94); a plain `Field` has
      none, so `kw.get('default', None)` gives None. */
  function KindDefault(kind: Kind): Default
  {
    match kind
    case Plain => Literal(VNone)
    case Integer => Literal(VInt(0))
    case String => Literal(VStr(""))
    case Float => Literal(VFloat("0.0"))
    case Boolean => Literal(VBool(false))
    case Text => Literal(VStr(""))
    case Blob => Literal(VStr(""))
  }

  /** The column type each kind supplies; a plain `Field` falls back to
      `kw.get('ddl', '')`. */
  function KindDdl(kind: Kind): string
  {
    match kind
    case Plain => ""
    case Integer => "bigint"
    case String => "varchar(255)"
    case Float => "real"
    case Boolean => "bool"
    case Text => "text"
    case Blob => "blob"
  }

  /** A subclass constructor: fills `default` and `ddl` only when the
      caller did not pass them. */
  function Filled(kind: Kind, args: FieldArgs): (a: FieldArgs)
    ensures a.default == Some(args.default.GetOr(KindDefault(kind))) || (kind == Plain && a == args)
    ensures args.default.Some? ==> a.default == args.default
    ensures args.ddl.Some? ==> a.ddl == args.ddl
    ensures a.(default := args.default, ddl := args.ddl) == args
  {
    if kind == Plain then args
    else args.(default := Some(args.default.GetOr(KindDefault(kind))),
               ddl := Some(args.ddl.GetOr(KindDdl(kind))))
  }

  /** `Field.__init__` with the counter value `order`. */
  function Init(args: FieldArgs, order: nat): Field
  {
    Field(args.name, args.default.GetOr(Literal(VNone)), args.primaryKey.GetOr(false),
          args.nullable.GetOr(false), args.updatable.GetOr(true), args.insertable.GetOr(true),
          args.ddl.GetOr(""), args.foreignKey.GetOr(false), args.foreignTable, args.foreignField, order)
  }

  /** `VersionField(name)`: a plain field with default 0 and type bigint
      (orm.py:96-98). */
  function VersionArgs(name: Option<string>): FieldArgs
  {
    NoArgs.(name := name, default := Some(Literal(VInt(0))), ddl := Some("bigint"))
  }

  /** What a declared field ends up with: a caller-supplied `default` or
      `ddl` is kept, otherwise the kind's own; every flag has the default
      `Field.__init__` reads it with. */
  lemma DeclaredField(kind: Kind, args: FieldArgs, n: nat)
    ensures var f := Init(Filled(kind, args), n);
      && f.default == args.default.GetOr(KindDefault(kind))
      && f.ddl == args.ddl.GetOr(KindDdl(kind))
      && f.order == n
      && f.name == args.name
      && f.primaryKey == args.primaryKey.GetOr(false)
      && f.nullable == args.nullable.GetOr(false)
      && f.updatable == args.updatable.GetOr(true)
      && f.insertable == args.insertable.GetOr(true)
  {
  }

  /** A version field reads 0 and is a non-null bigint column. */
  lemma VersionField(name: Option<string>, n: nat)
    ensures var f := Init(VersionArgs(name), n);
      f.default == Literal(VInt(0)) && f.ddl == "bigint" && f.name == name && !f.nullable && !f.primaryKey
  {
  }

  /** The class-wide counter `Field._count` (orm.py:14, 28-29): every new
      field takes the current value as its `_order` and bumps it by one. */
  class FieldCounter {
    var count: nat

    constructor ()
      ensures count == 0
    {
      count := 0;
    }

    method New(kind: Kind, args: FieldArgs) returns (f: Field)
      modifies this
      ensures f == Init(Filled(kind, args), old(count))
      ensures count == old(count) + 1
    {
      f := Init(Filled(kind, args), count);
      count := count + 1;
    }

    method NewVersion(name: Option<string>) returns (f: Field)
      modifies this
      ensures f == Init(VersionArgs(name), old(count))
      ensures count == old(count) + 1
    {
      f := Init(VersionArgs(name), count);
      count := count + 1;
    }
  }

  // ---------------------------------------------------------------------
  // Class declaration (`ModelMetaClass.__new__`, orm.py:129-178)
  // ---------------------------------------------------------------------

  /** An attribute of a class body: a field, or anything else (a method is
      a truthy `VOther`). */
  datatype Attr = FieldAttr(field: Field) | Member(value: Value)

  /** A model class after the metaclass: its remaining class attributes
      (with `__table__`, the three hooks and the three `MetaAttrs`), the
      contents of `__mappings__`, and the mapping key of `__primary_key__`. */
  datatype Schema = Schema(attrs: map<string, Value>, mappings: map<string, Field>, key: string)

  datatype Declared = BaseModel | Mapped(schema: Schema)

  const Triggers: set<string> := {"pre_insert", "pre_update", "pre_delete"}

  predicate IsKey(a: Attr)
  {
    a.FieldAttr? && a.field.primaryKey
  }

  /** Truthiness of an optional field name: None and '' are both unset. */
  predicate Unnamed(f: Field)
  {
    f.name.None? || f.name.value == ""
  }

  /** The field as the metaclass leaves it: named after its attribute when
      unnamed, and non-nullable and non-updatable when it is the key. */
  function Normalised(f: Field, k: string): (g: Field)
    ensures g.name == (if Unnamed(f) then Some(k) else f.name)
    ensures g.primaryKey == f.primaryKey && g.insertable == f.insertable && g.order == f.order
    ensures g.nullable == (f.nullable && !f.primaryKey) && g.updatable == (f.updatable && !f.primaryKey)
    ensures g.default == f.default && g.ddl == f.ddl
  {
    var named := if Unnamed(f) then f.(name := Some(k)) else f;
    if named.primaryKey then named.(nullable := false, updatable := false) else named
  }

  function PrimaryKeys(attrs: map<string, Attr>): set<string>
  {
    set k | k in attrs && IsKey(attrs[k])
  }

  function Mapping(attrs: map<string, Attr>): map<string, Field>
  {
    map k | k in attrs && attrs[k].FieldAttr? :: Normalised(attrs[k].field, k)
  }

  /** The three attributes the metaclass always sets (orm.py:172-174). Their
      contents are the schema's `mappings` and `key` and its DDL; as class
      attributes they are opaque, truthy values that shadow record entries. */
  const MetaAttrs: map<string, Value> :=
    map["__mappings__" := VOther("mapping"), "__primary_key__" := VOther("primary key field"),
        "__sql__" := VOther("function __sql__")]

  /** The class attributes the metaclass leaves: every non-field attribute,
      `__table__` defaulting to the lower-cased class name, the three
      attributes of `MetaAttrs`, and each hook not defined set to None. */
  function ClassAttrs(name: string, attrs: map<string, Attr>): map<string, Value>
  {
    var rest := map k | k in attrs && attrs[k].Member? :: attrs[k].value;
    var withTable := if "__table__" in rest then rest else rest["__table__" := VStr(Lower(name))];
    var withMeta := withTable + MetaAttrs;
    withMeta + map t | t in Triggers && t !in withMeta :: VNone
  }

  const MoreThanOneKey := "Cannot define more than 1 primary key in class: "
  const NoKey := "Primary key not defined in class : "

  ghost predicate ValidSchema(s: Schema)
  {
    && "__table__" in s.attrs
    && Triggers <= s.attrs.Keys
    && (forall k :: k in MetaAttrs ==> k in s.attrs && s.attrs[k] == MetaAttrs[k])
    && s.key in s.mappings
    && (forall k :: k in s.mappings ==> (s.mappings[k].primaryKey <==> k == s.key))
    && !s.mappings[s.key].nullable && !s.mappings[s.key].updatable
    && (forall k :: k in s.mappings ==> s.mappings[k].name.Some?)
  }

  /** What declaring class `name` with body `attrs` yields. Only the
      number of key fields decides failure, so the result does not depend
      on the order in which the body is scanned. */
  ghost function Compile(name: string, attrs: map<string, Attr>): (r: Result<Declared, Failure>)
    ensures name == "Model" ==> r == Ok(BaseModel)
    ensures r.Err? <==> name != "Model" && |PrimaryKeys(attrs)| != 1
    ensures r.Err? ==> r.error == TypeError((if |PrimaryKeys(attrs)| > 1 then MoreThanOneKey else NoKey) + name)
    ensures r.Ok? && r.value.Mapped? ==> ValidSchema(r.value.schema) && PrimaryKeys(attrs) == {r.value.schema.key}
  {
    if name == "Model" then Ok(BaseModel)
    else if |PrimaryKeys(attrs)| > 1 then Err(TypeError(MoreThanOneKey + name))
    else if |PrimaryKeys(attrs)| == 0 then Err(TypeError(NoKey + name))
    else
      var key :| key in PrimaryKeys(attrs);
      SingletonSet(PrimaryKeys(attrs), key);
      var s := Schema(ClassAttrs(name, attrs), Mapping(attrs), key);
      assert "__table__" in s.attrs;
      assert forall k :: k in s.mappings && s.mappings[k].primaryKey ==> k in PrimaryKeys(attrs);
      Ok(Mapped(s))
  }

  lemma SingletonSet<T>(s: set<T>, x: T)
    requires |s| == 1 && x in s
    ensures s == {x}
  {
    if y :| y in s && y != x {
      assert {x, y} <= s;
      assert |{x, y}| == 2;
      SubsetSize({x, y}, s);
    }
  }

  lemma SubsetSize<T>(a: set<T>, b: set<T>)
    requires a <= b
    ensures |a| <= |b|
  {
    assert b == a + (b - a);
  }

  /** Field attributes become the mappings, keyed by attribute name, with
      unnamed fields named after their attribute; non-field attributes
      stay on the class. */
  lemma CompileMappings(name: string, attrs: map<string, Attr>)
    requires Compile(name, attrs).Ok? && Compile(name, attrs).value.Mapped?
    ensures var s := Compile(name, attrs).value.schema;
      && (forall k :: k in s.mappings <==> k in attrs && attrs[k].FieldAttr?)
      && (forall k :: k in s.mappings ==>
            s.mappings[k].name == (if Unnamed(attrs[k].field) then Some(k) else attrs[k].field.name))
      && (forall k :: k in attrs && attrs[k].Member? ==> k in s.attrs)
  {
  }

  /** A class other than `Model` with exactly one key field compiles to
      its mappings, keyed by that field. */
  lemma CompileSchema(name: string, attrs: map<string, Attr>)
    requires name != "Model" && |PrimaryKeys(attrs)| == 1
    ensures var r := Compile(name, attrs);
      && r.Ok? && r.value.Mapped? && r.value.schema.mappings == Mapping(attrs)
      && PrimaryKeys(attrs) == {r.value.schema.key}
  {
  }

  /** The table defaults to the lower-cased class name; a declared
      `__table__` wins. A hook the class did not define is None, one it
      did define is kept. */
  lemma CompileAttrs(name: string, attrs: map<string, Attr>)
    requires Compile(name, attrs).Ok? && Compile(name, attrs).value.Mapped?
    ensures var s := Compile(name, attrs).value.schema;
      && s.attrs["__table__"] == (if "__table__" in attrs && attrs["__table__"].Member?
                                  then attrs["__table__"].value else VStr(Lower(name)))
      && (forall t :: t in Triggers ==>
            s.attrs[t] == (if t in attrs && attrs[t].Member? then attrs[t].value else VNone))
      && (forall k :: k in MetaAttrs ==> s.attrs[k] == MetaAttrs[k])
  {
    var s := Compile(name, attrs).value.schema;
    assert s.attrs == ClassAttrs(name, attrs);
    ClassAttrsAt(name, attrs);
  }

  lemma ClassAttrsAt(name: string, attrs: map<string, Attr>)
    ensures var c := ClassAttrs(name, attrs);
      && c["__table__"] == (if "__table__" in attrs && attrs["__table__"].Member?
                            then attrs["__table__"].value else VStr(Lower(name)))
      && (forall t :: t in Triggers ==>
            c[t] == (if t in attrs && attrs[t].Member? then attrs[t].value else VNone))
      && (forall k :: k in MetaAttrs ==> c[k] == MetaAttrs[k])
  {
  }

  /** `ModelMetaClass.__new__`: scans the body in dictionary order,
      naming and collecting fields and stopping at a second key; then pops
      the fields from the class, defaults the table and the hooks. The
      subclass registry and logging are not modelled. */
  method Declare(name: string, attrs: map<string, Attr>) returns (r: Result<Declared, Failure>)
    ensures r == Compile(name, attrs)
  {
    if name == "Model" {
      return Ok(BaseModel);
    }
    var mapping, primary := ScanFields(name, attrs);
    if mapping.Err? {
      return Err(mapping.error);
    }
    if primary.None? {
      return Err(TypeError(NoKey + name));
    }
    var cls := PopFields(attrs, mapping.value);
    if "__table__" !in cls {
      cls := cls["__table__" := VStr(Lower(name))];
    }
    cls := cls + MetaAttrs;
    cls := DefaultHooks(cls);
    SingletonSet(PrimaryKeys(attrs), primary.value);
    r := Ok(Mapped(Schema(cls, mapping.value, primary.value)));
  }

  /** The loop of orm.py:145-161: names each field after its attribute
      when unnamed, forces the key non-nullable and non-updatable, and
      raises at the second key field met. */
  method ScanFields(name: string, attrs: map<string, Attr>)
    returns (mapping: Result<map<string, Field>, Failure>, primary: Option<string>)
    ensures mapping.Err? <==> |PrimaryKeys(attrs)| > 1
    ensures mapping.Err? ==> mapping.error == TypeError(MoreThanOneKey + name)
    ensures mapping.Ok? ==> mapping.value == Mapping(attrs)
    ensures mapping.Ok? ==> (primary.None? <==> PrimaryKeys(attrs) == {})
    ensures mapping.Ok? && primary.Some? ==> primary.value in PrimaryKeys(attrs)
  {
    var order := IterationOrder(attrs);
    var fields: map<string, Field> := map[];
    primary := None;
    ghost var done: set<string> := {};
    for i := 0 to |order|
      invariant done <= attrs.Keys
      invariant forall j :: 0 <= j < i ==> order[j] in done
      invariant forall j :: i <= j < |order| ==> order[j] !in done
      invariant forall k :: k in fields <==> k in done && attrs[k].FieldAttr?
      invariant forall k :: k in fields ==> fields[k] == Normalised(attrs[k].field, k)
      invariant primary.None? ==> forall k :: k in done ==> !IsKey(attrs[k])
      invariant primary.Some? ==> primary.value in done && IsKey(attrs[primary.value])
      invariant primary.Some? ==> forall k :: k in done && IsKey(attrs[k]) ==> k == primary.value
    {
      var k := order[i];
      if attrs[k].FieldAttr? {
        var v := attrs[k].field;
        if Unnamed(v) {
          v := v.(name := Some(k));
        }
        if v.primaryKey {
          if primary.Some? {
            TwoKeys(attrs, primary.value, k);
            return Err(TypeError(MoreThanOneKey + name)), primary;
          }
          v := v.(nullable := false, updatable := false);
          primary := Some(k);
        }
        fields := fields[k := v];
      }
      done := done + {k};
    }
    assert done == attrs.Keys;
    if primary.Some? {
      assert PrimaryKeys(attrs) == {primary.value};
    } else {
      assert PrimaryKeys(attrs) == {};
    }
    mapping := Ok(fields);
  }

  /** orm.py:167-168: every mapped attribute is popped from the class
      body; what is left are the non-field attributes. */
  method PopFields(attrs: map<string, Attr>, mapping: map<string, Field>) returns (cls: map<string, Value>)
    requires mapping == Mapping(attrs)
    ensures cls == map k | k in attrs && attrs[k].Member? :: attrs[k].value
  {
    var rest := attrs;
    var fieldKeys := IterationOrder(mapping);
    for i := 0 to |fieldKeys|
      invariant rest.Keys <= attrs.Keys
      invariant forall k :: k in rest ==> rest[k] == attrs[k]
      invariant forall k :: k in attrs && k !in mapping ==> k in rest
      invariant forall j :: 0 <= j < i ==> fieldKeys[j] !in rest
    {
      rest := rest - {fieldKeys[i]};
    }
    cls := map k | k in rest && rest[k].Member? :: rest[k].value;
  }

  /** orm.py:175-177: each hook the class does not define is set to None. */
  method DefaultHooks(base: map<string, Value>) returns (cls: map<string, Value>)
    ensures cls == base + map t | t in Triggers && t !in base :: VNone
  {
    cls := base;
    var pending := Triggers;
    while pending != {}
      invariant pending <= Triggers
      invariant cls.Keys == base.Keys + (Triggers - pending)
      invariant forall k :: k in base ==> cls[k] == base[k]
      invariant forall t :: t in Triggers - pending && t !in base ==> cls[t] == VNone
      decreases pending
    {
      var t :| t in pending;
      if t !in cls {
        cls := cls[t := VNone];
      }
      pending := pending - {t};
    }
  }

  lemma TwoKeys(attrs: map<string, Attr>, a: string, b: string)
    requires a != b && a in attrs && b in attrs && IsKey(attrs[a]) && IsKey(attrs[b])
    ensures |PrimaryKeys(attrs)| > 1
  {
    assert {a, b} <= PrimaryKeys(attrs);
    SubsetSize({a, b}, PrimaryKeys(attrs));
  }

  // ---------------------------------------------------------------------
  // DDL (`_gen_sql`, orm.py:102-123)
  // ---------------------------------------------------------------------

  predicate SortedByOrder(fs: seq<Field>)
  {
    forall i, j :: 0 <= i < j < |fs| ==> fs[i].order <= fs[j].order
  }

  predicate StrictlyByOrder(fs: seq<Field>)
  {
    forall i, j :: 0 <= i < j < |fs| ==> fs[i].order < fs[j].order
  }

  predicate DistinctOrders(fs: seq<Field>)
  {
    forall i, j :: 0 <= i < j < |fs| ==> fs[i].order != fs[j].order
  }

  /** Puts `f` in front of the first field whose order is not smaller, so
      fields with equal orders keep their relative position. */
  function Place(f: Field, fs: seq<Field>): (r: seq<Field>)
    requires SortedByOrder(fs)
    ensures SortedByOrder(r)
    ensures multiset(r) == multiset(fs) + multiset{f}
    ensures |r| == |fs| + 1 && (r[0] == f || (|fs| > 0 && r[0] == fs[0]))
  {
    if |fs| == 0 || f.order <= fs[0].order then [f] + fs
    else
      var rest := Place(f, fs[1..]);
      assert fs == [fs[0]] + fs[1..];
      assert fs[0].order <= rest[0].order;
      [fs[0]] + rest
  }

  /** `sorted(fields, key=_order)`: a stable sort by declaration order
      (`SortStable`). */
  function SortByOrder(fs: seq<Field>): (r: seq<Field>)
    ensures SortedByOrder(r)
    ensures multiset(r) == multiset(fs)
  {
    if |fs| == 0 then []
    else
      assert fs == [fs[0]] + fs[1..];
      Place(fs[0], SortByOrder(fs[1..]))
  }

  /** The fields of `fs` whose order is `o`, in sequence. */
  function WithOrder(fs: seq<Field>, o: int): seq<Field>
  {
    if |fs| == 0 then []
    else (if fs[0].order == o then [fs[0]] else []) + WithOrder(fs[1..], o)
  }

  /** `Place` puts `f` before every field of equal order. */
  lemma {:induction false} PlaceStable(f: Field, fs: seq<Field>, o: int)
    requires SortedByOrder(fs)
    ensures WithOrder(Place(f, fs), o) == (if f.order == o then [f] else []) + WithOrder(fs, o)
    decreases |fs|
  {
    if |fs| == 0 || f.order <= fs[0].order {
      var r := [f] + fs;
      assert Place(f, fs) == r;
      assert r[0] == f && r[1..] == fs;
    } else {
      var rest := Place(f, fs[1..]);
      var r := [fs[0]] + rest;
      assert Place(f, fs) == r;
      assert r[0] == fs[0] && r[1..] == rest;
      PlaceStable(f, fs[1..], o);
      var head := if fs[0].order == o then [fs[0]] else [];
      var mine := if f.order == o then [f] else [];
      assert head == [] || mine == [];
      assert WithOrder(r, o) == head + (mine + WithOrder(fs[1..], o));
      assert WithOrder(fs, o) == head + WithOrder(fs[1..], o);
    }
  }

  /** The sort is stable: for every order value, the fields carrying it
      come out in the sequence they went in. */
  lemma {:induction false} SortStable(fs: seq<Field>, o: int)
    ensures WithOrder(SortByOrder(fs), o) == WithOrder(fs, o)
  {
    if |fs| > 0 {
      SortStable(fs[1..], o);
      PlaceStable(fs[0], SortByOrder(fs[1..]), o);
    }
  }

  /** `'%s' % x` for an optional name: None prints as `None`. */
  function NameText(n: Option<string>): string
  {
    match n
    case None => "None"
    case Some(s) => s
  }

  function ColumnLine(f: Field): string
  {
    "\t`" + NameText(f.name) + "` " + f.ddl + (if f.nullable then "," else " not null,")
  }

  function Columns(fs: seq<Field>): (r: seq<string>)
    ensures |r| == |fs| && forall i :: 0 <= i < |fs| ==> r[i] == ColumnLine(fs[i])
  {
    seq(|fs|, i requires 0 <= i < |fs| => ColumnLine(fs[i]))
  }

  /** The name of the last key field in `fs`, printed; `None` when there
      is none (`pk = None` at orm.py:104). */
  function KeyName(fs: seq<Field>): string
  {
    if |fs| == 0 then "None"
    else if fs[|fs| - 1].primaryKey then NameText(fs[|fs| - 1].name)
    else KeyName(fs[..|fs| - 1])
  }

  /** A foreign-key clause: the column, the referenced table and column. */
  datatype ForeignKey = ForeignKey(column: string, table: string, field: string)

  function ForeignKeyOf(f: Field): ForeignKey
  {
    ForeignKey(NameText(f.name), NameText(f.foreignTable), NameText(f.foreignField))
  }

  /** The foreign keys of `fs`, in order. */
  function ForeignKeys(fs: seq<Field>): (r: seq<ForeignKey>)
    ensures |r| <= |fs|
  {
    if |fs| == 0 then []
    else ForeignKeys(fs[..|fs| - 1]) + (if fs[|fs| - 1].foreignKey then [ForeignKeyOf(fs[|fs| - 1])] else [])
  }

  /** There is a foreign-key clause exactly when some field is a foreign
      key. */
  lemma {:induction false} ForeignKeysPresent(fs: seq<Field>)
    ensures (exists i :: 0 <= i < |fs| && fs[i].foreignKey) <==> |ForeignKeys(fs)| > 0
  {
    if |fs| > 0 {
      var prefix := fs[..|fs| - 1];
      ForeignKeysPresent(prefix);
      assert forall i :: 0 <= i < |prefix| ==> prefix[i] == fs[i];
      if exists i :: 0 <= i < |fs| - 1 && fs[i].foreignKey {
        var i :| 0 <= i < |fs| - 1 && fs[i].foreignKey;
        assert prefix[i].foreignKey;
      }
    }
  }

  function KeyLine(pk: string, more: bool): string
  {
    "\tprimary key(`" + pk + "`)" + (if more then "," else "")
  }

  /** A foreign-key line; every line but the last ends with a comma. The
      source formats a 4-tuple into three placeholders and never advances
      its line counter (orm.py:115, 119-121); this is the evident intent. */
  function ForeignKeyLine(fk: ForeignKey, last: bool): string
  {
    "\tforeign key(`" + fk.column + "`) references " + fk.table + "(" + fk.field + ")" + (if last then "" else ",")
  }

  function ForeignKeyLines(fks: seq<ForeignKey>): (r: seq<string>)
    ensures |r| == |fks| && forall i :: 0 <= i < |fks| ==> r[i] == ForeignKeyLine(fks[i], i == |fks| - 1)
  {
    seq(|fks|, i requires 0 <= i < |fks| => ForeignKeyLine(fks[i], i == |fks| - 1))
  }

  /** The lines `_gen_sql` emits for fields already in column order. */
  function DdlLines(table: string, fs: seq<Field>): seq<string>
  {
    var fks := ForeignKeys(fs);
    ["-- generating SQL for " + table + ":", "create table `" + table + "` ("]
      + Columns(fs) + [KeyLine(KeyName(fs), |fks| > 0)] + ForeignKeyLines(fks) + [");"]
  }

  function Ddl(table: string, fs: seq<Field>): string
  {
    Join(DdlLines(table, fs), "\n")
  }

  /** The DDL opens with a header comment and the `create table` line and
      closes with `);`; in between are one line per column, the key line
      and one line per foreign key. */
  lemma DdlFrame(table: string, fs: seq<Field>)
    ensures var lines := DdlLines(table, fs);
      && |lines| == |fs| + |ForeignKeys(fs)| + 4
      && lines[0] == "-- generating SQL for " + table + ":"
      && lines[1] == "create table `" + table + "` ("
      && lines[|lines| - 1] == ");"
  {
  }

  /** Column `i` is its name and type, with ` not null` exactly when the
      column is not nullable. */
  lemma DdlColumn(table: string, fs: seq<Field>, i: nat)
    requires i < |fs|
    ensures DdlLines(table, fs)[2 + i] == "\t`" + NameText(fs[i].name) + "` " + fs[i].ddl
                                          + (if fs[i].nullable then "" else " not null") + ","
  {
    assert DdlLines(table, fs)[2 + i] == Columns(fs)[i];
  }

  /** The key line names the key column and ends with a comma exactly when
      foreign-key lines follow; the last foreign-key line has no comma. */
  lemma DdlKeys(table: string, fs: seq<Field>)
    ensures var lines := DdlLines(table, fs);
      var fks := ForeignKeys(fs);
      && lines[2 + |fs|] == "\tprimary key(`" + KeyName(fs) + "`)" + (if |fks| > 0 then "," else "")
      && (forall i :: 0 <= i < |fks| ==> lines[3 + |fs| + i] == ForeignKeyLine(fks[i], i == |fks| - 1))
  {
  }

  /** Sorting keeps every field, so the DDL has a foreign-key line exactly
      when some field of the mapping is a foreign key. */
  lemma SortKeepsForeignKeys(fields: seq<Field>)
    ensures (exists i :: 0 <= i < |fields| && fields[i].foreignKey) <==> |ForeignKeys(SortByOrder(fields))| > 0
  {
    var fs := SortByOrder(fields);
    ForeignKeysPresent(fs);
    if i :| 0 <= i < |fields| && fields[i].foreignKey {
      assert fields[i] in multiset(fs);
      var j :| 0 <= j < |fs| && fs[j] == fields[i];
    }
    if j :| 0 <= j < |fs| && fs[j].foreignKey {
      assert fs[j] in multiset(fields);
      var i :| 0 <= i < |fields| && fields[i] == fs[j];
    }
  }

  /** Two sequences strictly ascending by `_order` that hold the same
      fields are the same sequence. */
  lemma {:induction false} StrictlySortedUnique(a: seq<Field>, b: seq<Field>)
    requires StrictlyByOrder(a) && StrictlyByOrder(b)
    requires forall x :: x in a <==> x in b
    ensures a == b
    decreases |a|
  {
    assert |a| > 0 ==> a[0] in a;
    assert |b| > 0 ==> b[0] in b;
    if |a| > 0 {
      assert a[0] in b && b[0] in b;
      var i :| 0 <= i < |b| && b[i] == a[0];
      var j :| 0 <= j < |a| && a[j] == b[0];
      assert i == 0;
      forall x ensures x in a[1..] <==> x in b[1..] {
        if x in a[1..] {
          var k :| 1 <= k < |a| && a[k] == x;
          assert a[0].order < x.order;
          assert x in b;
        }
        if x in b[1..] {
          var k :| 1 <= k < |b| && b[k] == x;
          assert b[0].order < x.order;
          assert x in a;
        }
      }
      StrictlySortedUnique(a[1..], b[1..]);
      assert a == [a[0]] + a[1..] && b == [b[0]] + b[1..];
    }
  }

  /** With distinct orders no field occurs twice. */
  lemma {:induction false} AtMostOnce(v: seq<Field>, x: Field)
    requires DistinctOrders(v)
    ensures multiset(v)[x] <= 1
  {
    if |v| > 0 {
      assert v == [v[0]] + v[1..];
      AtMostOnce(v[1..], x);
      if v[0] == x {
        assert forall k :: 1 <= k < |v| ==> v[k].order != x.order;
        assert x !in v[1..];
      }
    }
  }

  lemma Twice(r: seq<Field>, i: nat, j: nat)
    requires i < j < |r| && r[i] == r[j]
    ensures multiset(r)[r[i]] >= 2
  {
    assert r == r[..j] + r[j..];
    assert r[i] in r[..j];
    assert r[j..][0] == r[j];
  }

  /** Sorting fields whose orders are distinct leaves them strictly
      ascending. */
  lemma SortedStrict(r: seq<Field>, v: seq<Field>)
    requires SortedByOrder(r) && multiset(r) == multiset(v) && DistinctOrders(v)
    ensures StrictlyByOrder(r)
  {
    forall i, j | 0 <= i < j < |r| ensures r[i].order != r[j].order {
      assert r[i] in multiset(v) && r[j] in multiset(v);
      if r[i] == r[j] {
        Twice(r, i, j);
        AtMostOnce(v, r[i]);
      } else {
        DistinctMembers(v, r[i], r[j]);
      }
    }
  }

  lemma DistinctMembers(v: seq<Field>, x: Field, y: Field)
    requires DistinctOrders(v) && x in v && y in v && x != y
    ensures x.order != y.order
  {
    var p :| 0 <= p < |v| && v[p] == x;
    var q :| 0 <= q < |v| && v[q] == y;
    assert p != q;
  }

  /** When the fields carry distinct orders (as the counter guarantees for
      separately constructed fields), the DDL is the same whatever order
      the dictionary iterates in. */
  lemma DdlIgnoresDictOrder(table: string, m: map<string, Field>, o1: seq<string>, o2: seq<string>)
    requires KeyOrder(o1, m) && KeyOrder(o2, m)
    requires forall k1, k2 :: k1 in m && k2 in m && k1 != k2 ==> m[k1].order != m[k2].order
    ensures Ddl(table, SortByOrder(ValuesAt(o1, m))) == Ddl(table, SortByOrder(ValuesAt(o2, m)))
  {
    var v1, v2 := ValuesAt(o1, m), ValuesAt(o2, m);
    SortedStrict(SortByOrder(v1), v1);
    SortedStrict(SortByOrder(v2), v2);
    SameFields(m, o1, o2);
    StrictlySortedUnique(SortByOrder(v1), SortByOrder(v2));
  }

  lemma SameFields(m: map<string, Field>, o1: seq<string>, o2: seq<string>)
    requires KeyOrder(o1, m) && KeyOrder(o2, m)
    ensures forall x :: x in SortByOrder(ValuesAt(o1, m)) <==> x in SortByOrder(ValuesAt(o2, m))
  {
    SortedMembers(ValuesAt(o1, m));
    SortedMembers(ValuesAt(o2, m));
    forall x ensures x in ValuesAt(o1, m) <==> x in ValuesAt(o2, m) {
      InValues(o1, m, x);
      InValues(o2, m, x);
    }
  }

  lemma SortedMembers(fs: seq<Field>)
    ensures forall x :: x in SortByOrder(fs) <==> x in fs
  {
    forall x ensures x in SortByOrder(fs) <==> x in fs {
      assert x in SortByOrder(fs) <==> x in multiset(SortByOrder(fs));
      assert x in fs <==> x in multiset(fs);
    }
  }

  lemma InValues(o: seq<string>, m: map<string, Field>, x: Field)
    requires KeyOrder(o, m)
    ensures x in ValuesAt(o, m) <==> x in m.Values
  {
    if x in ValuesAt(o, m) {
      var i :| 0 <= i < |o| && ValuesAt(o, m)[i] == x;
      assert o[i] in m;
    }
    if x in m.Values {
      var k :| k in m && m[k] == x;
      var i :| 0 <= i < |o| && o[i] == k;
      assert ValuesAt(o, m)[i] == x;
    }
  }

  /** `_gen_sql(table_name, mapping)` with `mapping` iterated in the order
      `order`: sorts the fields by `_order`, then appends the lines. Every
      field has a `ddl`, so the StandardError of orm.py:108-109 cannot
      happen. */
  method GenSql(table: string, mapping: map<string, Field>, order: seq<string>) returns (text: string)
    requires KeyOrder(order, mapping)
    ensures text == Ddl(table, SortByOrder(ValuesAt(order, mapping)))
  {
    var fs := SortByOrder(ValuesAt(order, mapping));
    var sql := ["-- generating SQL for " + table + ":", "create table `" + table + "` ("];
    var pk, fks;
    sql, pk, fks := AppendColumns(sql, fs);
    sql := sql + [KeyLine(pk, |fks| > 0)];
    sql := AppendForeignKeys(sql, fks);
    sql := sql + [");"];
    text := Join(sql, "\n");
  }

  /** The column loop of orm.py:107-116: one line per field, remembering
      the last key name and collecting the foreign keys. */
  method AppendColumns(sql0: seq<string>, fs: seq<Field>)
    returns (sql: seq<string>, pk: string, fks: seq<ForeignKey>)
    ensures sql == sql0 + Columns(fs)
    ensures pk == KeyName(fs)
    ensures fks == ForeignKeys(fs)
  {
    sql, pk, fks := sql0, "None", [];
    for i := 0 to |fs|
      invariant pk == KeyName(fs[..i])
      invariant fks == ForeignKeys(fs[..i])
      invariant sql == sql0 + Columns(fs[..i])
    {
      var f := fs[i];
      assert fs[..i + 1][..i] == fs[..i];
      assert Columns(fs[..i + 1]) == Columns(fs[..i]) + [ColumnLine(f)];
      if f.primaryKey {
        pk := NameText(f.name);
      }
      if f.foreignKey {
        fks := fks + [ForeignKeyOf(f)];
      }
      sql := sql + [ColumnLine(f)];
    }
    assert fs[..|fs|] == fs;
  }

  /** The foreign-key loop of orm.py:120-121. */
  method AppendForeignKeys(sql0: seq<string>, fks: seq<ForeignKey>) returns (sql: seq<string>)
    ensures sql == sql0 + ForeignKeyLines(fks)
  {
    sql := sql0;
    for i := 0 to |fks|
      invariant sql == sql0 + ForeignKeyLines(fks)[..i]
    {
      assert ForeignKeyLines(fks)[..i + 1] == ForeignKeyLines(fks)[..i] + [ForeignKeyLine(fks[i], i == |fks| - 1)];
      sql := sql + [ForeignKeyLine(fks[i], i == |fks| - 1)];
    }
    assert ForeignKeyLines(fks)[..|fks|] == ForeignKeyLines(fks);
  }

  /** Sorting fields already strictly ascending by `_order` changes
      nothing. */
  lemma SortedIdentity(fs: seq<Field>)
    requires StrictlyByOrder(fs)
    ensures SortByOrder(fs) == fs
  {
    SortedStrict(SortByOrder(fs), fs);
    SortedMembers(fs);
    StrictlySortedUnique(SortByOrder(fs), fs);
  }

  // ---------------------------------------------------------------------
  // Records (`Model`, orm.py:180-339)
  // ---------------------------------------------------------------------

  /** The table name as `'%s' % cls.__table__` prints it. */
  function Table(s: Schema): string
    requires "__table__" in s.attrs
  {
    Common.Str(s.attrs["__table__"])
  }

  /** `cls.__primary_key__.name`: the key field's name, which the metaclass
      has set. This is the name used in WHERE clauses, while the SET list
      of `update` uses the attribute names. */
  function PkName(s: Schema): string
    requires s.key in s.mappings
  {
    NameText(s.mappings[s.key].name)
  }

  function NoAttribute(key: string): Failure
  {
    AttributeError("'Dict' object has no attribute '" + key + "'")
  }

  /** `Model.__getattr__` (orm.py:232-236): the record's own entry, or
      AttributeError. */
  function GetAttr(items: map<string, Value>, key: string): (r: Result<Value, Failure>)
    ensures r.Ok? <==> key in items
    ensures r.Ok? ==> r.value == items[key]
    ensures r.Err? ==> r.error == NoAttribute(key)
  {
    if key in items then Ok(items[key]) else Err(NoAttribute(key))
  }

  /** `__setattr__` stores into the record, so an attribute written is
      read back, and every other attribute reads as before. */
  lemma SetThenGet(items: map<string, Value>, key: string, value: Value, other: string)
    ensures GetAttr(items[key := value], key) == Ok(value)
    ensures other != key ==> GetAttr(items[key := value], other) == GetAttr(items, other)
  {
  }

  /** `hasattr(self, k)`: a class attribute, or an entry of the record.
      Members inherited from `Model` and `dict` are not modelled. */
  predicate Has(s: Schema, items: map<string, Value>, k: string)
  {
    k in s.attrs || k in items
  }

  /** `getattr(self, k)`: class attributes shadow the record's entries,
      since `__getattr__` is consulted only when ordinary lookup fails. */
  function Lookup(s: Schema, items: map<string, Value>, k: string): (r: Result<Value, Failure>)
    ensures r.Ok? <==> Has(s, items, k)
    ensures k in s.attrs ==> r == Ok(s.attrs[k])
    ensures k !in s.attrs ==> r == GetAttr(items, k)
  {
    if k in s.attrs then Ok(s.attrs[k]) else GetAttr(items, k)
  }

  /** On a declared model, `__mappings__`, `__primary_key__` and `__sql__`
      read as the class's own attributes whatever the record holds. */
  lemma MetaShadows(s: Schema, items: map<string, Value>, k: string)
    requires ValidSchema(s) && k in MetaAttrs
    ensures Lookup(s, items, k) == Ok(MetaAttrs[k])
    ensures Lookup(s, items[k := VNone], k) == Lookup(s, items, k)
  {
  }

  /** `self.pre_x and self.pre_x()`: the hook runs when the class attribute
      is truthy; what it does to the record is the caller-supplied `hook`. */
  function Hooked(s: Schema, trigger: string, items: map<string, Value>,
                  hook: map<string, Value> -> map<string, Value>): map<string, Value>
    requires trigger in s.attrs
  {
    if Truthy(s.attrs[trigger]) then hook(items) else items
  }

  function Insertable(s: Schema): set<string>
  {
    set k | k in s.mappings && s.mappings[k].insertable
  }

  function Updatable(s: Schema): map<string, Field>
  {
    map k | k in s.mappings && s.mappings[k].updatable :: s.mappings[k]
  }

  /** The record after the default-filling loop of `insert` or `update`
      over the columns `keys`: each such column the record lacks takes the
      field's default, read once (`produce(k)` is what a callable default
      of column `k` returns); everything present is left alone. */
  function Fill(s: Schema, items: map<string, Value>, produce: string -> Value, keys: set<string>)
    : (r: map<string, Value>)
    ensures forall k :: k in items ==> k in r && r[k] == items[k]
    ensures forall k :: k in keys && k in s.mappings ==> Has(s, r, k)
  {
    items + map k | k in keys && k in s.mappings && !Has(s, items, k)
                  :: ReadDefault(s.mappings[k].default, produce(k))
  }

  /** Filling adds exactly the missing selected columns, each with its
      field's default. */
  lemma FillAdds(s: Schema, items: map<string, Value>, produce: string -> Value, keys: set<string>, k: string)
    requires k !in items
    ensures k in Fill(s, items, produce, keys) <==> k in keys && k in s.mappings && k !in s.attrs
    ensures k in Fill(s, items, produce, keys) ==>
      Fill(s, items, produce, keys)[k] == ReadDefault(s.mappings[k].default, produce(k))
  {
  }

  /** The callables are consulted only for the columns filling writes:
      two runs whose callable defaults return the same values on the
      missing selected columns fill the record identically, whatever they
      would return elsewhere. A column with a literal default never
      depends on a callable. */
  lemma FillReads(s: Schema, items: map<string, Value>, p1: string -> Value, p2: string -> Value,
                  keys: set<string>)
    requires forall k ::
      (k in keys && k in s.mappings && !Has(s, items, k) && s.mappings[k].default.Producer?) ==>
      p1(k) == p2(k)
    ensures Fill(s, items, p1, keys) == Fill(s, items, p2, keys)
  {
    var f1, f2 := Fill(s, items, p1, keys), Fill(s, items, p2, keys);
    assert f1.Keys == f2.Keys;
    forall k | k in f1 ensures f1[k] == f2[k] {
      if k !in items {
        FillAdds(s, items, p1, keys, k);
        FillAdds(s, items, p2, keys, k);
      }
    }
  }

  /** Filling twice is filling once: a second `insert` or `update` writes
      no further default. */
  lemma FillIdempotent(s: Schema, items: map<string, Value>, produce: string -> Value,
                       again: string -> Value, keys: set<string>)
    ensures var once := Fill(s, items, produce, keys);
      Fill(s, once, again, keys) == once
  {
    var once := Fill(s, items, produce, keys);
    assert Fill(s, once, again, keys).Keys == once.Keys;
  }

  /** `items` is `start` with the defaults of the columns `keys` filled
      in, stated entry by entry as the loops of `insert` and `update`
      maintain it. */
  ghost predicate Filling(s: Schema, start: map<string, Value>, produce: string -> Value,
                          keys: set<string>, items: map<string, Value>)
  {
    && (forall k :: k in items <==> k in start || (k in keys && k in s.mappings && !Has(s, start, k)))
    && (forall k :: k in start ==> items[k] == start[k])
    && (forall k :: k in items && k !in start ==> items[k] == ReadDefault(s.mappings[k].default, produce(k)))
  }

  /** One step of the loop: column `k`, filled only when `selected`. */
  lemma FillingStep(s: Schema, start: map<string, Value>, produce: string -> Value,
                    keys: set<string>, items: map<string, Value>, k: string, selected: bool)
    requires Filling(s, start, produce, keys, items) && k in s.mappings && k !in keys
    ensures var next := if selected && !Has(s, items, k) then items[k := ReadDefault(s.mappings[k].default, produce(k))] else items;
      && Filling(s, start, produce, if selected then keys + {k} else keys, next)
      && (forall x :: x in items ==> x in next && next[x] == items[x])
      && (selected ==> Has(s, next, k))
  {
  }

  /** Every entry of `args` is what attribute lookup reads on `items`. */
  ghost predicate ReadInto(s: Schema, items: map<string, Value>, args: map<string, Value>)
  {
    forall k :: k in args ==> Has(s, items, k) && args[k] == Lookup(s, items, k).value
  }

  lemma ReadStep(s: Schema, items: map<string, Value>, next: map<string, Value>, args: map<string, Value>, k: string)
    requires ReadInto(s, items, args)
    requires forall x :: x in items ==> x in next && next[x] == items[x]
    requires Has(s, next, k)
    ensures ReadInto(s, next, args[k := Lookup(s, next, k).value])
  {
  }

  lemma FillingDone(s: Schema, start: map<string, Value>, produce: string -> Value,
               keys: set<string>, items: map<string, Value>)
    requires Filling(s, start, produce, keys, items)
    ensures items == Fill(s, start, produce, keys)
  {
    assert items.Keys == Fill(s, start, produce, keys).Keys;
  }

  /** The arguments `insert` hands to `db.insert`: every insertable column,
      read back through attribute lookup. */
  function InsertArgs(s: Schema, items: map<string, Value>): (r: map<string, Value>)
    requires forall k :: k in Insertable(s) ==> Has(s, items, k)
    ensures r.Keys == Insertable(s)
  {
    map k | k in Insertable(s) :: Lookup(s, items, k).value
  }

  /** orm.py:311-328 with the record's own entries: after the defaults are
      written, the statement inserts exactly the insertable columns; an
      entry the record already had is inserted as it was, a missing one
      with its default. It fails only when no column is insertable. */
  lemma InsertColumns(s: Schema, items: map<string, Value>, produce: string -> Value, cols: seq<string>)
    requires "__table__" in s.attrs
    requires KeyOrder(cols, InsertArgs(s, Fill(s, items, produce, Insertable(s))))
    ensures var filled := Fill(s, items, produce, Insertable(s));
      var r := Db.Insert(Table(s), InsertArgs(s, filled), cols);
      && (r.Err? <==> Insertable(s) == {})
      && (forall i :: 0 <= i < |cols| ==> cols[i] in s.mappings && s.mappings[cols[i]].insertable)
      && (forall k :: k in s.mappings && s.mappings[k].insertable ==> k in cols)
      && (forall i :: 0 <= i < |cols| && r.Ok? && cols[i] !in s.attrs && cols[i] in items ==>
            r.value.args[i] == items[cols[i]])
      && (forall i :: 0 <= i < |cols| && r.Ok? && cols[i] !in s.attrs && cols[i] !in items ==>
            r.value.args[i] == ReadDefault(s.mappings[cols[i]].default, produce(cols[i])))
  {
    var filled := Fill(s, items, produce, Insertable(s));
    forall i | 0 <= i < |cols| && cols[i] !in s.attrs && cols[i] !in items
      ensures filled[cols[i]] == ReadDefault(s.mappings[cols[i]].default, produce(cols[i]))
    {
      FillAdds(s, items, produce, Insertable(s), cols[i]);
    }
  }

  /** One entry of the SET list of orm.py:304. */
  function SetClause(k: string): string
  {
    "`" + k + "`=?"
  }

  function SetClauses(cols: seq<string>): (r: seq<string>)
    ensures |r| == |cols| && forall i :: 0 <= i < |cols| ==> r[i] == SetClause(cols[i])
  {
    seq(|cols|, i requires 0 <= i < |cols| => SetClause(cols[i]))
  }

  /** Distinct columns give distinct SET entries. */
  lemma SetClauseInjective(a: string, b: string)
    ensures SetClause(a) == SetClause(b) ==> a == b
  {
    if SetClause(a) == SetClause(b) {
      assert a == SetClause(a)[1..|a| + 1];
      assert b == SetClause(b)[1..|b| + 1];
    }
  }

  /** The statement `update` issues for the record `items` (defaults
      already written) when the updatable columns are iterated in the
      order `cols`: a SET entry and an argument per column, then the key
      value for the WHERE clause. Reading the key raises AttributeError
      when the record has no such entry (orm.py:306-308). */
  function UpdateStmt(s: Schema, items: map<string, Value>, cols: seq<string>): (r: Result<Db.Stmt, Failure>)
    requires "__table__" in s.attrs && s.key in s.mappings
    requires forall i :: 0 <= i < |cols| ==> Has(s, items, cols[i])
    ensures r.Err? <==> !Has(s, items, PkName(s))
    ensures r.Err? ==> r.error == NoAttribute(PkName(s))
    ensures r.Ok? ==> |r.value.args| == |cols| + 1
  {
    var pk := PkName(s);
    if !Has(s, items, pk) then Err(NoAttribute(pk))
    else
      Ok(Db.Stmt("update `" + Table(s) + "` set " + Join(SetClauses(cols), ",") + " where " + pk + "=?",
                 ColumnValues(s, items, cols) + [Lookup(s, items, pk).value]))
  }

  /** The attribute values of the columns `cols`, in order. */
  function ColumnValues(s: Schema, items: map<string, Value>, cols: seq<string>): (r: seq<Value>)
    requires forall i :: 0 <= i < |cols| ==> Has(s, items, cols[i])
    ensures |r| == |cols| && forall i :: 0 <= i < |cols| ==> r[i] == Lookup(s, items, cols[i]).value
  {
    seq(|cols|, i requires 0 <= i < |cols| => Lookup(s, items, cols[i]).value)
  }

  /** orm.py:290-309 and the doctest at 204-210: the SET list names exactly
      the updatable columns, never the primary key; each argument is the
      record's value for its column, and the last argument is the key
      value. A column that is not updatable is never written. */
  lemma UpdateColumns(s: Schema, items: map<string, Value>, produce: string -> Value, cols: seq<string>)
    requires ValidSchema(s)
    requires KeyOrder(cols, Updatable(s))
    ensures var filled := Fill(s, items, produce, Updatable(s).Keys);
      var r := UpdateStmt(s, filled, cols);
      && s.key !in cols
      && (forall k :: k in cols <==> k in s.mappings && s.mappings[k].updatable)
      && (forall i, j :: 0 <= i < j < |cols| ==> SetClauses(cols)[i] != SetClauses(cols)[j])
      && (r.Ok? ==> r.value.sql == "update `" + Table(s) + "` set " + Join(SetClauses(cols), ",")
                                   + " where " + PkName(s) + "=?")
      && (r.Ok? ==> forall i :: 0 <= i < |cols| ==> r.value.args[i] == Lookup(s, filled, cols[i]).value)
      && (r.Ok? ==> r.value.args[|cols|] == Lookup(s, filled, PkName(s)).value)
  {
    var filled := Fill(s, items, produce, Updatable(s).Keys);
    assert s.key !in Updatable(s);
    forall i, j | 0 <= i < j < |cols| ensures SetClauses(cols)[i] != SetClauses(cols)[j] {
      SetClauseInjective(cols[i], cols[j]);
    }
  }

  /** `update` never overwrites a stored value, so a column that is not
      updatable keeps what the record holds. */
  lemma UpdateKeepsStored(s: Schema, items: map<string, Value>, produce: string -> Value, k: string)
    requires k in items
    ensures Fill(s, items, produce, Updatable(s).Keys)[k] == items[k]
  {
  }

  /** The statement `delete` issues (orm.py:334-338): by primary key, with
      the key value as the only argument. */
  function DeleteStmt(s: Schema, items: map<string, Value>): (r: Result<Db.Stmt, Failure>)
    requires "__table__" in s.attrs && s.key in s.mappings
    ensures r.Err? <==> !Has(s, items, PkName(s))
    ensures r.Err? ==> r.error == NoAttribute(PkName(s))
    ensures r.Ok? ==> r.value.args == [Lookup(s, items, PkName(s)).value]
    ensures r.Ok? ==> StartsWith(r.value.sql, "delete from " + Table(s) + " where " + PkName(s))
  {
    var pk := PkName(s);
    if !Has(s, items, pk) then Err(NoAttribute(pk))
    else Ok(Db.Stmt("delete from " + Table(s) + " where " + pk + "=?", [Lookup(s, items, pk).value]))
  }

  /** Python's name for the type of a value, as a TypeError message prints
      it; `VOther` stands for an object that is not callable. */
  function TypeName(v: Value): string
  {
    match v
    case VNone => "NoneType"
    case VBool(_) => "bool"
    case VInt(_) => "int"
    case VFloat(_) => "float"
    case VStr(_) => "str"
    case VOther(_) => "object"
  }

  function NotCallable(v: Value): Failure
  {
    TypeError("'" + TypeName(v) + "' object is not callable")
  }

  /** orm.py:302 as written: `v.default()` calls the value the `default`
      property already produced. No value of this model is callable, so
      the call raises TypeError. */
  function UpdateDefaultAsWritten(f: Field, produced: Value): (r: Result<Value, Failure>)
    ensures r.Err? && r.error.TypeError?
  {
    Err(NotCallable(ReadDefault(f.default, produced)))
  }

  /** The input that shows it: updating a `User` record that lacks the
      `passwd` entry reads the callable default, which gives `'******'`,
      and then calls that string; the evident intent, which `Fill` models,
      is to write `'******'` into the record. */
  lemma UpdateDefaultAsWrittenFails(s: Schema, items: map<string, Value>)
    requires s.mappings == UserMappings(0) && "passwd" !in s.attrs && "passwd" !in items
    ensures UpdateDefaultAsWritten(s.mappings["passwd"], VStr("******")) == Err(NotCallable(VStr("")))
    ensures Fill(s, items, _ => VStr("******"), Updatable(s).Keys)["passwd"] == VStr("******")
  {
    assert s.mappings["passwd"].default == Producer("lambda: '******'");
    assert "passwd" in Updatable(s);
  }

  // ---------------------------------------------------------------------
  // The doctest model `User` (orm.py:183-224)
  // ---------------------------------------------------------------------

  /** The body of `class User(Model)` when its five fields are created with
      consecutive counter values from `n` on. */
  function UserAttrs(n: nat): map<string, Attr>
  {
    map k | k in UserBody :: UserDecl(k, n)
  }

  const UserBody: set<string> := {"id", "name", "email", "passwd", "last_modified", "pre_insert"}

  /** The class attribute `k` of the body. */
  function UserDecl(k: string, n: nat): Attr
  {
    if k == "id" then FieldAttr(Init(Filled(Integer, NoArgs.(primaryKey := Some(true))), n))
    else if k == "name" then FieldAttr(Init(Filled(String, NoArgs), n + 1))
    else if k == "email" then FieldAttr(Init(Filled(String, NoArgs.(updatable := Some(false))), n + 2))
    else if k == "passwd" then FieldAttr(Init(Filled(String, NoArgs.(default := Some(Producer("lambda: '******'")))), n + 3))
    else if k == "last_modified" then FieldAttr(Init(Filled(Float, NoArgs), n + 4))
    else Member(VOther("<function pre_insert>"))
  }

  function Column(name: string, default: Default, key: bool, updatable: bool, ddl: string, order: nat): Field
  {
    Field(Some(name), default, key, false, updatable, true, ddl, false, None, None, order)
  }

  const UserColumns: seq<string> := ["id", "name", "email", "passwd", "last_modified"]

  /** The mappings the metaclass produces for `User`. */
  function UserMappings(n: nat): map<string, Field>
  {
    map k | k in UserColumns :: UserColumn(k, n)
  }

  function UserColumn(k: string, n: nat): Field
  {
    if k == "id" then Column("id", Literal(VInt(0)), true, false, "bigint", n)
    else if k == "name" then Column("name", Literal(VStr("")), false, true, "varchar(255)", n + 1)
    else if k == "email" then Column("email", Literal(VStr("")), false, false, "varchar(255)", n + 2)
    else if k == "passwd" then Column("passwd", Producer("lambda: '******'"), false, true, "varchar(255)", n + 3)
    else Column("last_modified", Literal(VFloat("0.0")), false, true, "real", n + 4)
  }

  /** Declaring `User` succeeds with `id` as the key, the table `user`, the
      fields named after their attributes and `id` forced non-updatable. */
  lemma UserDeclared(n: nat)
    ensures Compile("User", UserAttrs(n)).Ok?
    ensures var d := Compile("User", UserAttrs(n)).value;
      && d.Mapped? && d.schema.key == "id" && d.schema.mappings == UserMappings(n)
      && d.schema.attrs["__table__"] == VStr("user")
  {
    UserKey(n);
    CompileSchema("User", UserAttrs(n));
    UserMapping(n);
    UserTable(n);
    CompileAttrs("User", UserAttrs(n));
  }

  lemma UserTable(n: nat)
    ensures "__table__" !in UserAttrs(n)
    ensures Lower("User") == "user"
  {
  }

  lemma UserKey(n: nat)
    ensures PrimaryKeys(UserAttrs(n)) == {"id"}
  {
    var attrs := UserAttrs(n);
    assert IsKey(attrs["id"]);
    assert forall k | k in attrs && k != "id" :: !IsKey(attrs[k]);
  }

  lemma UserMapping(n: nat)
    ensures Mapping(UserAttrs(n)) == UserMappings(n)
  {
    var attrs, m := UserAttrs(n), UserMappings(n);
    assert Mapping(attrs).Keys == m.Keys;
    forall k | k in m ensures Mapping(attrs)[k] == m[k] {
      if k == "id" {
        TypedDeclaration(Integer, NoArgs.(primaryKey := Some(true)), n, k);
      } else if k == "name" {
        TypedDeclaration(String, NoArgs, n + 1, k);
      } else if k == "email" {
        TypedDeclaration(String, NoArgs.(updatable := Some(false)), n + 2, k);
      } else if k == "passwd" {
        TypedDeclaration(String, NoArgs.(default := Some(Producer("lambda: '******'"))), n + 3, k);
      } else {
        TypedDeclaration(Float, NoArgs, n + 4, k);
      }
    }
  }

  /** A typed field declared without a name, nullability, insertability,
      type or foreign key, as the metaclass leaves it under attribute `k`. */
  lemma TypedDeclaration(kind: Kind, args: FieldArgs, n: nat, k: string)
    requires kind != Plain && k != ""
    requires args == NoArgs.(primaryKey := args.primaryKey, updatable := args.updatable, default := args.default)
    ensures var key := args.primaryKey.GetOr(false);
      Normalised(Init(Filled(kind, args), n), k)
        == Column(k, args.default.GetOr(KindDefault(kind)), key, args.updatable.GetOr(true) && !key, KindDdl(kind), n)
  {
  }

  /** The fields of `User` in declaration order. */
  function UserFields(n: nat): seq<Field>
  {
    [UserColumn("id", n), UserColumn("name", n), UserColumn("email", n),
     UserColumn("passwd", n), UserColumn("last_modified", n)]
  }

  /** The lines of the doctest's expected `User().__sql__()` output. */
  const UserDoctest: seq<string> :=
    ["-- generating SQL for user:", "create table `user` (",
     "\t`id` bigint not null,", "\t`name` varchar(255) not null,",
     "\t`email` varchar(255) not null,", "\t`passwd` varchar(255) not null,",
     "\t`last_modified` real not null,", "\tprimary key(`id`)", ");"]

  /** `User().__sql__()` prints the doctest's text, the lines joined with
      newlines, whatever order the mapping dictionary iterates in
      (orm.py:215-224). */
  lemma UserDdl(n: nat, order: seq<string>)
    requires KeyOrder(order, UserMappings(n))
    ensures Ddl("user", SortByOrder(ValuesAt(order, UserMappings(n)))) == Join(UserDoctest, "\n")
  {
    var m := UserMappings(n);
    UserOrders(n);
    DdlIgnoresDictOrder("user", m, order, UserColumns);
    UserValues(n);
    UserSorted(n);
    SortedIdentity(UserFields(n));
    UserLines(n);
  }

  lemma UserOrders(n: nat)
    ensures KeyOrder(UserColumns, UserMappings(n))
    ensures var m := UserMappings(n);
      forall k1, k2 :: k1 in m && k2 in m && k1 != k2 ==> m[k1].order != m[k2].order
  {
    var m := UserMappings(n);
    assert forall i :: 0 <= i < |UserColumns| ==> m[UserColumns[i]].order == n + i;
    forall k1, k2 | k1 in m && k2 in m && k1 != k2 ensures m[k1].order != m[k2].order {
      var i :| 0 <= i < |UserColumns| && UserColumns[i] == k1;
      var j :| 0 <= j < |UserColumns| && UserColumns[j] == k2;
    }
  }

  lemma UserValues(n: nat)
    ensures forall i :: 0 <= i < |UserColumns| ==> UserColumns[i] in UserMappings(n)
    ensures ValuesAt(UserColumns, UserMappings(n)) == UserFields(n)
  {
  }

  lemma UserSorted(n: nat)
    ensures StrictlyByOrder(UserFields(n))
  {
    var fs := UserFields(n);
    assert forall i :: 0 <= i < |fs| ==> fs[i].order == n + i;
  }

  lemma UserLines(n: nat)
    ensures DdlLines("user", UserFields(n)) == UserDoctest
  {
    var fs := UserFields(n);
    NoForeignKeys(fs);
    LastKey(fs, 0);
    UserColumnLines(n);
    UserFrame();
    NineLines("user", fs, UserDoctest);
  }

  /** A table without foreign keys prints the two header lines, one line
      per column, the primary key line and the closing line. */
  lemma NineLines(table: string, fs: seq<Field>, lines: seq<string>)
    requires ForeignKeys(fs) == [] && |lines| == 9 && |fs| == 5
    requires lines[0] == "-- generating SQL for " + table + ":"
    requires lines[1] == "create table `" + table + "` ("
    requires lines[2..7] == Columns(fs)
    requires lines[7] == KeyLine(KeyName(fs), false) && lines[8] == ");"
    ensures DdlLines(table, fs) == lines
  {
    WithoutForeignKeys(table, fs);
    assert lines == [lines[0], lines[1]] + lines[2..7] + [lines[7], lines[8]];
  }

  lemma WithoutForeignKeys(table: string, fs: seq<Field>)
    requires ForeignKeys(fs) == []
    ensures DdlLines(table, fs) == ["-- generating SQL for " + table + ":", "create table `" + table + "` ("]
                                   + Columns(fs) + [KeyLine(KeyName(fs), false), ");"]
  {
    assert ForeignKeyLines([]) == [];
  }

  lemma UserFrame()
    ensures "-- generating SQL for " + "user" + ":" == UserDoctest[0]
    ensures "create table `" + "user" + "` (" == UserDoctest[1]
    ensures KeyLine("id", false) == UserDoctest[7]
    ensures UserDoctest[8] == ");"
  {
  }

  lemma UserColumnLines(n: nat)
    ensures Columns(UserFields(n)) == UserDoctest[2..7]
  {
    var fs := UserFields(n);
    IdLine();
    NameLine();
    EmailLine();
    PasswdLine();
    LastModifiedLine();
  }

  function NotNullLine(name: string, ddl: string): string
  {
    "\t`" + name + "` " + ddl + " not null,"
  }

  lemma IdLine() ensures NotNullLine("id", "bigint") == "\t`id` bigint not null," {}
  lemma NameLine() ensures NotNullLine("name", "varchar(255)") == "\t`name` varchar(255) not null," {}
  lemma EmailLine() ensures NotNullLine("email", "varchar(255)") == "\t`email` varchar(255) not null," {}
  lemma PasswdLine() ensures NotNullLine("passwd", "varchar(255)") == "\t`passwd` varchar(255) not null," {}
  lemma LastModifiedLine() ensures NotNullLine("last_modified", "real") == "\t`last_modified` real not null," {}

  /** Without foreign-key fields there is no foreign-key clause. */
  lemma {:induction false} NoForeignKeys(fs: seq<Field>)
    requires forall i :: 0 <= i < |fs| ==> !fs[i].foreignKey
    ensures ForeignKeys(fs) == []
  {
    if |fs| > 0 {
      NoForeignKeys(fs[..|fs| - 1]);
    }
  }

  /** The key line names the last key field. */
  lemma {:induction false} LastKey(fs: seq<Field>, i: nat)
    requires i < |fs| && fs[i].primaryKey
    requires forall j :: i < j < |fs| ==> !fs[j].primaryKey
    ensures KeyName(fs) == NameText(fs[i].name)
  {
    if i < |fs| - 1 {
      LastKey(fs[..|fs| - 1], i);
    }
  }

  // ---------------------------------------------------------------------
  // Queries (`get`, `find_first`, `find_all`, `find_by`, orm.py:241-274)
  // ---------------------------------------------------------------------

  /** A query as issued: the statement, and the records built from what
      the driver answered (`answer`). */
  datatype Fetched<+T> = Fetched(stmt: Db.Stmt, records: Result<T, Failure>)

  /** `cls(**d) if d else None`: an empty or missing row is no record. */
  function FirstRecord(answer: Db.Cursor): (r: Result<Option<Db.Row>, Failure>)
    ensures r.Ok? && r.value.Some? <==> |answer.rows| > 0 && |answer.rows[0]| > 0 && |answer.description| > 0
    ensures r.Ok? && r.value.Some? ==> r.value.value == Db.Zip(answer.description, answer.rows[0])
    ensures r.Err? <==> Db.SelectOne(answer).Err?
  {
    match Db.SelectOne(answer)
    case Err(e) => Err(e)
    case Ok(None) => Ok(None)
    case Ok(Some(d)) => if |d| == 0 then Ok(None) else Ok(Some(d))
  }

  /** `get(pk)`: selects by the key field's name with `pk` as the only
      argument; no row gives None, otherwise the record holds the row. */
  function Get(s: Schema, pk: Value, answer: Db.Cursor): (r: Fetched<Option<Db.Row>>)
    requires "__table__" in s.attrs && s.key in s.mappings
    ensures r.stmt.args == [pk]
    ensures r.stmt.sql == "select * from " + Table(s) + " where " + PkName(s) + "=?"
    ensures r.records == Ok(None) <==> |answer.rows| == 0 || |answer.rows[0]| == 0
  {
    Fetched(Db.Stmt("select * from " + Table(s) + " where " + PkName(s) + "=?", [pk]), FirstRecord(answer))
  }

  /** `find_first(where, *args)`: the first row of the query, if any. */
  function FindFirst(s: Schema, where: string, args: seq<Value>, answer: Db.Cursor): (r: Fetched<Option<Db.Row>>)
    requires "__table__" in s.attrs
    ensures r.stmt == Db.Stmt("select * from " + Table(s) + " where " + where, args)
    ensures r.records == Ok(None) <==> |answer.rows| == 0 || |answer.rows[0]| == 0
  {
    Fetched(Db.Stmt("select * from " + Table(s) + " where " + where, args), FirstRecord(answer))
  }

  /** `find_all()`: one record per row, in the order the rows came. */
  function FindAll(s: Schema, answer: Db.Cursor): (r: Fetched<seq<Db.Row>>)
    requires "__table__" in s.attrs
    ensures r.stmt == Db.Stmt("select * from " + Table(s), [])
    ensures r.records.Ok? ==> |r.records.value| == |answer.rows|
  {
    Fetched(Db.Stmt("select * from " + Table(s), []), Db.SelectAll(answer))
  }

  /** `find_by(where, *args)`: one record per row. The source builds each
      record from an unbound name (orm.py:266); this is the evident
      intent, one record per row `l`. */
  function FindBy(s: Schema, where: string, args: seq<Value>, answer: Db.Cursor): (r: Fetched<seq<Db.Row>>)
    requires "__table__" in s.attrs
    ensures r.stmt == Db.Stmt("select * from " + Table(s) + " where " + where, args)
    ensures r.records.Ok? ==> |r.records.value| == |answer.rows|
  {
    Fetched(Db.Stmt("select * from " + Table(s) + " where " + where, args), Db.SelectAll(answer))
  }

  /** `get(pk)` finds the row a matching key selects, and gives the record
      whose key entry is the row's key value: with distinct column names
      and the key column in the row, reading the key of the record reads
      the row's value. */
  lemma GetFindsKey(s: Schema, pk: Value, answer: Db.Cursor, i: nat)
    requires "__table__" in s.attrs && s.key in s.mappings
    requires forall a, b :: 0 <= a < b < |answer.description| ==> answer.description[a] != answer.description[b]
    requires |answer.rows| > 0 && i < |answer.description| && i < |answer.rows[0]|
    requires answer.description[i] == PkName(s) && answer.rows[0][i] == pk
    ensures var r := Get(s, pk, answer).records;
      r.Ok? && r.value.Some? && GetAttr(r.value.value, PkName(s)) == Ok(pk)
  {
    Db.ZipAt(answer.description, answer.rows[0], i);
  }

  /** After `i` passes over the keys in `order`, `filled` holds exactly
      the keys met so far that belong to `selected`. */
  ghost predicate Progress(selected: set<string>, order: seq<string>, i: nat, filled: set<string>)
  {
    && i <= |order|
    && filled <= selected
    && (forall j :: 0 <= j < i && order[j] in selected ==> order[j] in filled)
    && (forall j :: i <= j < |order| ==> order[j] !in filled)
  }

  lemma ProgressStep(selected: set<string>, order: seq<string>, i: nat, filled: set<string>)
    requires Progress(selected, order, i, filled) && i < |order|
    requires forall a, b :: 0 <= a < b < |order| ==> order[a] != order[b]
    ensures Progress(selected, order, i + 1, if order[i] in selected then filled + {order[i]} else filled)
  {
  }

  lemma ProgressDone(selected: set<string>, order: seq<string>, filled: set<string>)
    requires Progress(selected, order, |order|, filled)
    requires forall k :: k in selected ==> k in order
    ensures filled == selected
  {
  }

  /** The state of the loop of orm.py:317-326 once the columns `filled`
      are done: their defaults are in the record and their values in
      `args`. */
  ghost predicate InsertState(s: Schema, start: map<string, Value>, produce: string -> Value,
                              filled: set<string>, items: map<string, Value>, args: map<string, Value>)
  {
    Filling(s, start, produce, filled, items) && args.Keys == filled && ReadInto(s, items, args)
  }

  /** The loop of orm.py:317-326 over the mapping in the order `order`. */
  method InsertLoop(s: Schema, start: map<string, Value>, produce: string -> Value, order: seq<string>)
    returns (items: map<string, Value>, args: map<string, Value>)
    requires KeyOrder(order, s.mappings)
    ensures items == Fill(s, start, produce, Insertable(s))
    ensures args == InsertArgs(s, items)
  {
    items, args := start, map[];
    ghost var filled: set<string> := {};
    for i := 0 to |order|
      invariant Progress(Insertable(s), order, i, filled)
      invariant InsertState(s, start, produce, filled, items, args)
    {
      var k := order[i];
      items, args := InsertColumn(s, start, produce, filled, items, args, k);
      ProgressStep(Insertable(s), order, i, filled);
      if s.mappings[k].insertable {
        filled := filled + {k};
      }
    }
    ProgressDone(Insertable(s), order, filled);
    FillingDone(s, start, produce, filled, items);
  }

  /** One pass of the loop body: an insertable column the record lacks
      takes its default, then its attribute is read into `args`. */
  method InsertColumn(s: Schema, ghost start: map<string, Value>, produce: string -> Value, ghost filled: set<string>,
                      items0: map<string, Value>, args0: map<string, Value>, k: string)
    returns (items: map<string, Value>, args: map<string, Value>)
    requires InsertState(s, start, produce, filled, items0, args0) && k in s.mappings && k !in filled
    ensures InsertState(s, start, produce, if s.mappings[k].insertable then filled + {k} else filled, items, args)
  {
    items, args := items0, args0;
    var field := s.mappings[k];
    FillingStep(s, start, produce, filled, items, k, field.insertable);
    if field.insertable {
      if !(k in s.attrs || k in items) {
        items := items[k := ReadDefault(field.default, produce(k))];
      }
      ReadStep(s, items0, items, args, k);
      args := args[k := if k in s.attrs then s.attrs[k] else items[k]];
    }
  }

  /** The state of the loop of orm.py:297-305 once the columns `filled`
      are done: their defaults are in the record, and `cols` lists the
      updatable ones among them, each once, with a SET entry and a value
      apiece. */
  ghost predicate UpdateState(s: Schema, start: map<string, Value>, produce: string -> Value,
                              filled: set<string>, items: map<string, Value>,
                              cols: seq<string>, sets: seq<string>, args: seq<Value>)
  {
    && Filling(s, start, produce, filled, items)
    && (forall i :: 0 <= i < |cols| ==> cols[i] in filled)
    && (forall k :: k in filled ==> k in cols)
    && (forall i, j :: 0 <= i < j < |cols| ==> cols[i] != cols[j])
    && (forall i :: 0 <= i < |cols| ==> Has(s, items, cols[i]))
    && sets == SetClauses(cols)
    && args == ColumnValues(s, items, cols)
  }

  /** The loop of orm.py:297-305 over the mapping in the order `order`:
      returns the record with the defaults written, the updatable columns
      in the order met, their SET entries and their values. */
  method UpdateLoop(s: Schema, start: map<string, Value>, produce: string -> Value, order: seq<string>)
    returns (items: map<string, Value>, cols: seq<string>, sets: seq<string>, args: seq<Value>)
    requires KeyOrder(order, s.mappings)
    ensures items == Fill(s, start, produce, Updatable(s).Keys)
    ensures KeyOrder(cols, Updatable(s))
    ensures forall i :: 0 <= i < |cols| ==> Has(s, items, cols[i])
    ensures sets == SetClauses(cols) && args == ColumnValues(s, items, cols)
  {
    items, cols, sets, args := start, [], [], [];
    ghost var filled: set<string> := {};
    for i := 0 to |order|
      invariant Progress(Updatable(s).Keys, order, i, filled)
      invariant UpdateState(s, start, produce, filled, items, cols, sets, args)
    {
      var k := order[i];
      items, cols, sets, args := UpdateColumn(s, start, produce, filled, items, cols, sets, args, k);
      ProgressStep(Updatable(s).Keys, order, i, filled);
      if s.mappings[k].updatable {
        filled := filled + {k};
      }
    }
    ProgressDone(Updatable(s).Keys, order, filled);
    UpdateDone(s, start, produce, filled, items, cols, sets, args);
  }

  /** Once every updatable column is done, the loop's state is the one
      `update()` promises. */
  lemma UpdateDone(s: Schema, start: map<string, Value>, produce: string -> Value,
                   filled: set<string>, items: map<string, Value>,
                   cols: seq<string>, sets: seq<string>, args: seq<Value>)
    requires UpdateState(s, start, produce, filled, items, cols, sets, args)
    requires filled == Updatable(s).Keys
    ensures items == Fill(s, start, produce, Updatable(s).Keys)
    ensures KeyOrder(cols, Updatable(s))
    ensures forall i :: 0 <= i < |cols| ==> Has(s, items, cols[i])
    ensures sets == SetClauses(cols) && args == ColumnValues(s, items, cols)
  {
    FillingDone(s, start, produce, filled, items);
  }

  /** One pass of the loop body (orm.py:298-305), with the corrected
      default read of orm.py:302. */
  method UpdateColumn(s: Schema, ghost start: map<string, Value>, produce: string -> Value, ghost filled: set<string>,
                      items0: map<string, Value>, cols0: seq<string>, sets0: seq<string>, args0: seq<Value>, k: string)
    returns (items: map<string, Value>, cols: seq<string>, sets: seq<string>, args: seq<Value>)
    requires UpdateState(s, start, produce, filled, items0, cols0, sets0, args0) && k in s.mappings && k !in filled
    ensures UpdateState(s, start, produce, if s.mappings[k].updatable then filled + {k} else filled,
                        items, cols, sets, args)
  {
    items, cols, sets, args := items0, cols0, sets0, args0;
    var field := s.mappings[k];
    FillingStep(s, start, produce, filled, items, k, field.updatable);
    if field.updatable {
      var arg;
      if k in s.attrs || k in items {
        arg := if k in s.attrs then s.attrs[k] else items[k];
      } else {
        arg := ReadDefault(field.default, produce(k));
        items := items[k := arg];
      }
      cols := cols + [k];
      sets := sets + [SetClause(k)];
      args := args + [arg];
      assert sets == SetClauses(cols);
      assert args == ColumnValues(s, items, cols);
    }
  }

  // ---------------------------------------------------------------------
  // The record object (`Model` instances, orm.py:229-339)
  // ---------------------------------------------------------------------

  /** An instance of a mapped model class: the class's schema and the
      record's own entries, which `__setattr__` and the operations update
      in place. */
  class Record {
    const schema: Schema
    var items: map<string, Value>

    /** `cls(**kw)` */
    constructor (schema: Schema, kw: map<string, Value>)
      requires ValidSchema(schema)
      ensures this.schema == schema && items == kw
    {
      this.schema := schema;
      items := kw;
    }

    /** Attribute read `self.key`. */
    function Attribute(key: string): (r: Result<Value, Failure>)
      reads this
      ensures r.Ok? <==> key in schema.attrs || key in items
    {
      Lookup(schema, items, key)
    }

    /** `__setattr__` (orm.py:238-239): stores into the record. */
    method SetAttr(key: string, value: Value)
      modifies this
      ensures items == old(items)[key := value]
    {
      items := items[key := value];
    }

    /** `insert()` (orm.py:311-328): runs `pre_insert` when set, writes the
        default of every insertable column the record lacks, and inserts
        every insertable column; `cols` is the order `db.insert` iterates
        its keyword arguments in. */
    method Insert(hook: map<string, Value> -> map<string, Value>, produce: string -> Value)
      returns (cols: seq<string>, r: Result<Db.Stmt, Failure>)
      requires ValidSchema(schema)
      modifies this
      ensures items == Fill(schema, Hooked(schema, "pre_insert", old(items), hook), produce, Insertable(schema))
      ensures KeyOrder(cols, InsertArgs(schema, items))
      ensures r == Db.Insert(Table(schema), InsertArgs(schema, items), cols)
    {
      if Truthy(schema.attrs["pre_insert"]) {
        items := hook(items);
      }
      var order := IterationOrder(schema.mappings);
      var args;
      items, args := InsertLoop(schema, items, produce, order);
      cols := IterationOrder(args);
      r := Db.Insert(Table(schema), args, cols);
    }
  
    /** `update()` (orm.py:290-309): runs `pre_update` when set, writes the
        default of every updatable column the record lacks, and updates
        every updatable column by primary key; `cols` is the order the
        mapping is iterated in. Reading the key can fail after the
        defaults were written. */
    method Update(hook: map<string, Value> -> map<string, Value>, produce: string -> Value)
      returns (cols: seq<string>, r: Result<Db.Stmt, Failure>)
      requires ValidSchema(schema)
      modifies this
      ensures items == Fill(schema, Hooked(schema, "pre_update", old(items), hook), produce, Updatable(schema).Keys)
      ensures KeyOrder(cols, Updatable(schema))
      ensures forall i :: 0 <= i < |cols| ==> Has(schema, items, cols[i])
      ensures r == UpdateStmt(schema, items, cols)
    {
      if Truthy(schema.attrs["pre_update"]) {
        items := hook(items);
      }
      var order := IterationOrder(schema.mappings);
      var sets, args;
      items, cols, sets, args := UpdateLoop(schema, items, produce, order);
      var pk := PkName(schema);
      if !(pk in schema.attrs || pk in items) {
        return cols, Err(NoAttribute(pk));
      }
      args := args + [if pk in schema.attrs then schema.attrs[pk] else items[pk]];
      r := Ok(Db.Stmt("update `" + Table(schema) + "` set " + Join(sets, ",") + " where " + pk + "=?", args));
    }

    /** `delete()` (orm.py:330-339): runs `pre_delete` when set, then
        deletes by primary key; the record is otherwise left as it was. */
    method Delete(hook: map<string, Value> -> map<string, Value>) returns (r: Result<Db.Stmt, Failure>)
      requires ValidSchema(schema)
      modifies this
      ensures items == Hooked(schema, "pre_delete", old(items), hook)
      ensures r == DeleteStmt(schema, items)
    {
      if Truthy(schema.attrs["pre_delete"]) {
        items := hook(items);
      }
      var pk := PkName(schema);
      if !(pk in schema.attrs || pk in items) {
        return Err(NoAttribute(pk));
      }
      var key := if pk in schema.attrs then schema.attrs[pk] else items[pk];
      r := Ok(Db.Stmt("delete from " + Table(schema) + " where " + pk + "=?", [key]));
    }
  }
}
