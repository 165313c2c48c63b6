/** The metadata the driver works from: the Adurc model description (models, fields,
    directives) and the SQL Server view of it that the query builders read (entities,
    columns, relations). */
module Schema {
  import opened Js

  /** A directive attached to a model or a field, such as `column(primary: true)`. */
  datatype Directive = Directive(provider: string, name: string, args: Fields)

  /** A field's type: a primitive type name, or a reference to another model. */
  datatype FieldType = Primitive(name: string) | Reference(source: string, model: string)

  datatype Field = Field(
    name: string,
    accessorName: string,
    fieldType: FieldType,
    collection: bool,
    nonNull: bool,
    directives: seq<Directive>)

  datatype Model = Model(name: string, source: string, directives: seq<Directive>, fields: seq<Field>)

  /** The SQL Server types whose declaration takes arguments; every other type is `OtherKind`. */
  datatype SqlKind =
    | VarChar | VarBinary | NVarChar | Char | NChar | Binary
    | Decimal | Numeric | Time | DateTime2 | DateTimeOffset | OtherKind

  datatype SqlType = SqlType(kind: SqlKind, declaration: string)

  /** Column options; an absent length, precision or scale is `None`. */
  datatype ColumnOptions = ColumnOptions(primary: bool, length: Option<int>, precision: Option<int>, scale: Option<int>)

  /** A column as the query builders see it: the logical field, the physical name,
      the SQL type and its options. */
  datatype Column = Column(info: Field, columnName: string, sqlType: SqlType, options: ColumnOptions)

  /** A table-backed entity. A relation holds the entity it leads to, so an entity
      graph here is a finite tree. */
  datatype Entity = Entity(
    info: Model,
    tableName: string,
    schema: Option<string>,
    database: Option<string>,
    columns: seq<Column>,
    relations: seq<Relation>)

  datatype Relation =
    | ManyToOne(info: Field, joinEntity: Entity, joinColumn: string, inverseColumn: string)
    | OneToMany(info: Field, joinEntity: Entity, joinColumn: string, inverseColumn: string)
    | ManyToMany(
        info: Field, joinEntity: Entity, joinColumn: string, inverseColumn: string,
        manyEntity: Entity, manyJoinColumn: string, manyInverseColumn: string,
        manyTableName: string, joinColumnReferencedColumnName: string,
        inverseColumnReferencedColumnName: string)

  /** `columns.find(x => x.info.name === name)` */
  function FindColumn(columns: seq<Column>, name: string): (r: Option<Column>)
    ensures r.Some? ==> r.value in columns && r.value.info.name == name
    ensures r.None? <==> forall c :: c in columns ==> c.info.name != name
  {
    if columns == [] then None
    else if columns[0].info.name == name then Some(columns[0])
    else FindColumn(columns[1..], name)
  }

  /** Like `.find`, the search returns the first matching column. */
  lemma {:induction false} FindColumnFirst(columns: seq<Column>, name: string)
    ensures var r := FindColumn(columns, name);
            r.Some? ==> exists i :: 0 <= i < |columns| && columns[i] == r.value
                                    && forall j :: 0 <= j < i ==> columns[j].info.name != name
  {
    if columns != [] && columns[0].info.name != name {
      FindColumnFirst(columns[1..], name);
      var r := FindColumn(columns, name);
      if r.Some? {
        var i :| 0 <= i < |columns[1..]| && columns[1..][i] == r.value
                 && forall j :: 0 <= j < i ==> columns[1..][j].info.name != name;
        assert columns[i + 1] == r.value;
        forall j | 0 <= j < i + 1
          ensures columns[j].info.name != name
        {
          if j > 0 { assert columns[j] == columns[1..][j - 1]; }
        }
      }
    } else if columns != [] {
      assert columns[0] == FindColumn(columns, name).value;
    }
  }

  /** `relations.find(x => x.info.name === name)` */
  function FindRelation(relations: seq<Relation>, name: string): (r: Option<Relation>)
    ensures r.Some? ==> r.value in relations && r.value.info.name == name
    ensures r.None? <==> forall x :: x in relations ==> x.info.name != name
  {
    if relations == [] then None
    else if relations[0].info.name == name then Some(relations[0])
    else FindRelation(relations[1..], name)
  }

  /** Like `.find`, the search returns the first matching relation. */
  lemma {:induction false} FindRelationFirst(relations: seq<Relation>, name: string)
    ensures var r := FindRelation(relations, name);
            r.Some? ==> exists i :: 0 <= i < |relations| && relations[i] == r.value
                                    && forall j :: 0 <= j < i ==> relations[j].info.name != name
  {
    if relations != [] && relations[0].info.name != name {
      FindRelationFirst(relations[1..], name);
      var r := FindRelation(relations, name);
      if r.Some? {
        var i :| 0 <= i < |relations[1..]| && relations[1..][i] == r.value
                 && forall j :: 0 <= j < i ==> relations[1..][j].info.name != name;
        assert relations[i + 1] == r.value;
        forall j | 0 <= j < i + 1
          ensures relations[j].info.name != name
        {
          if j > 0 { assert relations[j] == relations[1..][j - 1]; }
        }
      }
    } else if relations != [] {
      assert relations[0] == FindRelation(relations, name).value;
    }
  }

  /** `columns.filter(x => x.options.primary)` */
  function PrimaryColumns(columns: seq<Column>): (r: seq<Column>)
    ensures forall c :: c in r <==> c in columns && c.options.primary
    ensures |r| <= |columns|
  {
    if columns == [] then []
    else (if columns[0].options.primary then [columns[0]] else []) + PrimaryColumns(columns[1..])
  }
}
