/** The create context (`CreateContextQueryBuilder`): the primary key columns and the
    rows of an insert. Its `toSql` renders nothing yet. */
module CreateContext {
  import opened Js
  import opened Schema

  datatype CreatePlan = CreatePlan(pks: seq<Column>, rows: seq<Fields>)

  const EmptyCreate := CreatePlan([], [])

  class CreateContextQueryBuilder {
    var pks: seq<Column>
    var rows: seq<Fields>

    constructor ()
      ensures Plan() == EmptyCreate
    {
      pks := [];
      rows := [];
    }

    function Plan(): CreatePlan
      reads this
    {
      CreatePlan(pks, rows)
    }
  }
}
