/** The read-back request shared by the update and delete builders: whether a
    mutation asks for its rows back, and the find request it compiles for them. */
module Returning {
  import opened Js

  /** The staging table the mutated keys go into, and the alias it is joined under. */
  const OutputData := "@outputData"
  const SourceData := "sourceData"

  /** Reading `from.as` of a read-back plan whose `from` is null. */
  const NullRead := TypeError("Cannot read properties of null")

  /** `'select' in args || 'include' in args`: the `in` operator throws on a
      primitive, and `include` is not looked up once `select` is found. */
  function HasProjection(args: Value): (r: Result<bool>)
    ensures args.Obj? ==> r == Ok("select" in Keys(args.fields) || "include" in Keys(args.fields))
    ensures !(args.Obj? || args.Arr? || args.Date?) ==> r.Err?
  {
    var hasSelect :- Has(args, "select");
    if hasSelect then Ok(true) else Has(args, "include")
  }

  /** `{ select: args.select, include: args.include }` */
  function Projection(args: Value): (r: Value)
    requires !Nullish(args)
    ensures r.Obj? && Keys(r.fields) == ["select", "include"]
  {
    Obj([("select", Prop(args, "select")), ("include", Prop(args, "include"))])
  }
}
