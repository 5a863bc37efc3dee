/** What the table code sees of a column (orm.go:4-8): the three getters of
    the orm.Field interface, recorded as plain values. */
module Orm {

  datatype Field = Field(name: string, typeName: string, primaryKey: bool)
}

/** The result wrappers and the errors the core returns. Go returns formatted
    strings; each string shape is one constructor here, carrying the names and
    values the format inserts (LengthTagError leaves out strconv's own error
    text). */
module Errors {

  datatype Option<T> = None | Some(value: T)

  datatype Result<T> = Ok(value: T) | Err(error: Error)

  datatype Error =
    | TableShouldBePointer                              // tables/table.go:15
    | TableNotImplementModelFields                      // tables/table.go:19
    | RowIsNotExists                                    // tables/table.go:21
    | LengthTagError(field: string, value: string)      // tables/struct_tags.go:41
    | UnsupportedType(kind: Kind, field: string)        // tables/struct_tags.go:84
    | NoFieldsInInstance                                // tables/struct_tags.go:107
    | DatabaseError(code: int)                          // any error of the database driver

  /** The reflect.Kind of a struct attribute, reduced to the kinds the core
      distinguishes plus the ones its tests mention. */
  datatype Kind = IntKind | StringKind | BoolKind | Float32Kind | Uint64Kind | StructKind | OtherKind
}
