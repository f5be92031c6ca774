/** Types shared by the insights entities. */
module InsightsShared {

  /** The kinds of insights events (`TypeUnits`): an execution that succeeded,
      one that failed, its runtime in milliseconds, and the minutes it saved. */
  datatype TypeUnit = TypeSuccess | TypeFailure | TypeRuntimeMs | TypeTimeSavedMin

  /** The database stores a type as a numeric code; `NumberToType` turns the code
      back into a `TypeUnit`. Its definition is not part of this model, so every
      operation that needs it takes the table as a parameter. */
  type TypeCodes = map<int, TypeUnit>
}
