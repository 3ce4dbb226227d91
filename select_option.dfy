/** The `{ label, value }` entries both multi-select components offer (`label` is a reserved word here). */
module SelectOptions {
  datatype SelectOption = SelectOption(labelText: string, value: string)
}
