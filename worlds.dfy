/** A simulation scenario ("world") and the lookup both source files use to
    find the drag regime tag of the selected world. */
module Worlds {
  import opened Wrappers

  /** One entry of a `WORLD_SETTINGS` table: gravity, drag coefficient and
      drag regime tag. The description text is presentation only. */
  datatype World = World(g: real, k: real, modelo: string)

  /** `WORLD_SETTINGS[gameState.selectedWorld]?.modelo || 'lineal'`: a world
      that is not selected (`null`), not in the table, or whose tag is the
      empty (falsy) string falls back to `'lineal'`. */
  function ModeloOf(table: map<string, World>, selected: Option<string>): (tag: string)
    ensures tag != ""
    ensures selected.None? || selected.value !in table ==> tag == "lineal"
    ensures selected.Some? && selected.value in table && table[selected.value].modelo != "" ==>
              tag == table[selected.value].modelo
  {
    match selected
    case None => "lineal"
    case Some(name) =>
      if name in table && table[name].modelo != "" then table[name].modelo else "lineal"
  }
}
