/**
  The two-slot axes container of a radar chart (`Axes.new(cat_axis: CatAxis,
  val_axis: ValAxis)`). What an axis writes is not part of this model; an
  axis is known by its kind and its id.
 */
module ChartAxes {

  /** A category or a value axis, with the id the library gives it when it is built. */
  datatype Axis = CatAxis(id: int) | ValAxis(id: int)

  /** The `:cat_axis` and `:val_axis` slots. */
  datatype Axes = Axes(catAxis: Axis, valAxis: Axis)

  /** The category axis sits in the `:cat_axis` slot and the value axis in `:val_axis`. */
  predicate WellFormed(a: Axes) {
    a.catAxis.CatAxis? && a.valAxis.ValAxis?
  }

  /** A freshly built container; the ids come from outside (the library draws them). */
  function NewAxes(catId: int, valId: int): (a: Axes)
    ensures WellFormed(a)
    ensures a.catAxis.id == catId && a.valAxis.id == valId
  {
    Axes(CatAxis(catId), ValAxis(valId))
  }
}
