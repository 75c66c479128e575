/**
  The dynamically typed world the setters guard against, and the opaque
  pieces that collaborators outside the radar chart contribute.
 */
module Values {

  /** XML written by a numeric data source (`NumDataSource#to_xml_string`), kept opaque. */
  datatype NumDataSource = NumDataSource(xml: string)

  /** XML written by a label data source (`AxDataSource#to_xml_string`), kept opaque. */
  datatype AxDataSource = AxDataSource(xml: string)

  /**
    An argument handed to a guarded setter, by the Ruby class the guards tell
    apart. `Arr` is an Array (of colour strings, the only arrays modelled);
    `Sym` is a Symbol such as `:filled`, distinct from the String "filled".
   */
  datatype Value =
    | Nil
    | Bool(b: bool)
    | Int(i: int)
    | Str(s: string)
    | Sym(name: string)
    | Arr(items: seq<string>)
    | NumSource(num: NumDataSource)
    | AxSource(ax: AxDataSource)

  /** The `ArgumentError` a validator raises, naming the rejected attribute. */
  datatype Error = ArgumentError(attribute: string)

  /**
    The text a base class writes around the block a subclass yields to it
    (`super do ... end`): the block's output lands between `open` and `close`.
   */
  datatype Frame = Frame(open: string, close: string)

  /** Ruby's `to_s` on a boolean. */
  function BoolText(b: bool): string {
    if b then "true" else "false"
  }
}
