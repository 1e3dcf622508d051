/**
 * The shape catalog consulted by the editor when the user picks a symbol from
 * the side bar: a fixed table of three symbols (resistor, capacitor, inductor),
 * each with the SVG symbol it refers to and its intrinsic size.
 */
module Catalog {
  import opened Wrappers

  /** Intrinsic size of a symbol, in canvas units. */
  datatype Size = Size(width: real, height: real)

  /**
   * The sizes of the three symbols. Their numeric values are defined in
   * Resources/ShapesSizes, which is not part of this model, so the editor is
   * given them as a value.
   */
  datatype Sizes = Sizes(resistor: Size, capacitor: Size, inductor: Size)

  /** A catalog entry: the symbol reference (`#...Symbol`) and its size. */
  datatype Template = Template(href: string, width: real, height: real)

  /** The shape names the catalog knows. */
  predicate Known(name: string) {
    name == "Resistor" || name == "Capacitor" || name == "Inductor"
  }

  /** The size the catalog gives to a known name. */
  function SizeOf(name: string, sizes: Sizes): Size
    requires Known(name)
  {
    if name == "Resistor" then sizes.resistor
    else if name == "Capacitor" then sizes.capacitor
    else sizes.inductor
  }

  /**
   * The `switch` of onAddShape: a known name yields its template, any other
   * name yields nothing.
   */
  function Lookup(name: string, sizes: Sizes): (r: Option<Template>)
    ensures r.Some? <==> Known(name)
    ensures r.Some? ==> r.value.href == "#" + name + "Symbol"
    ensures r.Some? ==> Size(r.value.width, r.value.height) == SizeOf(name, sizes)
  {
    match name
    case "Resistor" =>
      Some(Template("#ResistorSymbol", sizes.resistor.width, sizes.resistor.height))
    case "Capacitor" =>
      Some(Template("#CapacitorSymbol", sizes.capacitor.width, sizes.capacitor.height))
    case "Inductor" =>
      Some(Template("#InductorSymbol", sizes.inductor.width, sizes.inductor.height))
    case _ => None
  }

}
