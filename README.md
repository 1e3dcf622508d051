# Circuit editor canvas state, modelled in Dafny

This project models the state engine of the circuit editor (`circuitapp_react`).
The editor keeps a list of placed shapes and a list of pages. It tracks the
active page and keeps the subset of shapes the canvas draws for that page.
A placed resistor has a position, a size and a rotation that advances a
quarter turn at a time. The rotation is drawn about the centre of the
resistor's box.

Modules:

- `Wrappers` (`wrappers.dfy`): `Option`, which stands for JavaScript's `null`/`undefined` next to a present value.
- `Catalog` (`catalog.dfy`): the three-entry symbol table that `onAddShape` switches on.
- `Canvas` (`canvas.dfy`): shape and page records, and the two order-preserving filters the editor applies. One projects the shapes onto a page; the other removes an id. The lemmas about both are here.
- `CircuitApp` (`app.dfy`): class `App`, the top-level component. Each handler, together with the `setState` completion callback it passes, is one atomic method. Two client scenarios use only the methods' contracts.
- `ResistorShape` (`resistor.dfy`): class `UseResistor`, plus the pure quarter-turn and centre functions with their lemmas.

Modelling choices:

- Ids come from `crypto.randomUUID()`. They are modelled as an `id` parameter. A ghost set `issued` records every id handed out so far. Each operation that creates an id requires that the new id is not in `issued`, so an id is never reused, even after a removal.
- The catalog's sizes are defined in `Resources/ShapesSizes`. That file is not part of this model, so the `App` constructor takes the sizes as a value.
- JavaScript numbers become `real`. The angle is an `int` that always lies in {0, 90, 180, 270}. It is never negative, so JavaScript's truncating `%` and Dafny's Euclidean `%` agree on it.
- An id is falsy for `onRemoveShape` when it is absent (`None`, i.e. `undefined`/`null`) or the empty string.
- The model follows the code as written:
  - `setActivePage` does not check that the page exists. The model lets `activePageId` name any id, and `Valid()` only promises that some page is active once a page exists.
  - `onRemoveShape` does not recompute `shapesOfPage`. The model leaves the view unchanged after a removal, so the class invariant says only that every shape in the view is on the active page. `RemoveKeepsViewScenario` shows that the view still holds a removed shape.
  - A shape record in `App` carries no rotation. The angle lives in the `UseResistor` component state.

## Model

| member | source | states |
|---|---|---|
| `Catalog.Lookup` | src/circuitapp_react/src/App.js:64-91 | A template is found exactly for "Resistor", "Capacitor" and "Inductor". Its href is `#<name>Symbol` and its size is the catalog size of that name. |
| `Canvas.ShapesOn` | src/circuitapp_react/src/App.js:106 | The projection holds exactly the shapes of the list whose page is the given one, and it is no longer than the list. |
| `Canvas.WithoutId` | src/circuitapp_react/src/App.js:119 | The filtered list holds exactly the shapes whose id differs from the given one, and it is no longer than the list. |
| `Canvas.ShapesOnAppend` | src/circuitapp_react/src/App.js:103-107 | Projecting a concatenation is the concatenation of the projections, so earlier shapes keep their order in the view. |
| `Canvas.ShapesOnAddOne` | src/circuitapp_react/src/App.js:103-107 | Appending a shape appends it to its own page's projection and leaves every other page's projection unchanged. |
| `Canvas.WithoutAbsentId` | src/circuitapp_react/src/App.js:119 | Removing an id that no shape carries leaves the list exactly as it was. |
| `Canvas.WithoutIdKeepsDistinct` | src/circuitapp_react/src/App.js:119 | Removal keeps shape ids pairwise distinct, and the new id set is the old one minus the removed id. |
| `Canvas.WithoutIdAppend` | src/circuitapp_react/src/App.js:119 | Removing an id from a concatenation removes it from each part, so the remaining shapes keep their order. |
| `Canvas.WithoutIdAt` | src/circuitapp_react/src/App.js:119 | With distinct ids, removing the id of the shape at position k leaves exactly the shapes before k followed by the shapes after k. |
| `Canvas.WithoutPresentId` | src/circuitapp_react/src/App.js:119 | With distinct ids, removing an id that is present removes exactly one shape. |
| `Canvas.AppendFreshId` | src/circuitapp_react/src/App.js:96-104 | Appending a shape with a new id keeps ids distinct and adds exactly that id. |
| `Canvas.AppendFreshPage` | src/circuitapp_react/src/App.js:123-126 | Appending a page with a new id keeps page ids distinct and adds exactly that id. |
| `CircuitApp.App.constructor` | src/circuitapp_react/src/App.js:24-40 | Starts with no shapes, no pages, no active page, an empty view and no issued ids. |
| `CircuitApp.App.AddShape` | src/circuitapp_react/src/App.js:64-110 | An unknown name changes nothing. A known name appends exactly one shape with the template's href and size at (100, 100) on the active page. Its id is fresh and the earlier shapes are unchanged and in order. The view becomes the projection of the new list onto the active page, which is the old list's projection plus the new shape. Pages and active page are unchanged. |
| `CircuitApp.App.RemoveShape` | src/circuitapp_react/src/App.js:116-120 | A falsy id changes nothing. Otherwise the list becomes the order-preserving filter without that id, and the id leaves the id set. An absent id leaves the list as it was. A present id removes exactly one shape, the one carrying it, and the shapes before and after it stay in order. Pages, active page and view are untouched. |
| `CircuitApp.App.SetActivePage` | src/circuitapp_react/src/App.js:137-141 | The active page becomes the given id. The view becomes exactly the shapes on that page. Shapes and pages are unchanged. |
| `CircuitApp.App.AddPage` | src/circuitapp_react/src/App.js:122-131 | Appends one page with a fresh id and leaves the shapes unchanged. It becomes active, with its view recomputed, exactly when it is the only page; otherwise active page and view are unchanged. |
| `CircuitApp.App.RemovePage` | src/circuitapp_react/src/App.js:133-135 | Changes nothing. |
| `CircuitApp.App.ComponentDidMount` | src/circuitapp_react/src/App.js:143-147 | With no pages, afterwards there is exactly one page and it is active. Otherwise nothing changes. |
| `CircuitApp.SwitchPageScenario` | src/circuitapp_react/src/App.js:122-147 | Mount, add a resistor, add a second page and switch to it. The second page's view is then empty, and the resistor is still the only shape on the first page, at (100, 100). |
| `CircuitApp.RemoveKeepsViewScenario` | src/circuitapp_react/src/App.js:116-120 | After adding a resistor and removing it, the list is empty but the view still holds the resistor. |
| `ResistorShape.Turn` | src/circuitapp_react/src/components/Shapes/UseShapes/UseResistor.js:25-28 | A quarter turn gives the unique angle in [0, 360) that is congruent to the old angle plus 90 modulo 360. |
| `ResistorShape.TurnsClosedForm` | src/circuitapp_react/src/components/Shapes/UseShapes/UseResistor.js:25-28 | n quarter turns from an angle in [0, 360) give (angle + 90n) mod 360. |
| `ResistorShape.FourTurnsRestore` | src/circuitapp_react/src/components/Shapes/UseShapes/UseResistor.js:25-28 | Four quarter turns restore any angle in [0, 360). |
| `ResistorShape.TurnsFromZeroAreRightAngles` | src/circuitapp_react/src/components/Shapes/UseShapes/UseResistor.js:15-28 | Starting from the initial angle 0, every reachable angle is 0, 90, 180 or 270. |
| `ResistorShape.Centre` | src/circuitapp_react/src/components/Shapes/UseShapes/UseResistor.js:40 | The rotation pivot is the centre of the box: it is equally far from the left and right edges and from the top and bottom edges. |
| `ResistorShape.UseResistor.constructor` | src/circuitapp_react/src/components/Shapes/UseShapes/UseResistor.js:8-16 | Position comes from the props, defaulting to 0 when a prop is absent (the default props at lines 51-55). Size comes from the props, and the angle is 0. |
| `ResistorShape.UseResistor.SetCoordinate` | src/circuitapp_react/src/components/Shapes/UseShapes/UseResistor.js:21-23 | The position becomes (x, y). Size and angle are unchanged, and the pivot moves by the same translation. |
| `ResistorShape.UseResistor.ChangeRotate` | src/circuitapp_react/src/components/Shapes/UseShapes/UseResistor.js:25-28 | The angle becomes one quarter turn of the old angle and stays a right angle in [0, 360). Position and size are unchanged. |
| `ResistorShape.FullTurnScenario` | src/circuitapp_react/src/components/Shapes/UseShapes/UseResistor.js:25-40 | Four presses from a new resistor show 90, 180, 270 and then 0 again. The pivot is the centre of the unmoved box. |

## Left out

- Dragging is handled outside the two modelled files (`App.js` imports `components/Canvas/CanvasBar`, which is not part of this model; `UseResistor.js` only marks the element `draggable`). Only `setCoordinate` is modelled.
- `setActivePage` does not check that the id names a page, and `onRemovePage` has an empty body; both are modelled as written.
- `setRefToShape` (DOM references), the `patterns`, `refsShapes`, `selectedPage`, `widthRect` and `heightRect` state fields, and `console.log` are view plumbing and logging.
- `render` of `App`, `SideBar.js` and `UseInductor.js` only produce markup. From `UseResistor.render`, only the rotation pivot is modelled.
- The `page` field that the Capacitor case sets inside the switch is overwritten before use, so it is not modelled separately.
- `setState` is asynchronous and batched. Each handler with its completion callback is modelled as one atomic step, so interleavings of pending updates are not captured.
- `crypto.randomUUID()`: randomness is replaced by an `id` parameter. UUID uniqueness is taken as the precondition that the id has not been issued before.
- The numeric symbol sizes (`Resources/ShapesSizes`) are not part of this model and are passed in as a value.
- NoteApp (MVC controller, EF Core repository, jQuery script, view model) and Contacts (WPF view model, serializer, window setup) are web, database, UI and file I/O. They are not part of this model.
