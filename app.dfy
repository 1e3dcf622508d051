/**
 * The editor's top-level component: the list of placed shapes, the list of
 * pages, the active page and the projection of the shapes onto the active
 * page that the canvas draws. Each handler, together with the completion
 * callback it passes to `setState`, is one atomic transition.
 */
module CircuitApp {
  import opened Wrappers
  import opened Catalog
  import opened Canvas

  /** Every new shape is placed at this point of the canvas. */
  const DefaultX: real := 100.0
  const DefaultY: real := 100.0

  /** JavaScript falsiness for an id: `undefined`/`null` (None) or the empty string. */
  predicate Falsy(id: Option<Id>) {
    id.None? || id.value == ""
  }

  class App {
    /** The catalog's symbol sizes. */
    const sizes: Sizes

    var shapes: seq<Shape>
    var pages: seq<Page>
    var activePageId: Option<Id>
    /** What the canvas draws; recomputed by onAddShape and setActivePage only. */
    var shapesOfPage: seq<Shape>

    /** Every id handed out so far (a UUID is never handed out twice). */
    ghost var issued: set<Id>

    /** The id and view invariants; setActivePage needs only these. */
    ghost predicate Consistent()
      reads this
    {
      && DistinctIds(shapes)
      && DistinctPageIds(pages)
      && Ids(shapes) <= issued
      && PageIds(pages) <= issued
      && (forall s :: s in shapesOfPage ==> s.page == activePageId)
    }

    /** Consistent, and some page is active as soon as a page exists. */
    ghost predicate Valid()
      reads this
    {
      Consistent() && (pages != [] ==> activePageId.Some?)
    }

    /** The component's initial state. */
    constructor(sizes: Sizes)
      ensures Valid()
      ensures this.sizes == sizes
      ensures shapes == [] && pages == [] && activePageId == None && shapesOfPage == []
      ensures issued == {}
    {
      this.sizes := sizes;
      shapes, pages, activePageId, shapesOfPage := [], [], None, [];
      issued := {};
    }

    /**
     * onAddShape: a known name appends one shape built from its template at
     * (DefaultX, DefaultY) on the active page, under the fresh id `id`, and
     * recomputes the projection; an unknown name changes nothing.
     */
    method AddShape(name: string, id: Id)
      requires Valid()
      requires id !in issued
      modifies this
      ensures Valid()
      ensures pages == old(pages) && activePageId == old(activePageId)
      ensures !Known(name) ==>
        shapes == old(shapes) && shapesOfPage == old(shapesOfPage) && issued == old(issued)
      ensures Known(name) ==>
        var t := Lookup(name, sizes).value;
        && |shapes| == |old(shapes)| + 1
        && shapes[..|old(shapes)|] == old(shapes)
        && shapes[|old(shapes)|] == Shape(id, t.href, t.width, t.height, DefaultX, DefaultY, activePageId)
        && id !in Ids(old(shapes))
        && shapesOfPage == ShapesOn(shapes, activePageId)
        && shapesOfPage == ShapesOn(old(shapes), activePageId) + [shapes[|old(shapes)|]]
        && issued == old(issued) + {id}
    {
      var element := Lookup(name, sizes);
      if element.Some? {
        var t := element.value;
        var shape := Shape(id, t.href, t.width, t.height, DefaultX, DefaultY, activePageId);
        AppendFreshId(shapes, shape);
        ShapesOnAddOne(shapes, shape, activePageId);
        shapes := shapes + [shape];
        issued := issued + {id};
        shapesOfPage := ShapesOn(shapes, activePageId);
      }
    }

    /**
     * onRemoveShape: a falsy id changes nothing; otherwise every shape with
     * that id leaves the list. The projection is not recomputed.
     */
    method RemoveShape(id: Option<Id>)
      requires Valid()
      modifies this
      ensures Valid()
      ensures Falsy(id) ==> shapes == old(shapes)
      ensures !Falsy(id) ==> shapes == WithoutId(old(shapes), id.value)
      ensures !Falsy(id) ==> Ids(shapes) == Ids(old(shapes)) - {id.value}
      ensures id.Some? && id.value !in Ids(old(shapes)) ==> shapes == old(shapes)
      ensures !Falsy(id) && id.value in Ids(old(shapes)) ==> |shapes| == |old(shapes)| - 1
      ensures !Falsy(id) && id.value in Ids(old(shapes)) ==>
        exists k :: 0 <= k < |old(shapes)| && old(shapes)[k].id == id.value
                    && shapes == old(shapes)[..k] + old(shapes)[k + 1..]
      ensures pages == old(pages) && activePageId == old(activePageId)
      ensures shapesOfPage == old(shapesOfPage) && issued == old(issued)
    {
      if Falsy(id) {
        return;
      }
      WithoutIdKeepsDistinct(shapes, id.value);
      if id.value !in Ids(shapes) {
        WithoutAbsentId(shapes, id.value);
      } else {
        WithoutPresentId(shapes, id.value);
        var k :| 0 <= k < |shapes| && shapes[k].id == id.value;
        WithoutIdAt(shapes, k, id.value);
      }
      shapes := WithoutId(shapes, id.value);
    }

    /**
     * setActivePage: the given id becomes the active page (whether or not a
     * page has it) and the projection is recomputed for it.
     */
    method SetActivePage(id: Id)
      requires Consistent()
      modifies this
      ensures Valid()
      ensures activePageId == Some(id)
      ensures shapesOfPage == ShapesOn(shapes, Some(id))
      ensures forall s :: s in shapesOfPage <==> s in shapes && s.page == Some(id)
      ensures shapes == old(shapes) && pages == old(pages) && issued == old(issued)
    {
      activePageId := Some(id);
      shapesOfPage := ShapesOn(shapes, Some(id));
    }

    /**
     * onAddPage: appends a page with the fresh id `id`; when it is the only
     * page, it becomes the active page.
     */
    method AddPage(id: Id)
      requires Valid()
      requires id !in issued
      modifies this
      ensures Valid()
      ensures pages == old(pages) + [Page(id)]
      ensures id !in PageIds(old(pages))
      ensures shapes == old(shapes) && issued == old(issued) + {id}
      ensures |pages| == 1 ==>
        activePageId == Some(id) && shapesOfPage == ShapesOn(shapes, Some(id))
      ensures |pages| != 1 ==>
        activePageId == old(activePageId) && shapesOfPage == old(shapesOfPage)
    {
      AppendFreshPage(pages, Page(id));
      pages := pages + [Page(id)];
      issued := issued + {id};
      if |pages| == 1 {
        SetActivePage(id);
      }
    }

    /** onRemovePage: its body is empty, so nothing changes. */
    method RemovePage()
      requires Valid()
      ensures Valid()
      ensures unchanged(this)
    {
    }

    /** componentDidMount: an editor without pages gets its first page, which becomes active. */
    method ComponentDidMount(id: Id)
      requires Valid()
      requires id !in issued
      modifies this
      ensures Valid()
      ensures shapes == old(shapes)
      ensures old(pages) == [] ==>
        && pages == [Page(id)]
        && activePageId == Some(id)
        && shapesOfPage == ShapesOn(shapes, Some(id))
        && issued == old(issued) + {id}
      ensures old(pages) != [] ==>
        && pages == old(pages)
        && activePageId == old(activePageId)
        && shapesOfPage == old(shapesOfPage)
        && issued == old(issued)
    {
      if |pages| == 0 {
        AddPage(id);
      }
    }
  }

  /**
   * Mount, add a resistor on the first page, add a second page and switch to
   * it: the second page's view is empty and the resistor is still on the first.
   */
  method SwitchPageScenario(sizes: Sizes, first: Id, second: Id, resistor: Id)
    returns (secondView: seq<Shape>, firstView: seq<Shape>)
    requires first != second && resistor != first && resistor != second
    ensures secondView == []
    ensures |firstView| == 1 && firstView[0].id == resistor && firstView[0].page == Some(first)
    ensures firstView[0].x == DefaultX && firstView[0].y == DefaultY
  {
    var app := new App(sizes);
    app.ComponentDidMount(first);
    app.AddShape("Resistor", resistor);
    assert app.shapes == [app.shapes[0]];
    app.AddPage(second);
    app.SetActivePage(second);
    secondView := app.shapesOfPage;
    firstView := ShapesOn(app.shapes, Some(first));
    assert app.shapes[1..] == [];
  }

  /**
   * Add a resistor and remove it again: the list is empty but the canvas
   * view still holds the resistor, since removal does not recompute it.
   */
  method RemoveKeepsViewScenario(sizes: Sizes, page: Id, resistor: Id)
    returns (left: seq<Shape>, view: seq<Shape>)
    requires page != resistor && resistor != ""
    ensures left == []
    ensures |view| == 1 && view[0].id == resistor
  {
    var app := new App(sizes);
    app.ComponentDidMount(page);
    app.AddShape("Resistor", resistor);
    assert app.shapes == [app.shapes[0]];
    app.RemoveShape(Some(resistor));
    left := app.shapes;
    view := app.shapesOfPage;
  }
}
