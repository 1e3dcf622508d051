/**
 * Values held by the editor: the placed shapes and the pages, and the two
 * order-preserving filters the editor applies to its shape list (the
 * projection onto one page and the removal of one id).
 */
module Canvas {
  import opened Wrappers

  /** Ids come from `crypto.randomUUID()`: opaque strings. */
  type Id = string

  /**
   * A placed shape. `page` is the editor's active page at the moment the shape
   * was added, which is `null` (None) before any page exists.
   */
  datatype Shape = Shape(id: Id, href: string, width: real, height: real,
                         x: real, y: real, page: Option<Id>)

  datatype Page = Page(id: Id)

  function Ids(shapes: seq<Shape>): set<Id> {
    set s | s in shapes :: s.id
  }

  function PageIds(pages: seq<Page>): set<Id> {
    set p | p in pages :: p.id
  }

  /** No two shapes share an id. */
  ghost predicate DistinctIds(shapes: seq<Shape>) {
    forall i, j :: 0 <= i < j < |shapes| ==> shapes[i].id != shapes[j].id
  }

  /** No two pages share an id. */
  ghost predicate DistinctPageIds(pages: seq<Page>) {
    forall i, j :: 0 <= i < j < |pages| ==> pages[i].id != pages[j].id
  }

  /** `shapes.filter(shape => shape.page === page)`: the shapes drawn on `page`, in list order. */
  function ShapesOn(shapes: seq<Shape>, page: Option<Id>): (r: seq<Shape>)
    ensures |r| <= |shapes|
    ensures forall s :: s in r <==> s in shapes && s.page == page
  {
    if shapes == [] then []
    else if shapes[0].page == page then [shapes[0]] + ShapesOn(shapes[1..], page)
    else ShapesOn(shapes[1..], page)
  }

  /** `shapes.filter(shape => shape.id !== id)`: the list without the shapes of that id, in list order. */
  function WithoutId(shapes: seq<Shape>, id: Id): (r: seq<Shape>)
    ensures |r| <= |shapes|
    ensures forall s :: s in r <==> s in shapes && s.id != id
  {
    if shapes == [] then []
    else if shapes[0].id != id then [shapes[0]] + WithoutId(shapes[1..], id)
    else WithoutId(shapes[1..], id)
  }

  /** Projecting a concatenation projects each part. */
  lemma {:induction false} ShapesOnAppend(front: seq<Shape>, back: seq<Shape>, page: Option<Id>)
    ensures ShapesOn(front + back, page) == ShapesOn(front, page) + ShapesOn(back, page)
  {
    if front == [] {
      assert front + back == back;
    } else {
      assert (front + back)[1..] == front[1..] + back;
      ShapesOnAppend(front[1..], back, page);
    }
  }

  /** Adding one shape at the end of the list adds it at the end of its own page's projection and nowhere else. */
  lemma ShapesOnAddOne(shapes: seq<Shape>, added: Shape, page: Option<Id>)
    ensures ShapesOn(shapes + [added], page)
         == ShapesOn(shapes, page) + (if added.page == page then [added] else [])
  {
    ShapesOnAppend(shapes, [added], page);
    assert ShapesOn([added], page) == (if added.page == page then [added] else []) by {
      assert [added][1..] == [];
    }
  }

  /** Removing an id from a concatenation removes it from each part. */
  lemma {:induction false} WithoutIdAppend(front: seq<Shape>, back: seq<Shape>, id: Id)
    ensures WithoutId(front + back, id) == WithoutId(front, id) + WithoutId(back, id)
  {
    if front == [] {
      assert front + back == back;
    } else {
      assert (front + back)[1..] == front[1..] + back;
      WithoutIdAppend(front[1..], back, id);
    }
  }

  /** In a list of distinct ids, the id of the shape at `k` occurs neither before nor after it. */
  lemma IdOnlyAt(shapes: seq<Shape>, k: nat)
    requires DistinctIds(shapes)
    requires k < |shapes|
    ensures shapes[k].id !in Ids(shapes[..k])
    ensures shapes[k].id !in Ids(shapes[k + 1..])
  {
    forall s | s in shapes[..k] ensures s.id != shapes[k].id {
      var i :| 0 <= i < k && shapes[..k][i] == s;
      assert shapes[i] == s;
    }
    forall s | s in shapes[k + 1..] ensures s.id != shapes[k].id {
      var i :| 0 <= i < |shapes| - k - 1 && shapes[k + 1..][i] == s;
      assert shapes[k + 1 + i] == s;
    }
  }

  /** A list is the part before `k`, the element at `k` and the part after it. */
  lemma SplitAt(shapes: seq<Shape>, k: nat)
    requires k < |shapes|
    ensures shapes == shapes[..k] + ([shapes[k]] + shapes[k + 1..])
  {
  }

  /** A shape carrying the removed id at the head of a list is dropped. */
  lemma DropHead(head: Shape, tail: seq<Shape>, id: Id)
    requires head.id == id
    ensures WithoutId([head] + tail, id) == WithoutId(tail, id)
  {
    assert ([head] + tail)[1..] == tail;
  }

  /**
   * In a list of distinct ids, removing the id of the shape at position `k`
   * leaves the shapes before it followed by the shapes after it.
   */
  lemma WithoutIdAt(shapes: seq<Shape>, k: nat, id: Id)
    requires DistinctIds(shapes)
    requires k < |shapes| && shapes[k].id == id
    ensures WithoutId(shapes, id) == shapes[..k] + shapes[k + 1..]
  {
    var before, after := shapes[..k], shapes[k + 1..];
    IdOnlyAt(shapes, k);
    WithoutAbsentId(before, id);
    WithoutAbsentId(after, id);
    calc {
      WithoutId(shapes, id);
      { SplitAt(shapes, k); }
      WithoutId(before + ([shapes[k]] + after), id);
      { WithoutIdAppend(before, [shapes[k]] + after, id); }
      WithoutId(before, id) + WithoutId([shapes[k]] + after, id);
      { DropHead(shapes[k], after, id); }
      before + after;
    }
  }

  /** Removing an id that no shape carries leaves the list as it was. */
  lemma {:induction false} WithoutAbsentId(shapes: seq<Shape>, id: Id)
    requires id !in Ids(shapes)
    ensures WithoutId(shapes, id) == shapes
  {
    if shapes != [] {
      assert shapes[0] in shapes;
      assert Ids(shapes[1..]) <= Ids(shapes) by {
        forall i | i in Ids(shapes[1..]) ensures i in Ids(shapes) {
          var s :| s in shapes[1..] && s.id == i;
          assert s in shapes;
        }
      }
      WithoutAbsentId(shapes[1..], id);
      assert shapes == [shapes[0]] + shapes[1..];
    }
  }

  /** Distinctness of a list with a head, in terms of its tail. */
  lemma DistinctCons(head: Shape, tail: seq<Shape>)
    ensures DistinctIds([head] + tail) <==> head.id !in Ids(tail) && DistinctIds(tail)
  {
    var s := [head] + tail;
    if DistinctIds(s) {
      forall t | t in tail ensures t.id != head.id {
        var k :| 0 <= k < |tail| && tail[k] == t;
        assert s[0] == head && s[k + 1] == t;
      }
      assert head.id !in Ids(tail);
      forall i, j | 0 <= i < j < |tail| ensures tail[i].id != tail[j].id {
        assert s[i + 1] == tail[i] && s[j + 1] == tail[j];
      }
    }
    if head.id !in Ids(tail) && DistinctIds(tail) {
      forall i, j | 0 <= i < j < |s| ensures s[i].id != s[j].id {
        assert s[j] == tail[j - 1];
        assert s[j] in tail;
        if i > 0 {
          assert s[i] == tail[i - 1];
        }
      }
    }
  }

  /**
   * Removing an id keeps the ids distinct, and takes exactly that id out of
   * the set of ids.
   */
  lemma {:induction false} WithoutIdKeepsDistinct(shapes: seq<Shape>, id: Id)
    requires DistinctIds(shapes)
    ensures DistinctIds(WithoutId(shapes, id))
    ensures Ids(WithoutId(shapes, id)) == Ids(shapes) - {id}
  {
    if shapes != [] {
      var rest := shapes[1..];
      assert shapes == [shapes[0]] + rest;
      DistinctCons(shapes[0], rest);
      WithoutIdKeepsDistinct(rest, id);
      if shapes[0].id != id {
        DistinctCons(shapes[0], WithoutId(rest, id));
      }
      assert Ids(shapes) == {shapes[0].id} + Ids(rest);
    }
  }

  /** In a list of distinct ids, removing a present id removes exactly one shape. */
  lemma {:induction false} WithoutPresentId(shapes: seq<Shape>, id: Id)
    requires DistinctIds(shapes)
    requires id in Ids(shapes)
    ensures |WithoutId(shapes, id)| == |shapes| - 1
  {
    var rest := shapes[1..];
    assert shapes == [shapes[0]] + rest;
    DistinctCons(shapes[0], rest);
    assert Ids(shapes) == {shapes[0].id} + Ids(rest);
    if shapes[0].id == id {
      WithoutAbsentId(rest, id);
    } else {
      WithoutPresentId(rest, id);
    }
  }

  /** Appending a shape with a new id keeps the ids distinct. */
  lemma AppendFreshId(shapes: seq<Shape>, added: Shape)
    requires DistinctIds(shapes)
    requires added.id !in Ids(shapes)
    ensures DistinctIds(shapes + [added])
    ensures Ids(shapes + [added]) == Ids(shapes) + {added.id}
  {
  }

  /** Appending a page with a new id keeps the page ids distinct. */
  lemma AppendFreshPage(pages: seq<Page>, added: Page)
    requires DistinctPageIds(pages)
    requires added.id !in PageIds(pages)
    ensures DistinctPageIds(pages + [added])
    ensures PageIds(pages + [added]) == PageIds(pages) + {added.id}
  {
  }
}
