/** Ordering by an attribute instead of a score (src/doc.rs). */
module Pages {
  import opened Wrappers
  import opened Values
  import opened Records
  import opened Segments
  import opened Sorting
  import opened Ranking
  import Filters

  datatype OrderBy = OrderBy(attribute: string, descending: bool)

  /** A document's place: its value, if it has one, and its id. */
  datatype Row = Row(key: Option<Value>, id: Id, attrs: Attrs)

  function RowOf(order: OrderBy, ask: Ask, d: Doc): Row {
    var v := Filters.Attribute(d.attrs, order.attribute);
    Row(if v.Null? then None else Some(v), d.id, ask.project(d.attrs))
  }

  /** Missing values come last in either direction; ties break by id. */
  predicate Precedes(h: Host, order: OrderBy, a: Row, b: Row) {
    if a.key.None? || b.key.None? then a.key.Some? || (b.key.None? && IdLess(a.id, b.id))
    else
      var c := Compare(h, a.key.value, b.key.value);
      var base := if c.Some? then c.value else Equal;
      var way := if order.descending then base.Flip() else base;
      way == Less || (way == Equal && IdLess(a.id, b.id))
  }

  function Order(h: Host, order: OrderBy): (Row, Row) -> bool { (a, b) => Precedes(h, order, a, b) }

  function RowsOf(order: OrderBy, ask: Ask, docs: seq<Doc>): seq<Row> {
    if docs == [] then []
    else (if ask.accepts(docs[0]) then [RowOf(order, ask, docs[0])] else []) + RowsOf(order, ask, docs[1..])
  }

  function Page(h: Host, order: OrderBy, ask: Ask, docs: seq<Doc>): seq<Row> {
    Take(ask.k, Sort(Order(h, order), RowsOf(order, ask, docs)))
  }

  ghost function RowSet(order: OrderBy, ask: Ask, live: Live): set<Row> {
    set id | id in live && ask.accepts(live[id]) :: RowOf(order, ask, live[id])
  }

  /** Rows of one attribute of one type that has an order, one row per id. */
  ghost predicate Sortable(rows: set<Row>, ty: Type) {
    && Ordered(ty)
    && (forall r | r in rows && r.key.Some? :: TypeOf(r.key.value) == Some(ty))
    && (forall a, b | a in rows && b in rows && a.id == b.id :: a == b)
  }

  lemma PrecedesTotal(h: Host, order: OrderBy, rows: set<Row>, ty: Type, a: Row, b: Row)
    requires Sortable(rows, ty) && a in rows && b in rows
    ensures !Precedes(h, order, a, a) && (a == b || Precedes(h, order, a, b) || Precedes(h, order, b, a))
  {
    hide Compare;
    IdLessTotal(a.id, b.id);
    IdLessTotal(a.id, a.id);
    if a.key.Some? {
      CompareIsTotal(h, ty, a.key.value, a.key.value);
      if b.key.Some? {
        CompareIsTotal(h, ty, a.key.value, b.key.value);
      }
    }
  }

  lemma PrecedesTransitive(h: Host, order: OrderBy, rows: set<Row>, ty: Type, a: Row, b: Row, c: Row)
    requires Sortable(rows, ty) && a in rows && b in rows && c in rows
    requires Precedes(h, order, a, b) && Precedes(h, order, b, c)
    ensures Precedes(h, order, a, c)
  {
    hide Compare;
    if IdLess(a.id, b.id) && IdLess(b.id, c.id) {
      IdLessTransitive(a.id, b.id, c.id);
    }
    if a.key.Some? && b.key.Some? && c.key.Some? {
      var x, y, z := a.key.value, b.key.value, c.key.value;
      CompareIsTotal(h, ty, x, y);
      CompareIsTotal(h, ty, y, z);
      CompareIsTotal(h, ty, x, z);
      if Compare(h, x, y) == Some(Less) && Compare(h, y, z) == Some(Less) {
        CompareIsTransitive(h, ty, x, y, z);
      }
      if Compare(h, z, y) == Some(Less) && Compare(h, y, x) == Some(Less) {
        CompareIsTransitive(h, ty, z, y, x);
      }
    }
  }

  lemma OrderIsStrict(h: Host, order: OrderBy, rows: set<Row>, ty: Type)
    requires Sortable(rows, ty)
    ensures Strict(Order(h, order), rows)
  {
    hide Precedes, Sortable;
    forall a, b | a in rows && b in rows
      ensures !Order(h, order)(a, a) && (a == b || Order(h, order)(a, b) || Order(h, order)(b, a))
    {
      PrecedesTotal(h, order, rows, ty, a, b);
    }
    forall a, b, c | a in rows && b in rows && c in rows && Order(h, order)(a, b) && Order(h, order)(b, c)
      ensures Order(h, order)(a, c)
    {
      PrecedesTransitive(h, order, rows, ty, a, b, c);
    }
  }

  lemma {:induction false} RowsAre(order: OrderBy, ask: Ask, docs: seq<Doc>, x: Row)
    ensures x in RowsOf(order, ask, docs) <==>
      exists i :: 0 <= i < |docs| && ask.accepts(docs[i]) && RowOf(order, ask, docs[i]) == x
    decreases |docs|
  {
    if docs != [] {
      RowsAre(order, ask, docs[1..], x);
      if x in RowsOf(order, ask, docs[1..]) {
        var i :| 0 <= i < |docs[1..]| && ask.accepts(docs[1..][i]) && RowOf(order, ask, docs[1..][i]) == x;
        assert docs[i + 1] == docs[1..][i];
      }
      if i :| 0 <= i < |docs| && ask.accepts(docs[i]) && RowOf(order, ask, docs[i]) == x {
        assert i > 0 ==> docs[1..][i - 1] == docs[i];
      }
    }
  }

  lemma {:induction false} RowsDistinct(order: OrderBy, ask: Ask, docs: seq<Doc>)
    requires DistinctIds(docs)
    ensures Distinct(RowsOf(order, ask, docs))
    decreases |docs|
  {
    if docs != [] {
      RowsDistinct(order, ask, docs[1..]);
      var rest := RowsOf(order, ask, docs[1..]);
      forall j | 0 <= j < |rest| ensures rest[j].id != docs[0].id {
        RowsAre(order, ask, docs[1..], rest[j]);
        var i :| 0 <= i < |docs[1..]| && RowOf(order, ask, docs[1..][i]) == rest[j];
        assert docs[i + 1] == docs[1..][i];
      }
    }
  }

  lemma ListedRows(order: OrderBy, ask: Ask, docs: seq<Doc>, live: Live)
    requires Keyed(live) && Lists(docs, live)
    ensures Members(RowsOf(order, ask, docs)) == RowSet(order, ask, live) && Distinct(RowsOf(order, ask, docs))
  {
    hide RowOf;
    RowsDistinct(order, ask, docs);
    forall x ensures x in RowsOf(order, ask, docs) <==> x in RowSet(order, ask, live) {
      RowsAre(order, ask, docs, x);
      if x in RowSet(order, ask, live) {
        var id :| id in live && ask.accepts(live[id]) && RowOf(order, ask, live[id]) == x;
        var i :| 0 <= i < |docs| && docs[i] == live[id];
      }
    }
  }

  lemma RowSetSortable(order: OrderBy, ask: Ask, live: Live, ty: Type)
    requires Keyed(live) && Ordered(ty) && forall id | id in live ::
      Fits(Filters.Attribute(live[id].attrs, order.attribute), ty)
    ensures Sortable(RowSet(order, ask, live), ty)
  {
  }

  // ------------------------------------------------------------ the page, told by documents

  function KeyOf(order: OrderBy, d: Doc): Value { Filters.Attribute(d.attrs, order.attribute) }

  /** `a` comes before `b`: those without the attribute last, whichever way the page runs; the others by their
      values, smallest or greatest first; and equal ones by id. */
  ghost predicate ComesFirst(h: Host, order: OrderBy, a: Doc, b: Doc) {
    var v, w := KeyOf(order, a), KeyOf(order, b);
    || (!v.Null? && w.Null?)
    || (v == w && IdLess(a.id, b.id))
    || (!v.Null? && !w.Null? && if order.descending then Smaller(h, w, v) else Smaller(h, v, w))
  }

  lemma PrecedesIs(h: Host, order: OrderBy, ask: Ask, a: Doc, b: Doc, ty: Type)
    requires Ordered(ty) && Fits(KeyOf(order, a), ty) && Fits(KeyOf(order, b), ty)
    ensures Precedes(h, order, RowOf(order, ask, a), RowOf(order, ask, b)) <==> ComesFirst(h, order, a, b)
  {
    hide Compare, Smaller;
    var v, w := KeyOf(order, a), KeyOf(order, b);
    CompareMeans(h, v, w);
    if !v.Null? && !w.Null? {
      CompareIsTotal(h, ty, v, w);
    }
  }

  ghost predicate Holds(page: seq<Row>, id: Id) {
    exists i :: 0 <= i < |page| && page[i].id == id
  }

  /** `page` is the answer: accepted documents as they are, in order, as many as there are up to `k`, and none
      left off that comes before one on it. */
  ghost predicate IsOrderedPage(h: Host, order: OrderBy, ask: Ask, live: Live, page: seq<Row>) {
    && (forall i | 0 <= i < |page| ::
          && page[i].id in live && ask.accepts(live[page[i].id]) && page[i].attrs == ask.project(live[page[i].id].attrs)
          && page[i].key == (var v := KeyOf(order, live[page[i].id]); if v.Null? then None else Some(v)))
    && (forall i, j | 0 <= i < j < |page| && page[i].id in live && page[j].id in live ::
          ComesFirst(h, order, live[page[i].id], live[page[j].id]))
    && (forall i, id | 0 <= i < |page| && id in live && ask.accepts(live[id]) && !Holds(page, id) ::
          page[i].id in live && ComesFirst(h, order, live[page[i].id], live[id]))
    && |page| == AtMost(ask.k, |AcceptedOf(ask, live)|)
  }

  lemma RowCount(order: OrderBy, ask: Ask, live: Live)
    requires Keyed(live)
    ensures |RowSet(order, ask, live)| == |AcceptedOf(ask, live)|
  {
    var f := (id: Id) => RowOf(order, ask, if id in live then live[id] else Doc(id, [], map[]));
    ImageSize(AcceptedOf(ask, live), f);
    var image := Image(AcceptedOf(ask, live), f);
    forall x ensures x in RowSet(order, ask, live) <==> x in image {
      if x in RowSet(order, ask, live) {
        var id :| id in live && ask.accepts(live[id]) && RowOf(order, ask, live[id]) == x;
        assert f(id) == x;
      }
      if x in image {
        var id :| id in AcceptedOf(ask, live) && f(id) == x;
        assert RowOf(order, ask, live[id]) == x;
      }
    }
    assert RowSet(order, ask, live) == image;
  }

  ghost predicate OneOrderedType(order: OrderBy, live: Live, ty: Type) {
    Ordered(ty) && forall id | id in live :: Fits(KeyOf(order, live[id]), ty)
  }

  lemma RowIs(order: OrderBy, ask: Ask, live: Live, x: Row)
    requires Keyed(live) && x in RowSet(order, ask, live)
    ensures x.id in live && ask.accepts(live[x.id]) && x == RowOf(order, ask, live[x.id])
  {
  }

  lemma TopIsPage(h: Host, order: OrderBy, ask: Ask, live: Live, page: seq<Row>, ty: Type)
    requires Keyed(live) && OneOrderedType(order, live, ty)
    requires IsTop(Order(h, order), RowSet(order, ask, live), ask.k, page)
    ensures IsOrderedPage(h, order, ask, live, page)
  {
    hide RowSet, Precedes, ComesFirst, RowOf;
    RowCount(order, ask, live);
    forall i | 0 <= i < |page|
      ensures page[i].id in live && ask.accepts(live[page[i].id]) && page[i] == RowOf(order, ask, live[page[i].id])
    {
      assert page[i] in Members(page);
      RowIs(order, ask, live, page[i]);
    }
    forall i, j | 0 <= i < j < |page| ensures ComesFirst(h, order, live[page[i].id], live[page[j].id]) {
      assert Order(h, order)(page[i], page[j]);
      PrecedesIs(h, order, ask, live[page[i].id], live[page[j].id], ty);
    }
    forall i, id | 0 <= i < |page| && id in live && ask.accepts(live[id]) && !Holds(page, id)
      ensures ComesFirst(h, order, live[page[i].id], live[id])
    {
      var off := RowOf(order, ask, live[id]);
      RowOff(order, ask, live, page, id);
      assert Order(h, order)(page[i], off);
      PrecedesIs(h, order, ask, live[page[i].id], live[id], ty);
    }
    forall i | 0 <= i < |page| ensures
      && page[i].attrs == ask.project(live[page[i].id].attrs)
      && page[i].key == var v := KeyOf(order, live[page[i].id]); if v.Null? then None else Some(v)
    {
      RowShows(order, ask, live[page[i].id]);
    }
  }

  lemma RowShows(order: OrderBy, ask: Ask, d: Doc)
    ensures var v, x := KeyOf(order, d), RowOf(order, ask, d);
      x.attrs == ask.project(d.attrs) && x.id == d.id && x.key == if v.Null? then None else Some(v)
  {
  }

  lemma RowOff(order: OrderBy, ask: Ask, live: Live, page: seq<Row>, id: Id)
    requires Keyed(live) && id in live && ask.accepts(live[id]) && !Holds(page, id)
    ensures RowOf(order, ask, live[id]) in RowSet(order, ask, live) && RowOf(order, ask, live[id]) !in page
  {
  }

  /** The page of the accepted documents of a live set, in whatever order its map yields them. */
  method OrderedPage(h: Host, order: OrderBy, ask: Ask, live: Live, ghost ty: Type) returns (page: seq<Row>)
    requires Keyed(live) && OneOrderedType(order, live, ty)
    ensures page == Page(h, order, ask, DocsOf(live, SortedIds(live.Keys)))
    ensures IsOrderedPage(h, order, ask, live, page)
  {
    hide RowSet, Precedes, Sort, RowsOf, Lists, IsOrderedPage;
    var todo, docs := live.Keys, [];
    while todo != {}
      invariant todo <= live.Keys && DistinctIds(docs)
      invariant forall i | 0 <= i < |docs| :: docs[i].id in live && docs[i].id !in todo && live[docs[i].id] == docs[i]
      invariant forall id | id in live.Keys - todo :: live[id] in docs
    {
      var id :| id in todo;
      docs, todo := docs + [live[id]], todo - {id};
    }
    AllListed(docs, live);
    page := Page(h, order, ask, docs);
    PageIs(h, order, ask, live, docs, ty);
  }

  lemma AllListed(docs: seq<Doc>, live: Live)
    requires DistinctIds(docs) && (forall i | 0 <= i < |docs| :: docs[i].id in live && live[docs[i].id] == docs[i])
    requires forall id | id in live.Keys - {} :: live[id] in docs
    ensures Lists(docs, live)
  {
  }

  lemma PageIs(h: Host, order: OrderBy, ask: Ask, live: Live, docs: seq<Doc>, ty: Type)
    requires Keyed(live) && OneOrderedType(order, live, ty) && Lists(docs, live)
    ensures var page := Page(h, order, ask, docs);
      page == Page(h, order, ask, DocsOf(live, SortedIds(live.Keys))) && IsOrderedPage(h, order, ask, live, page)
  {
    hide RowSet, Precedes, RowsOf, Lists, Sort, IsOrderedPage;
    var less, rows, byId := Order(h, order), RowSet(order, ask, live), DocsOf(live, SortedIds(live.Keys));
    RowSetSortable(order, ask, live, ty);
    OrderIsStrict(h, order, rows, ty);
    ByIdLists(live);
    ListedRows(order, ask, docs, live);
    ListedRows(order, ask, byId, live);
    SortIgnoresArrival(less, RowsOf(order, ask, docs), RowsOf(order, ask, byId));
    SortedIsTop(less, RowsOf(order, ask, docs), ask.k);
    TopIsPage(h, order, ask, live, Page(h, order, ask, docs), ty);
  }
}
