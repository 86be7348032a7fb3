/** What `ParcelPopup` (src/components/ParcelPopup.tsx) renders, with the markup set
    aside: whether anything is shown, where, and the attribute rows. */
module ParcelPopup {

  import opened Wrappers
  import opened Types

  /** One property entry as `Object.entries` yields it; a value that is `null` or
      `undefined` is `None`, any other value is `Some` of its `String(...)` form. */
  datatype Entry = Entry(key: string, value: Option<string>)

  /** One rendered attribute: the label span, without the trailing colon the markup
      adds, and the value span. */
  datatype Row = Row(heading: string, text: string)

  /** The rendered popup: the CSS `left` / `top` in pixels and the rows in order. */
  datatype Popup = Popup(left: real, top: real, rows: seq<Row>)

  /** The popup is drawn this many pixels right of and below its anchor. */
  const PopupOffset: real := 10.0

  /** Shown for a missing value. */
  const Missing: string := "N/A"

  /** Keys that never produce a row. */
  predicate Hidden(key: string)
  {
    key == "geometry" || key == "layer"
  }

  /** `key.replace(/_/g, ' ')`: the key with every underscore replaced by a space,
      all other characters kept in place; so no underscore is left. */
  function Label(key: string): (r: string)
    ensures |r| == |key|
    ensures forall i :: 0 <= i < |key| ==> r[i] == (if key[i] == '_' then ' ' else key[i])
    ensures '_' !in r
  {
    seq(|key|, i requires 0 <= i < |key| => if key[i] == '_' then ' ' else key[i])
  }

  /** The value span: the value's string form, or `N/A` when it is null or undefined. */
  function ValueText(value: Option<string>): (r: string)
    ensures value.None? ==> r == Missing
    ensures value.Some? ==> r == value.value
  {
    match value
    case None => Missing
    case Some(s) => s
  }

  /** The row of one shown entry: its label and its value text. */
  function RowOf(e: Entry): (r: Row)
    ensures |r.heading| == |e.key| && '_' !in r.heading
    ensures forall i :: 0 <= i < |e.key| ==> r.heading[i] == (if e.key[i] == '_' then ' ' else e.key[i])
    ensures e.value.None? ==> r.text == Missing
    ensures e.value.Some? ==> r.text == e.value.value
  {
    Row(Label(e.key), ValueText(e.value))
  }

  /** The row list: entries with a hidden key are skipped, every other entry gives
      one row, in the order of the entries. */
  function Rows(props: seq<Entry>): (r: seq<Row>)
    ensures |r| <= |props|
  {
    if props == [] then []
    else if Hidden(props[0].key) then Rows(props[1..])
    else [RowOf(props[0])] + Rows(props[1..])
  }

  /** The component: nothing unless `visible` holds and both `position` and
      `properties` are present; otherwise the popup at the offset anchor. */
  function Render(visible: bool, position: Option<Position>, properties: Option<seq<Entry>>): (r: Option<Popup>)
    ensures r.Some? <==> visible && position.Some? && properties.Some?
    ensures r.Some? ==> r.value.left - position.value.x == PopupOffset
    ensures r.Some? ==> r.value.top - position.value.y == PopupOffset
    ensures r.Some? ==> r.value.rows == Rows(properties.value)
  {
    if !visible || position.None? || properties.None? then None
    else Some(Popup(position.value.x + PopupOffset, position.value.y + PopupOffset, Rows(properties.value)))
  }

  /** The indices of the entries that produce a row. */
  ghost function ShownIndices(props: seq<Entry>): set<nat>
  {
    set i: nat | i < |props| && !Hidden(props[i].key)
  }

  /** Rows distribute over concatenation of the entries: the order is preserved. */
  lemma {:induction false} RowsAppend(p: seq<Entry>, q: seq<Entry>)
    ensures Rows(p + q) == Rows(p) + Rows(q)
    decreases |p|
  {
    if p == [] {
      assert p + q == q;
    } else {
      assert (p + q)[0] == p[0];
      assert (p + q)[1..] == p[1..] + q;
      RowsAppend(p[1..], q);
    }
  }

  /** A single entry gives one row, or none when its key is hidden. */
  lemma RowsSingle(e: Entry)
    ensures Rows([e]) == if Hidden(e.key) then [] else [RowOf(e)]
  {
    assert [e][1..] == [];
  }

  /** There are exactly as many rows as entries whose key is neither `geometry` nor `layer`. */
  lemma {:induction false} RowsCount(props: seq<Entry>)
    ensures |Rows(props)| == |ShownIndices(props)|
    decreases |props|
  {
    if props == [] {
      assert ShownIndices(props) == {};
    } else {
      var n := |props| - 1;
      var front, last := props[..n], props[n];
      assert props == front + [last];
      RowsAppend(front, [last]);
      RowsSingle(last);
      RowsCount(front);
      assert forall i :: 0 <= i < n ==> props[i] == front[i];
      if Hidden(last.key) {
        assert ShownIndices(props) == ShownIndices(front);
      } else {
        assert ShownIndices(props) == ShownIndices(front) + {n};
      }
    }
  }

  /** The row of a shown entry sits right after the rows of the entries before it. */
  lemma RowsAt(props: seq<Entry>, i: nat)
    requires i < |props| && !Hidden(props[i].key)
    ensures |Rows(props[..i])| < |Rows(props)|
    ensures Rows(props)[|Rows(props[..i])|] == RowOf(props[i])
  {
    assert props == props[..i] + ([props[i]] + props[i + 1..]);
    RowsAppend(props[..i], [props[i]] + props[i + 1..]);
    RowsAppend([props[i]], props[i + 1..]);
    RowsSingle(props[i]);
  }

  /** Of two shown entries, the earlier one's row comes first. */
  lemma RowsOrdered(props: seq<Entry>, i: nat, j: nat)
    requires i < j < |props| && !Hidden(props[i].key)
    ensures |Rows(props[..i])| < |Rows(props[..j])|
  {
    assert props[..j] == props[..i] + ([props[i]] + props[i + 1..j]);
    RowsAppend(props[..i], [props[i]] + props[i + 1..j]);
    RowsAppend([props[i]], props[i + 1..j]);
    RowsSingle(props[i]);
  }

  /** The labels of the two keys a cadastral parcel carries. */
  lemma LabelExample()
    ensures Label("parcel_number") == "parcel number"
    ensures Label("area") == "area"
  {
  }

  /** A worked example: geometry and layer are dropped, labels lose their underscores
      and a missing value reads `N/A`. */
  lemma RowsExample()
    ensures Rows([Entry("geometry", Some("polygon")),
                  Entry("parcel_number", Some("1234/5")),
                  Entry("layer", Some("cadastral_parcels")),
                  Entry("area", None)])
         == [Row("parcel number", "1234/5"), Row("area", "N/A")]
  {
    var geometry, parcel := Entry("geometry", Some("polygon")), Entry("parcel_number", Some("1234/5"));
    var layer, area := Entry("layer", Some("cadastral_parcels")), Entry("area", None);
    var p := [geometry, parcel, layer, area];
    assert p[1..] == [parcel, layer, area];
    assert p[2..] == [layer, area];
    assert p[3..] == [area];
    assert p[4..] == [];
    assert Rows(p[4..]) == [];
    assert Rows(p[3..]) == [RowOf(area)];
    assert Rows(p[2..]) == [RowOf(area)];
    assert Rows(p[1..]) == [RowOf(parcel), RowOf(area)];
    assert Rows(p) == [RowOf(parcel), RowOf(area)];
    LabelExample();
  }
}
