/** The data handling of the form component (components/form/index.tsx):
    the blank-plan check, defaulting `checked` on loaded materials, the
    checkbox toggle, the search queries built from unchecked materials, and
    the flattening of the search responses for display. The React state
    around them is not modelled. */
module Form {
  import opened Wrappers
  import opened Json
  import opened Text
  import opened Seqs

  /** A material as the form holds it. The component's `Material` type
      declares `item` and `details` as strings, but they hold whatever JSON
      the parse route replied with (a `details` can be a numeric `length`).
      `price`, `total` and `length` ride along untouched and are not modelled. */
  datatype Material = Material(item: Json, quantity: real, details: Option<Json>, checked: Option<bool>)

  /** What submitting the plan does. */
  datatype SubmitAction = ClearMaterials | RequestParse(buildPlan: string)

  /** A blank or whitespace-only plan clears the list and sends nothing;
      any other plan is sent as typed, untrimmed. */
  function Submit(plan: string): (a: SubmitAction)
    ensures a == ClearMaterials <==> forall i :: 0 <= i < |plan| ==> IsWhitespace(plan[i])
    ensures a.RequestParse? ==> a.buildPlan == plan
  {
    TrimBlank(plan);
    if Trim(plan) == "" then ClearMaterials else RequestParse(plan)
  }

  /** `data.map(m => ({ ...m, checked: m.checked ?? false }))`. */
  function WithDefaultChecked(ms: seq<Material>): (r: seq<Material>)
    ensures |r| == |ms|
    ensures forall i :: 0 <= i < |ms| ==>
      && r[i].checked == (if ms[i].checked.Some? then ms[i].checked else Some(false))
      && r[i].(checked := ms[i].checked) == ms[i]
  {
    seq(|ms|, i requires 0 <= i < |ms| => ms[i].(checked := Some(ms[i].checked.GetOr(false))))
  }

  /** The checkbox at index `i` set to `value`: only that element's
      `checked` changes; an index outside the list changes nothing. */
  function Toggle(ms: seq<Material>, i: int, value: bool): (r: seq<Material>)
    ensures |r| == |ms|
    ensures forall j :: 0 <= j < |ms| && j != i ==> r[j] == ms[j]
    ensures 0 <= i < |ms| ==> r[i].checked == Some(value) && r[i].(checked := ms[i].checked) == ms[i]
  {
    seq(|ms|, j requires 0 <= j < |ms| => if j == i then ms[j].(checked := Some(value)) else ms[j])
  }

  /** `!m.checked`. */
  predicate Unchecked(m: Material) {
    m.checked != Some(true)
  }

  /** `${m.quantity} ${m.item} ${m.details ?? ""}`.trim(); `str` is
      JavaScript's conversion of a value to a string in a template. */
  function QueryOf(m: Material, str: Json -> string): string {
    var details := if Nullish(m.details) then "" else str(m.details.value);
    Trim(str(JNum(m.quantity)) + " " + str(m.item) + " " + details)
  }

  function QueryIfUnchecked(str: Json -> string): Material -> Option<string> {
    m => if Unchecked(m) then Some(QueryOf(m, str)) else None
  }

  /** `materials.filter(m => !m.checked).map(...)`. */
  function SearchQueries(ms: seq<Material>, str: Json -> string): seq<string> {
    FilterMap(ms, QueryIfUnchecked(str))
  }

  /** Exactly one query per unchecked material, in material order: query
      `k` is the query of material `ix[k]`, the indices increase, and every
      unchecked material is among them. */
  lemma QueriesFollowUnchecked(ms: seq<Material>, str: Json -> string)
    ensures var qs, ix := SearchQueries(ms, str), KeptIndices(ms, QueryIfUnchecked(str));
      && |ix| == |qs|
      && (forall k :: 0 <= k < |ix| ==> ix[k] < |ms| && Unchecked(ms[ix[k]]) && qs[k] == QueryOf(ms[ix[k]], str))
      && (forall k1, k2 :: 0 <= k1 < k2 < |ix| ==> ix[k1] < ix[k2])
      && (forall i :: 0 <= i < |ms| && Unchecked(ms[i]) ==> i in ix)
  {
    FilterMapOrder(ms, QueryIfUnchecked(str));
  }

  /** Checked materials send nothing: when all are checked there are no queries. */
  lemma {:induction false} AllCheckedNoQueries(ms: seq<Material>, str: Json -> string)
    requires forall i :: 0 <= i < |ms| ==> !Unchecked(ms[i])
    ensures SearchQueries(ms, str) == []
  {
    if ms != [] {
      assert !Unchecked(ms[0]);
      AllCheckedNoQueries(ms[1..], str);
    }
  }

  /** One display row built from a search response. */
  datatype FlatItem = FlatItem(title: Json, link: Json, thumbnail: Json, price: Option<Json>)

  /** `Array.isArray(entry?.products) ? entry.products : []`. */
  function Products(entry: Json): seq<Json> {
    match Prop(entry, "products")
    case Some(JArr(ps)) => ps
    case _ => []
  }

  /** `typeof first.name === "string" && first.name`, when it is truthy. */
  function StringProbe(first: Json, name: string): Option<Json> {
    match Prop(first, name)
    case Some(JStr(s)) => if s != "" then Some(JStr(s)) else None
    case _ => None
  }

  /** `Array.isArray(first.name) && first.name.length > 0 && first.name[0]`,
      when it is truthy. */
  function HeadProbe(first: Json, name: string): Option<Json> {
    match Prop(first, name)
    case Some(JArr(xs)) => if |xs| > 0 && Truthy(xs[0]) then Some(xs[0]) else None
    case _ => None
  }

  /** The thumbnail candidates in priority order. */
  function ThumbnailProbes(first: Json): seq<Option<Json>> {
    [StringProbe(first, "thumbnail"), StringProbe(first, "image"),
     HeadProbe(first, "images"), HeadProbe(first, "thumbnails")]
  }

  /** The first candidate that applies, else `null`. */
  function Thumbnail(first: Json): Json {
    FirstSome(ThumbnailProbes(first)).GetOr(JNull)
  }

  /** The source's `||` chain, written out as a reference definition. */
  function ThumbnailChain(first: Json): Json {
    var t := Prop(first, "thumbnail");
    var im := Prop(first, "image");
    var ims := Prop(first, "images");
    var ths := Prop(first, "thumbnails");
    if t.Some? && t.value.JStr? && t.value.s != "" then t.value
    else if im.Some? && im.value.JStr? && im.value.s != "" then im.value
    else if ims.Some? && ims.value.JArr? && |ims.value.elems| > 0 && Truthy(ims.value.elems[0]) then ims.value.elems[0]
    else if ths.Some? && ths.value.JArr? && |ths.value.elems| > 0 && Truthy(ths.value.elems[0]) then ths.value.elems[0]
    else JNull
  }

  /** The prioritised probe list and the `||` chain agree on every product. */
  lemma ThumbnailIsChain(first: Json)
    ensures Thumbnail(first) == ThumbnailChain(first)
  {
    var p := ThumbnailProbes(first);
    assert p[1..][1..][1..][1..] == [];
    assert FirstSome(p[1..][1..][1..]) == p[3];
    assert FirstSome(p[1..][1..]) == if p[2].Some? then p[2] else p[3];
    assert FirstSome(p[1..]) == if p[1].Some? then p[1] else if p[2].Some? then p[2] else p[3];
  }

  /** The thumbnail is `null` or a truthy value taken from the product. */
  lemma ThumbnailTruthyOrNull(first: Json)
    ensures Thumbnail(first) == JNull || Truthy(Thumbnail(first))
  {
    var p := ThumbnailProbes(first);
    assert forall i :: 0 <= i < |p| && p[i].Some? ==> Truthy(p[i].value);
  }

  /** The row for one response, or `None` when it is dropped: no non-empty
      `products` array, a falsy first product, or no truthy `title` or `link`. */
  function FlattenEntry(entry: Json): Option<FlatItem> {
    var ps := Products(entry);
    if ps == [] || !Truthy(ps[0]) then None
    else
      var first := ps[0];
      var title, link := Prop(first, "title"), Prop(first, "link");
      if !PresentTruthy(title) || !PresentTruthy(link) then None
      else Some(FlatItem(title.value, link.value, Thumbnail(first), Prop(first, "price")))
  }

  /** `(Array.isArray(data) ? data : []).map(...).filter(Boolean)`. */
  function Flatten(data: Json): seq<FlatItem> {
    match data
    case JArr(es) => FilterMap(es, FlattenEntry)
    case _ => []
  }

  /** A response that is not an array flattens to nothing. */
  lemma FlattenNotArray(data: Json)
    requires !data.JArr?
    ensures Flatten(data) == []
  {
  }

  /** At most one row per response, kept in response order: row `k` comes
      from response `ix[k]`, the indices increase, and no response that
      yields a row is skipped. */
  lemma FlattenKeepsOrder(es: seq<Json>)
    ensures var rows, ix := Flatten(JArr(es)), KeptIndices(es, FlattenEntry);
      && |rows| <= |es| && |ix| == |rows|
      && (forall k :: 0 <= k < |ix| ==> ix[k] < |es| && FlattenEntry(es[ix[k]]) == Some(rows[k]))
      && (forall k1, k2 :: 0 <= k1 < k2 < |ix| ==> ix[k1] < ix[k2])
      && (forall i :: 0 <= i < |es| && FlattenEntry(es[i]).Some? ==> i in ix)
  {
    FilterMapOrder(es, FlattenEntry);
  }

  /** A kept row comes from a first product that is a JSON object (strings
      and arrays have no `title`), and carries its title, link and price. */
  lemma KeptRowFields(entry: Json)
    requires FlattenEntry(entry).Some?
    ensures var first, row := Products(entry)[0], FlattenEntry(entry).value;
      && first.JObj?
      && Prop(first, "title") == Some(row.title) && Truthy(row.title)
      && Prop(first, "link") == Some(row.link) && Truthy(row.link)
      && row.price == Prop(first, "price")
      && row.thumbnail == ThumbnailChain(first)
  {
    ThumbnailIsChain(Products(entry)[0]);
  }
}
