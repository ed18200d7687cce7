/** Normalising the parsed model output into the materials list
    (app/api/route.ts:89-104). */
module Normalization {
  import opened Wrappers
  import opened Json
  import opened Text
  import opened Seqs

  /** `{ item, quantity, details, total, price }`; `None` in `total` or
      `price` is `undefined`, which JSON.stringify leaves out. */
  datatype NormalMaterial = NormalMaterial(
    item: Json, quantity: real, details: Json, total: Option<Json>, price: Option<Json>)

  /** The TypeError `m.item` raises when an element of the array is `null`. */
  const NullElementError := "Cannot read properties of null (reading 'item')"

  predicate IsNumeric(c: char) {
    IsDigit(c) || c == '.'
  }

  /** `s.replace(/[^0-9.]/g, "")`. */
  function KeepNumeric(s: string): (r: string)
    ensures forall i :: 0 <= i < |r| ==> IsNumeric(r[i])
    ensures forall i :: 0 <= i < |r| ==> r[i] in s
  {
    if s == [] then []
    else (if IsNumeric(s[0]) then [s[0]] else []) + KeepNumeric(s[1..])
  }

  /** Removing the non-numeric characters of an all-numeric string changes nothing. */
  lemma {:induction false} KeepNumericIdentity(s: string)
    requires forall i :: 0 <= i < |s| ==> IsNumeric(s[i])
    ensures KeepNumeric(s) == s
  {
    if s != [] {
      KeepNumericIdentity(s[1..]);
    }
  }

  /** End of the run of decimal digits starting at `i`. */
  function DigitRun(s: string, i: nat): (e: nat)
    requires i <= |s|
    ensures i <= e <= |s|
    ensures forall p :: i <= p < e ==> IsDigit(s[p])
    ensures e == |s| || !IsDigit(s[e])
    decreases |s| - i
  {
    if i < |s| && IsDigit(s[i]) then DigitRun(s, i + 1) else i
  }

  function DigitOf(c: char): nat
    requires IsDigit(c)
  {
    c as int - '0' as int
  }

  /** The number a string of decimal digits denotes (0 for the empty string). */
  function DigitsValue(d: string): nat
    requires forall i :: 0 <= i < |d| ==> IsDigit(d[i])
  {
    if d == [] then 0
    else DigitsValue(d[..|d| - 1]) * 10 + DigitOf(d[|d| - 1])
  }

  function Pow10(n: nat): (r: nat)
    ensures r >= 1
  {
    if n == 0 then 1 else 10 * Pow10(n - 1)
  }

  /** `parseFloat(s)` for a string of digits and dots, as an exact real:
      the longest prefix `digits [. digits]` or `. digits`; `None` is NaN,
      which happens exactly when no digit starts the literal. */
  function ParseDecimal(s: string): (r: Option<real>)
    requires forall i :: 0 <= i < |s| ==> IsNumeric(s[i])
    ensures r.None? <==> s == [] || (s[0] == '.' && (|s| == 1 || !IsDigit(s[1])))
  {
    var e := DigitRun(s, 0);
    if e < |s| then
      assert IsNumeric(s[e]);
      var f := DigitRun(s, e + 1);
      assert e == 0 ==> (f == 1 <==> (|s| == 1 || !IsDigit(s[1])));
      if e == 0 && f == 1 then None
      else Some(DigitsValue(s[..e]) as real + DigitsValue(s[e + 1..f]) as real / Pow10(f - e - 1) as real)
    else if e == 0 then None
    else Some(DigitsValue(s) as real)
  }

  /** A string `quantity`: keep digits and dots, parse, and use 1 when the
      result is not a finite number. */
  function QuantityFromText(q: string): real {
    match ParseDecimal(KeepNumeric(q))
    case Some(x) => x
    case None => 1.0
  }

  /** `quantity` after normalisation: a string is parsed, a number is kept,
      anything else (missing, null, boolean, array, object) becomes 1. */
  function Quantity(q: Option<Json>): real {
    match q
    case Some(JStr(s)) => QuantityFromText(s)
    case Some(JNum(n)) => n
    case _ => 1.0
  }

  /** A plain decimal numeral is parsed to the number it denotes. */
  lemma QuantityOfDigits(d: string)
    requires d != [] && forall i :: 0 <= i < |d| ==> IsDigit(d[i])
    ensures QuantityFromText(d) == DigitsValue(d) as real
  {
    KeepNumericIdentity(d);
    assert DigitRun(d, 0) == |d| by {
      DigitRunOfRun(d, 0);
    }
  }

  lemma {:induction false} DigitRunOfRun(s: string, i: nat)
    requires i <= |s| && forall p :: i <= p < |s| ==> IsDigit(s[p])
    ensures DigitRun(s, i) == |s|
    decreases |s| - i
  {
    if i < |s| {
      DigitRunOfRun(s, i + 1);
    }
  }

  /** A string without a single digit normalises to quantity 1. */
  lemma QuantityWithoutDigits(q: string)
    requires forall i :: 0 <= i < |q| ==> !IsDigit(q[i])
    ensures QuantityFromText(q) == 1.0
  {
    var k := KeepNumeric(q);
    assert forall i :: 0 <= i < |k| ==> k[i] == '.';
  }

  /** Drop a present `null`: what `??` treats like `undefined`. */
  function NonNull(o: Option<Json>): Option<Json> {
    if Nullish(o) then None else o
  }

  /** `m.a ?? m.b ?? ... ?? fallback` over the property names `names`. */
  function Coalesce(m: Json, names: seq<string>, fallback: Json): Json {
    FirstSome(seq(|names|, i requires 0 <= i < |names| => NonNull(Prop(m, names[i])))).GetOr(fallback)
  }

  /** The normalised form of one element of the parsed array. */
  function NormalizeOne(m: Json): NormalMaterial {
    NormalMaterial(
      Coalesce(m, ["item", "item_name", "name"], JStr("")),
      Quantity(Prop(m, "quantity")),
      Coalesce(m, ["details", "length", "size"], JStr("")),
      Prop(m, "total"),
      Prop(m, "price"))
  }

  /** `es.map(...)`, where a `null` element makes the map throw. */
  function NormalizeAll(es: seq<Json>): Result<seq<NormalMaterial>, string> {
    if es == [] then Ok([])
    else if es[0] == JNull then Err(NullElementError)
    else
      match NormalizeAll(es[1..])
      case Err(e) => Err(e)
      case Ok(rest) => Ok([NormalizeOne(es[0])] + rest)
  }

  /** Every element is normalised, in order, unless some element is
      `null`, in which case the whole map fails with the TypeError. */
  lemma {:induction false} NormalizeAllSpec(es: seq<Json>)
    ensures var r := NormalizeAll(es);
      && (r.Err? <==> JNull in es)
      && (r.Err? ==> r.error == NullElementError)
      && (r.Ok? ==> |r.value| == |es| && forall i :: 0 <= i < |es| ==> r.value[i] == NormalizeOne(es[i]))
  {
    if es != [] && es[0] != JNull {
      var tail := es[1..];
      NormalizeAllSpec(tail);
      assert es == [es[0]] + tail;
      assert JNull in es <==> JNull in tail;
      var rt := NormalizeAll(tail);
      if rt.Ok? {
        var r := [NormalizeOne(es[0])] + rt.value;
        assert NormalizeAll(es) == Ok(r);
        forall i | 1 <= i < |es| ensures r[i] == NormalizeOne(es[i]) {
          assert r[i] == rt.value[i - 1] && es[i] == tail[i - 1];
        }
      }
    }
  }

  /** `Array.isArray(parsed) ? parsed.map(...) : []`. */
  function Normalize(parsed: Json): (r: Result<seq<NormalMaterial>, string>)
    ensures !parsed.JArr? ==> r == Ok([])
  {
    match parsed
    case JArr(es) => NormalizeAll(es)
    case _ => Ok([])
  }

  /** The fallback chains written out as the source's `??` chains: `item`
      is the first of `item`, `item_name`, `name` that is neither null nor
      undefined, else ""; `details` likewise over `details`, `length`,
      `size`; `total` and `price` pass through. */
  lemma NormalizeOneFields(m: Json)
    ensures var r := NormalizeOne(m);
      && r.item == (if !Nullish(Prop(m, "item")) then Prop(m, "item").value
                    else if !Nullish(Prop(m, "item_name")) then Prop(m, "item_name").value
                    else if !Nullish(Prop(m, "name")) then Prop(m, "name").value
                    else JStr(""))
      && r.details == (if !Nullish(Prop(m, "details")) then Prop(m, "details").value
                       else if !Nullish(Prop(m, "length")) then Prop(m, "length").value
                       else if !Nullish(Prop(m, "size")) then Prop(m, "size").value
                       else JStr(""))
      && r.total == Prop(m, "total") && r.price == Prop(m, "price")
  {
    CoalesceThree(m, "item", "item_name", "name");
    CoalesceThree(m, "details", "length", "size");
  }

  lemma CoalesceThree(m: Json, a: string, b: string, c: string)
    ensures Coalesce(m, [a, b, c], JStr("")) ==
      (if !Nullish(Prop(m, a)) then Prop(m, a).value
       else if !Nullish(Prop(m, b)) then Prop(m, b).value
       else if !Nullish(Prop(m, c)) then Prop(m, c).value
       else JStr(""))
  {
    var names := [a, b, c];
    var cands := seq(|names|, i requires 0 <= i < |names| => NonNull(Prop(m, names[i])));
    assert cands == [NonNull(Prop(m, a)), NonNull(Prop(m, b)), NonNull(Prop(m, c))];
    assert cands[1..] == [NonNull(Prop(m, b)), NonNull(Prop(m, c))];
    assert cands[1..][1..] == [NonNull(Prop(m, c))];
    assert FirstSome(cands[1..][1..][1..]) == None;
    assert FirstSome(cands[1..][1..]) == cands[2];
    assert FirstSome(cands[1..]) == if cands[1].Some? then cands[1] else cands[2];
    assert FirstSome(cands) == if cands[0].Some? then cands[0] else if cands[1].Some? then cands[1] else cands[2];
    assert Coalesce(m, names, JStr("")) == FirstSome(cands).GetOr(JStr(""));
  }

  /** The raw element {"item_name":"2x4 stud","quantity":"12 pcs","size":"8ft"}
      becomes {item: "2x4 stud", quantity: 12, details: "8ft"}. */
  lemma StudExample()
    ensures NormalizeOne(JObj(map["item_name" := JStr("2x4 stud"), "quantity" := JStr("12 pcs"), "size" := JStr("8ft")]))
      == NormalMaterial(JStr("2x4 stud"), 12.0, JStr("8ft"), None, None)
  {
    StudFields();
    StudNormalized(JObj(map["item_name" := JStr("2x4 stud"), "quantity" := JStr("12 pcs"), "size" := JStr("8ft")]));
  }

  lemma StudFields()
    ensures var m := JObj(map["item_name" := JStr("2x4 stud"), "quantity" := JStr("12 pcs"), "size" := JStr("8ft")]);
      && Prop(m, "item") == None && Prop(m, "item_name") == Some(JStr("2x4 stud")) && Prop(m, "name") == None
      && Prop(m, "details") == None && Prop(m, "length") == None && Prop(m, "size") == Some(JStr("8ft"))
      && Prop(m, "quantity") == Some(JStr("12 pcs")) && Prop(m, "total") == None && Prop(m, "price") == None
  {
    var f := map["item_name" := JStr("2x4 stud"), "quantity" := JStr("12 pcs"), "size" := JStr("8ft")];
    assert f.Keys == {"item_name", "quantity", "size"};
  }

  lemma StudNormalized(m: Json)
    requires Prop(m, "item") == None && Prop(m, "item_name") == Some(JStr("2x4 stud")) && Prop(m, "name") == None
    requires Prop(m, "details") == None && Prop(m, "length") == None && Prop(m, "size") == Some(JStr("8ft"))
    requires Prop(m, "quantity") == Some(JStr("12 pcs")) && Prop(m, "total") == None && Prop(m, "price") == None
    ensures NormalizeOne(m) == NormalMaterial(JStr("2x4 stud"), 12.0, JStr("8ft"), None, None)
  {
    StudItem(m);
    StudDetails(m);
    StudQuantity(m);
  }

  lemma StudItem(m: Json)
    requires Prop(m, "item") == None && Prop(m, "item_name") == Some(JStr("2x4 stud")) && Prop(m, "name") == None
    ensures Coalesce(m, ["item", "item_name", "name"], JStr("")) == JStr("2x4 stud")
  {
    CoalesceThree(m, "item", "item_name", "name");
  }

  lemma StudDetails(m: Json)
    requires Prop(m, "details") == None && Prop(m, "length") == None && Prop(m, "size") == Some(JStr("8ft"))
    ensures Coalesce(m, ["details", "length", "size"], JStr("")) == JStr("8ft")
  {
    CoalesceThree(m, "details", "length", "size");
  }

  lemma StudQuantity(m: Json)
    requires Prop(m, "quantity") == Some(JStr("12 pcs"))
    ensures Quantity(Prop(m, "quantity")) == 12.0
  {
    TwelvePieces();
  }

  lemma {:induction false} KeepNumericAppend(a: string, b: string)
    ensures KeepNumeric(a + b) == KeepNumeric(a) + KeepNumeric(b)
  {
    if a == [] {
      assert a + b == b;
    } else {
      assert (a + b)[0] == a[0] && (a + b)[1..] == a[1..] + b;
      KeepNumericAppend(a[1..], b);
    }
  }

  lemma {:induction false} KeepNumericNone(s: string)
    requires forall i :: 0 <= i < |s| ==> !IsNumeric(s[i])
    ensures KeepNumeric(s) == ""
  {
    if s != [] {
      KeepNumericNone(s[1..]);
    }
  }

  /** A numeral followed by a unit without digits or dots ("12 pcs")
      normalises to the numeral's value. */
  lemma QuantityWithUnit(d: string, unit: string)
    requires d != [] && forall i :: 0 <= i < |d| ==> IsDigit(d[i])
    requires forall i :: 0 <= i < |unit| ==> !IsNumeric(unit[i])
    ensures QuantityFromText(d + unit) == DigitsValue(d) as real
  {
    KeepNumericAppend(d, unit);
    KeepNumericNone(unit);
    KeepNumericIdentity(d);
    assert KeepNumeric(d + unit) == d;
    QuantityOfDigits(d);
  }

  lemma TwelvePieces()
    ensures QuantityFromText("12 pcs") == 12.0
  {
    QuantityWithUnit("12", " pcs");
    assert "12" + " pcs" == "12 pcs";
    assert DigitsValue("12") == 12 by {
      assert "12"[..1] == "1";
      assert "1"[..0] == "";
    }
  }

  /** {"item":"nails","quantity":"abc"}: the quantity falls back to 1. */
  lemma NailsExample()
    ensures NormalizeOne(JObj(map["item" := JStr("nails"), "quantity" := JStr("abc")])).quantity == 1.0
  {
    var f := map["item" := JStr("nails"), "quantity" := JStr("abc")];
    assert "quantity" in f && f["quantity"] == JStr("abc");
    QuantityTextWithoutDigits(JObj(f), "abc");
  }

  lemma QuantityTextWithoutDigits(m: Json, q: string)
    requires Prop(m, "quantity") == Some(JStr(q))
    requires forall i :: 0 <= i < |q| ==> !IsDigit(q[i])
    ensures NormalizeOne(m).quantity == 1.0
  {
    QuantityWithoutDigits(q);
  }
}
