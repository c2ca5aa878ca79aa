/** The subtotal an order's lines add up to, as `create_order` recomputes it:
    each line contributes `qty * unit_price`, with `qty` defaulting to 1 and
    `unit_price` to 0, and Python's arithmetic refusing non-numbers. */
module Pricing {
  import opened Wrappers
  import opened Documents
  import opened Schemas

  /** A value as Python's `*` and `+` take it: bools, ints and floats are numbers;
      anything else (text, null, lists, dicts) makes the sum raise. */
  function AsNumber(v: Value): Option<real> {
    match v
    case Bool(b) => Some(if b then 1.0 else 0.0)
    case Int(i) => Some(i as real)
    case Real(x) => Some(x)
    case _ => None
  }

  /** `dict.get(key, default)`. */
  function Get(item: LineItem, key: string, default: Value): Value {
    if key in item then item[key] else default
  }

  const DefaultQty: Value := Int(1)
  const DefaultUnitPrice: Value := Real(0.0)

  /** What one line adds to the subtotal, or None when Python would raise. */
  function LineAmount(item: LineItem): (r: Option<real>)
    ensures "qty" !in item && "unit_price" !in item ==> r == Some(0.0)
    ensures "qty" !in item && "unit_price" in item ==> r == AsNumber(item["unit_price"])
    ensures "qty" in item && "unit_price" !in item ==>
      r == if AsNumber(item["qty"]).Some? then Some(0.0) else None
    ensures "qty" in item && "unit_price" in item ==>
      (r.Some? <==> AsNumber(item["qty"]).Some? && AsNumber(item["unit_price"]).Some?)
    ensures r.Some? && "qty" in item && "unit_price" in item ==>
      r.value == AsNumber(item["qty"]).value * AsNumber(item["unit_price"]).value
  {
    match (AsNumber(Get(item, "qty", DefaultQty)), AsNumber(Get(item, "unit_price", DefaultUnitPrice)))
    case (Some(q), Some(p)) => Some(q * p)
    case _ => None
  }

  /** The sum of the line amounts, added left to right; None when any line is not numeric. */
  function Subtotal(items: seq<LineItem>): (r: Option<real>)
    ensures r.Some? <==> forall i :: 0 <= i < |items| ==> LineAmount(items[i]).Some?
    ensures |items| == 0 ==> r == Some(0.0)
    decreases |items|
  {
    if |items| == 0 then Some(0.0)
    else
      var last := |items| - 1;
      match (Subtotal(items[..last]), LineAmount(items[last]))
      case (Some(t), Some(a)) => Some(t + a)
      case _ => None
  }

  /** Lines can be split into two groups and summed separately. */
  lemma {:induction false} SubtotalOfConcatenation(a: seq<LineItem>, b: seq<LineItem>)
    requires Subtotal(a).Some? && Subtotal(b).Some?
    ensures Subtotal(a + b) == Some(Subtotal(a).value + Subtotal(b).value)
    decreases |b|
  {
    if |b| == 0 {
      assert a + b == a;
    } else {
      var last := |b| - 1;
      assert (a + b)[..|a + b| - 1] == a + b[..last];
      assert (a + b)[|a + b| - 1] == b[last];
      SubtotalOfConcatenation(a, b[..last]);
    }
  }

  /** A single line's subtotal is its own amount. */
  lemma SubtotalOfSingleLine(x: LineItem)
    ensures Subtotal([x]) == LineAmount(x)
  {
    assert [x][..0] == [];
  }

  /** The generator sum of `create_order`: lines are multiplied and added in order,
      and the first line that cannot be multiplied stops the computation. */
  method SumLineAmounts(items: seq<LineItem>) returns (ok: bool, total: real)
    ensures ok <==> Subtotal(items).Some?
    ensures ok ==> Subtotal(items) == Some(total)
  {
    total := 0.0;
    var i := 0;
    while i < |items|
      invariant 0 <= i <= |items|
      invariant Subtotal(items[..i]) == Some(total)
    {
      var amount := LineAmount(items[i]);
      if amount.None? {
        return false, total;
      }
      assert items[..i + 1][..i] == items[..i];
      total := total + amount.value;
      i := i + 1;
    }
    assert items[..i] == items;
    return true, total;
  }
}
