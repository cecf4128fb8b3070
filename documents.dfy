/**
 * Decoded page bodies and the field probe that finds a page's item list.
 */
module Documents {
  import opened Wrappers

  /** One search result item, carried through unchanged. */
  datatype Item = Item(raw: string)

  /**
   * A decoded JSON body: a dictionary whose probed fields hold item lists, or
   * any other JSON value (a list, a string, a number, null).
   */
  datatype Body = Dict(fields: map<string, seq<Item>>) | NonDict(raw: string)

  /** The `{}` a page yields once its retries are used up. */
  const EmptyDocument: Body := Dict(map[])

  /** The candidate item-list fields, in the order they are tried. */
  const ProbeKeys: seq<string> := ["searchProductDetails", "searchResults", "products", "items"]

  /** `result.get(k)`. */
  function Get(m: map<string, seq<Item>>, k: string): (r: Option<seq<Item>>)
    ensures r.Some? <==> k in m
  {
    if k in m then Some(m[k]) else None
  }

  /** Python truthiness of an optional list: None and the empty list are false. */
  predicate Truthy(v: Option<seq<Item>>)
  {
    v.Some? && v.value != []
  }

  /** Python's `a or b`: `a` when it is truthy, otherwise `b`. */
  function Or(a: Option<seq<Item>>, b: Option<seq<Item>>): Option<seq<Item>>
  {
    if Truthy(a) then a else b
  }

  /**
   * The expression `result.get('searchProductDetails') or result.get('searchResults')
   * or result.get('products') or result.get('items') or []`.
   */
  function Probe(m: map<string, seq<Item>>): (r: seq<Item>)
    ensures r == FirstTruthy(m, ProbeKeys)
  {
    var v := Or(Or(Or(Or(Get(m, ProbeKeys[0]), Get(m, ProbeKeys[1])), Get(m, ProbeKeys[2])), Get(m, ProbeKeys[3])), Some([]));
    if v.Some? then v.value else []
  }

  /** Reference definition: the value of the first key, in order, whose value is a non-empty list. */
  function FirstTruthy(m: map<string, seq<Item>>, keys: seq<string>): (r: seq<Item>)
    ensures r == [] <==> forall i :: 0 <= i < |keys| ==> !Truthy(Get(m, keys[i]))
    ensures forall i :: 0 <= i < |keys| && Truthy(Get(m, keys[i])) && (forall j :: 0 <= j < i ==> !Truthy(Get(m, keys[j])))
              ==> r == m[keys[i]]
  {
    if keys == [] then []
    else if Truthy(Get(m, keys[0])) then m[keys[0]]
    else
      var rest := FirstTruthy(m, keys[1..]);
      assert forall i :: 1 <= i < |keys| ==> keys[i] == keys[1..][i - 1];
      rest
  }

  /**
   * The probe returns the list under the first key, in priority order, whose
   * list is non-empty, and [] exactly when all four are absent or empty.
   */
  lemma ProbeSpec(m: map<string, seq<Item>>)
    ensures Probe(m) == [] <==> forall i :: 0 <= i < 4 ==> !Truthy(Get(m, ProbeKeys[i]))
    ensures forall i :: 0 <= i < 4 && Truthy(Get(m, ProbeKeys[i])) && (forall j :: 0 <= j < i ==> !Truthy(Get(m, ProbeKeys[j])))
              ==> Probe(m) == m[ProbeKeys[i]]
  {
  }

  /** An empty list under an earlier key does not stop the probe: the first non-empty list wins. */
  lemma ProbeSkipsEmptyList(xs: seq<Item>)
    requires xs != []
    ensures Probe(map["searchProductDetails" := [], "products" := xs]) == xs
  {
    var m := map["searchProductDetails" := [], "products" := xs];
    ProbeSpec(m);
    assert Truthy(Get(m, ProbeKeys[2]));
    assert !Truthy(Get(m, ProbeKeys[1]));
  }

  /** What one page result adds to the merged list: the probed list of a dictionary, nothing otherwise. */
  function Contribution(b: Body): (r: seq<Item>)
    ensures b.NonDict? ==> r == []
    ensures b.Dict? ==> r == FirstTruthy(b.fields, ProbeKeys)
  {
    match b
    case Dict(m) => Probe(m)
    case NonDict(_) => []
  }

  /** A page that yielded the empty document contributes nothing. */
  lemma EmptyDocumentContributesNothing()
    ensures Contribution(EmptyDocument) == []
  {
    ProbeSpec(map[]);
  }
}
