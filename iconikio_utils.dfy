/**
 * `removeNullJSON` of pkg/iconikio/utils.go: strips the nil-valued keys out
 * of a decoded JSON object before it is sent. Nested objects are cleaned
 * recursively; inside an array only the elements that are objects are
 * cleaned, so nil elements and nested arrays stay as they are.
 *
 * Go maps and slices are references and the function cleans its argument in
 * place and returns it; here the map is a value, and what the method returns
 * is what the caller's map has become.
 */
module IconikioUtils {
  import opened Json

  /** The object once cleaned: nil-valued keys gone, every other value cleaned. */
  function CleanMap(m: map<string, Json>): map<string, Json>
    decreases JObject(m), 0
  {
    map k | k in m && !IsNil(m[k]) :: CleanField(m[k])
  }

  /** A non-nil value of an object once cleaned. */
  function CleanField(v: Json): Json
    decreases v, 1
  {
    match v
    case JObject(f) => JObject(CleanMap(f))
    case JArray(items) => JArray(CleanItems(items))
    case _ => v
  }

  /** An array once cleaned: its object elements are cleaned, the rest kept. */
  function CleanItems(items: seq<Json>): seq<Json>
    decreases JArray(items), 0
  {
    seq(|items|, i requires 0 <= i < |items| =>
      if items[i].JObject? then JObject(CleanMap(items[i].fields)) else items[i])
  }

  /**
   * No nil value is left that the cleaning reaches: none among the keys of
   * an object, of the objects nested in it, or of the objects held directly
   * by its arrays.
   */
  predicate NullFree(m: map<string, Json>)
    decreases JObject(m), 0
  {
    forall k :: k in m ==> !IsNil(m[k]) && FieldNullFree(m[k])
  }

  predicate FieldNullFree(v: Json)
    decreases v, 1
  {
    match v
    case JObject(f) => NullFree(f)
    case JArray(items) => forall i :: 0 <= i < |items| && items[i].JObject? ==> NullFree(items[i].fields)
    case _ => true
  }

  /** `removeNullJSON(m)`: the key loop, deleting nil values and cleaning nested objects and arrays. */
  method RemoveNullJson(m: map<string, Json>) returns (r: map<string, Json>)
    decreases JObject(m), 0
    ensures r == CleanMap(m)
  {
    r := m;
    var keys := m.Keys;
    while keys != {}
      invariant keys <= m.Keys && r.Keys <= m.Keys
      invariant forall k :: k in keys ==> k in r && r[k] == m[k]
      invariant forall k :: k in m && k !in keys ==> (k in r <==> !IsNil(m[k]))
      invariant forall k :: k in r && k !in keys ==> r[k] == CleanField(m[k])
      decreases keys
    {
      var k :| k in keys;
      var v := r[k];
      if IsNil(v) {
        r := r - {k};
      } else {
        match v {
          case JObject(f) =>
            var cleaned := RemoveNullJson(f);
            r := r[k := JObject(cleaned)];
          case JArray(items) =>
            var cleaned := CleanArray(items);
            r := r[k := JArray(cleaned)];
          case _ =>
        }
      }
      keys := keys - {k};
    }
    assert r == CleanMap(m);
  }

  /** The index loop over an array value: each element that is an object is cleaned in place. */
  method CleanArray(items: seq<Json>) returns (r: seq<Json>)
    decreases JArray(items), 1
    ensures r == CleanItems(items)
  {
    r := items;
    var i := 0;
    while i < |r|
      invariant i <= |r| == |items|
      invariant forall j :: 0 <= j < i ==> r[j] == CleanItems(items)[j]
      invariant forall j :: i <= j < |r| ==> r[j] == items[j]
    {
      if r[i].JObject? {
        var cleaned := RemoveNullJson(r[i].fields);
        r := r[i := JObject(cleaned)];
      }
      i := i + 1;
    }
  }

  /** Exactly the keys with non-nil values are kept, and nested objects are replaced by their cleaned versions. */
  lemma CleanKeys(m: map<string, Json>, k: string)
    ensures k in CleanMap(m) <==> k in m && !IsNil(m[k])
    ensures k in m && m[k].JObject? ==> CleanMap(m)[k] == JObject(CleanMap(m[k].fields))
  {
  }

  /**
   * An array value keeps its length and order: its object elements are
   * cleaned, and nil elements, nested arrays and scalars stay as they are.
   */
  lemma CleanArrays(m: map<string, Json>, k: string)
    requires k in m && m[k].JArray?
    ensures CleanMap(m)[k].JArray? && |CleanMap(m)[k].items| == |m[k].items|
    ensures forall i :: 0 <= i < |m[k].items| ==>
      CleanMap(m)[k].items[i] == if m[k].items[i].JObject? then JObject(CleanMap(m[k].items[i].fields)) else m[k].items[i]
  {
    assert CleanMap(m)[k] == JArray(CleanItems(m[k].items));
  }

  /** After the cleaning no nil value is left that the cleaning reaches. */
  lemma {:induction false} CleanedIsNullFree(m: map<string, Json>)
    decreases JObject(m), 0
    ensures NullFree(CleanMap(m))
  {
    var c := CleanMap(m);
    forall k | k in c
      ensures !IsNil(c[k]) && FieldNullFree(c[k])
    {
      CleanedFieldIsNullFree(m[k]);
    }
  }

  lemma {:induction false} CleanedFieldIsNullFree(v: Json)
    decreases v, 1
    requires !IsNil(v)
    ensures !IsNil(CleanField(v)) && FieldNullFree(CleanField(v))
  {
    match v
    case JObject(f) =>
      CleanedIsNullFree(f);
    case JArray(items) =>
      var c := CleanItems(items);
      forall i | 0 <= i < |c| && c[i].JObject?
        ensures NullFree(c[i].fields)
      {
        if items[i].JObject? {
          CleanedIsNullFree(items[i].fields);
        }
      }
    case _ =>
  }

  /** An object with no nil value left is not changed by the cleaning. */
  lemma {:induction false} NullFreeUnchanged(m: map<string, Json>)
    decreases JObject(m), 0
    requires NullFree(m)
    ensures CleanMap(m) == m
  {
    forall k | k in m
      ensures CleanField(m[k]) == m[k]
    {
      FieldUnchanged(m[k]);
    }
  }

  lemma {:induction false} FieldUnchanged(v: Json)
    decreases v, 1
    requires FieldNullFree(v)
    ensures CleanField(v) == v
  {
    match v
    case JObject(f) =>
      NullFreeUnchanged(f);
    case JArray(items) =>
      forall i | 0 <= i < |items| && items[i].JObject?
        ensures JObject(CleanMap(items[i].fields)) == items[i]
      {
        NullFreeUnchanged(items[i].fields);
      }
      assert CleanItems(items) == items;
    case _ =>
  }

  /** A second call changes nothing. */
  lemma Idempotent(m: map<string, Json>)
    ensures CleanMap(CleanMap(m)) == CleanMap(m)
  {
    CleanedIsNullFree(m);
    NullFreeUnchanged(CleanMap(m));
  }
}
