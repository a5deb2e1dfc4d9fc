/** `like`: from the query object and a list of field names, the filter that matches each named
    field present in the query against its value as a case-insensitive regular expression. */
module Like {
  import opened Results

  /** `{ $regex: pattern, $options: flags }` */
  datatype RegexFilter = RegexFilter(regex: string, options: string)

  /** One step of the `reduce`: a key the object owns is written into the accumulator. */
  function Put(obj: Option<map<string, string>>, acc: map<string, RegexFilter>, key: string): map<string, RegexFilter> {
    if obj.Some? && key in obj.value then acc[key := RegexFilter(obj.value[key], "i")] else acc
  }

  /** `keys.reduce(step, acc)`, left to right. */
  function Fold(obj: Option<map<string, string>>, keys: seq<string>, acc: map<string, RegexFilter>): map<string, RegexFilter>
    decreases |keys|
  {
    if keys == [] then acc else Fold(obj, keys[1..], Put(obj, acc, keys[0]))
  }

  /** Folding the keys over an accumulator keeps its entries and writes, over them, every
      listed key the object owns. */
  lemma {:induction false} FoldWrites(obj: Option<map<string, string>>, keys: seq<string>, acc: map<string, RegexFilter>)
    ensures var r := Fold(obj, keys, acc);
      && r.Keys == acc.Keys + (if obj.None? then {} else set k | k in keys && k in obj.value)
      && forall k :: k in r ==> r[k] == if obj.Some? && k in keys && k in obj.value then RegexFilter(obj.value[k], "i") else acc[k]
    decreases |keys|
  {
    if keys != [] {
      var rest := keys[1..];
      FoldWrites(obj, rest, Put(obj, acc, keys[0]));
      assert forall k :: k in keys <==> k == keys[0] || k in rest;
    }
  }

  /** `like(object, keys)` (`obj` here): the keys of the result are exactly the listed keys the object owns,
      each mapped to `{ $regex: value, $options: 'i' }` with the value unescaped; a missing object
      gives the empty filter. */
  function Like(obj: Option<map<string, string>>, keys: seq<string>): (r: map<string, RegexFilter>)
    ensures r.Keys == if obj.None? then {} else set k | k in keys && k in obj.value
    ensures forall k :: k in r ==> obj.Some? && k in obj.value && r[k] == RegexFilter(obj.value[k], "i")
    ensures obj.None? ==> r == map[]
  {
    FoldWrites(obj, keys, map[]);
    Fold(obj, keys, map[])
  }

  /** The order of the key list and repeated keys in it do not change the result. */
  lemma LikeDependsOnlyOnKeySet(obj: Option<map<string, string>>, keys1: seq<string>, keys2: seq<string>)
    requires forall k :: k in keys1 <==> k in keys2
    ensures Like(obj, keys1) == Like(obj, keys2)
  {
  }
}
