/**
 * JSON-shaped documents, as the simulator's configuration file holds them.
 * An object keeps its members in insertion order, which is the order in
 * which they are written out.
 */
module Documents {
  import opened Common

  datatype Json =
    | JInt(n: int)
    | JFloat(f: Float)
    | JString(s: string)
    | JArray(items: seq<Json>)
    | JObject(members: seq<(string, Json)>)

  /** The keys of an object's members, in order. */
  function Keys(members: seq<(string, Json)>): seq<string>
  {
    seq(|members|, i requires 0 <= i < |members| => members[i].0)
  }

  /** The value at position `i` of an object, provided its key there is `key`. */
  function At(members: seq<(string, Json)>, i: nat, key: string): Option<Json>
  {
    if i < |members| && members[i].0 == key then Some(members[i].1) else None
  }

  function AsInt(j: Option<Json>): Option<int>
  {
    if j.Some? && j.value.JInt? then Some(j.value.n) else None
  }

  function AsFloat(j: Option<Json>): Option<Float>
  {
    if j.Some? && j.value.JFloat? then Some(j.value.f) else None
  }

  function AsString(j: Option<Json>): Option<string>
  {
    if j.Some? && j.value.JString? then Some(j.value.s) else None
  }

  function AsArray(j: Option<Json>): Option<seq<Json>>
  {
    if j.Some? && j.value.JArray? then Some(j.value.items) else None
  }

  /** One output per input, in the same order: a loop that appends. */
  function MapSeq<A, B>(s: seq<A>, f: A -> B): (r: seq<B>)
    ensures |r| == |s|
    ensures forall i :: 0 <= i < |s| ==> r[i] == f(s[i])
  {
    if s == [] then [] else [f(s[0])] + MapSeq(s[1..], f)
  }

  /** Decodes every item with `decode`, failing if any item fails. */
  function DecodeEach<A>(items: seq<Json>, decode: Json -> Option<A>): (r: Option<seq<A>>)
  {
    if items == [] then Some([])
    else
      var head :- decode(items[0]);
      var tail :- DecodeEach(items[1..], decode);
      Some([head] + tail)
  }

  /** A list of encoded items decodes back to the list when each item does. */
  lemma {:induction false} DecodeEachMapSeq<A>(s: seq<A>, encode: A -> Json, decode: Json -> Option<A>)
    requires forall i :: 0 <= i < |s| ==> decode(encode(s[i])) == Some(s[i])
    ensures DecodeEach(MapSeq(s, encode), decode) == Some(s)
  {
    if s != [] {
      var items := MapSeq(s, encode);
      assert items[1..] == MapSeq(s[1..], encode);
      DecodeEachMapSeq(s[1..], encode, decode);
      assert [s[0]] + s[1..] == s;
    }
  }
}
