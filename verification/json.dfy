/** The JSON values that end up in token headers and JSON Web Keys, and the
    insertion-ordered string-keyed dictionary (`Dictionary<string, object?>`)
    that holds them. */
module Json {
  import opened Wrappers
  import Seqs

  datatype Json =
    | JNull
    | JString(str: string)
    | JArray(items: seq<Json>)
    | JObject(members: seq<(string, Json)>)

  /** A list of strings as a JSON array. */
  function StringArray(items: seq<string>): (j: Json)
    ensures j.JArray? && |j.items| == |items|
    ensures forall i :: 0 <= i < |items| ==> j.items[i] == JString(items[i])
  {
    JArray(seq(|items|, i requires 0 <= i < |items| => JString(items[i])))
  }

  type Dictionary = seq<(string, Json)>

  /** The keys of a dictionary, in insertion order. */
  function Names(d: Dictionary): (names: seq<string>)
    ensures |names| == |d|
    ensures forall i :: 0 <= i < |d| ==> names[i] == d[i].0
  {
    seq(|d|, i requires 0 <= i < |d| => d[i].0)
  }

  /** A dictionary never holds a key twice. */
  ghost predicate Valid(d: Dictionary) {
    Seqs.NoDuplicates(Names(d))
  }

  /** The names of a concatenation are the names of its parts. */
  lemma NamesConcat(front: Dictionary, back: Dictionary)
    ensures Names(front + back) == Names(front) + Names(back)
  {
  }

  /** Two dictionaries that share a name do not concatenate to a valid one. */
  lemma SharedNameInvalid(front: Dictionary, back: Dictionary, x: (string, Json), y: (string, Json))
    requires x in front && y in back && x.0 == y.0
    ensures !Valid(front + back)
  {
    var a :| 0 <= a < |front| && front[a] == x;
    var b :| 0 <= b < |back| && back[b] == y;
    assert Names(front + back)[a] == Names(front + back)[|front| + b];
  }

  /** `Dictionary.Add`: throws `ArgumentException` when the key is already
      present. */
  function Add(d: Dictionary, name: string, value: Json): (r: Result<Dictionary>)
    ensures r.Success? <==> name !in Names(d)
    ensures r.Failure? ==> r.error == Argument
    ensures r.Success? ==> Names(r.value) == Names(d) + [name]
    ensures r.Success? ==> (name, value) in r.value && forall e :: e in d ==> e in r.value
    ensures r.Success? && Valid(d) ==> Valid(r.value)
  {
    if name in Names(d) then Failure(Argument)
    else
      var d' := d + [(name, value)];
      assert Names(d') == Names(d) + [name];
      Success(d')
  }

  /** `Add` applied to every entry of `entries` in turn: it succeeds exactly
      when no key repeats, and then the entries follow `d` in order. */
  function AddAll(d: Dictionary, entries: Dictionary): (r: Result<Dictionary>)
    requires Valid(d)
    ensures r.Success? <==> Valid(d + entries)
    ensures r.Success? ==> r.value == d + entries
    decreases |entries|
  {
    if entries == [] then
      assert d + entries == d;
      Success(d)
    else
      var e := entries[0];
      assert d + entries == (d + [e]) + entries[1..];
      match Add(d, e.0, e.1)
      case Failure(err) =>
        assert e.0 in Names(d);
        var i :| 0 <= i < |d| && d[i].0 == e.0;
        assert Names(d + entries)[i] == Names(d + entries)[|d|];
        Failure(err)
      case Success(d') =>
        assert d' == d + [e];
        AddAll(d', entries[1..])
  }
}
