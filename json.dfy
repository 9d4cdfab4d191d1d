/** An abstract JSON value and the decoding errors of the interchange schema.
    Only the shape of JSON matters here, not its text: objects are maps from
    keys to values, so key order and duplicate keys are not represented. */
module Json {

  datatype Value =
    | Null
    | Bool(b: bool)
    | Str(s: string)
    | Arr(items: seq<Value>)
    | Obj(fields: map<string, Value>)

  /** The typed failures of decoding. */
  datatype Error =
    | UnknownKeyword(word: string)        // a keyword string outside the closed catalog
    | UnexpectedNodeType(tag: string)     // a discriminant no node kind owns
    | MissingRequiredField(key: string)   // a key the node kind needs is absent
    | InvalidFieldType(key: string)       // a key is present but holds the wrong JSON shape
    | NotAnObject                         // a node was expected, something else was found

  datatype Option<+T> = None | Some(value: T)

  datatype Result<+T> = Ok(value: T) | Err(error: Error) {
    predicate IsFailure() { Err? }
    function PropagateFailure<U>(): Result<U>
      requires Err?
    {
      Err(error)
    }
    function Extract(): T
      requires Ok?
    {
      value
    }
  }

  /** The serialisation of a type defined outside the node model (spans,
      identifiers, expressions, module items): its encoder and decoder. */
  datatype Codec<!T> = Codec(enc: T -> Value, dec: Value -> Result<T>)

  /** A codec whose decoder undoes its encoder. */
  ghost predicate Lawful<T(!new)>(c: Codec<T>) {
    forall x :: c.dec(c.enc(x)) == Ok(x)
  }

  /** The value stored under `key`, if `v` is an object holding it. */
  function Lookup(v: Value, key: string): (r: Result<Value>)
    ensures r.Ok? <==> v.Obj? && key in v.fields
    ensures r.Ok? ==> r.value == v.fields[key] && r.value < v
    ensures !v.Obj? ==> r == Err(NotAnObject)
    ensures v.Obj? && key !in v.fields ==> r == Err(MissingRequiredField(key))
  {
    if !v.Obj? then Err(NotAnObject)
    else if key !in v.fields then Err(MissingRequiredField(key))
    else Ok(v.fields[key])
  }

  /** The string stored under `key`. */
  function LookupStr(v: Value, key: string): (r: Result<string>)
    ensures r.Ok? <==> v.Obj? && key in v.fields && v.fields[key].Str?
    ensures r.Ok? ==> v.fields[key] == Str(r.value)
  {
    var f :- Lookup(v, key);
    if f.Str? then Ok(f.s) else Err(InvalidFieldType(key))
  }

  /** The boolean stored under `key`. */
  function LookupBool(v: Value, key: string): (r: Result<bool>)
    ensures r.Ok? <==> v.Obj? && key in v.fields && v.fields[key].Bool?
    ensures r.Ok? ==> v.fields[key] == Bool(r.value)
  {
    var f :- Lookup(v, key);
    if f.Bool? then Ok(f.b) else Err(InvalidFieldType(key))
  }

  /** The array stored under `key`. */
  function LookupArr(v: Value, key: string): (r: Result<seq<Value>>)
    ensures r.Ok? <==> v.Obj? && key in v.fields && v.fields[key].Arr?
    ensures r.Ok? ==> v.fields[key] == Arr(r.value) && Arr(r.value) < v
  {
    var f :- Lookup(v, key);
    if f.Arr? then Ok(f.items) else Err(InvalidFieldType(key))
  }

  /** Decodes the value under `key` with an external codec. */
  function LookupWith<T>(c: Codec<T>, v: Value, key: string): (r: Result<T>)
    ensures v.Obj? && key in v.fields ==> r == c.dec(v.fields[key])
    ensures !(v.Obj? && key in v.fields) ==> r.Err?
  {
    var f :- Lookup(v, key);
    c.dec(f)
  }

  /** Checks that `v` carries the discriminant `tag` under "type": a missing
      or non-string discriminant is malformed input, another string names a
      different node kind. */
  function ExpectTag(v: Value, tag: string): (r: Result<()>)
    ensures r.Ok? <==> v.Obj? && "type" in v.fields && v.fields["type"] == Str(tag)
    ensures v.Obj? && "type" in v.fields && v.fields["type"].Str? && v.fields["type"].s != tag
            ==> r == Err(UnexpectedNodeType(v.fields["type"].s))
  {
    var t :- LookupStr(v, "type");
    if t == tag then Ok(()) else Err(UnexpectedNodeType(t))
  }

  /** Encodes a sequence of external values as an array, in order. */
  function EncodeSeq<T>(c: Codec<T>, xs: seq<T>): (r: seq<Value>)
    ensures |r| == |xs|
    ensures forall i :: 0 <= i < |xs| ==> r[i] == c.enc(xs[i])
  {
    if xs == [] then [] else [c.enc(xs[0])] + EncodeSeq(c, xs[1..])
  }

  /** Decodes an array of external values, failing on the first element that
      fails. */
  function DecodeSeq<T>(c: Codec<T>, items: seq<Value>): (r: Result<seq<T>>)
    ensures r.Ok? ==> |r.value| == |items| && forall i :: 0 <= i < |items| ==> c.dec(items[i]) == Ok(r.value[i])
    ensures r.Err? <==> exists i :: 0 <= i < |items| && c.dec(items[i]).Err?
  {
    if items == [] then Ok([])
    else
      var x :- c.dec(items[0]);
      var rest :- DecodeSeq(c, items[1..]);
      assert forall i :: 1 <= i < |items| ==> items[i] == items[1..][i - 1];
      Ok([x] + rest)
  }

  lemma {:induction false} SeqRoundTrip<T(!new)>(c: Codec<T>, xs: seq<T>)
    requires Lawful(c)
    ensures DecodeSeq(c, EncodeSeq(c, xs)) == Ok(xs)
  {
    if xs != [] {
      var e := EncodeSeq(c, xs);
      SeqRoundTrip(c, xs[1..]);
      assert e[1..] == EncodeSeq(c, xs[1..]);
      assert c.dec(e[0]) == Ok(xs[0]);
      assert [xs[0]] + xs[1..] == xs;
    }
  }
}
