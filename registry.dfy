/** The chart components and their fault isolation: the registration scan of `process_options`
    (ico.js:183-196), the option normalisation of `Ico.Component.initialize` (ico.js:676-688) and
    `components_call` (ico.js:312-332). A component is abstract: which of `calculate`, `draw` and
    `clear` its class defines, and, as an input, which calls throw. */
module Registry {
  import opened Wrappers

  /** An option value as JavaScript holds it. */
  datatype JsValue =
    | Undefined
    | Null
    | Bool(b: bool)
    | Number(n: real)
    | Str(s: string)
    | Array(items: seq<JsValue>)
    | Object(fields: map<string, JsValue>)

  /** JavaScript truthiness (NaN is not modelled). */
  predicate Truthy(v: JsValue)
  {
    match v
    case Undefined => false
    case Null => false
    case Bool(b) => b
    case Number(n) => n != 0.0
    case Str(s) => s != ""
    case Array(_) => true
    case Object(_) => true
  }

  /** `options[key]`, `undefined` when absent. */
  function Lookup(options: map<string, JsValue>, key: string): JsValue
  {
    if key in options then options[key] else Undefined
  }

  /** `Ico.Component.components`, in the order of its `set` calls (ico.js:698-1089): each key
      with the layer its component is drawn in. */
  function Registered(): (r: seq<(string, nat)>)
    ensures |r| == 10 && forall i :: 0 <= i < |r| ==> r[i].1 < Layers
  {
    [
    ("template", 0), ("background", 0), ("status_bar", 2), ("mouse_pointer", 2),
    ("graph_background", 1), ("labels", 3), ("value_labels", 4), ("meanline", 3),
    ("focus_hint", 5), ("axis", 4)]
  }

  /** Layers 0 to 5; a layer nobody registers into is an empty bucket. */
  const Layers: nat := 6

  /** The keys of the first n registrations. */
  function KeysOf(n: nat): set<string>
    requires n <= |Registered()|
  {
    set i | 0 <= i < n :: Registered()[i].0
  }

  /** The methods `components_call` is asked to run. */
  datatype Method = Calculate | Draw | Clear

  /** Whether the class registered under a key defines a method: every class defines `draw`;
      `Template`, `Labels` and `ValueLabels` (which inherits from `Labels`) also define
      `calculate` and `clear`, and `Meanline` defines `calculate`. */
  predicate Defines(key: string, f: Method)
  {
    match f
    case Draw => key in KeysOf(|Registered()|)
    case Calculate => key in {"template", "labels", "value_labels", "meanline"}
    case Clear => key in {"template", "labels", "value_labels"}
  }

  // ---------------------------------------------------------------------------------------
  // Component.initialize

  /** ico.js:683-684 as written: `Object.isNumber( options || Object.isString( options ) )`
      tests the option itself when it is truthy, and a boolean otherwise, so only a non-zero
      number is wrapped as `{ value: options }`. */
  function NormalizeAsWritten(options: JsValue): JsValue
  {
    if options.Array? then Object(map["values" := options])
    else
      var probe := if Truthy(options) then options else Bool(options.Str?);
      if probe.Number? then Object(map["value" := options]) else options
  }

  /** The evidently intended normalisation: an array becomes `{ values: options }`, a number or a
      string `{ value: options }`; anything else is kept. */
  function Normalize(options: JsValue): JsValue
  {
    if options.Array? then Object(map["values" := options])
    else if options.Number? || options.Str? then Object(map["value" := options])
    else options
  }

  /** `Object.extend( this.defaults(), options )`: the properties of an object option override
      the defaults; a value that is not an object contributes none. */
  function ComponentOptions(defaults: map<string, JsValue>, options: JsValue): map<string, JsValue>
  {
    if options.Object? then defaults + options.fields else defaults
  }

  /** The options a component ends with: arrays become `values`, numbers and strings `value`,
      the properties of an object override the defaults, and `true` keeps the defaults. */
  lemma InitializeOptions(defaults: map<string, JsValue>, options: JsValue)
    ensures options.Array? ==> ComponentOptions(defaults, Normalize(options)) == defaults["values" := options]
    ensures options.Number? || options.Str? ==>
      ComponentOptions(defaults, Normalize(options)) == defaults["value" := options]
    ensures options.Object? ==> ComponentOptions(defaults, Normalize(options)) == defaults + options.fields
    ensures options.Bool? ==> ComponentOptions(defaults, Normalize(options)) == defaults
  {
    if options.Array? {
      assert defaults + map["values" := options] == defaults["values" := options];
    } else if options.Number? || options.Str? {
      assert defaults + map["value" := options] == defaults["value" := options];
    }
  }

  /** On the options a registered component can receive (truthy ones) the code as written agrees
      with the intended normalisation except on strings, which it passes through unwrapped: a
      component given `'text'` never sees a `value` option. */
  lemma NormalizeAsWrittenDiffers(defaults: map<string, JsValue>, options: JsValue)
    requires Truthy(options)
    ensures !options.Str? ==> NormalizeAsWritten(options) == Normalize(options)
    ensures options.Str? ==> NormalizeAsWritten(options) == options != Normalize(options)
    ensures options.Str? && "value" !in defaults ==>
      "value" !in ComponentOptions(defaults, NormalizeAsWritten(options))
      && ComponentOptions(defaults, Normalize(options))["value"] == options
  {
  }

  // ---------------------------------------------------------------------------------------
  // Registration

  /** A registered component: its key, its layer, and its normalised options. */
  datatype Component = Component(key: string, layer: nat, options: JsValue)

  /** `o === true && a`: the option is literally `true` and `<key>_attributes` is truthy. */
  predicate Substitutes(options: map<string, JsValue>, key: string)
  {
    Lookup(options, key) == Bool(true) && Truthy(Lookup(options, key + "_attributes"))
  }

  /** The value the scan gives a key's component: `<key>_attributes` in place of `true`. */
  function Setting(options: map<string, JsValue>, key: string): JsValue
  {
    if Substitutes(options, key) then Lookup(options, key + "_attributes") else Lookup(options, key)
  }

  /** The options once the keys in `keys` have been scanned: `options[k] = a` for each. */
  function SubstitutedOptions(options: map<string, JsValue>, keys: set<string>): map<string, JsValue>
  {
    map k | k in options :: if k in keys && Substitutes(options, k) then options[k + "_attributes"] else options[k]
  }

  /** The components the first registrations push into a layer, in registration order: those
      whose setting is truthy and whose constructor does not throw. */
  function Bucket(entries: seq<(string, nat)>, options: map<string, JsValue>, failing: set<string>,
                  layer: nat): seq<Component>
  {
    if entries == [] then []
    else
      var (k, l) := entries[|entries| - 1];
      var rest := Bucket(entries[..|entries| - 1], options, failing, layer);
      if l == layer && Truthy(Setting(options, k)) && k !in failing
      then rest + [Component(k, l, Normalize(Setting(options, k)))]
      else rest
  }

  /** The key of the last enabled component whose constructor throws, if any. */
  function LastFailure(entries: seq<(string, nat)>, options: map<string, JsValue>, failing: set<string>): Option<string>
  {
    if entries == [] then None
    else
      var k := entries[|entries| - 1].0;
      if Truthy(Setting(options, k)) && k in failing then Some(k)
      else LastFailure(entries[..|entries| - 1], options, failing)
  }

  /** One call of a component method: the layer, the key, the method. */
  datatype Call = Call(layer: nat, key: string, f: Method)

  /** The error line `components_call` writes for a throwing call, at height `y`. */
  datatype Annotation = Annotation(y: int, call: Call)

  /** The calls `components_call( f )` makes on one layer: the components defining `f`, in order. */
  function Defining(layer: nat, bucket: seq<Component>, f: Method): (r: seq<Call>)
    ensures |r| <= |bucket|
  {
    if bucket == [] then []
    else
      var c := bucket[|bucket| - 1];
      Defining(layer, bucket[..|bucket| - 1], f) + (if Defines(c.key, f) then [Call(layer, c.key, f)] else [])
  }

  /** The calls of all layers, lowest layer first. */
  function Calls(layers: seq<seq<Component>>, f: Method): seq<Call>
  {
    if layers == [] then []
    else Calls(layers[..|layers| - 1], f) + Defining(|layers| - 1, layers[|layers| - 1], f)
  }

  /** The calls that throw. */
  function Failed(calls: seq<Call>, throws: set<(string, Method)>): (r: seq<Call>)
    ensures |r| <= |calls|
  {
    if calls == [] then []
    else
      var c := calls[|calls| - 1];
      Failed(calls[..|calls| - 1], throws) + (if (c.key, c.f) in throws then [c] else [])
  }

  /** The error lines of failed calls, numbered on from `errors`: `12 * this.errors` each. */
  function Annotations(errors: nat, failed: seq<Call>): seq<Annotation>
  {
    if failed == [] then []
    else
      Annotations(errors, failed[..|failed| - 1])
        + [Annotation(12 * (errors + |failed|), failed[|failed| - 1])]
  }

  /** The component state of a chart (`Ico.Base`): its options, the layer buckets, the error
      counter with the error lines drawn, the last error, and the calls made so far. */
  class Host {
    var options: map<string, JsValue>
    var layers: seq<seq<Component>>
    var errors: nat
    var annotations: seq<Annotation>
    var error: Option<string>
    var trace: seq<Call>

    constructor (options: map<string, JsValue>)
      ensures this.options == options && layers == [] && errors == 0
      ensures annotations == [] && error == None && trace == []
    {
      this.options := options;
      layers := [];
      errors := 0;
      annotations := [];
      error := None;
      trace := [];
    }

    /** The component scan of `process_options` (ico.js:183-196): each registered key whose
        setting is truthy gets its component pushed into the bucket of its layer, unless its
        constructor throws, which records the error instead; a literal `true` is first replaced
        in the options by `<key>_attributes` when that is set. */
    method Register(failing: set<string>)
      modifies this`options, this`layers, this`error
      ensures options == SubstitutedOptions(old(options), KeysOf(|Registered()|))
      ensures |layers| == Layers
      ensures forall l :: 0 <= l < Layers ==> layers[l] == Bucket(Registered(), old(options), failing, l)
      ensures error == (if LastFailure(Registered(), old(options), failing).Some?
                        then LastFailure(Registered(), old(options), failing) else old(error))
    {
      ghost var original, error0 := options, error;
      layers := [[], [], [], [], [], []];
      ScanStart(original, failing);
      for i := 0 to |Registered()|
        invariant Scanned(original, failing, error0, i)
      {
        ScanRegistration(original, failing, error0, i);
      }
      assert Registered()[..|Registered()|] == Registered();
    }

    /** The scan's state once the first i registrations are done. */
    ghost predicate Scanned(original: map<string, JsValue>, failing: set<string>, error0: Option<string>, i: nat)
      reads this`options, this`layers, this`error
    {
      && i <= |Registered()|
      && options == SubstitutedOptions(original, KeysOf(i))
      && |layers| == Layers
      && (forall l :: 0 <= l < Layers ==> layers[l] == Bucket(Registered()[..i], original, failing, l))
      && error == (if LastFailure(Registered()[..i], original, failing).Some?
                   then LastFailure(Registered()[..i], original, failing) else error0)
    }

    /** One turn of the scan (ico.js:186-195): registration i reads its option and
        `<key>_attributes`, substitutes, then pushes the component or records its error. */
    method ScanRegistration(ghost original: map<string, JsValue>, failing: set<string>,
                            ghost error0: Option<string>, i: nat)
      modifies this`options, this`layers, this`error
      requires i < |Registered()| && Scanned(original, failing, error0, i)
      ensures Scanned(original, failing, error0, i + 1)
    {
      hide Bucket, LastFailure, SubstitutedOptions, KeysOf, Registered;
      var (k, layer) := Registered()[i];
      ScanReads(original, i);
      ScanStep(original, failing, i);
      var a := Lookup(options, k + "_attributes");
      var o := Lookup(options, k);
      var substitute := o == Bool(true) && Truthy(a);
      o := if substitute then a else o;
      options := if substitute then options[k := a] else options;
      layers := if Truthy(o) && k !in failing
        then layers[layer := layers[layer] + [Component(k, layer, Normalize(o))]] else layers;
      error := if Truthy(o) && k in failing then Some(k) else error;
    }

    /** `components_call( f )`: every layer in ascending order, every component of a layer in
        order, calling `f` on those that define it. A call that throws increments `errors` and
        adds an error line at `12 * errors`; the remaining calls still run. */
    method ComponentsCall(f: Method, throws: set<(string, Method)>)
      modifies this`trace, this`errors, this`annotations, this`error
      ensures trace == old(trace) + Calls(layers, f)
      ensures errors == old(errors) + |Failed(Calls(layers, f), throws)|
      ensures annotations == old(annotations) + Annotations(old(errors), Failed(Calls(layers, f), throws))
      ensures error == LastError(old(error), Failed(Calls(layers, f), throws))
    {
      ghost var trace0, errors0, annotations0, error0 := trace, errors, annotations, error;
      ghost var done: seq<Call> := [];
      hide Calls, Defining, Failed, Annotations;
      CallsStart(layers, f);
      for i := 0 to |layers|
        invariant done == Calls(layers[..i], f)
        invariant Recorded(throws, trace0, errors0, annotations0, error0, done)
      {
        var layer := layers[i];
        CallsStep(layers, i, f);
        assert layer[..0] == [] && done + Defining(i, layer[..0], f) == done;
        for j := 0 to |layer|
          invariant done == Calls(layers[..i], f) + Defining(i, layer[..j], f)
          invariant Recorded(throws, trace0, errors0, annotations0, error0, done)
        {
          var c := layer[j];
          DefiningStep(i, layer, j, f);
          if Defines(c.key, f) {
            var call := Call(i, c.key, f);
            CallGuarded(call, throws, trace0, errors0, annotations0, error0, done);
            done := done + [call];
          }
        }
        assert layer[..|layer|] == layer;
      }
      assert layers[..|layers|] == layers;
    }

    /** The state after the calls `done`, starting from the given trace, counter, lines and error. */
    ghost predicate Recorded(throws: set<(string, Method)>, trace0: seq<Call>, errors0: nat,
                             annotations0: seq<Annotation>, error0: Option<string>, done: seq<Call>)
      reads this`trace, this`errors, this`annotations, this`error
    {
      && trace == trace0 + done
      && errors == errors0 + |Failed(done, throws)|
      && annotations == annotations0 + Annotations(errors0, Failed(done, throws))
      && error == LastError(error0, Failed(done, throws))
    }

    /** The guarded call of ico.js:318-328: a call that throws increments `errors`, draws its
        line at `12 * errors` and becomes the last error. */
    method CallGuarded(call: Call, throws: set<(string, Method)>, ghost trace0: seq<Call>, ghost errors0: nat,
                       ghost annotations0: seq<Annotation>, ghost error0: Option<string>, ghost done: seq<Call>)
      modifies this`trace, this`errors, this`annotations, this`error
      requires Recorded(throws, trace0, errors0, annotations0, error0, done)
      ensures Recorded(throws, trace0, errors0, annotations0, error0, done + [call])
    {
      hide Failed, Annotations;
      FailedStep(done, call, throws);
      AnnotationsStep(errors0, Failed(done, throws), call);
      trace := trace + [call];
      if (call.key, call.f) in throws {
        errors := errors + 1;
        annotations := annotations + [Annotation(12 * errors, call)];
        error := Some(call.key);
      }
    }
  }

  /** The last error recorded after a sequence of failed calls. */
  function LastError(error: Option<string>, failed: seq<Call>): Option<string>
  {
    if failed == [] then error else Some(failed[|failed| - 1].key)
  }

  lemma CallsStart(layers: seq<seq<Component>>, f: Method)
    ensures Calls(layers[..0], f) == []
    ensures forall throws: set<(string, Method)> :: Failed([], throws) == []
    ensures forall errors: nat :: Annotations(errors, []) == []
  {
  }

  lemma CallsStep(layers: seq<seq<Component>>, i: nat, f: Method)
    requires i < |layers|
    ensures Calls(layers[..i + 1], f) == Calls(layers[..i], f) + Defining(i, layers[i], f)
  {
    assert layers[..i + 1][..i] == layers[..i];
  }

  lemma DefiningStep(layer: nat, bucket: seq<Component>, j: nat, f: Method)
    requires j < |bucket|
    ensures Defines(bucket[j].key, f) ==>
      Defining(layer, bucket[..j + 1], f) == Defining(layer, bucket[..j], f) + [Call(layer, bucket[j].key, f)]
    ensures !Defines(bucket[j].key, f) ==> Defining(layer, bucket[..j + 1], f) == Defining(layer, bucket[..j], f)
  {
    assert bucket[..j + 1][..j] == bucket[..j];
    assert Defining(layer, bucket[..j], f) + [] == Defining(layer, bucket[..j], f);
  }

  lemma FailedStep(calls: seq<Call>, c: Call, throws: set<(string, Method)>)
    ensures (c.key, c.f) in throws ==> Failed(calls + [c], throws) == Failed(calls, throws) + [c]
    ensures (c.key, c.f) !in throws ==> Failed(calls + [c], throws) == Failed(calls, throws)
  {
    assert (calls + [c])[..|calls|] == calls;
    assert Failed(calls, throws) + [] == Failed(calls, throws);
  }

  lemma AnnotationsStep(errors: nat, failed: seq<Call>, c: Call)
    ensures Annotations(errors, failed + [c]) ==
      Annotations(errors, failed) + [Annotation(12 * (errors + |failed| + 1), c)]
  {
    assert (failed + [c])[..|failed|] == failed;
  }

  // ---------------------------------------------------------------------------------------
  // Properties

  /** No registered key is another's `<key>_attributes`, and no two registrations share a key. */
  lemma RegisteredKeys()
    ensures forall i, j :: 0 <= i < |Registered()| && 0 <= j < |Registered()| ==>
      Registered()[i].0 + "_attributes" != Registered()[j].0
    ensures forall i, j :: 0 <= i < j < |Registered()| ==> Registered()[i].0 != Registered()[j].0
  {
  }

  /** While the scan is at registration i, the options it reads for that key are the original
      ones: earlier substitutions touched only earlier keys. */
  lemma ScanReads(original: map<string, JsValue>, i: nat)
    requires i < |Registered()|
    ensures var k := Registered()[i].0;
      && Lookup(SubstitutedOptions(original, KeysOf(i)), k) == Lookup(original, k)
      && Lookup(SubstitutedOptions(original, KeysOf(i)), k + "_attributes") == Lookup(original, k + "_attributes")
  {
    RegisteredKeys();
    var k := Registered()[i].0;
    assert k !in KeysOf(i);
    assert k + "_attributes" !in KeysOf(i);
  }

  /** Before the first registration nothing is substituted, pushed or failed. */
  lemma ScanStart(original: map<string, JsValue>, failing: set<string>)
    ensures SubstitutedOptions(original, KeysOf(0)) == original
    ensures forall l :: Bucket(Registered()[..0], original, failing, l) == []
    ensures LastFailure(Registered()[..0], original, failing) == None
  {
  }

  /** One registration more: the options, buckets and last failure it adds. */
  lemma ScanStep(original: map<string, JsValue>, failing: set<string>, i: nat)
    requires i < |Registered()|
    ensures var (k, layer) := Registered()[i];
      var o := Setting(original, k);
      && SubstitutedOptions(original, KeysOf(i + 1)) ==
        (if Substitutes(original, k) then SubstitutedOptions(original, KeysOf(i))[k := original[k + "_attributes"]]
         else SubstitutedOptions(original, KeysOf(i)))
      && (forall l :: 0 <= l < Layers ==> (Bucket(Registered()[..i + 1], original, failing, l) ==
            if l == layer && Truthy(o) && k !in failing
            then Bucket(Registered()[..i], original, failing, l) + [Component(k, layer, Normalize(o))]
            else Bucket(Registered()[..i], original, failing, l)))
      && LastFailure(Registered()[..i + 1], original, failing) ==
           (if Truthy(o) && k in failing then Some(k) else LastFailure(Registered()[..i], original, failing))
  {
    SubstitutedStep(original, i);
    assert Registered()[..i + 1][..i] == Registered()[..i];
  }

  lemma SubstitutedStep(original: map<string, JsValue>, i: nat)
    requires i < |Registered()|
    ensures var k := Registered()[i].0;
      SubstitutedOptions(original, KeysOf(i + 1)) ==
        (if Substitutes(original, k) then SubstitutedOptions(original, KeysOf(i))[k := original[k + "_attributes"]]
         else SubstitutedOptions(original, KeysOf(i)))
  {
    var k := Registered()[i].0;
    assert KeysOf(i + 1) == KeysOf(i) + {k};
    RegisteredKeys();
    assert k !in KeysOf(i);
  }

  /** A key's component is in a layer's bucket exactly when the key is registered in that layer,
      its setting is truthy, and its constructor does not throw. */
  lemma {:induction false} BucketMembership(entries: seq<(string, nat)>, options: map<string, JsValue>,
                                            failing: set<string>, layer: nat, key: string)
    ensures (exists c :: c in Bucket(entries, options, failing, layer) && c.key == key) <==>
      (exists i :: 0 <= i < |entries| && entries[i] == (key, layer))
        && Truthy(Setting(options, key)) && key !in failing
  {
    if entries != [] {
      var init := entries[..|entries| - 1];
      BucketMembership(init, options, failing, layer, key);
      assert forall i :: 0 <= i < |init| ==> init[i] == entries[i];
      var rest := Bucket(init, options, failing, layer);
      var (k, l) := entries[|entries| - 1];
      if l == layer && Truthy(Setting(options, k)) && k !in failing {
        var c := Component(k, l, Normalize(Setting(options, k)));
        assert Bucket(entries, options, failing, layer) == rest + [c];
      }
    }
  }

  /** Every component in a layer's bucket belongs to that layer. */
  lemma {:induction false} BucketLayer(entries: seq<(string, nat)>, options: map<string, JsValue>,
                                       failing: set<string>, layer: nat)
    ensures forall c :: c in Bucket(entries, options, failing, layer) ==> c.layer == layer
  {
    if entries != [] {
      BucketLayer(entries[..|entries| - 1], options, failing, layer);
    }
  }

  /** The calls of one layer all carry its index and a method the component defines. */
  lemma {:induction false} DefiningShape(layer: nat, bucket: seq<Component>, f: Method)
    ensures forall c :: c in Defining(layer, bucket, f) ==>
      c.layer == layer && c.f == f && Defines(c.key, f) && exists j :: 0 <= j < |bucket| && bucket[j].key == c.key
    ensures forall j :: 0 <= j < |bucket| && Defines(bucket[j].key, f) ==>
      Call(layer, bucket[j].key, f) in Defining(layer, bucket, f)
  {
    if bucket != [] {
      var init := bucket[..|bucket| - 1];
      DefiningShape(layer, init, f);
      assert forall j :: 0 <= j < |init| ==> init[j] == bucket[j];
    }
  }

  /** `components_call` calls exactly the components that define the method, and each call
      names the layer the component is in. */
  lemma {:induction false} CallsComplete(layers: seq<seq<Component>>, f: Method)
    ensures forall c :: c in Calls(layers, f) ==>
      c.layer < |layers| && c.f == f && Defines(c.key, f)
      && exists j :: 0 <= j < |layers[c.layer]| && layers[c.layer][j].key == c.key
    ensures forall l, j :: 0 <= l < |layers| && 0 <= j < |layers[l]| && Defines(layers[l][j].key, f) ==>
      Call(l, layers[l][j].key, f) in Calls(layers, f)
  {
    if layers != [] {
      var init := layers[..|layers| - 1];
      CallsComplete(init, f);
      DefiningShape(|layers| - 1, layers[|layers| - 1], f);
      assert forall l :: 0 <= l < |init| ==> init[l] == layers[l];
    }
  }

  /** Layers are visited in ascending order: a later call is never in a lower layer. */
  lemma {:induction false} CallsInLayerOrder(layers: seq<seq<Component>>, f: Method)
    ensures var calls := Calls(layers, f);
      forall p, q :: 0 <= p < q < |calls| ==> calls[p].layer <= calls[q].layer
  {
    if layers != [] {
      var init := layers[..|layers| - 1];
      CallsInLayerOrder(init, f);
      assert forall p, q :: 0 <= p < q < |Calls(init, f)| ==> Calls(init, f)[p].layer <= Calls(init, f)[q].layer;
      var a, b := Calls(init, f), Defining(|layers| - 1, layers[|layers| - 1], f);
      assert Calls(layers, f) == a + b;
      CallsComplete(init, f);
      DefiningShape(|layers| - 1, layers[|layers| - 1], f);
      OrderedConcat(a, b, |layers| - 1);
    }
  }

  /** Calls below layer `top` in layer order, followed by calls in layer `top`, are in layer order. */
  lemma OrderedConcat(a: seq<Call>, b: seq<Call>, top: nat)
    requires forall p, q :: 0 <= p < q < |a| ==> a[p].layer <= a[q].layer
    requires forall c :: c in a ==> c.layer < top
    requires forall c :: c in b ==> c.layer == top
    ensures forall p, q :: 0 <= p < q < |a + b| ==> (a + b)[p].layer <= (a + b)[q].layer
  {
    forall p, q | 0 <= p < q < |a + b|
      ensures (a + b)[p].layer <= (a + b)[q].layer
    {
      if q < |a| {
        assert (a + b)[p] == a[p] && (a + b)[q] == a[q];
      } else if p < |a| {
        assert (a + b)[p] == a[p] && a[p] in a;
        assert (a + b)[q] == b[q - |a|] && b[q - |a|] in b;
      } else {
        assert (a + b)[p] == b[p - |a|] && b[p - |a|] in b;
        assert (a + b)[q] == b[q - |a|] && b[q - |a|] in b;
      }
    }
  }

  /** The error lines of one `components_call` stack downwards one per failure: the k-th is at
      `12 * (errors + k + 1)`. */
  lemma {:induction false} AnnotationsStacked(errors: nat, failed: seq<Call>)
    ensures var lines := Annotations(errors, failed);
      && |lines| == |failed|
      && forall k :: 0 <= k < |lines| ==> lines[k] == Annotation(12 * (errors + k + 1), failed[k])
  {
    if failed != [] {
      AnnotationsStacked(errors, failed[..|failed| - 1]);
    }
  }

  /** A throwing call costs only itself: failures are exactly the calls listed as throwing. */
  lemma {:induction false} FailedCalls(calls: seq<Call>, throws: set<(string, Method)>)
    ensures forall c :: c in Failed(calls, throws) <==> c in calls && (c.key, c.f) in throws
  {
    if calls != [] {
      FailedCalls(calls[..|calls| - 1], throws);
      assert calls == calls[..|calls| - 1] + [calls[|calls| - 1]];
    }
  }
}
