/**
 * The `AudioProcessor` registry: an insertion-ordered map from names to
 * transforms, and `process`, which threads a buffer through every registered
 * transform whose option is truthy, in registration order.
 */
module Pipeline {
  import opened Wrappers
  import opened Bytes
  import opened Wav
  import opened Transforms
  import opened JsObject

  /** Why `process` throws: a codec error inside a built-in transform, or a custom transform that threw. */
  datatype ProcessError = CodecError(error: WavError) | ProcessorThrew(name: string)

  /**
   * A registered processing function. The four built-ins are the bound methods of the class; a
   * custom processor is any function of the buffer and its options, `None` meaning that it throws.
   */
  datatype Processor =
    | NormalizeStep
    | TrimStep
    | FadeStep
    | ConvertStep
    | Custom(run: (seq<byte>, Settings) -> Option<seq<byte>>)

  type Entry = (string, Processor)

  /**
   * The options object of `process`. Only truthy values matter: a name maps to the settings its
   * transform receives exactly when `options[name]` is truthy, and is absent when that is
   * missing or falsy.
   */
  type Options = map<string, Settings>

  function Names(registry: seq<Entry>): (r: seq<string>)
    ensures |r| == |registry|
    ensures forall i :: 0 <= i < |registry| ==> r[i] == registry[i].0
  {
    seq(|registry|, i requires 0 <= i < |registry| => registry[i].0)
  }

  /** The names of an entry followed by a registry: its name, then theirs. */
  lemma NamesCons(e: Entry, rest: seq<Entry>)
    ensures Names([e] + rest) == [e.0] + Names(rest)
  {
    var l, r := Names([e] + rest), [e.0] + Names(rest);
    forall i | 0 <= i < |l| ensures l[i] == r[i] {
      if i > 0 {
        assert ([e] + rest)[i] == rest[i - 1];
      }
    }
  }

  /** The names of a non-empty registry: the first name, then those of the rest. */
  lemma NamesTail(registry: seq<Entry>)
    requires registry != []
    ensures Names(registry) == [registry[0].0] + Names(registry[1..])
  {
    assert [registry[0]] + registry[1..] == registry;
    NamesCons(registry[0], registry[1..]);
  }

  /** A Map holds each key once. */
  predicate DistinctNames(registry: seq<Entry>) {
    forall i, j :: 0 <= i < j < |registry| ==> registry[i].0 != registry[j].0
  }

  /** The processor registered under `name`, if any. */
  function Lookup(registry: seq<Entry>, name: string): (r: Option<Processor>)
    ensures r.None? <==> name !in Names(registry)
  {
    if registry == [] then None
    else if registry[0].0 == name then Some(registry[0].1)
    else Lookup(registry[1..], name)
  }

  /**
   * `Map.prototype.set`: an existing name has its processor replaced in its own slot; a new name
   * is appended. Key order is kept, `name` now maps to `p`, every other name keeps its processor.
   */
  function Registered(registry: seq<Entry>, name: string, p: Processor): (r: seq<Entry>)
    ensures name in Names(registry) ==> Names(r) == Names(registry)
    ensures name !in Names(registry) ==> Names(r) == Names(registry) + [name]
  {
    if registry == [] then [(name, p)]
    else if registry[0].0 == name then
      NamesTail(registry);
      NamesCons((name, p), registry[1..]);
      [(name, p)] + registry[1..]
    else
      var rest := Registered(registry[1..], name, p);
      NamesTail(registry);
      NamesCons(registry[0], rest);
      [registry[0]] + rest
  }

  /** After `set`, `name` maps to `p` and every other name keeps its processor. */
  lemma {:induction false} RegisteredLookup(registry: seq<Entry>, name: string, p: Processor, other: string)
    ensures Lookup(Registered(registry, name, p), name) == Some(p)
    ensures other != name ==> Lookup(Registered(registry, name, p), other) == Lookup(registry, other)
  {
    if registry != [] && registry[0].0 != name {
      RegisteredLookup(registry[1..], name, p, other);
    }
  }

  /** `set` keeps every key held once. */
  lemma RegisteredDistinct(registry: seq<Entry>, name: string, p: Processor)
    requires DistinctNames(registry)
    ensures DistinctNames(Registered(registry, name, p))
  {
    var r := Registered(registry, name, p);
    var names := Names(r);
    forall i, j | 0 <= i < j < |r| ensures r[i].0 != r[j].0 {
      assert names[i] == r[i].0 && names[j] == r[j].0;
      assert Names(registry)[i] == registry[i].0;
      if j < |registry| {
        assert Names(registry)[j] == registry[j].0;
      }
    }
  }

  /** Setting a name the Map does not hold appends it. */
  lemma {:induction false} RegisteredNew(registry: seq<Entry>, name: string, p: Processor)
    requires name !in Names(registry)
    ensures Registered(registry, name, p) == registry + [(name, p)]
  {
    if registry != [] {
      NamesTail(registry);
      RegisteredNew(registry[1..], name, p);
      RegisteredSkips(registry, name, p);
      assert [registry[0]] + (registry[1..] + [(name, p)]) == registry + [(name, p)];
    }
  }

  /** The registry `registerDefaultProcessors` builds: normalize, trim, fade, convert. */
  function DefaultRegistry(): seq<Entry> {
    [("normalize", NormalizeStep), ("trim", TrimStep), ("fade", FadeStep), ("convert", ConvertStep)]
  }

  /** Registering the four defaults into an empty Map yields them in call order. */
  lemma DefaultsFromEmpty()
    ensures Registered(Registered(Registered(Registered([],
      "normalize", NormalizeStep), "trim", TrimStep), "fade", FadeStep), "convert", ConvertStep) == DefaultRegistry()
  {
    var r1 := Registered([], "normalize", NormalizeStep);
    RegisteredNew([], "normalize", NormalizeStep);
    assert Names(r1) == ["normalize"];
    var r2 := Registered(r1, "trim", TrimStep);
    RegisteredNew(r1, "trim", TrimStep);
    assert Names(r2) == ["normalize", "trim"];
    var r3 := Registered(r2, "fade", FadeStep);
    RegisteredNew(r2, "fade", FadeStep);
    assert Names(r3) == ["normalize", "trim", "fade"];
    RegisteredNew(r3, "convert", ConvertStep);
  }

  function LiftCodec(r: Result<seq<byte>, WavError>): Result<seq<byte>, ProcessError> {
    match r
    case Ok(d) => Ok(d)
    case Err(e) => Err(CodecError(e))
  }

  /** What one processor returns or throws for a buffer and its options. */
  function Apply(name: string, p: Processor, data: seq<byte>, settings: Settings): Result<seq<byte>, ProcessError> {
    match p
    case NormalizeStep => LiftCodec(NormalizeResult(data, settings))
    case TrimStep => LiftCodec(Trim(data, settings))
    case FadeStep => LiftCodec(FadeResult(data, settings))
    case ConvertStep => Ok(Convert(data, settings))
    case Custom(run) => if run(data, settings).Some? then Ok(run(data, settings).value) else Err(ProcessorThrew(name))
  }

  /**
   * `options[name]` is truthy: the name is a truthy own option, or a property every object
   * inherits, which the lookup finds as well.
   */
  predicate Enabled(options: Options, name: string) {
    name in options || IsInheritedProperty(name)
  }

  /** Settings with none of the transform fields, so that each transform takes its defaults. */
  const NoSettings: Settings := Settings(None, None, None, None, None)

  /**
   * The value `options[name]` passes to the processor: the own option, or, for an inherited
   * property (a function, or `Object.prototype` for `__proto__`), an object without any of the
   * fields the transforms read.
   */
  function OptionFor(options: Options, name: string): (s: Settings)
    ensures name !in options ==> s == NoSettings
  {
    if name in options then options[name] else NoSettings
  }

  /** One iteration of the `process` loop: the entry runs only when its option is truthy. */
  function Step(entry: Entry, data: seq<byte>, options: Options): Result<seq<byte>, ProcessError> {
    if Enabled(options, entry.0) then Apply(entry.0, entry.1, data, OptionFor(options, entry.0)) else Ok(data)
  }

  /** What `process` returns or throws: the entries applied in registry order, each to the previous output. */
  function Run(registry: seq<Entry>, data: seq<byte>, options: Options): (r: Result<seq<byte>, ProcessError>)
    ensures r.Err? ==> exists i :: 0 <= i < |registry| && Enabled(options, registry[i].0)
  {
    if registry == [] then Ok(data)
    else
      match Run(registry[..|registry| - 1], data, options)
      case Err(e) => Err(e)
      case Ok(d) => Step(registry[|registry| - 1], d, options)
  }

  /** One more entry of the registry runs on the output of the entries before it. */
  lemma RunExtend(registry: seq<Entry>, i: nat, data: seq<byte>, options: Options)
    requires i < |registry|
    ensures Run(registry[..i + 1], data, options) ==
      match Run(registry[..i], data, options)
      case Err(e) => Err(e)
      case Ok(d) => Step(registry[i], d, options)
  {
    assert registry[..i + 1][..i] == registry[..i];
  }

  /** Once a prefix of the registry throws, `process` throws that error. */
  lemma {:induction false} RunPrefixErr(registry: seq<Entry>, j: nat, data: seq<byte>, options: Options)
    requires j <= |registry| && Run(registry[..j], data, options).Err?
    ensures Run(registry, data, options) == Run(registry[..j], data, options)
  {
    if j < |registry| {
      var init := registry[..|registry| - 1];
      assert init[..j] == registry[..j];
      RunPrefixErr(init, j, data, options);
    } else {
      assert registry[..j] == registry;
    }
  }

  /** Running a registry is running its first entry and then the rest on that output. */
  lemma {:induction false} RunCons(registry: seq<Entry>, data: seq<byte>, options: Options)
    requires registry != []
    ensures Run(registry, data, options) ==
      match Step(registry[0], data, options)
      case Err(e) => Err(e)
      case Ok(d) => Run(registry[1..], d, options)
  {
    if |registry| > 1 {
      var init := registry[..|registry| - 1];
      assert init[1..] == registry[1..][..|registry[1..]| - 1];
      assert init[0] == registry[0];
      RunCons(init, data, options);
    }
  }

  /**
   * With no truthy option for any registered name, `process` returns its input unchanged. A name
   * every object inherits, such as "toString", always has a truthy option.
   */
  lemma {:induction false} RunWithoutOptions(registry: seq<Entry>, data: seq<byte>, options: Options)
    requires forall i :: 0 <= i < |registry| ==> !Enabled(options, registry[i].0)
    ensures Run(registry, data, options) == Ok(data)
  {
    if registry != [] {
      RunWithoutOptions(registry[..|registry| - 1], data, options);
    }
  }

  /** Each default entry runs its own transform on the settings under its own name. */
  lemma DefaultSteps(d: seq<byte>, options: Options)
    requires "normalize" in options && "trim" in options && "fade" in options && "convert" in options
    ensures Step(DefaultRegistry()[0], d, options) == LiftCodec(NormalizeResult(d, options["normalize"]))
    ensures Step(DefaultRegistry()[1], d, options) == LiftCodec(Trim(d, options["trim"]))
    ensures Step(DefaultRegistry()[2], d, options) == LiftCodec(FadeResult(d, options["fade"]))
    ensures Step(DefaultRegistry()[3], d, options) == Ok(d)
  {
    var registry := DefaultRegistry();
    ApplyBuiltIn(registry[0], d, options);
    ApplyBuiltIn(registry[1], d, options);
    ApplyBuiltIn(registry[2], d, options);
    ApplyBuiltIn(registry[3], d, options);
  }

  /** A step of a built-in entry whose option is truthy runs the built-in on that option. */
  lemma ApplyBuiltIn(entry: Entry, d: seq<byte>, options: Options)
    requires entry.0 in options
    ensures entry.1 == NormalizeStep ==> Step(entry, d, options) == LiftCodec(NormalizeResult(d, options[entry.0]))
    ensures entry.1 == TrimStep ==> Step(entry, d, options) == LiftCodec(Trim(d, options[entry.0]))
    ensures entry.1 == FadeStep ==> Step(entry, d, options) == LiftCodec(FadeResult(d, options[entry.0]))
    ensures entry.1 == ConvertStep ==> Step(entry, d, options) == Ok(d)
  {
  }

  /**
   * With every default option truthy, `process` runs normalize, then trim, then fade, then
   * convert, each on the previous output, and stops at the first error.
   */
  lemma DefaultOrder(data: seq<byte>, options: Options)
    requires "normalize" in options && "trim" in options && "fade" in options && "convert" in options
    ensures Run(DefaultRegistry(), data, options) ==
      match NormalizeResult(data, options["normalize"])
      case Err(e) => Err(CodecError(e))
      case Ok(d1) =>
        match Trim(d1, options["trim"])
        case Err(e) => Err(CodecError(e))
        case Ok(d2) =>
          match FadeResult(d2, options["fade"])
          case Err(e) => Err(CodecError(e))
          case Ok(d3) => Ok(d3)
  {
    var reg := DefaultRegistry();
    RunCons(reg, data, options);
    DefaultSteps(data, options);
    var r1 := NormalizeResult(data, options["normalize"]);
    if r1.Ok? {
      var d1 := r1.value;
      RunCons(reg[1..], d1, options);
      DefaultSteps(d1, options);
      var r2 := Trim(d1, options["trim"]);
      if r2.Ok? {
        var d2 := r2.value;
        RunCons(reg[2..], d2, options);
        DefaultSteps(d2, options);
        var r3 := FadeResult(d2, options["fade"]);
        if r3.Ok? {
          var d3 := r3.value;
          RunCons(reg[3..], d3, options);
          DefaultSteps(d3, options);
          assert reg[3..][1..] == [];
        }
      }
    }
  }

  /** Only `convert` enabled: `process` is the identity on any buffer, well-formed or not. */
  lemma ConvertOnlyIsIdentity(data: seq<byte>, s: Settings)
    ensures Run(DefaultRegistry(), data, map["convert" := s]) == Ok(data)
  {
    var reg := DefaultRegistry();
    var options := map["convert" := s];
    RunWithoutOptions(reg[..3], data, options);
  }

  class AudioProcessor {
    /** `this.processors`: the Map of name to processor, in insertion order. */
    var processors: seq<Entry>

    predicate Valid()
      reads this
    {
      DistinctNames(processors)
    }

    /** A new processor holds exactly the four defaults, in order. */
    constructor()
      ensures Valid() && processors == DefaultRegistry()
    {
      processors := [];
      new;
      RegisterDefaultProcessors();
      DefaultsFromEmpty();
    }

    method RegisterDefaultProcessors()
      requires Valid()
      modifies this
      ensures Valid()
      ensures processors ==
        Registered(Registered(Registered(Registered(old(processors),
          "normalize", NormalizeStep), "trim", TrimStep), "fade", FadeStep), "convert", ConvertStep)
    {
      RegisterProcessor("normalize", NormalizeStep);
      RegisterProcessor("trim", TrimStep);
      RegisterProcessor("fade", FadeStep);
      RegisterProcessor("convert", ConvertStep);
    }

    /** `registerProcessor`: sets `name` in the Map (replacing in place, or appending). */
    method RegisterProcessor(name: string, p: Processor)
      requires Valid()
      modifies this
      ensures Valid()
      ensures processors == Registered(old(processors), name, p)
    {
      RegisteredDistinct(processors, name, p);
      processors := Registered(processors, name, p);
    }

    /** `process`: threads the buffer through every entry whose option is truthy. */
    method Process(data: seq<byte>, options: Options) returns (r: Result<seq<byte>, ProcessError>)
      ensures r == Run(processors, data, options)
    {
      var processedData := data;
      var i := 0;
      while i < |processors|
        invariant 0 <= i <= |processors|
        invariant Run(processors[..i], data, options) == Ok(processedData)
      {
        var (name, p) := processors[i];
        RunExtend(processors, i, data, options);
        if Enabled(options, name) {
          var out := Invoke(name, p, processedData, OptionFor(options, name));
          if out.Err? {
            RunPrefixErr(processors, i + 1, data, options);
            return out;
          }
          processedData := out.value;
        }
        i := i + 1;
      }
      assert processors[..i] == processors;
      r := Ok(processedData);
    }
  }

  /** Calls one processor: the built-in transforms run their in-place methods. */
  method Invoke(name: string, p: Processor, data: seq<byte>, settings: Settings) returns (r: Result<seq<byte>, ProcessError>)
    ensures r == Apply(name, p, data, settings)
  {
    match p {
      case NormalizeStep =>
        var out := Normalize(data, settings);
        r := LiftCodec(out);
      case TrimStep =>
        r := LiftCodec(Trim(data, settings));
      case FadeStep =>
        var out := Fade(data, settings);
        r := LiftCodec(out);
      case ConvertStep =>
        r := Ok(Convert(data, settings));
      case Custom(run) =>
        var out := run(data, settings);
        r := if out.Some? then Ok(out.value) else Err(ProcessorThrew(name));
    }
  }

  lemma DistinctTail(registry: seq<Entry>)
    requires DistinctNames(registry) && registry != []
    ensures DistinctNames(registry[1..])
  {
    var tail := registry[1..];
    forall j, k | 0 <= j < k < |tail| ensures tail[j].0 != tail[k].0 {
      assert tail[j] == registry[j + 1] && tail[k] == registry[k + 1];
    }
  }

  /** `set` passes over an entry with another key. */
  lemma RegisteredSkips(registry: seq<Entry>, name: string, p: Processor)
    requires registry != [] && registry[0].0 != name
    ensures Registered(registry, name, p) == [registry[0]] + Registered(registry[1..], name, p)
  {
  }

  /** Re-registering a held name replaces its processor in its own slot and moves nothing. */
  lemma {:induction false} ReRegisterKeepsSlot(registry: seq<Entry>, name: string, p: Processor, i: nat)
    requires DistinctNames(registry) && i < |registry| && registry[i].0 == name
    ensures Registered(registry, name, p) == registry[i := (name, p)]
  {
    if i == 0 {
      UpdateHead(registry, (name, p));
    } else {
      var tail := registry[1..];
      assert registry[0].0 != registry[i].0;
      DistinctTail(registry);
      ReRegisterKeepsSlot(tail, name, p, i - 1);
      RegisteredSkips(registry, name, p);
      UpdateBehindHead(registry, i, (name, p));
    }
  }

  /** Updating the first element keeps the rest. */
  lemma UpdateHead<T>(s: seq<T>, v: T)
    requires s != []
    ensures [v] + s[1..] == s[0 := v]
  {
  }

  /** Updating an element behind the first is updating the rest. */
  lemma UpdateBehindHead<T>(s: seq<T>, i: nat, v: T)
    requires 0 < i < |s|
    ensures [s[0]] + s[1..][i - 1 := v] == s[i := v]
  {
  }

  /** A custom processor registered after the defaults runs last, on the output of the built-ins. */
  lemma CustomRunsLast(data: seq<byte>, options: Options, name: string, p: Processor)
    requires name !in Names(DefaultRegistry())
    ensures var reg := Registered(DefaultRegistry(), name, p);
      && |reg| == 5 && reg[..4] == DefaultRegistry() && reg[4] == (name, p)
      && Run(reg, data, options) ==
         match Run(DefaultRegistry(), data, options)
         case Err(e) => Err(e)
         case Ok(d) => Step((name, p), d, options)
  {
    RegisteredNew(DefaultRegistry(), name, p);
    var reg := Registered(DefaultRegistry(), name, p);
    assert reg[..4] == DefaultRegistry();
  }

  /** The default names are own keys only: none of them is inherited by every object. */
  lemma DefaultsNotInherited()
    ensures forall i :: 0 <= i < |DefaultRegistry()| ==> !IsInheritedProperty(DefaultRegistry()[i].0)
  {
    var names := Names(DefaultRegistry());
    assert names == ["normalize", "trim", "fade", "convert"];
    forall i | 0 <= i < |names| ensures !IsInheritedProperty(names[i]) {
    }
  }

  /**
   * A custom processor registered under an inherited name runs even when no option is given:
   * `options["toString"]` finds `Object.prototype.toString`, which is truthy.
   */
  lemma InheritedNameRuns(data: seq<byte>, run: (seq<byte>, Settings) -> Option<seq<byte>>)
    ensures Run(Registered(DefaultRegistry(), "toString", Custom(run)), data, map[]) ==
      if run(data, NoSettings).Some? then Ok(run(data, NoSettings).value) else Err(ProcessorThrew("toString"))
  {
    var options: Options := map[];
    assert Names(DefaultRegistry()) == ["normalize", "trim", "fade", "convert"];
    CustomRunsLast(data, options, "toString", Custom(run));
    DefaultsNotInherited();
    RunWithoutOptions(DefaultRegistry(), data, options);
    assert Step(("toString", Custom(run)), data, options) == Apply("toString", Custom(run), data, NoSettings);
  }
}
