/** The documentation attribute hook: on instrument classes, a normal lookup
    is tried first, then the scanner over the class's method-resolution order,
    then the generator's default behaviour.

    The host's lookup (`safe_getattr` without a default) is the partial
    function `lookup`; reading a class's source text and parsing it is the
    value `source` of each class in the resolution order. */
module AttrGetter {
  import opened Outcomes
  import opened ParseTree
  import opened Whitespace
  import opened Scanner

  /** One class of a resolution order. `source` is the parsed source text of
      the class, or the exception raised while fetching it (built-in classes
      raise `TypeError`). */
  datatype ClassSource = ClassSource(name: string, source: Result<Module>)

  /** The object whose attribute is documented. `isInstrument` says whether it
      is a subclass of the instrument base class; `mro` starts with the class
      itself. */
  datatype Owner<V> = Owner(
    isClass: bool,
    isInstrument: bool,
    mro: seq<ClassSource>,
    lookup: string -> Option<V>)

  /** What the hook hands back: a value of the object, a placeholder recovered
      from source text, or (only in the as-written hook) the whole tuple of
      default arguments. */
  datatype Resolved<V> = Attribute(value: V) | Documented(proxy: ParameterProxy) | DefaultsTuple(defaults: seq<V>)

  /** The host's `safe_getattr(obj, name, *defaults)`: the attribute if the
      lookup finds it, else the first default, else `AttributeError`. */
  function SafeGetattr<V>(lookup: string -> Option<V>, name: string, defaults: seq<V>): (r: Result<V>)
    ensures lookup(name).Some? ==> r == Ok(lookup(name).value)
    ensures lookup(name).None? && |defaults| > 0 ==> r == Ok(defaults[0])
    ensures r.Err? <==> lookup(name).None? && defaults == []
  {
    match lookup(name)
    case Some(v) => Ok(v)
    case None => if |defaults| > 0 then Ok(defaults[0]) else Err(AttributeError)
  }

  /** Only instrument classes are intercepted, and only for names without a
      leading underscore. */
  predicate Intercepted<V>(owner: Owner<V>, name: string) {
    owner.isClass && owner.isInstrument && !(|name| > 0 && name[0] == '_')
  }

  /** What scanning one class of the resolution order gives: the exception
      raised while fetching its source, or the map built from its source.
      Parsing adds only the `AttributeError` of a lambda met by the
      constructor search and the failed assertion and `IndexError` of
      statement extraction, and a class without a unique constructor gives
      the empty map. */
  function ScanClass(c: ClassSource): (r: Result<map<string, ParameterProxy>>)
    ensures c.source.Err? ==> r == Err(c.source.error)
    ensures c.source.Ok? && r.Err? ==> r.error == AttributeError || r.error == AssertionError || r.error == IndexError
    ensures c.source.Ok? && ParseInitFunction(c.source.value, c.name).Err? ==> r == Err(AttributeError)
    ensures c.source.Ok? && ParseInitFunction(c.source.value, c.name) == Ok(None) ==> r == Ok(map[])
    ensures r.Ok? ==> forall k :: k in r.value ==> Tidy(r.value[k].Repr())
  {
    match c.source
    case Err(e) => Err(e)
    case Ok(m) => EvalParams(m, c.name)
  }

  function ScanAll(mro: seq<ClassSource>): (scans: seq<Result<map<string, ParameterProxy>>>)
    ensures |scans| == |mro|
    ensures forall i :: 0 <= i < |mro| ==> scans[i] == ScanClass(mro[i])
  {
    seq(|mro|, i requires 0 <= i < |mro| => ScanClass(mro[i]))
  }

  /** A scanned class that the walk passes over: it raised `TypeError`, or its
      map lacks the name. */
  predicate Skips(scan: Result<map<string, ParameterProxy>>, name: string) {
    scan == Err(TypeError) || (scan.Ok? && name !in scan.value)
  }

  /** A scanned class whose map documents `name` with `proxy`. */
  predicate Provides(scan: Result<map<string, ParameterProxy>>, name: string, proxy: ParameterProxy) {
    scan.Ok? && name in scan.value && scan.value[name] == proxy
  }

  /** Class `i` is the first scanned class that does not skip `name`. */
  predicate FirstNonSkipping(scans: seq<Result<map<string, ParameterProxy>>>, name: string, i: int) {
    0 <= i < |scans| && !Skips(scans[i], name) && forall j :: 0 <= j < i ==> Skips(scans[j], name)
  }

  /** The walk over the resolution order: the first class that documents the
      name wins; `TypeError` moves on to the next class; any other exception
      escapes. */
  function MroLookup(scans: seq<Result<map<string, ParameterProxy>>>, name: string): (r: Result<Option<ParameterProxy>>)
    ensures r == Ok(None) <==> forall i :: 0 <= i < |scans| ==> Skips(scans[i], name)
    ensures r.Err? ==> r.error != TypeError
  {
    if scans == [] then Ok(None)
    else
      var rest := MroLookup(scans[1..], name);
      assert rest == Ok(None) ==> forall i :: 1 <= i < |scans| ==> Skips(scans[i], name) by {
        if rest == Ok(None) {
          forall i | 1 <= i < |scans| ensures Skips(scans[i], name) {
            assert scans[i] == scans[1..][i - 1];
          }
        }
      }
      match scans[0]
      case Err(e) => if e == TypeError then rest else Err(e)
      case Ok(params) => if name in params then Ok(Some(params[name])) else rest
  }

  /** The first class of the walk that does not skip the name decides the
      walk: it documents the name, or its exception escapes. */
  lemma {:induction false} MroFirstDecides(scans: seq<Result<map<string, ParameterProxy>>>, name: string, i: int)
    requires FirstNonSkipping(scans, name, i)
    ensures MroLookup(scans, name).Ok? ==>
      MroLookup(scans, name).value.Some? && Provides(scans[i], name, MroLookup(scans, name).value.value)
    ensures MroLookup(scans, name).Err? ==> scans[i] == Err(MroLookup(scans, name).error)
    decreases |scans|
  {
    if i > 0 {
      assert Skips(scans[0], name);
      forall j | 0 <= j < i - 1 ensures Skips(scans[1..][j], name) {
        assert Skips(scans[j + 1], name);
      }
      MroFirstDecides(scans[1..], name, i - 1);
    }
  }

  /** A documented result comes from the first class that does not skip. */
  lemma {:induction false} MroFoundHasFirst(scans: seq<Result<map<string, ParameterProxy>>>, name: string)
    requires MroLookup(scans, name).Ok? && MroLookup(scans, name).value.Some?
    ensures exists i :: FirstNonSkipping(scans, name, i) && Provides(scans[i], name, MroLookup(scans, name).value.value)
    decreases |scans|
  {
    if Skips(scans[0], name) {
      MroFoundHasFirst(scans[1..], name);
      var i :| FirstNonSkipping(scans[1..], name, i) && Provides(scans[1..][i], name, MroLookup(scans, name).value.value);
      forall j | 0 <= j < i + 1 ensures Skips(scans[j], name) {
        if j > 0 {
          assert scans[j] == scans[1..][j - 1];
        }
      }
      assert FirstNonSkipping(scans, name, i + 1);
    } else {
      assert FirstNonSkipping(scans, name, 0);
    }
  }

  function ToAttribute<V>(r: Result<V>): Result<Resolved<V>> {
    match r
    case Ok(v) => Ok(Attribute(v))
    case Err(e) => Err(e)
  }

  /** `qcodes_parameter_attr_getter` with the default arguments forwarded as
      intended: normal lookup, then the resolution-order walk, then the
      host's default behaviour. */
  function ParameterAttrGetter<V>(owner: Owner<V>, name: string, defaults: seq<V>): (r: Result<Resolved<V>>)
    ensures !r.Ok? || !r.value.DefaultsTuple?
    ensures !Intercepted(owner, name) ==> r == ToAttribute(SafeGetattr(owner.lookup, name, defaults))
    ensures Intercepted(owner, name) && owner.lookup(name).Some? ==> r == Ok(Attribute(owner.lookup(name).value))
    ensures r.Ok? && r.value.Documented? ==>
      && Intercepted(owner, name) && owner.lookup(name).None?
      && Tidy(r.value.proxy.Repr())
      && exists i :: FirstNonSkipping(ScanAll(owner.mro), name, i) && Provides(ScanClass(owner.mro[i]), name, r.value.proxy)
    ensures (&& Intercepted(owner, name) && owner.lookup(name).None?
             && forall i :: 0 <= i < |owner.mro| ==> Skips(ScanClass(owner.mro[i]), name)) ==>
      r == ToAttribute(SafeGetattr(owner.lookup, name, defaults))
  {
    if !Intercepted(owner, name) then ToAttribute(SafeGetattr(owner.lookup, name, defaults))
    else
      match owner.lookup(name)
      case Some(v) => Ok(Attribute(v))
      case None =>
        var found :- MroLookup(ScanAll(owner.mro), name);
        match found
        case Some(proxy) =>
          MroFoundHasFirst(ScanAll(owner.mro), name);
          Ok(Documented(proxy))
        case None => ToAttribute(SafeGetattr(owner.lookup, name, defaults))
  }

  /** The hook as written: both fallbacks pass the tuple of default arguments
      itself as the single default, so a missing attribute yields that tuple
      and never raises. */
  function ParameterAttrGetterAsWritten<V>(owner: Owner<V>, name: string, defaults: seq<V>): (r: Result<Resolved<V>>)
    ensures owner.lookup(name).None? && !Intercepted(owner, name) ==> r == Ok(DefaultsTuple(defaults))
  {
    var withTuple := (lookup: string -> Option<V>) =>
      match lookup(name)
      case Some(v) => Ok(Attribute(v))
      case None => Ok(DefaultsTuple(defaults));
    if !Intercepted(owner, name) then withTuple(owner.lookup)
    else
      match owner.lookup(name)
      case Some(v) => Ok(Attribute(v))
      case None =>
        var found :- MroLookup(ScanAll(owner.mro), name);
        match found
        case Some(proxy) => Ok(Documented(proxy))
        case None => withTuple(owner.lookup)
  }

  /** The discrepancy: for an object outside the instrument hierarchy that
      lacks the attribute, the hook as written returns the tuple `(d,)`
      instead of the default `d`, and the empty tuple instead of raising
      `AttributeError` when no default is given. */
  lemma DefaultTupleLeaks<V>(owner: Owner<V>, name: string, d: V)
    requires owner.lookup(name).None? && !owner.isClass
    ensures ParameterAttrGetterAsWritten(owner, name, [d]) == Ok(DefaultsTuple([d]))
    ensures ParameterAttrGetter(owner, name, [d]) == Ok(Attribute(d))
    ensures ParameterAttrGetterAsWritten(owner, name, []) == Ok(DefaultsTuple([]))
    ensures ParameterAttrGetter(owner, name, []) == Err(AttributeError)
  {
  }

  /** The resolution order: with the normal lookup failing, the first class
      of the resolution order that does not skip the name decides the
      result. */
  lemma {:induction false} FirstClassDecides<V>(owner: Owner<V>, name: string, defaults: seq<V>, i: int)
    requires Intercepted(owner, name) && owner.lookup(name).None?
    requires FirstNonSkipping(ScanAll(owner.mro), name, i)
    ensures ParameterAttrGetter(owner, name, defaults).Ok? ==>
      exists proxy :: ParameterAttrGetter(owner, name, defaults) == Ok(Documented(proxy)) && Provides(ScanClass(owner.mro[i]), name, proxy)
    ensures ParameterAttrGetter(owner, name, defaults).Err? ==>
      ScanClass(owner.mro[i]) == Err(ParameterAttrGetter(owner, name, defaults).error)
  {
    MroFirstDecides(ScanAll(owner.mro), name, i);
  }
}
