/** Weights streamed into a module just before its forward call and evicted after it, under nested and failing calls. */
module ShardHooks {
  import opened Basics

  type Module = nat

  /**
   * One forward call: the module, the weight whose hydration fails if any, the calls its forward makes in turn,
   * whether the forward itself then raises, and whether the caller catches what this call raises.
   */
  datatype Call = Call(m: Module, fault: Option<nat>, body: seq<Call>, raises: bool, caught: bool)

  /** What a forward body finds when it runs: the modules being called and the modules whose weights are loaded. */
  datatype Seen = Seen(path: set<Module>, loaded: set<Module>)

  datatype Outcome = Outcome(loaded: set<Module>, raised: bool, seen: seq<Seen>)

  /** A whole call. The after-hook runs even when the before-hook raised. */
  function Run(c: Call, loaded: set<Module>, path: set<Module>): Outcome
    decreases c
  {
    if c.m in loaded then Outcome(loaded - {c.m}, true, [])
    else if c.fault.Some? then Outcome(loaded, true, [])
    else
      var inner := RunBody(c.body, loaded + {c.m}, path + {c.m});
      Outcome(inner.loaded - {c.m}, inner.raised || c.raises, inner.seen)
  }

  function RunBody(body: seq<Call>, loaded: set<Module>, path: set<Module>): Outcome
    decreases body
  {
    var now := Seen(path, loaded);
    if body == [] then Outcome(loaded, false, [now])
    else
      var first := Run(body[0], loaded, path);
      if first.raised && !body[0].caught then Outcome(first.loaded, true, [now] + first.seen)
      else
        var rest := RunBody(body[1..], first.loaded, path);
        Outcome(rest.loaded, rest.raised, [now] + first.seen + rest.seen)
  }

  /* Every call: nothing outlives it, and only modules being called are loaded. */

  ghost predicate OnPath(seen: seq<Seen>) {
    forall k :: 0 <= k < |seen| ==> seen[k].loaded <= seen[k].path
  }

  lemma {:induction false} CallLeavesNothing(c: Call, loaded: set<Module>, path: set<Module>)
    requires loaded <= path
    ensures Run(c, loaded, path).loaded <= loaded && OnPath(Run(c, loaded, path).seen)
    ensures c.m !in Run(c, loaded, path).loaded
    decreases c
  {
    if c.m !in loaded && c.fault.None? {
      BodyLeavesNothing(c.body, loaded + {c.m}, path + {c.m});
    }
  }

  lemma {:induction false} BodyLeavesNothing(body: seq<Call>, loaded: set<Module>, path: set<Module>)
    requires loaded <= path
    ensures RunBody(body, loaded, path).loaded <= loaded && OnPath(RunBody(body, loaded, path).seen)
    decreases body
  {
    if body != [] {
      CallLeavesNothing(body[0], loaded, path);
      BodyLeavesNothing(body[1..], Run(body[0], loaded, path).loaded, path);
    }
  }

  /** Once the outermost call returns or raises, every weight is back on the meta device. */
  lemma OutermostCallEvictsAll(c: Call)
    ensures Run(c, {}, {}).loaded == {} && OnPath(Run(c, {}, {}).seen)
  {
    CallLeavesNothing(c, {}, {});
  }

  /* When the loaded modules are exactly the ones being called. */

  ghost predicate Exact(seen: seq<Seen>) {
    forall k :: 0 <= k < |seen| ==> seen[k].loaded == seen[k].path
  }

  /** The call raises, given the modules already being called. */
  predicate Fails(c: Call, path: set<Module>)
    decreases c
  {
    c.m in path || c.fault.Some? || BodyFails(c.body, path + {c.m}) || c.raises
  }

  predicate BodyFails(body: seq<Call>, path: set<Module>)
    decreases body
  {
    body != [] && ((Fails(body[0], path) && !body[0].caught) || BodyFails(body[1..], path))
  }

  /** The module on the path that the call re-enters and fails for, if its exception leaves the call. */
  function Reentered(c: Call, path: set<Module>): (r: set<Module>)
    ensures r <= path
    decreases c
  {
    if c.m in path then {c.m}
    else if c.fault.Some? then {}
    else BodyReentered(c.body, path + {c.m}) - {c.m}
  }

  function BodyReentered(body: seq<Call>, path: set<Module>): (r: set<Module>)
    ensures r <= path
    decreases body
  {
    if body == [] then {}
    else if Fails(body[0], path) && !body[0].caught then Reentered(body[0], path)
    else BodyReentered(body[1..], path)
  }

  /** Some forward catches a re-entrance of a module that is still being called. */
  predicate Swallows(c: Call, path: set<Module>)
    decreases c
  {
    c.m !in path && c.fault.None? && BodySwallows(c.body, path + {c.m})
  }

  predicate BodySwallows(body: seq<Call>, path: set<Module>)
    decreases body
  {
    && body != []
    && (|| Swallows(body[0], path)
        || (body[0].caught && Reentered(body[0], path) != {})
        || (!(Fails(body[0], path) && !body[0].caught) && BodySwallows(body[1..], path)))
  }

  ghost predicate AsPredicted(o: Outcome, path: set<Module>, fails: bool, reentered: set<Module>, swallows: bool) {
    && (swallows ==> !Exact(o.seen))
    && (!swallows ==> o.loaded == path - reentered && o.raised == fails && Exact(o.seen) && (reentered != {} ==> fails))
  }

  lemma ExactConcat(a: seq<Seen>, b: seq<Seen>)
    ensures Exact(a + b) <==> Exact(a) && Exact(b)
  {
    if Exact(a + b) {
      assert forall k :: 0 <= k < |a| ==> (a + b)[k] == a[k];
      assert forall k :: 0 <= k < |b| ==> (a + b)[|a| + k] == b[k];
    }
  }

  lemma {:induction false} CallAsPredicted(c: Call, path: set<Module>)
    ensures AsPredicted(Run(c, path, path), path, Fails(c, path), Reentered(c, path), Swallows(c, path))
    decreases c
  {
    if c.m !in path && c.fault.None? {
      BodyAsPredicted(c.body, path + {c.m});
    }
  }

  lemma {:induction false} BodyAsPredicted(body: seq<Call>, path: set<Module>)
    ensures AsPredicted(RunBody(body, path, path), path, BodyFails(body, path), BodyReentered(body, path), BodySwallows(body, path))
    decreases body
  {
    if body != [] {
      var now, first := [Seen(path, path)], Run(body[0], path, path);
      CallAsPredicted(body[0], path);
      ExactConcat(now, first.seen);
      var rest := RunBody(body[1..], first.loaded, path);
      ExactConcat(now + first.seen, rest.seen);
      if Swallows(body[0], path) {
      } else if body[0].caught && Reentered(body[0], path) != {} {
        assert rest.seen[0] == Seen(path, first.loaded);
      } else if !(first.raised && !body[0].caught) {
        assert Reentered(body[0], path) == {};
        assert first.loaded == path;
        BodyAsPredicted(body[1..], path);
      }
    }
  }

  /** Every forward body finds exactly the modules being called loaded, unless a re-entrance is swallowed inside. */
  lemma LoadedIsPathIff(c: Call)
    ensures Exact(Run(c, {}, {}).seen) <==> !Swallows(c, {})
  {
    CallAsPredicted(c, {});
  }

  /** No forward catches what a nested call raises. */
  predicate NeverCatches(body: seq<Call>)
    decreases body
  {
    body == [] || (!body[0].caught && NeverCatches(body[0].body) && NeverCatches(body[1..]))
  }

  lemma {:induction false} NeverCatchesNeverSwallows(body: seq<Call>, path: set<Module>)
    requires NeverCatches(body)
    ensures !BodySwallows(body, path)
    decreases body
  {
    if body != [] {
      NeverCatchesNeverSwallows(body[0].body, path + {body[0].m});
      NeverCatchesNeverSwallows(body[1..], path);
    }
  }

  /** Modules whose failures go straight through always find their weights, however they nest. */
  lemma PropagatingCallsAreExact(c: Call)
    requires NeverCatches(c.body)
    ensures Exact(Run(c, {}, {}).seen)
  {
    NeverCatchesNeverSwallows(c.body, {} + {c.m});
    LoadedIsPathIff(c);
  }

  /** A module that calls itself and catches the refusal goes on without its weights. */
  lemma SwallowedReentranceUnloads(m: Module)
    ensures
      var c := Call(m, None, [Call(m, None, [], false, true)], false, false);
      Swallows(c, {}) && Run(c, {}, {}).seen == [Seen({m}, {m}), Seen({m}, {})]
  {
    var again := Call(m, None, [], false, true);
    var c := Call(m, None, [again], false, false);
    var path := {m};
    assert {} + {m} == path && {m} - {m} == {};
    assert [again][1..] == [];
    assert RunBody([], {}, path).seen == [Seen(path, {})];
    assert Run(again, path, path).seen == [];
    assert RunBody([again], path, path).seen == [Seen(path, path)] + [] + [Seen(path, {})];
    assert Reentered(again, path) == {m};
    assert BodySwallows([again], path);
  }

  /* The hooks themselves. */

  class NativeOriginalShardHooks {
    /** How many weights and persistent buffers each module has. */
    const entries: Module -> nat
    var loaded: set<Module>
    /** The weights that are off the meta device. */
    var live: set<(Module, nat)>

    constructor (entries: Module -> nat)
      ensures this.entries == entries && loaded == {} && live == {}
    {
      this.entries := entries;
      loaded, live := {}, {};
    }

    /** Exactly the weights of the loaded modules are materialized. */
    ghost predicate Valid()
      reads this
    {
      forall e :: e in live <==> e.0 in loaded && e.1 < entries(e.0)
    }

    /** `_evict`: the first `count` weights of a module go back to the meta device. */
    method Evict(m: Module, count: nat)
      modifies this
      ensures loaded == old(loaded) - {m}
      ensures forall e :: e in live <==> e in old(live) && !(e.0 == m && e.1 < count)
    {
      var i := 0;
      while i < count
        invariant 0 <= i <= count
        invariant loaded == old(loaded)
        invariant forall e :: e in live <==> e in old(live) && !(e.0 == m && e.1 < i)
      {
        live := live - {(m, i)};
        i := i + 1;
      }
      loaded := loaded - {m};
    }

    /** The before-hook: refuses a live module, and takes back what it hydrated when a weight fails. */
    method Before(m: Module, fault: Option<nat>) returns (ok: bool)
      requires Valid()
      modifies this
      ensures Valid()
      ensures ok <==> m !in old(loaded) && fault.None?
      ensures loaded == if ok then old(loaded) + {m} else old(loaded)
    {
      if m in loaded {
        return false;
      }
      var i := 0;
      while i < entries(m)
        invariant 0 <= i <= entries(m)
        invariant loaded == old(loaded)
        invariant forall e :: e in live <==> (e.0 in loaded && e.1 < entries(e.0)) || (e.0 == m && e.1 < i)
      {
        if fault == Some(i) {
          Evict(m, i);
          return false;
        }
        live := live + {(m, i)};
        i := i + 1;
      }
      if fault.Some? {
        Evict(m, entries(m));
        return false;
      }
      loaded := loaded + {m};
      ok := true;
    }

    /** The after-hook. */
    method After(m: Module)
      requires Valid()
      modifies this
      ensures Valid() && loaded == old(loaded) - {m}
    {
      if m in loaded {
        Evict(m, entries(m));
      }
    }

    /** A forward call under the hooks: the materialized weights are always exactly those of `loaded`. */
    method Forward(c: Call, ghost path: set<Module>) returns (raised: bool, ghost seen: seq<Seen>)
      requires Valid()
      modifies this
      ensures Valid()
      ensures Outcome(loaded, raised, seen) == Run(c, old(loaded), path)
      decreases c
    {
      ghost var before := loaded;
      seen := [];
      var ok := Before(c.m, c.fault);
      if ok {
        raised, seen := ForwardBody(c.body, path + {c.m});
        raised := raised || c.raises;
      } else {
        raised := true;
      }
      After(c.m);
      assert c.m !in before && c.fault.Some? ==> loaded == before;
    }

    method ForwardBody(body: seq<Call>, ghost path: set<Module>) returns (raised: bool, ghost seen: seq<Seen>)
      requires Valid()
      modifies this
      ensures Valid()
      ensures Outcome(loaded, raised, seen) == RunBody(body, old(loaded), path)
      decreases body
    {
      seen := [Seen(path, loaded)];
      if body == [] {
        return false, seen;
      }
      ghost var more;
      raised, more := Forward(body[0], path);
      seen := seen + more;
      if raised && !body[0].caught {
        return;
      }
      raised, more := ForwardBody(body[1..], path);
      seen := seen + more;
    }
  }

  /* Construction: which weights the hooks must find. */

  /** A module of the model: its dotted name, its own parameters and its own buffers. */
  datatype Part = Part(prefix: string, parameters: seq<string>, buffers: seq<string>)

  function KeyOf(prefix: string, name: string): string {
    if prefix == "" then name else prefix + "." + name
  }

  /** No two weights share a key, as names have no dots. */
  lemma KeysDiffer(prefix: string, name: string, prefix': string, name': string)
    requires '.' !in name && '.' !in name'
    ensures KeyOf(prefix, name) == KeyOf(prefix', name') <==> prefix == prefix' && name == name'
    ensures EndsWith(KeyOf(prefix, name), name) && prefix <= KeyOf(prefix, name)
  {
    var key, key' := KeyOf(prefix, name), KeyOf(prefix', name');
    assert prefix != "" ==> key[|prefix| + 1..] == name && key[..|prefix|] == prefix;
    assert prefix' != "" ==> key'[|prefix'| + 1..] == name' && key'[..|prefix'|] == prefix';
    if key == key' {
      NotShorter(prefix, name, prefix', name');
      NotShorter(prefix', name', prefix, name);
    }
  }

  lemma NotShorter(prefix: string, name: string, prefix': string, name': string)
    requires '.' !in name' && KeyOf(prefix, name) == KeyOf(prefix', name')
    ensures |name| >= |name'|
  {
    var key := KeyOf(prefix, name);
    assert key[|key| - |name'|..] == name';
    var dot := |key| - |name| - 1;
    assert dot >= 0 ==> key[dot] == '.';
  }

  ghost predicate Spells(prefix: string, names: seq<string>, key: string) {
    exists i :: 0 <= i < |names| && KeyOf(prefix, names[i]) == key
  }

  ghost predicate IsParameter(parts: seq<Part>, key: string) {
    exists p :: 0 <= p < |parts| && Spells(parts[p].prefix, parts[p].parameters, key)
  }

  ghost predicate IsBuffer(parts: seq<Part>, key: string) {
    exists p :: 0 <= p < |parts| && Spells(parts[p].prefix, parts[p].buffers, key)
  }

  method PartPaths(part: Part, index: set<string>) returns (paths: seq<string>)
    ensures forall key :: key in paths <==>
      Spells(part.prefix, part.parameters, key) || (key in index && Spells(part.prefix, part.buffers, key))
  {
    paths := [];
    for k := 0 to |part.parameters|
      invariant forall key :: key in paths <==> Spells(part.prefix, part.parameters[..k], key)
    {
      SpellsMore(part.prefix, part.parameters, k);
      paths := paths + [KeyOf(part.prefix, part.parameters[k])];
    }
    assert part.parameters[..|part.parameters|] == part.parameters;
    ghost var own := paths;
    for k := 0 to |part.buffers|
      invariant forall key :: key in paths <==> key in own || (key in index && Spells(part.prefix, part.buffers[..k], key))
    {
      SpellsMore(part.prefix, part.buffers, k);
      var key := KeyOf(part.prefix, part.buffers[k]);
      if key in index {
        paths := paths + [key];
      }
    }
    assert part.buffers[..|part.buffers|] == part.buffers;
  }

  lemma SpellsMore(prefix: string, names: seq<string>, k: nat)
    requires k < |names|
    ensures forall key :: Spells(prefix, names[..k + 1], key) <==> Spells(prefix, names[..k], key) || KeyOf(prefix, names[k]) == key
  {
    hide KeyOf;
    var less, more := names[..k], names[..k + 1];
    forall key
      ensures Spells(prefix, more, key) <==> Spells(prefix, less, key) || KeyOf(prefix, names[k]) == key
    {
      if Spells(prefix, less, key) {
        var i :| 0 <= i < k && KeyOf(prefix, less[i]) == key;
        assert more[i] == less[i];
      }
      assert forall i :: 0 <= i < k ==> more[i] == less[i];
      assert more[k] == names[k];
    }
  }

  /**
   * The constructor's coverage check succeeds exactly when the index is not empty, names every parameter of the
   * model, and names nothing else but buffers of the model; the weights it registers are then the index.
   */
  method Register(parts: seq<Part>, index: set<string>) returns (r: Result<seq<seq<string>>>)
    ensures r.Ok? <==>
      && index != {}
      && (forall key :: IsParameter(parts, key) ==> key in index)
      && (forall key :: key in index ==> IsParameter(parts, key) || IsBuffer(parts, key))
    ensures r.Ok? ==> forall key :: key in index <==> key in Concat(r.value)
  {
    var names: set<string> := {};
    var registered: seq<seq<string>> := [];
    for p := 0 to |parts|
      invariant names <= index
      invariant forall key :: key in names <==> IsParameter(parts[..p], key) || (key in index && IsBuffer(parts[..p], key))
      invariant forall key :: key in names <==> key in Concat(registered)
      invariant registered == [] <==> names == {}
    {
      var paths := PartPaths(parts[p], index);
      PrefixKeys(parts, p);
      if paths == [] {
        continue;
      }
      if exists key <- paths :: key !in index {
        assert exists key :: IsParameter(parts, key) && key !in index;
        return Raised;
      }
      ConcatAppend(registered, paths);
      names := names + (set key | key in paths);
      assert paths[0] in names;
      registered := registered + [paths];
    }
    assert parts[..|parts|] == parts;
    if index - names != {} || registered == [] {
      return Raised;
    }
    return Ok(registered);
  }

  lemma PrefixKeys(parts: seq<Part>, p: nat)
    requires p < |parts|
    ensures forall key :: IsParameter(parts[..p + 1], key) <==>
      IsParameter(parts[..p], key) || Spells(parts[p].prefix, parts[p].parameters, key)
    ensures forall key :: IsBuffer(parts[..p + 1], key) <==>
      IsBuffer(parts[..p], key) || Spells(parts[p].prefix, parts[p].buffers, key)
  {
    hide Spells;
    var less, more := parts[..p], parts[..p + 1];
    assert more == less + [parts[p]];
    assert more[p] == parts[p] && forall i :: 0 <= i < p ==> more[i] == less[i];
  }

  /* Adapter targets. */

  datatype Choice = Target(name: string) | Unknown | Ambiguous | Root

  function StripIf(target: string, wrapper: string, names: set<string>): string {
    if target !in names && wrapper <= target then target[|wrapper|..] else target
  }

  function Stripped(prefix: string, names: set<string>): string {
    StripIf(StripIf(StripIf(prefix, "base_model.model.", names), "transformer.", names), "model.", names)
  }

  function Matches(prefix: string, names: set<string>): set<string> {
    set name | name in names && name != "" && EndsWith(prefix, "." + name)
  }

  function Longest(names: set<string>): set<string> {
    set name | name in names && forall other <- names :: |other| <= |name|
  }

  /** Two names of the same length that end the same key are the same name. */
  lemma LongestAgree(prefix: string, names: set<string>)
    ensures forall a, b :: a in Longest(Matches(prefix, names)) && b in Longest(Matches(prefix, names)) ==> a == b
  {
    forall a, b | a in Longest(Matches(prefix, names)) && b in Longest(Matches(prefix, names))
      ensures a == b
    {
      assert ("." + a)[1..] == a && ("." + b)[1..] == b;
    }
  }

  lemma {:induction false} LongestExists(names: set<string>)
    requires names != {}
    ensures Longest(names) != {}
  {
    var name :| name in names;
    if names == {name} {
      assert name in Longest(names);
    } else {
      LongestExists(names - {name});
      var best :| best in Longest(names - {name});
      assert (if |best| < |name| then name else best) in Longest(names);
    }
  }

  /** The module an adapter key targets. */
  function ChooseTarget(prefix: string, names: set<string>): Choice {
    var stripped := Stripped(prefix, names);
    var longest := Longest(Matches(prefix, names));
    if stripped in names then if stripped == "" then Root else Target(stripped)
    else if Matches(prefix, names) == {} then Unknown
    else if |longest| != 1 then Ambiguous
    else
      LongestAgree(prefix, names);
      var name :| name in longest;
      Target(name)
  }

  /** The suffix rule never finds a tie, so a key is either known or unknown, and the longest match wins. */
  lemma TargetIsNeverAmbiguous(prefix: string, names: set<string>)
    ensures ChooseTarget(prefix, names) != Ambiguous
    ensures ChooseTarget(prefix, names).Unknown? <==> Stripped(prefix, names) !in names && Matches(prefix, names) == {}
    ensures Stripped(prefix, names) !in names ==> forall name :: name in Matches(prefix, names) ==>
      ChooseTarget(prefix, names).Target? && |name| <= |ChooseTarget(prefix, names).name|
    ensures ChooseTarget(prefix, names).Target? ==> ChooseTarget(prefix, names).name in names - {""}
  {
    var matches := Matches(prefix, names);
    if matches != {} {
      LongestAgree(prefix, names);
      LongestExists(matches);
      var best :| best in Longest(matches);
      assert Longest(matches) == {best};
    }
  }

  function Wrapper(on: bool, wrapper: string): string {
    if on then wrapper else ""
  }

  /** A module's name, plain or in any of the three wrappers, nested in their order, targets it unless a longer form is a name itself. */
  lemma WrappersAreStripped(base: bool, transformer: bool, model: bool, name: string, names: set<string>)
    requires name in names && name != ""
    requires model ==> "model." + name !in names
    requires transformer ==> "transformer." + (Wrapper(model, "model.") + name) !in names
    requires base ==> "base_model.model." + (Wrapper(transformer, "transformer.") + (Wrapper(model, "model.") + name)) !in names
    ensures
      var prefix := Wrapper(base, "base_model.model.") + (Wrapper(transformer, "transformer.") + (Wrapper(model, "model.") + name));
      ChooseTarget(prefix, names) == Target(name)
  {
    var inner := Wrapper(model, "model.") + name;
    var middle := Wrapper(transformer, "transformer.") + inner;
    var prefix := Wrapper(base, "base_model.model.") + middle;
    StripOne(base, "base_model.model.", middle, names);
    StripOne(transformer, "transformer.", inner, names);
    StripOne(model, "model.", name, names);
    assert "base_model.model."[0] == 'b' && "transformer."[0] == 't' && "model."[0] == 'm';
    assert transformer ==> middle[0] == 't';
    assert model ==> inner[0] == 'm';
    assert StripIf(prefix, "base_model.model.", names) == middle;
    assert StripIf(middle, "transformer.", names) == inner;
    assert StripIf(inner, "model.", names) == name;
  }

  lemma StripOne(on: bool, wrapper: string, rest: string, names: set<string>)
    requires on ==> wrapper + rest !in names
    ensures on ==> StripIf(Wrapper(on, wrapper) + rest, wrapper, names) == rest
    ensures !on ==> Wrapper(on, wrapper) + rest == rest && (rest in names || !(wrapper <= rest) ==> StripIf(rest, wrapper, names) == rest)
  {
    assert "" + rest == rest;
    assert (wrapper + rest)[|wrapper|..] == rest;
  }
}
