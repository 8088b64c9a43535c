/**
 * The environment a probe is started with: built once from one snapshot of the source,
 * independent of the order in which the source lists its variables.
 *
 * `fold` is what the platform does to a name before comparing it: upper-casing on Windows,
 * nothing elsewhere. A plain source's properties are listed once each; symbols are no names.
 */
module ProbeEnv {
  import opened Base

  datatype Value = Text(text: string) | NotText

  datatype Content = Data(value: Value) | Accessor

  datatype Property = Property(name: string, enumerable: bool, content: Content)

  datatype Source = Proxied | Plain(properties: seq<Property>)

  datatype Constant = Constant(name: string, value: string)

  datatype Policy = Policy(allowlist: seq<string>, constants: seq<Constant>)

  datatype Refusal = Unreadable | Collision

  type Env = map<string, string>

  // ------------------------------------------------------------------ snapshot

  /** The allow-listed name behind each folded name. */
  function Wanted(allowlist: seq<string>, fold: string -> string): map<string, string> {
    if allowlist == [] then map[]
    else
      var init, last := Wanted(allowlist[..|allowlist| - 1], fold), allowlist[|allowlist| - 1];
      init[fold(last) := last]
  }

  /** This property is the variable `name`, as the platform reads names. */
  predicate Names(wanted: map<string, string>, fold: string -> string, p: Property, name: string) {
    p.enumerable && fold(p.name) in wanted && wanted[fold(p.name)] == name
  }

  /** Every property that is the variable `name`, in the source's order. */
  function Matches(wanted: map<string, string>, fold: string -> string, ps: seq<Property>, name: string): seq<Content> {
    if ps == [] then []
    else
      var init, last := Matches(wanted, fold, ps[..|ps| - 1], name), ps[|ps| - 1];
      if Names(wanted, fold, last, name) then init + [last.content] else init
  }

  function Found(found: map<string, seq<Content>>, name: string): seq<Content> {
    if name in found then found[name] else []
  }

  method SnapshotAllowlistProperties(ps: seq<Property>, allowlist: seq<string>, fold: string -> string)
    returns (found: map<string, seq<Content>>)
    ensures forall name :: Found(found, name) == Matches(Wanted(allowlist, fold), fold, ps, name)
  {
    var wanted: map<string, string> := map[];
    for i := 0 to |allowlist|
      invariant wanted == Wanted(allowlist[..i], fold)
    {
      assert allowlist[..i + 1][..i] == allowlist[..i];
      wanted := wanted[fold(allowlist[i]) := allowlist[i]];
    }
    assert allowlist[..|allowlist|] == allowlist;
    NothingMatches(wanted, fold);
    hide Matches, Wanted;
    found := map[];
    assert ps[..0] == [];
    for i := 0 to |ps|
      invariant forall name :: Found(found, name) == Matches(wanted, fold, ps[..i], name)
    {
      var p := ps[i];
      MatchesAppend(wanted, fold, ps[..i], p);
      assert ps[..i + 1] == ps[..i] + [p];
      if fold(p.name) in wanted && p.enumerable {
        var canonical := wanted[fold(p.name)];
        found := found[canonical := Found(found, canonical) + [p.content]];
      }
    }
    assert ps[..|ps|] == ps;
  }

  lemma NothingMatches(wanted: map<string, string>, fold: string -> string)
    ensures forall name :: Matches(wanted, fold, [], name) == []
  {
  }

  lemma MatchesAppend(wanted: map<string, string>, fold: string -> string, ps: seq<Property>, p: Property)
    ensures forall name ::
      Matches(wanted, fold, ps + [p], name)
      == Matches(wanted, fold, ps, name) + (if Names(wanted, fold, p, name) then [p.content] else [])
  {
    assert (ps + [p])[..|ps|] == ps;
  }

  // --------------------------------------------------------------------- result

  predicate Ambiguous(found: string -> seq<Content>, allowlist: seq<string>) {
    exists i | 0 <= i < |allowlist| :: |found(allowlist[i])| > 1
  }

  predicate Refusing(found: string -> seq<Content>, allowlist: seq<string>) {
    exists i | 0 <= i < |allowlist| :: found(allowlist[i]) != [] && found(allowlist[i])[0].Accessor?
  }

  function ValueIn(matches: seq<Content>): Option<string> {
    if matches != [] && matches[0].Data? && matches[0].value.Text? && matches[0].value.text != ""
    then Some(matches[0].value.text) else None
  }

  function Forwarded(found: string -> seq<Content>, allowlist: seq<string>): Env {
    if allowlist == [] then map[]
    else
      var init, last := Forwarded(found, allowlist[..|allowlist| - 1]), allowlist[|allowlist| - 1];
      if ValueIn(found(last)).Some? then init[last := ValueIn(found(last)).value] else init
  }

  function WithConstants(env: Env, constants: seq<Constant>): Env {
    if constants == [] then env
    else
      var last := constants[|constants| - 1];
      WithConstants(env, constants[..|constants| - 1])[last.name := last.value]
  }

  /** What is built from a snapshot: all of it, or nothing. */
  function Built(policy: Policy, found: string -> seq<Content>): Result<Env, Refusal> {
    if Ambiguous(found, policy.allowlist) then Err(Collision)
    else if Refusing(found, policy.allowlist) then Err(Unreadable)
    else Ok(WithConstants(Forwarded(found, policy.allowlist), policy.constants))
  }

  function SnapshotOf(policy: Policy, ps: seq<Property>, fold: string -> string): string -> seq<Content> {
    name => Matches(Wanted(policy.allowlist, fold), fold, ps, name)
  }

  function ProbeEnvOf(policy: Policy, source: Source, fold: string -> string): Result<Env, Refusal> {
    if source.Proxied? then Err(Unreadable) else Built(policy, SnapshotOf(policy, source.properties, fold))
  }

  function Lookup(found: map<string, seq<Content>>): string -> seq<Content> {
    name => Found(found, name)
  }

  /** Every allow-listed name is checked before a single value is used. */
  method CheckAmbiguity(allowlist: seq<string>, found: map<string, seq<Content>>) returns (ambiguous: bool)
    ensures ambiguous == Ambiguous(Lookup(found), allowlist)
  {
    for i := 0 to |allowlist|
      invariant forall k | 0 <= k < i :: |Lookup(found)(allowlist[k])| <= 1
    {
      if |Found(found, allowlist[i])| > 1 {
        assert |Lookup(found)(allowlist[i])| > 1;
        return true;
      }
    }
    return false;
  }

  method TakeValues(allowlist: seq<string>, found: map<string, seq<Content>>) returns (env: Option<Env>)
    ensures env == if Refusing(Lookup(found), allowlist) then None else Some(Forwarded(Lookup(found), allowlist))
  {
    var taken: Env := map[];
    for i := 0 to |allowlist|
      invariant forall k | 0 <= k < i :: Lookup(found)(allowlist[k]) == [] || !Lookup(found)(allowlist[k])[0].Accessor?
      invariant taken == Forwarded(Lookup(found), allowlist[..i])
    {
      assert allowlist[..i + 1][..i] == allowlist[..i];
      var matches := Found(found, allowlist[i]);
      assert matches == Lookup(found)(allowlist[i]);
      if matches != [] {
        if matches[0].Accessor? { return None; }
        if ValueIn(matches).Some? { taken := taken[allowlist[i] := matches[0].value.text]; }
      }
    }
    assert allowlist[..|allowlist|] == allowlist;
    return Some(taken);
  }

  method AddConstants(values: Env, constants: seq<Constant>) returns (env: Env)
    ensures env == WithConstants(values, constants)
  {
    env := values;
    for i := 0 to |constants|
      invariant env == WithConstants(values, constants[..i])
    {
      assert constants[..i + 1][..i] == constants[..i];
      env := env[constants[i].name := constants[i].value];
    }
    assert constants[..|constants|] == constants;
  }

  method CreateProbeEnv(policy: Policy, source: Source, fold: string -> string) returns (r: Result<Env, Refusal>)
    ensures r == ProbeEnvOf(policy, source, fold)
  {
    hide Matches, Wanted, Ambiguous, Refusing, Forwarded, WithConstants, Found;
    if source.Proxied? { return Err(Unreadable); }
    var found := SnapshotAllowlistProperties(source.properties, policy.allowlist, fold);
    ghost var snapshot := SnapshotOf(policy, source.properties, fold);
    assert forall name :: Lookup(found)(name) == snapshot(name);
    SameSnapshotSameEnv(policy, Lookup(found), snapshot);
    var ambiguous := CheckAmbiguity(policy.allowlist, found);
    if ambiguous { return Err(Collision); }
    var values := TakeValues(policy.allowlist, found);
    if values.None? { return Err(Unreadable); }
    var env := AddConstants(values.value, policy.constants);
    return Ok(env);
  }

  // --------------------------------------------------------- order independence

  /** How often each content occurs among the matches depends on the source as a bag. */
  lemma {:induction false} MatchesAsBag(
    wanted: map<string, string>, fold: string -> string, ps: seq<Property>, name: string, c: Content)
    ensures multiset(Matches(wanted, fold, ps, name))[c]
      == |multiset(Hits(wanted, fold, ps, name, c))|
    decreases |ps|
  {
    if ps != [] {
      MatchesAsBag(wanted, fold, ps[..|ps| - 1], name, c);
    }
  }

  /** The properties that are `name` and hold `c`. */
  function Hits(
    wanted: map<string, string>, fold: string -> string, ps: seq<Property>, name: string, c: Content): seq<Property>
  {
    if ps == [] then []
    else
      var init, last := Hits(wanted, fold, ps[..|ps| - 1], name, c), ps[|ps| - 1];
      if Names(wanted, fold, last, name) && last.content == c then init + [last] else init
  }

  lemma {:induction false} HitsAsBag(
    wanted: map<string, string>, fold: string -> string, ps: seq<Property>, name: string, c: Content, p: Property)
    ensures multiset(Hits(wanted, fold, ps, name, c))[p]
      == if Names(wanted, fold, p, name) && p.content == c then multiset(ps)[p] else 0
    decreases |ps|
  {
    if ps != [] {
      var init, last := ps[..|ps| - 1], ps[|ps| - 1];
      HitsAsBag(wanted, fold, init, name, c, p);
      assert ps == init + [last];
    }
  }

  lemma SameMatches(wanted: map<string, string>, fold: string -> string, ps: seq<Property>, qs: seq<Property>, name: string)
    requires multiset(ps) == multiset(qs)
    ensures multiset(Matches(wanted, fold, ps, name)) == multiset(Matches(wanted, fold, qs, name))
  {
    forall c ensures
      multiset(Matches(wanted, fold, ps, name))[c] == multiset(Matches(wanted, fold, qs, name))[c]
    {
      forall p ensures multiset(Hits(wanted, fold, ps, name, c))[p] == multiset(Hits(wanted, fold, qs, name, c))[p] {
        HitsAsBag(wanted, fold, ps, name, c, p);
        HitsAsBag(wanted, fold, qs, name, c, p);
      }
      assert multiset(Hits(wanted, fold, ps, name, c)) == multiset(Hits(wanted, fold, qs, name, c));
      MatchesAsBag(wanted, fold, ps, name, c);
      MatchesAsBag(wanted, fold, qs, name, c);
    }
  }

  lemma SameBagSameWhenShort(a: seq<Content>, b: seq<Content>)
    requires multiset(a) == multiset(b)
    ensures |a| == |b| && (|a| <= 1 ==> a == b)
  {
    assert |a| == |multiset(a)| && |b| == |multiset(b)|;
    if |a| == 1 {
      assert a == [a[0]] && b == [b[0]];
      assert a[0] in multiset(a) && a[0] in multiset(b);
    }
  }

  /** Snapshots that agree wherever a name is unambiguous build the same thing. */
  lemma SameSnapshotSameEnv(policy: Policy, f: string -> seq<Content>, g: string -> seq<Content>)
    requires forall name :: |f(name)| == |g(name)| && (|f(name)| <= 1 ==> f(name) == g(name))
    ensures Built(policy, f) == Built(policy, g)
  {
    assert Ambiguous(f, policy.allowlist) <==> Ambiguous(g, policy.allowlist);
    if !Ambiguous(f, policy.allowlist) {
      assert forall i | 0 <= i < |policy.allowlist| :: f(policy.allowlist[i]) == g(policy.allowlist[i]);
      assert Refusing(f, policy.allowlist) <==> Refusing(g, policy.allowlist);
      SameForwarded(f, g, policy.allowlist);
    }
  }

  lemma {:induction false} SameForwarded(f: string -> seq<Content>, g: string -> seq<Content>, allowlist: seq<string>)
    requires forall i | 0 <= i < |allowlist| :: f(allowlist[i]) == g(allowlist[i])
    ensures Forwarded(f, allowlist) == Forwarded(g, allowlist)
    decreases |allowlist|
  {
    if allowlist != [] { SameForwarded(f, g, allowlist[..|allowlist| - 1]); }
  }

  /** However the source lists its variables, the probe gets the same environment or the same refusal. */
  lemma OrderNeverMatters(policy: Policy, ps: seq<Property>, qs: seq<Property>, fold: string -> string)
    requires multiset(ps) == multiset(qs)
    ensures ProbeEnvOf(policy, Plain(ps), fold) == ProbeEnvOf(policy, Plain(qs), fold)
  {
    hide Built, Matches;
    var f, g := SnapshotOf(policy, ps, fold), SnapshotOf(policy, qs, fold);
    forall name ensures |f(name)| == |g(name)| && (|f(name)| <= 1 ==> f(name) == g(name)) {
      SameMatches(Wanted(policy.allowlist, fold), fold, ps, qs, name);
      SameBagSameWhenShort(f(name), g(name));
    }
    SameSnapshotSameEnv(policy, f, g);
  }

  // ------------------------------------------------------------- what is refused

  lemma {:induction false} MatchCount(wanted: map<string, string>, fold: string -> string, ps: seq<Property>, name: string)
    ensures |Matches(wanted, fold, ps, name)| > 0 <==> exists i | 0 <= i < |ps| :: Names(wanted, fold, ps[i], name)
    ensures |Matches(wanted, fold, ps, name)| > 1
      <==> exists i, j | 0 <= i < j < |ps| :: Names(wanted, fold, ps[i], name) && Names(wanted, fold, ps[j], name)
    decreases |ps|
  {
    if ps != [] {
      var n := |ps| - 1;
      MatchCount(wanted, fold, ps[..n], name);
      assert ps == ps[..n] + [ps[n]];
    }
  }

  /** Two enumerable spellings of one allow-listed variable refuse the whole build, and nothing else collides. */
  lemma CollisionIff(policy: Policy, ps: seq<Property>, fold: string -> string)
    ensures ProbeEnvOf(policy, Plain(ps), fold) == Err(Collision)
      <==> exists i, j, k | 0 <= i < |policy.allowlist| && 0 <= j < k < |ps| ::
             && Names(Wanted(policy.allowlist, fold), fold, ps[j], policy.allowlist[i])
             && Names(Wanted(policy.allowlist, fold), fold, ps[k], policy.allowlist[i])
  {
    hide Matches, Wanted, Names;
    var found := SnapshotOf(policy, ps, fold);
    forall i | 0 <= i < |policy.allowlist|
      ensures |found(policy.allowlist[i])| > 1
        <==> exists j, k | 0 <= j < k < |ps| ::
               && Names(Wanted(policy.allowlist, fold), fold, ps[j], policy.allowlist[i])
               && Names(Wanted(policy.allowlist, fold), fold, ps[k], policy.allowlist[i])
    {
      MatchCount(Wanted(policy.allowlist, fold), fold, ps, policy.allowlist[i]);
    }
  }

  // ----------------------------------------------------------- what gets through

  lemma {:induction false} ForwardedMeans(found: string -> seq<Content>, allowlist: seq<string>, name: string)
    ensures name in Forwarded(found, allowlist) <==> name in allowlist && ValueIn(found(name)).Some?
    ensures name in Forwarded(found, allowlist) ==> Forwarded(found, allowlist)[name] == ValueIn(found(name)).value
    decreases |allowlist|
  {
    if allowlist != [] {
      var init, last := allowlist[..|allowlist| - 1], allowlist[|allowlist| - 1];
      ForwardedMeans(found, init, name);
      assert allowlist == init + [last];
    }
  }

  lemma {:induction false} ConstantsMean(env: Env, constants: seq<Constant>, name: string)
    ensures
      var r := WithConstants(env, constants);
      if exists c | c in constants :: c.name == name
      then name in r && Constant(name, r[name]) in constants
      else (name in r <==> name in env) && (name in r ==> r[name] == env[name])
    decreases |constants|
  {
    if constants != [] {
      var init, last := constants[..|constants| - 1], constants[|constants| - 1];
      ConstantsMean(env, init, name);
      assert constants == init + [last];
    }
  }

  /** Only allow-listed variables, each with its one non-empty text, and the policy's own constants. */
  lemma OnlyAllowedGetsThrough(policy: Policy, ps: seq<Property>, fold: string -> string, name: string)
    requires ProbeEnvOf(policy, Plain(ps), fold).Ok?
    ensures
      var env := ProbeEnvOf(policy, Plain(ps), fold).value;
      var matches := Matches(Wanted(policy.allowlist, fold), fold, ps, name);
      if exists c | c in policy.constants :: c.name == name
      then name in env && Constant(name, env[name]) in policy.constants
      else
        && (name in env <==> name in policy.allowlist && ValueIn(matches).Some?)
        && (name in env ==> matches == [Data(Text(env[name]))] && env[name] != "")
  {
    hide Matches, Wanted;
    var found := SnapshotOf(policy, ps, fold);
    ForwardedMeans(found, policy.allowlist, name);
    ConstantsMean(Forwarded(found, policy.allowlist), policy.constants, name);
    if name in policy.allowlist {
      var i :| 0 <= i < |policy.allowlist| && policy.allowlist[i] == name;
      assert |found(policy.allowlist[i])| <= 1;
    }
  }
}
