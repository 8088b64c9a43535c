/**
 * The registry of launch accountants: who is asked before a launch, in which order, what a
 * refusal closes, and who leaves the registry.
 *
 * Accountants, domains and records are compared by identity only; identities are numbers.
 * What an accountant answers when asked is an input.
 */
module LaunchAccounting {
  import opened Base

  datatype Subscription = Subscription(accountant: nat, domain: Option<nat>)

  datatype Opening =
    | Recorded(record: nat)
    | EpochEnded
    | MustNotStart(detail: Option<string>)
    | Threw

  predicate Stops(o: Opening) { o.MustNotStart? || o.Threw? }

  /** The first entry of this accountant goes, whatever its domain. */
  function Evict(subs: seq<Subscription>, accountant: nat): seq<Subscription> {
    if subs == [] then []
    else if subs[0].accountant == accountant then subs[1..]
    else [subs[0]] + Evict(subs[1..], accountant)
  }

  /** Those who answer for this domain, in installation order. */
  function Audience(subs: seq<Subscription>, domain: Option<nat>): seq<nat> {
    if subs == [] then []
    else (if subs[0].domain == domain then [subs[0].accountant] else []) + Audience(subs[1..], domain)
  }

  /** How many of the audience are asked: all, or up to and with the first that stops the launch. */
  function AskedCount(audience: seq<nat>, answers: nat -> Opening): (k: nat)
    ensures k <= |audience|
    ensures forall i | 0 <= i < k - 1 :: !Stops(answers(audience[i]))
    ensures k < |audience| ==> k > 0 && Stops(answers(audience[k - 1]))
  {
    if audience == [] then 0
    else if Stops(answers(audience[0])) then 1 else 1 + AskedCount(audience[1..], answers)
  }

  predicate Refuses(audience: seq<nat>, answers: nat -> Opening) {
    exists a | a in audience :: Stops(answers(a))
  }

  function RecordsOf(asked: seq<nat>, answers: nat -> Opening): seq<nat> {
    if asked == [] then []
    else
      var init, last := RecordsOf(asked[..|asked| - 1], answers), answers(asked[|asked| - 1]);
      if last.Recorded? then init + [last.record] else init
  }

  function Without(subs: seq<Subscription>, asked: seq<nat>, answers: nat -> Opening): seq<Subscription> {
    if asked == [] then subs
    else
      var init, last := Without(subs, asked[..|asked| - 1], answers), asked[|asked| - 1];
      if answers(last).EpochEnded? then Evict(init, last) else init
  }

  /** The detail a refusal carries: the accountant's, or the fixed word for its kind. */
  function RefusalOf(o: Opening): string
    requires Stops(o)
  {
    if o.Threw? then "ACCOUNTANT_THREW"
    else if o.detail.Some? then o.detail.value else "LAUNCH_MUST_NOT_START"
  }

  class Registry {
    var installed: seq<Subscription>
    /** Every accountant asked, and every record closed, in order. */
    ghost var asked: seq<nat>
    ghost var closed: seq<nat>

    constructor ()
      ensures installed == [] && asked == [] && closed == []
    {
      installed, asked, closed := [], [], [];
    }

    method Install(accountant: nat, domain: Option<nat>) returns (handle: Disposer)
      modifies this`installed
      ensures installed == old(installed) + [Subscription(accountant, domain)]
      ensures fresh(handle) && handle.registry == this && handle.accountant == accountant && !handle.removed
    {
      installed := installed + [Subscription(accountant, domain)];
      handle := new Disposer(this, accountant);
    }

    method Remove(accountant: nat)
      modifies this`installed
      ensures installed == Evict(old(installed), accountant)
    {
      var index := 0;
      while index < |installed| && installed[index].accountant != accountant
        invariant 0 <= index <= |installed|
        invariant forall k | 0 <= k < index :: installed[k].accountant != accountant
      {
        index := index + 1;
      }
      EvictTakesTheFirst(installed, index, accountant);
      if index < |installed| {
        installed := installed[..index] + installed[index + 1..];
      }
    }

    method Close(records: seq<nat>)
      modifies this`closed
      ensures closed == old(closed) + records
    {
      for i := 0 to |records|
        invariant closed == old(closed) + records[..i]
      {
        closed := closed + [records[i]];
      }
      assert records[..|records|] == records;
    }

    method OpenOwnedLaunch(domain: Option<nat>, answers: nat -> Opening) returns (refusal: Option<string>, records: seq<nat>)
      modifies this
      ensures
        var audience := Audience(old(installed), domain);
        var heard := audience[..AskedCount(audience, answers)];
        && asked == old(asked) + heard
        && installed == Without(old(installed), heard, answers)
        && (refusal.Some? <==> Refuses(audience, answers))
        && (refusal.None? ==> heard == audience && records == RecordsOf(heard, answers) && closed == old(closed))
        && (refusal.Some? ==>
              && records == [] && closed == old(closed) + RecordsOf(heard, answers)
              && heard != [] && refusal == Some(RefusalOf(answers(heard[|heard| - 1]))))
    {
      hide Without, RecordsOf, Refuses, Audience, AskedCount, Evict;
      var audience := Audience(installed, domain);
      records := [];
      NobodyAsked(installed, answers);
      for i := 0 to |audience|
        invariant asked == old(asked) + audience[..i] && closed == old(closed)
        invariant installed == Without(old(installed), audience[..i], answers)
        invariant records == RecordsOf(audience[..i], answers)
        invariant forall k | 0 <= k < i :: !Stops(answers(audience[k]))
      {
        asked := asked + [audience[i]];
        var opening := answers(audience[i]);
        OneMoreAsked(old(installed), audience, i, answers);
        assert audience[..i + 1] == audience[..i] + [audience[i]];
        if opening.Recorded? {
          records := records + [opening.record];
        } else if opening.EpochEnded? {
          Remove(audience[i]);
        } else {
          AskedUpTo(audience, answers, i);
          Close(records);
          return Some(RefusalOf(opening)), [];
        }
      }
      assert audience[..|audience|] == audience;
      NobodyStops(audience, answers);
      return None, records;
    }
  }

  lemma NobodyAsked(subs: seq<Subscription>, answers: nat -> Opening)
    ensures Without(subs, [], answers) == subs && RecordsOf([], answers) == []
  {
  }

  lemma OneMoreAsked(subs: seq<Subscription>, audience: seq<nat>, i: nat, answers: nat -> Opening)
    requires i < |audience|
    ensures
      var o := answers(audience[i]);
      && RecordsOf(audience[..i + 1], answers)
         == RecordsOf(audience[..i], answers) + (if o.Recorded? then [o.record] else [])
      && Without(subs, audience[..i + 1], answers)
         == if o.EpochEnded? then Evict(Without(subs, audience[..i], answers), audience[i])
            else Without(subs, audience[..i], answers)
  {
    assert audience[..i + 1][..i] == audience[..i];
  }

  /** The only function that removes an installation, once. */
  class Disposer {
    const registry: Registry
    const accountant: nat
    var removed: bool

    constructor (registry: Registry, accountant: nat)
      ensures this.registry == registry && this.accountant == accountant && !removed
    {
      this.registry, this.accountant, removed := registry, accountant, false;
    }

    method Dispose()
      modifies this, registry`installed
      ensures removed
      ensures registry.installed ==
        if old(removed) then old(registry.installed) else Evict(old(registry.installed), accountant)
    {
      if removed { return; }
      removed := true;
      registry.Remove(accountant);
    }
  }

  lemma {:induction false} AskedUpTo(audience: seq<nat>, answers: nat -> Opening, i: nat)
    requires i < |audience| && Stops(answers(audience[i])) && forall k | 0 <= k < i :: !Stops(answers(audience[k]))
    ensures AskedCount(audience, answers) == i + 1 && Refuses(audience, answers)
    decreases i
  {
    assert audience[i] in audience;
    if i > 0 { AskedUpTo(audience[1..], answers, i - 1); }
  }

  lemma {:induction false} NobodyStops(audience: seq<nat>, answers: nat -> Opening)
    requires forall k | 0 <= k < |audience| :: !Stops(answers(audience[k]))
    ensures AskedCount(audience, answers) == |audience| && !Refuses(audience, answers)
    decreases |audience|
  {
    if audience != [] { NobodyStops(audience[1..], answers); }
  }

  // ---------------------------------------------------------------- whole histories

  datatype Event =
    | Installs(subscription: Subscription)
    | Disposes(accountant: nat)
    | Announces(domain: Option<nat>, answers: nat -> Opening)

  function Heard(subs: seq<Subscription>, domain: Option<nat>, answers: nat -> Opening): seq<nat> {
    var audience := Audience(subs, domain);
    audience[..AskedCount(audience, answers)]
  }

  /** The registry as the methods above leave it. */
  function RegistryAfter(events: seq<Event>): seq<Subscription> {
    if events == [] then []
    else
      var before := RegistryAfter(events[..|events| - 1]);
      match events[|events| - 1]
      case Installs(s) => before + [s]
      case Disposes(a) => Evict(before, a)
      case Announces(domain, answers) => Without(before, Heard(before, domain, answers), answers)
  }

  function Installed(events: seq<Event>): seq<Subscription> {
    if events == [] then []
    else
      var before, last := Installed(events[..|events| - 1]), events[|events| - 1];
      if last.Installs? then before + [last.subscription] else before
  }

  /** Disposed of, or asked and found to be over. */
  function Gone(events: seq<Event>): set<nat> {
    if events == [] then {}
    else
      var init, last := events[..|events| - 1], events[|events| - 1];
      match last
      case Installs(_) => Gone(init)
      case Disposes(a) => Gone(init) + {a}
      case Announces(domain, answers) =>
        Gone(init) + (set a | a in Heard(RegistryAfter(init), domain, answers) && answers(a).EpochEnded?)
  }

  function Keep(subs: seq<Subscription>, gone: set<nat>): seq<Subscription> {
    if subs == [] then []
    else
      var init, last := Keep(subs[..|subs| - 1], gone), subs[|subs| - 1];
      if last.accountant in gone then init else init + [last]
  }

  predicate Distinct(subs: seq<Subscription>) {
    forall i, j | 0 <= i < j < |subs| :: subs[i].accountant != subs[j].accountant
  }

  /** Nobody is installed twice, and a disposal or an ended epoch comes after the installation. */
  predicate ProperHistory(events: seq<Event>) {
    events == [] ||
    var init, last := events[..|events| - 1], events[|events| - 1];
    && ProperHistory(init) && Distinct(Installed(events))
    && (last.Installs? ==> last.subscription.accountant !in Gone(init))
  }

  lemma {:induction false} KeepMembers(subs: seq<Subscription>, gone: set<nat>)
    ensures forall s :: s in Keep(subs, gone) <==> s in subs && s.accountant !in gone
    decreases |subs|
  {
    if subs != [] {
      var init, last := subs[..|subs| - 1], subs[|subs| - 1];
      KeepMembers(init, gone);
      assert subs == init + [last];
    }
  }

  predicate HasPlace(subs: seq<Subscription>, a: nat) {
    exists i | 0 <= i < |subs| :: subs[i].accountant == a
  }

  lemma HasPlaceUnfolds(subs: seq<Subscription>, a: nat)
    requires subs != []
    ensures HasPlace(subs, a) <==> subs[0].accountant == a || HasPlace(subs[1..], a)
  {
    if i :| 0 < i < |subs| && subs[i].accountant == a { assert subs[1..][i - 1].accountant == a; }
    if i :| 0 <= i < |subs[1..]| && subs[1..][i].accountant == a { assert subs[i + 1].accountant == a; }
  }

  lemma EvictUnfolds(first: Subscription, rest: seq<Subscription>, a: nat)
    ensures Evict([first] + rest, a) == if first.accountant == a then rest else [first] + Evict(rest, a)
  {
    assert ([first] + rest)[1..] == rest;
  }

  lemma {:induction false} EvictTakesTheFirst(subs: seq<Subscription>, index: nat, a: nat)
    requires index <= |subs| && (forall k | 0 <= k < index :: subs[k].accountant != a)
    requires index < |subs| ==> subs[index].accountant == a
    ensures Evict(subs, a) == if index < |subs| then subs[..index] + subs[index + 1..] else subs
    decreases |subs|
  {
    if subs != [] {
      var first, rest := subs[0], subs[1..];
      assert subs == [first] + rest;
      EvictUnfolds(first, rest, a);
      hide Evict;
      if index == 0 {
        assert subs[..0] + subs[1..] == rest;
      } else {
        EvictTakesTheFirst(rest, index - 1, a);
        assert index < |subs| ==> [first] + (rest[..index - 1] + rest[index..]) == subs[..index] + subs[index + 1..];
      }
    }
  }

  lemma {:induction false} EvictAppend(subs: seq<Subscription>, last: Subscription, a: nat)
    ensures HasPlace(subs, a) ==> Evict(subs + [last], a) == Evict(subs, a) + [last]
    ensures !HasPlace(subs, a) ==>
      Evict(subs, a) == subs && Evict(subs + [last], a) == if last.accountant == a then subs else subs + [last]
    decreases |subs|
  {
    if subs == [] {
      EvictUnfolds(last, [], a);
      assert [] + [last] == [last] + [];
    } else {
      var first, rest := subs[0], subs[1..];
      HasPlaceUnfolds(subs, a);
      EvictAppend(rest, last, a);
      EvictUnfolds(first, rest, a);
      EvictUnfolds(first, rest + [last], a);
      hide Evict, HasPlace;
      assert subs == [first] + rest && subs + [last] == [first] + (rest + [last]);
    }
  }

  lemma KeepAppend(subs: seq<Subscription>, last: Subscription, gone: set<nat>)
    ensures Keep(subs + [last], gone) == Keep(subs, gone) + if last.accountant in gone then [] else [last]
  {
    assert (subs + [last])[..|subs|] == subs;
  }

  /** With nobody installed twice, an eviction takes out exactly the one it names. */
  lemma {:induction false} EvictIsKeep(subs: seq<Subscription>, gone: set<nat>, a: nat)
    requires Distinct(subs)
    ensures Evict(Keep(subs, gone), a) == Keep(subs, gone + {a})
    decreases |subs|
  {
    if subs != [] {
      var init, last := subs[..|subs| - 1], subs[|subs| - 1];
      assert subs == init + [last];
      EvictIsKeep(init, gone, a);
      EvictAppend(Keep(init, gone), last, a);
      NoSecondPlace(init, last, gone);
      KeepAppend(init, last, gone);
      KeepAppend(init, last, gone + {a});
      hide Evict, Keep, HasPlace, Distinct;
      assert forall s: seq<Subscription> :: s + [] == s;
    }
  }

  lemma NoSecondPlace(init: seq<Subscription>, last: Subscription, gone: set<nat>)
    requires Distinct(init + [last])
    ensures !HasPlace(Keep(init, gone), last.accountant)
  {
    hide Keep;
    KeepMembers(init, gone);
    forall i | 0 <= i < |Keep(init, gone)| ensures Keep(init, gone)[i].accountant != last.accountant {
      var k :| 0 <= k < |init| && init[k] == Keep(init, gone)[i];
      assert (init + [last])[k] == init[k] && (init + [last])[|init|] == last;
    }
  }

  lemma {:induction false} WithoutIsKeep(subs: seq<Subscription>, gone: set<nat>, asked: seq<nat>, answers: nat -> Opening)
    requires Distinct(subs)
    ensures Without(Keep(subs, gone), asked, answers)
      == Keep(subs, gone + (set a | a in asked && answers(a).EpochEnded?))
    decreases |asked|
  {
    var ended := set a | a in asked && answers(a).EpochEnded?;
    if asked == [] {
      assert gone + ended == gone;
    } else {
      var init, last := asked[..|asked| - 1], asked[|asked| - 1];
      var before := gone + (set a | a in init && answers(a).EpochEnded?);
      WithoutIsKeep(subs, gone, init, answers);
      assert asked == init + [last];
      if answers(last).EpochEnded? {
        EvictIsKeep(subs, before, last);
        assert gone + ended == before + {last};
      } else {
        assert gone + ended == before;
      }
    }
  }

  /**
   * The registry is exactly what was installed, in that order, less the disposed and the
   * ended: nobody else ever leaves, and nobody who left is asked again.
   */
  lemma {:induction false} RegistryIsWhatRemains(events: seq<Event>)
    requires ProperHistory(events)
    ensures RegistryAfter(events) == Keep(Installed(events), Gone(events))
    decreases |events|
  {
    if events != [] {
      var init, last := events[..|events| - 1], events[|events| - 1];
      RegistryIsWhatRemains(init);
      match last
      case Installs(s) =>
        assert Installed(events)[..|Installed(events)| - 1] == Installed(init);
      case Disposes(a) =>
        EvictIsKeep(Installed(init), Gone(init), a);
      case Announces(domain, answers) =>
        WithoutIsKeep(Installed(init), Gone(init), Heard(RegistryAfter(init), domain, answers), answers);
    }
  }

  lemma {:induction false} AudienceMembers(subs: seq<Subscription>, domain: Option<nat>, a: nat)
    ensures a in Audience(subs, domain) <==> Subscription(a, domain) in subs
    decreases |subs|
  {
    if subs != [] {
      AudienceMembers(subs[1..], domain, a);
      assert subs == [subs[0]] + subs[1..];
    }
  }

  /** Who a launch is announced to: those installed for its domain who are neither disposed of nor over. */
  lemma AnnouncedTo(events: seq<Event>, domain: Option<nat>, a: nat)
    requires ProperHistory(events)
    ensures a in Audience(RegistryAfter(events), domain)
      <==> Subscription(a, domain) in Installed(events) && a !in Gone(events)
  {
    RegistryIsWhatRemains(events);
    KeepMembers(Installed(events), Gone(events));
    AudienceMembers(RegistryAfter(events), domain, a);
  }

  /** Installed twice, an accountant whose epoch ends in one domain loses its place in another. */
  lemma SecondInstallationEvictsTheFirst(a: nat, d: nat, answers: nat -> Opening)
    requires answers(a).EpochEnded?
    ensures
      var events := [Installs(Subscription(a, None)), Installs(Subscription(a, Some(d))), Announces(Some(d), answers)];
      RegistryAfter(events) == [Subscription(a, Some(d))]
  {
    var first, second := Subscription(a, None), Subscription(a, Some(d));
    var events := [Installs(first), Installs(second), Announces(Some(d), answers)];
    assert events[..2] == [Installs(first), Installs(second)] && events[..2][..1] == [Installs(first)];
    assert events[..2][..1][..0] == [];
    assert RegistryAfter(events[..2][..1]) == [first];
    assert RegistryAfter(events[..2]) == [first, second];
    assert [first, second][1..] == [second] && [second][1..] == [];
    assert Audience([second], Some(d)) == [a];
    assert Audience([first, second], Some(d)) == [a];
    assert Heard([first, second], Some(d), answers) == [a];
    assert [a][..0] == [];
    assert Without([first, second], [a], answers) == Evict([first, second], a);
  }
}
