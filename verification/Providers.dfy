/** Which provider an object uses, and which objects a changed ProviderProfile concerns. */
module Providers {
  import opened Wrappers
  import opened Resources

  const DEFAULT_PROFILE := "default"

  datatype ProfileName = ProfileName(namespace: string, name: string)

  /** The profiles that can be read; a failing read is a missing entry. */
  type Profiles = map<ProfileName, ProviderSpec>

  datatype Listed = Listed(key: Key, spec: Spec)

  /** The profile that resolving a reference reads; an empty field of the reference counts as absent. */
  function ProfileToRead(namespace: string, ref: Option<ProviderReference>): ProfileName {
    match ref
    case None => ProfileName(namespace, DEFAULT_PROFILE)
    case Some(r) =>
      ProfileName(if r.namespace != "" then r.namespace else namespace,
                  if r.name != "" then r.name else DEFAULT_PROFILE)
  }

  /** The provider of the spec if it has one, and otherwise the provider of the profile it refers to. */
  function ResolveProvider(profiles: Profiles, namespace: string, spec: Spec): Result<ProviderSpec, ProfileName> {
    match spec.provider
    case Some(provider) => Success(provider)
    case None =>
      var profile := ProfileToRead(namespace, spec.providerRef);
      if profile in profiles then Success(profiles[profile]) else Failure(profile)
  }

  /** Would resolving this object's provider read the profile? */
  predicate Reads(item: Listed, profile: ProfileName) {
    item.spec.provider.None? && ProfileToRead(item.key.namespace, item.spec.providerRef) == profile
  }

  /** The keys of the objects that read the profile, in list order. */
  function Readers(items: seq<Listed>, profile: ProfileName): seq<Key> {
    if items == [] then []
    else (if Reads(items[0], profile) then [items[0].key] else []) + Readers(items[1..], profile)
  }

  /** One object of the loop. */
  lemma ReadersStep(requests: seq<Key>, items: seq<Listed>, profile: ProfileName, i: nat)
    requires i < |items|
    ensures requests + Readers(items[i..], profile) ==
            (if Reads(items[i], profile) then requests + [items[i].key] else requests)
            + Readers(items[i + 1..], profile)
  {
    assert items[i..][1..] == items[i + 1..];
    var rest := Readers(items[i + 1..], profile);
    if Reads(items[i], profile) {
      assert requests + ([items[i].key] + rest) == (requests + [items[i].key]) + rest;
    } else {
      assert [] + rest == rest;
    }
  }

  /** The reconcile requests for a changed profile; none when the list cannot be read. It decides without the resolver,
      and yet it finds exactly the objects whose resolution reads the profile. */
  method RequestsForProviderProfile(profile: ProfileName, list: Option<seq<Listed>>) returns (requests: seq<Key>)
    ensures requests == if list.Some? then Readers(list.value, profile) else []
    ensures forall k :: k in requests <==> list.Some? && Enqueued(list.value, profile, k)
  {
    if list.None? {
      return [];
    }
    var items := list.value;
    AllReadersExactly(items, profile);
    requests := [];
    for i := 0 to |items|
      invariant requests + Readers(items[i..], profile) == Readers(items, profile)
    {
      var item := items[i];
      ReadersStep(requests, items, profile, i);
      if item.spec.provider.Some? {
        continue;
      }
      if item.spec.providerRef.None? {
        if profile.name != DEFAULT_PROFILE || profile.namespace != item.key.namespace {
          continue;
        }
      } else {
        var ref := item.spec.providerRef.value;
        var refNamespace := item.key.namespace;
        if ref.namespace != "" {
          refNamespace := ref.namespace;
        }
        var refName := ref.name;
        if refName == "" {
          refName := DEFAULT_PROFILE;
        }
        if refNamespace != profile.namespace || refName != profile.name {
          continue;
        }
      }
      requests := requests + [item.key];
    }
    assert items[|items|..] == [];
  }

  // ------------------------------------------------------------------ what a reference means

  /** Does an object in this namespace, with this reference and no provider of its own, mean the profile? */
  predicate Means(namespace: string, ref: Option<ProviderReference>, profile: ProfileName) {
    match ref
    case None => profile == ProfileName(namespace, "default")
    case Some(ProviderReference(name, other)) =>
      && (if other == "" then profile.namespace == namespace else profile.namespace == other)
      && (if name == "" then profile.name == "default" else profile.name == name)
  }

  /** What reading the profile gives. */
  function Lookup(profiles: Profiles, profile: ProfileName): Result<ProviderSpec, ProfileName> {
    if profile in profiles then Success(profiles[profile]) else Failure(profile)
  }

  /** A provider of its own wins. Otherwise the namespace of the reference is used when it has one, and the own
      namespace when not; likewise its name, or "default". Nothing but that profile matters. */
  lemma ReferenceMeans(profiles: Profiles, namespace: string, spec: Spec, profile: ProfileName)
    ensures spec.provider.Some? ==> ResolveProvider(profiles, namespace, spec) == Success(spec.provider.value)
    ensures spec.provider.None? && Means(namespace, spec.providerRef, profile) ==>
              ResolveProvider(profiles, namespace, spec) == Lookup(profiles, profile)
  {
  }

  /** The cases one by one. */
  lemma ReferenceCases(profiles: Profiles, namespace: string, spec: Spec)
    requires spec.provider.None?
    ensures spec.providerRef.None? ==>
              ResolveProvider(profiles, namespace, spec) == Lookup(profiles, ProfileName(namespace, "default"))
    ensures spec.providerRef.Some? ==>
              var ProviderReference(name, other) := spec.providerRef.value;
              ResolveProvider(profiles, namespace, spec) ==
                if other == "" && name == "" then Lookup(profiles, ProfileName(namespace, "default"))
                else if other == "" then Lookup(profiles, ProfileName(namespace, name))
                else if name == "" then Lookup(profiles, ProfileName(other, "default"))
                else Lookup(profiles, ProfileName(other, name))
  {
  }

  /** The i-th object is one to enqueue: it has no provider of its own and means the profile. */
  predicate Concerned(items: seq<Listed>, i: nat, profile: ProfileName)
    requires i < |items|
  {
    items[i].spec.provider.None? && Means(items[i].key.namespace, items[i].spec.providerRef, profile)
  }

  /** Some concerned object has this key. */
  ghost predicate Enqueued(items: seq<Listed>, profile: ProfileName, k: Key) {
    exists i :: 0 <= i < |items| && items[i].key == k && Concerned(items, i, profile)
  }

  /** The watch enqueues the concerned objects and no others. */
  lemma {:induction false} ReadersExactly(items: seq<Listed>, profile: ProfileName, k: Key)
    ensures k in Readers(items, profile) <==> Enqueued(items, profile, k)
  {
    if items != [] {
      var rest := items[1..];
      ReadersExactly(rest, profile, k);
      assert Reads(items[0], profile) <==> Concerned(items, 0, profile);
      forall i | 0 <= i < |rest|
        ensures rest[i] == items[i + 1] && (Concerned(rest, i, profile) <==> Concerned(items, i + 1, profile))
      {
      }
      if i :| 0 <= i < |items| && items[i].key == k && Concerned(items, i, profile) {
        if i > 0 {
          assert rest[i - 1].key == k && Concerned(rest, i - 1, profile);
        }
      }
    }
  }

  lemma AllReadersExactly(items: seq<Listed>, profile: ProfileName)
    ensures forall k :: k in Readers(items, profile) <==> Enqueued(items, profile, k)
  {
    forall k: Key
      ensures k in Readers(items, profile) <==> Enqueued(items, profile, k)
    {
      ReadersExactly(items, profile, k);
    }
  }

  /** It does so in list order, once for each of them: longer lists are worked off part by part, object by object. */
  lemma {:induction false} ReadersInOrder(a: seq<Listed>, b: seq<Listed>, item: Listed, profile: ProfileName)
    ensures Readers(a + b, profile) == Readers(a, profile) + Readers(b, profile)
    ensures Readers([item], profile) == if Concerned([item], 0, profile) then [item.key] else []
  {
    if a == [] {
      assert a + b == b;
    } else {
      assert (a + b)[1..] == a[1..] + b;
      ReadersInOrder(a[1..], b, item, profile);
    }
    assert Reads(item, profile) <==> Concerned([item], 0, profile);
    assert [item][1..] == [];
  }

  // ------------------------------------------------------------------ the watch and the resolver agree

  lemma {:induction false} ReadersAreListed(items: seq<Listed>, profile: ProfileName, i: nat)
    requires i < |items| && Reads(items[i], profile)
    ensures items[i].key in Readers(items, profile)
  {
    if i > 0 {
      ReadersAreListed(items[1..], profile, i - 1);
    }
  }

  /** Whatever happens to a profile, created, changed or removed, an object that is not enqueued keeps its provider. */
  lemma UnlistedKeepProvider(items: seq<Listed>, profile: ProfileName, i: nat, before: Profiles, after: Profiles)
    requires i < |items| && items[i].key !in Readers(items, profile)
    requires before - {profile} == after - {profile}
    ensures ResolveProvider(after, items[i].key.namespace, items[i].spec) ==
            ResolveProvider(before, items[i].key.namespace, items[i].spec)
  {
    if Reads(items[i], profile) {
      ReadersAreListed(items, profile, i);
    } else if items[i].spec.provider.None? {
      var other := ProfileToRead(items[i].key.namespace, items[i].spec.providerRef);
      assert other in before - {profile} <==> other in before;
      assert other in after - {profile} <==> other in after;
      assert other in before ==> (before - {profile})[other] == before[other];
      assert other in after ==> (after - {profile})[other] == after[other];
    }
  }

  /** No object is enqueued in vain: each one enqueued reads the profile, so its provider is the profile's, old or
      new. */
  lemma {:induction false} ListedDoRead(items: seq<Listed>, profile: ProfileName, k: Key)
    requires k in Readers(items, profile)
    ensures exists i :: 0 <= i < |items| && items[i].key == k && Reads(items[i], profile) &&
              forall profiles: Profiles ::
                ResolveProvider(profiles, k.namespace, items[i].spec) ==
                if profile in profiles then Success(profiles[profile]) else Failure(profile)
  {
    if Reads(items[0], profile) && items[0].key == k {
    } else {
      ListedDoRead(items[1..], profile, k);
      var i :| 0 <= i < |items[1..]| && items[1..][i].key == k && Reads(items[1..][i], profile);
      assert items[i + 1].key == k && Reads(items[i + 1], profile);
    }
  }
}
