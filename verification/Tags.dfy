/** CloudStack resource tags and the tests on them that decide what this controller owns. */
module Tags {
  import opened Wrappers
  import opened Kube

  const CLOUD_PROVIDER_TAG := "cloudprovider"
  const SERVICE_TAG := "kubernetes_service"
  const NAMESPACE_TAG := "kubernetes_namespace"
  const IGNORE_TAG := "cloudprovider-ignore"
  const PROVIDER := "custom-cloudstack"

  datatype Tag = Tag(key: string, value: string)

  /** The three tags that mark a resource as belonging to a service. */
  function TagsFor(service: ServiceKey): map<string, string> {
    map[CLOUD_PROVIDER_TAG := PROVIDER, SERVICE_TAG := service.name, NAMESPACE_TAG := service.namespace]
  }

  /** The keys of `TagsFor` in `sort.Strings` order, the order in which they are created. */
  const TAG_ORDER: seq<string> := [CLOUD_PROVIDER_TAG, NAMESPACE_TAG, SERVICE_TAG]

  lemma TagKeys(service: ServiceKey)
    ensures TagsFor(service).Keys == {CLOUD_PROVIDER_TAG, SERVICE_TAG, NAMESPACE_TAG}
    ensures |TagsFor(service)| == 3
    ensures CLOUD_PROVIDER_TAG != SERVICE_TAG && SERVICE_TAG != NAMESPACE_TAG && NAMESPACE_TAG != CLOUD_PROVIDER_TAG
    ensures IGNORE_TAG !in TagsFor(service)
  {
    assert CLOUD_PROVIDER_TAG[0] == 'c' && SERVICE_TAG[0] == 'k' && NAMESPACE_TAG[0] == 'k';
    assert |CLOUD_PROVIDER_TAG| == 13 && |IGNORE_TAG| == 20 && |SERVICE_TAG| == 18 && |NAMESPACE_TAG| == 20;
    assert IGNORE_TAG[0] == 'c';
    var keys := {CLOUD_PROVIDER_TAG, SERVICE_TAG, NAMESPACE_TAG};
    assert TagsFor(service).Keys == keys;
    assert |keys| == 3;
  }

  /** The value of the first tag with the key. */
  function GetTag(tags: seq<Tag>, key: string): Option<string> {
    if tags == [] then None
    else if tags[0].key == key then Some(tags[0].value)
    else GetTag(tags[1..], key)
  }

  predicate HasKey(tags: seq<Tag>, key: string) {
    exists i :: 0 <= i < |tags| && tags[i].key == key
  }

  /** Inclusion: every wanted tag is there with its value. */
  predicate Carries(tags: seq<Tag>, wanted: map<string, string>) {
    forall k :: k in wanted ==> Tag(k, wanted[k]) in tags
  }

  lemma {:induction false} GetTagFinds(tags: seq<Tag>, key: string)
    ensures GetTag(tags, key).Some? <==> HasKey(tags, key)
    ensures GetTag(tags, key).Some? ==> Tag(key, GetTag(tags, key).value) in tags
  {
    if tags != [] {
      GetTagFinds(tags[1..], key);
      if HasKey(tags, key) && tags[0].key != key {
        var i :| 0 <= i < |tags| && tags[i].key == key;
        assert tags[1..][i - 1].key == key;
      }
      if HasKey(tags[1..], key) {
        var i :| 0 <= i < |tags[1..]| && tags[1..][i].key == key;
        assert tags[i + 1].key == key;
      }
    }
  }

  /** Appending a tag changes a lookup only for a key that was missing. */
  lemma {:induction false} GetTagAppend(tags: seq<Tag>, t: Tag, key: string)
    ensures GetTag(tags + [t], key) ==
            if GetTag(tags, key).Some? then GetTag(tags, key)
            else if t.key == key then Some(t.value) else None
  {
    if tags != [] {
      GetTagAppend(tags[1..], t, key);
      assert (tags + [t])[1..] == tags[1..] + [t];
    }
  }

  // ------------------------------------------------------------------------------------
  // matchAllTags: a counter compared with the number of wanted tags

  /** The map lookup `tags[key]`: a missing key reads as the empty string. */
  function Lookup(wanted: map<string, string>, key: string): string {
    if key in wanted then wanted[key] else ""
  }

  function Hits(tags: seq<Tag>, wanted: map<string, string>): nat {
    if tags == [] then 0
    else Hits(tags[..|tags| - 1], wanted) + (if Lookup(wanted, tags[|tags| - 1].key) == tags[|tags| - 1].value then 1 else 0)
  }

  predicate MatchesAll(tags: seq<Tag>, wanted: map<string, string>) {
    |wanted| > 0 && Hits(tags, wanted) >= |wanted|
  }

  lemma {:induction false} HitsMonotone(tags: seq<Tag>, wanted: map<string, string>, k: nat)
    requires k <= |tags|
    ensures Hits(tags[..k], wanted) <= Hits(tags, wanted)
    decreases |tags| - k
  {
    if k < |tags| {
      HitsMonotone(tags, wanted, k + 1);
      assert tags[..k + 1][..k] == tags[..k];
    } else {
      assert tags[..k] == tags;
    }
  }

  method MatchAllTags(tags: seq<Tag>, wanted: map<string, string>) returns (all: bool)
    ensures all == MatchesAll(tags, wanted)
  {
    var validCount := 0;
    for i := 0 to |tags|
      invariant validCount == Hits(tags[..i], wanted)
      invariant |wanted| > 0 ==> validCount < |wanted|
    {
      assert tags[..i + 1][..i] == tags[..i];
      if Lookup(wanted, tags[i].key) == tags[i].value {
        validCount := validCount + 1;
        if validCount == |wanted| {
          HitsMonotone(tags, wanted, i + 1);
          return true;
        }
      }
    }
    assert tags[..|tags|] == tags;
    return false;
  }

  /** The wanted keys that are really there. */
  function Present(tags: seq<Tag>, wanted: map<string, string>): (r: set<string>)
    ensures r <= wanted.Keys
  {
    set k | k in wanted && Tag(k, wanted[k]) in tags
  }

  lemma PresentStep(tags: seq<Tag>, wanted: map<string, string>)
    requires |tags| > 0
    ensures var last, rest := tags[|tags| - 1], tags[..|tags| - 1];
            Present(tags, wanted) ==
            Present(rest, wanted) + (if last.key in wanted && wanted[last.key] == last.value then {last.key} else {})
  {
    var last, rest := tags[|tags| - 1], tags[..|tags| - 1];
    assert tags == rest + [last];
  }

  /** The position repeats an earlier wanted tag. */
  predicate Repeats(tags: seq<Tag>, wanted: map<string, string>, i: nat)
    requires i < |tags|
  {
    tags[i].key in wanted && wanted[tags[i].key] == tags[i].value && tags[i] in tags[..i]
  }

  /** The position holds a foreign tag with an empty value. */
  predicate EmptyForeign(tags: seq<Tag>, wanted: map<string, string>, i: nat)
    requires i < |tags|
  {
    tags[i].key !in wanted && tags[i].value == ""
  }

  /** The positions that are counted without a wanted tag being there for the first time. */
  function Surplus(tags: seq<Tag>, wanted: map<string, string>): set<nat> {
    set i: nat | i < |tags| && (Repeats(tags, wanted, i) || EmptyForeign(tags, wanted, i))
  }

  function Missing(tags: seq<Tag>, wanted: map<string, string>): set<string> {
    wanted.Keys - Present(tags, wanted)
  }

  lemma SurplusStep(tags: seq<Tag>, wanted: map<string, string>)
    requires |tags| > 0
    ensures var k := |tags| - 1;
            Surplus(tags, wanted) ==
            Surplus(tags[..k], wanted) + (if Repeats(tags, wanted, k) || EmptyForeign(tags, wanted, k) then {k} else {})
  {
    var k := |tags| - 1;
    var rest := tags[..k];
    forall i: nat | i < k
      ensures Repeats(rest, wanted, i) == Repeats(tags, wanted, i) && EmptyForeign(rest, wanted, i) == EmptyForeign(tags, wanted, i)
    {
      assert rest[i] == tags[i] && rest[..i] == tags[..i];
    }
    assert forall i: nat :: i in Surplus(rest, wanted) <==> i < k && i in Surplus(tags, wanted);
  }

  /** What the counter counts: the wanted tags that are there, once each, the repeats of these, and
      the foreign tags with an empty value. */
  lemma {:induction false} HitsAreCounted(tags: seq<Tag>, wanted: map<string, string>)
    ensures Hits(tags, wanted) == |Present(tags, wanted)| + |Surplus(tags, wanted)|
  {
    if tags == [] {
      assert Present(tags, wanted) == {} && Surplus(tags, wanted) == {};
    } else {
      var k := |tags| - 1;
      HitsAreCounted(tags[..k], wanted);
      OnePresent(tags, wanted);
      OneSurplus(tags, wanted);
    }
  }

  lemma OnePresent(tags: seq<Tag>, wanted: map<string, string>)
    requires |tags| > 0
    ensures var (k, last) := (|tags| - 1, tags[|tags| - 1]);
            |Present(tags, wanted)| == |Present(tags[..k], wanted)| +
            (if last.key in wanted && wanted[last.key] == last.value && last !in tags[..k] then 1 else 0)
  {
    var last, rest := tags[|tags| - 1], tags[..|tags| - 1];
    PresentStep(tags, wanted);
    var before := Present(rest, wanted);
    if last.key in wanted && wanted[last.key] == last.value {
      assert Tag(last.key, wanted[last.key]) == last;
      if last in rest {
        assert before + {last.key} == before;
      } else {
        assert last.key !in before;
      }
    } else {
      assert Present(tags, wanted) == before;
    }
  }

  lemma OneSurplus(tags: seq<Tag>, wanted: map<string, string>)
    requires |tags| > 0
    ensures var k := |tags| - 1;
            |Surplus(tags, wanted)| == |Surplus(tags[..k], wanted)| +
            (if Repeats(tags, wanted, k) || EmptyForeign(tags, wanted, k) then 1 else 0)
  {
    SurplusStep(tags, wanted);
    assert |tags| - 1 !in Surplus(tags[..|tags| - 1], wanted);
  }

  lemma CarriesIsPresent(tags: seq<Tag>, wanted: map<string, string>)
    ensures Carries(tags, wanted) <==> Present(tags, wanted) == wanted.Keys
    ensures Carries(tags, wanted) <==> |Present(tags, wanted)| == |wanted|
  {
    if |Present(tags, wanted)| == |wanted| {
      assert |wanted.Keys - Present(tags, wanted)| == |wanted.Keys| - |Present(tags, wanted)|;
      assert wanted.Keys - Present(tags, wanted) == {};
    }
    assert |wanted.Keys| == |wanted|;
  }

  /** Counting never misses: a resource that carries every tag matches. */
  lemma InclusionMatches(tags: seq<Tag>, wanted: map<string, string>)
    requires |wanted| > 0 && Carries(tags, wanted)
    ensures MatchesAll(tags, wanted)
  {
    CarriesIsPresent(tags, wanted);
    HitsAreCounted(tags, wanted);
  }

  /** Counting disagrees with inclusion exactly when some wanted tag is missing and there are at
      least as many repeated or empty foreign tags as missing ones. */
  lemma CountingIsInclusionExactly(tags: seq<Tag>, wanted: map<string, string>)
    requires |wanted| > 0
    ensures (MatchesAll(tags, wanted) <==> Carries(tags, wanted)) <==>
            !(0 < |Missing(tags, wanted)| <= |Surplus(tags, wanted)|)
  {
    CarriesIsPresent(tags, wanted);
    HitsAreCounted(tags, wanted);
    assert |Missing(tags, wanted)| == |wanted.Keys| - |Present(tags, wanted)|;
    assert |wanted.Keys| == |wanted|;
  }

  /** What CloudStack itself guarantees about a resource's tags. */
  predicate DistinctKeys(tags: seq<Tag>) {
    forall i, j :: 0 <= i < j < |tags| ==> tags[i].key != tags[j].key
  }

  predicate NonEmptyForeign(tags: seq<Tag>, wanted: map<string, string>) {
    forall i :: 0 <= i < |tags| && tags[i].key !in wanted ==> tags[i].value != ""
  }

  lemma NoSurplus(tags: seq<Tag>, wanted: map<string, string>)
    requires DistinctKeys(tags) && NonEmptyForeign(tags, wanted)
    ensures Surplus(tags, wanted) == {}
  {
    forall i: nat | i < |tags| ensures tags[i] !in tags[..i] {
      forall j | 0 <= j < i ensures tags[..i][j] != tags[i] {
        assert tags[j].key != tags[i].key;
      }
    }
  }

  /** With distinct keys and no empty foreign value the counter loop is inclusion. */
  lemma CountingIsInclusion(tags: seq<Tag>, wanted: map<string, string>)
    requires |wanted| > 0 && DistinctKeys(tags) && NonEmptyForeign(tags, wanted)
    ensures MatchesAll(tags, wanted) <==> Carries(tags, wanted)
  {
    NoSurplus(tags, wanted);
    CountingIsInclusionExactly(tags, wanted);
  }

  /** Both ways to be fooled: one tag three times over, and foreign tags with empty values. */
  lemma CountingCanBeFooled(service: ServiceKey, foreign: string)
    requires foreign !in TagsFor(service)
    ensures var cp := Tag(CLOUD_PROVIDER_TAG, PROVIDER);
            && MatchesAll([cp, cp, cp], TagsFor(service)) && !Carries([cp, cp, cp], TagsFor(service))
    ensures var cp, empty := Tag(CLOUD_PROVIDER_TAG, PROVIDER), Tag(foreign, "");
            && MatchesAll([cp, empty, empty], TagsFor(service)) && !Carries([cp, empty, empty], TagsFor(service))
  {
    TagKeys(service);
    var cp, empty := Tag(CLOUD_PROVIDER_TAG, PROVIDER), Tag(foreign, "");
    var wanted := TagsFor(service);
    var a, b := [cp, cp, cp], [cp, empty, empty];
    assert a[..2] == [cp, cp] && a[..2][..1] == [cp] && [cp][..0] == [];
    assert b[..2] == [cp, empty] && b[..2][..1] == [cp];
    assert Hits([cp], wanted) == 1;
    assert Hits(a[..2], wanted) == 2 && Hits(b[..2], wanted) == 2;
    assert Hits(a, wanted) == 3 && Hits(b, wanted) == 3;
    var missing := Tag(SERVICE_TAG, service.name);
    assert SERVICE_TAG in wanted && wanted[SERVICE_TAG] == service.name;
    assert missing !in a && missing !in b;
  }

  // ------------------------------------------------------------------------------------
  // Ownership

  /** shouldManageIP: the first tag with each wanted key must have the wanted value. */
  predicate ShouldManageIp(tags: seq<Tag>, service: ServiceKey) {
    forall k :: k in TagsFor(service) ==> GetTag(tags, k) == Some(TagsFor(service)[k])
  }

  /** The two ownership tests for addresses agree on what CloudStack can store. */
  lemma ManageIpIsMatch(tags: seq<Tag>, service: ServiceKey)
    requires DistinctKeys(tags) && NonEmptyForeign(tags, TagsFor(service))
    ensures ShouldManageIp(tags, service) <==> MatchesAll(tags, TagsFor(service))
  {
    TagKeys(service);
    var wanted := TagsFor(service);
    CountingIsInclusion(tags, wanted);
    forall k | k in wanted
      ensures GetTag(tags, k) == Some(wanted[k]) <==> Tag(k, wanted[k]) in tags
    {
      GetTagFinds(tags, k);
      if Tag(k, wanted[k]) in tags {
        var i :| 0 <= i < |tags| && tags[i] == Tag(k, wanted[k]);
        assert HasKey(tags, k);
        var j :| 0 <= j < |tags| && tags[j] == Tag(k, GetTag(tags, k).value);
        assert i == j;
      }
    }
  }

  /** A wanted tag counts as missing when its value differs or it is absent; the namespace may be absent. */
  predicate TagMissing(tags: seq<Tag>, service: ServiceKey, key: string)
    requires key in TagsFor(service)
  {
    var value := GetTag(tags, key);
    if key == NAMESPACE_TAG && value.None? then false else value != Some(TagsFor(service)[key])
  }

  predicate StatusNames(ingress: seq<Ingress>, lbName: string) {
    |ingress| == 1 && ingress[0].hostname == lbName
  }

  /** shouldManageLB for an existing rule: never with the ignore tag; otherwise when no wanted tag
      is missing, or when the service's only ingress already names this balancer. */
  predicate ShouldManageLb(tags: seq<Tag>, service: ServiceKey, ingress: seq<Ingress>, lbName: string) {
    && GetTag(tags, IGNORE_TAG).None?
    && ((forall k :: k in TagsFor(service) ==> !TagMissing(tags, service, k)) || StatusNames(ingress, lbName))
  }

  /** hasMissingTags: only the keys count. */
  predicate HasMissingKeys(tags: seq<Tag>) {
    exists i :: 0 <= i < |TAG_ORDER| && !HasKey(tags, TAG_ORDER[i])
  }

  /** The first tag with the key, and its value. */
  ghost predicate FirstWith(tags: seq<Tag>, key: string, value: string) {
    exists i :: 0 <= i < |tags| && tags[i] == Tag(key, value) && forall j :: 0 <= j < i ==> tags[j].key != key
  }

  lemma {:induction false} GetTagIsFirst(tags: seq<Tag>, key: string, value: string)
    ensures GetTag(tags, key) == Some(value) <==> FirstWith(tags, key, value)
  {
    if tags != [] {
      GetTagIsFirst(tags[1..], key, value);
      if FirstWith(tags, key, value) && tags[0].key != key {
        var i :| 0 <= i < |tags| && tags[i] == Tag(key, value) && forall j :: 0 <= j < i ==> tags[j].key != key;
        assert tags[1..][i - 1] == tags[i];
      }
      if FirstWith(tags[1..], key, value) && tags[0].key != key {
        var i :| 0 <= i < |tags| - 1 && tags[1..][i] == Tag(key, value) && forall j :: 0 <= j < i ==> tags[1..][j].key != key;
        assert tags[i + 1] == Tag(key, value);
        assert forall j :: 0 <= j < i + 1 ==> tags[j].key != key;
      }
    }
  }

  /** The first tag under each of the three keys is the service's own. */
  ghost predicate OwnIp(tags: seq<Tag>, service: ServiceKey) {
    && FirstWith(tags, CLOUD_PROVIDER_TAG, PROVIDER)
    && FirstWith(tags, SERVICE_TAG, service.name)
    && FirstWith(tags, NAMESPACE_TAG, service.namespace)
  }

  /** No ignore tag, and either the first provider and service tags are the service's own and so is the
      first namespace tag, if there is one, or the service's only ingress carries the balancer's name. */
  ghost predicate OwnLb(tags: seq<Tag>, service: ServiceKey, ingress: seq<Ingress>, lbName: string) {
    && (forall i :: 0 <= i < |tags| ==> tags[i].key != IGNORE_TAG)
    && (|| (&& FirstWith(tags, CLOUD_PROVIDER_TAG, PROVIDER)
            && FirstWith(tags, SERVICE_TAG, service.name)
            && ((exists i :: 0 <= i < |tags| && tags[i].key == NAMESPACE_TAG) ==> FirstWith(tags, NAMESPACE_TAG, service.namespace)))
        || (|ingress| == 1 && ingress[0].hostname == lbName))
  }

  lemma {:induction false} OwnershipKeys(tags: seq<Tag>, service: ServiceKey)
    ensures TagsFor(service).Keys == {CLOUD_PROVIDER_TAG, SERVICE_TAG, NAMESPACE_TAG} && IGNORE_TAG !in TagsFor(service)
    ensures GetTag(tags, CLOUD_PROVIDER_TAG) == Some(PROVIDER) <==> FirstWith(tags, CLOUD_PROVIDER_TAG, PROVIDER)
    ensures GetTag(tags, SERVICE_TAG) == Some(service.name) <==> FirstWith(tags, SERVICE_TAG, service.name)
    ensures GetTag(tags, NAMESPACE_TAG) == Some(service.namespace) <==> FirstWith(tags, NAMESPACE_TAG, service.namespace)
  {
    TagKeys(service);
    GetTagIsFirst(tags, CLOUD_PROVIDER_TAG, PROVIDER);
    GetTagIsFirst(tags, SERVICE_TAG, service.name);
    GetTagIsFirst(tags, NAMESPACE_TAG, service.namespace);
  }

  lemma IpOwnershipExactly(tags: seq<Tag>, service: ServiceKey)
    ensures ShouldManageIp(tags, service) <==> OwnIp(tags, service)
  {
    TagKeys(service);
    OwnershipKeys(tags, service);
    assert CLOUD_PROVIDER_TAG in TagsFor(service) && SERVICE_TAG in TagsFor(service) && NAMESPACE_TAG in TagsFor(service);
  }

  lemma LbOwnershipExactly(tags: seq<Tag>, service: ServiceKey, ingress: seq<Ingress>, lbName: string)
    ensures ShouldManageLb(tags, service, ingress, lbName) <==> OwnLb(tags, service, ingress, lbName)
  {
    TagKeys(service);
    GetTagFinds(tags, IGNORE_TAG);
    GetTagFinds(tags, NAMESPACE_TAG);
    OwnershipKeys(tags, service);
    assert CLOUD_PROVIDER_TAG in TagsFor(service) && SERVICE_TAG in TagsFor(service) && NAMESPACE_TAG in TagsFor(service);
  }

  /** getTag and the three loops over it. */
  method FindTag(tags: seq<Tag>, key: string) returns (value: Option<string>)
    ensures value == GetTag(tags, key)
  {
    for i := 0 to |tags|
      invariant GetTag(tags, key) == GetTag(tags[i..], key)
    {
      if tags[i].key == key {
        return Some(tags[i].value);
      }
    }
    value := None;
  }

  method IsIpManaged(tags: seq<Tag>, service: ServiceKey) returns (managed: bool)
    ensures managed <==> ShouldManageIp(tags, service)
  {
    var wanted := TagsFor(service);
    var todo := wanted.Keys;
    while todo != {}
      invariant todo <= wanted.Keys
      invariant forall k :: k in wanted.Keys - todo ==> GetTag(tags, k) == Some(wanted[k])
      decreases |todo|
    {
      var key :| key in todo;
      todo := todo - {key};
      var value := FindTag(tags, key);
      if value != Some(wanted[key]) {
        return false;
      }
    }
    managed := true;
  }

  method IsLbManaged(tags: seq<Tag>, service: ServiceKey, ingress: seq<Ingress>, lbName: string) returns (managed: bool)
    ensures managed <==> ShouldManageLb(tags, service, ingress, lbName)
  {
    var ignored := FindTag(tags, IGNORE_TAG);
    if ignored.Some? {
      return false;
    }
    var wanted := TagsFor(service);
    var todo, missingTags := wanted.Keys, {};
    while todo != {}
      invariant todo <= wanted.Keys
      invariant missingTags == set k | k in wanted.Keys - todo && TagMissing(tags, service, k)
      decreases |todo|
    {
      var key :| key in todo;
      todo := todo - {key};
      var value := FindTag(tags, key);
      if key == NAMESPACE_TAG && value.None? {
        continue;
      }
      if value != Some(wanted[key]) {
        missingTags := missingTags + {key};
      }
    }
    if missingTags == {} {
      assert forall k :: k in wanted && TagMissing(tags, service, k) ==> k in missingTags;
      return true;
    }
    var some :| some in missingTags;
    managed := |ingress| == 1 && ingress[0].hostname == lbName;
  }

  method HasMissingTags(tags: seq<Tag>) returns (missing: bool)
    ensures missing <==> HasMissingKeys(tags)
  {
    var tagMap: map<string, string> := map[];
    for i := 0 to |tags|
      invariant forall k :: k in tagMap <==> HasKey(tags[..i], k)
    {
      assert tags[..i + 1] == tags[..i] + [tags[i]];
      assert (tags[..i] + [tags[i]])[i] == tags[i];
      forall k ensures HasKey(tags[..i + 1], k) <==> HasKey(tags[..i], k) || k == tags[i].key {
        if HasKey(tags[..i], k) {
          var j :| 0 <= j < i && tags[..i][j].key == k;
          assert tags[..i + 1][j].key == k;
        }
        if HasKey(tags[..i + 1], k) && k != tags[i].key {
          var j :| 0 <= j < i + 1 && tags[..i + 1][j].key == k;
          assert tags[..i][j].key == k;
        }
      }
      tagMap := tagMap[tags[i].key := tags[i].value];
    }
    assert tags[..|tags|] == tags;
    for i := 0 to |TAG_ORDER|
      invariant forall j :: 0 <= j < i ==> HasKey(tags, TAG_ORDER[j])
    {
      if TAG_ORDER[i] !in tagMap {
        return true;
      }
    }
    missing := false;
  }
}
