/** The provider ID of a node: environment, project and VM joined with slashes. */
module ProviderId {
  import opened Wrappers
  import opened Strings

  const PROVIDER_NAME := "custom-cloudstack"
  const PREFIX := PROVIDER_NAME + "://"

  datatype NodeId = NodeId(environment: string, projectId: string, vmId: string)

  function ToProviderId(n: NodeId): string {
    Join([n.environment, n.projectId, n.vmId], '/')
  }

  function ParseProviderId(id: string): Result<NodeId> {
    var parts := Split(TrimPrefix(id, PREFIX), '/');
    if |parts| != 3 then Err else Ok(NodeId(parts[0], parts[1], parts[2]))
  }

  predicate Plain(n: NodeId) {
    '/' !in n.environment && '/' !in n.projectId && '/' !in n.vmId
  }

  lemma ParseUntrimmed(n: NodeId)
    requires Plain(n)
    ensures Split(ToProviderId(n), '/') == [n.environment, n.projectId, n.vmId]
  {
    SplitJoin([n.environment, n.projectId, n.vmId], '/');
  }

  /** With the scheme in front, every plain ID reads back. */
  lemma PrefixedRoundTrip(n: NodeId)
    requires Plain(n)
    ensures ParseProviderId(PREFIX + ToProviderId(n)) == Ok(n)
  {
    ParseUntrimmed(n);
    assert (PREFIX + ToProviderId(n))[|PREFIX|..] == ToProviderId(n);
  }

  /** The printed form of `n`, spelled out. */
  lemma PrintedForm(n: NodeId)
    ensures ToProviderId(n) == n.environment + "/" + n.projectId + "/" + n.vmId
  {
    var parts := [n.environment, n.projectId, n.vmId];
    assert parts[1..][1..] == [n.vmId];
    assert Join(parts[1..], '/') == n.projectId + "/" + n.vmId;
  }

  /** When a printed ID happens to start with the scheme. */
  lemma StartsWithScheme(n: NodeId)
    requires Plain(n)
    ensures HasPrefix(ToProviderId(n), PREFIX) <==> n.environment == PROVIDER_NAME + ":" && n.projectId == ""
  {
    PrintedForm(n);
    var id := ToProviderId(n);
    var k := |PROVIDER_NAME| + 1;
    assert PREFIX[k] == '/' && PREFIX[k + 1] == '/' && |PREFIX| == k + 2;
    assert forall i :: 0 <= i < k ==> PREFIX[i] != '/';
    assert forall i :: 0 <= i < |n.environment| ==> id[i] == n.environment[i] && n.environment[i] != '/';
    assert forall i :: 0 <= i < |n.projectId| ==> id[|n.environment| + 1 + i] == n.projectId[i] && n.projectId[i] != '/';
    assert id[|n.environment|] == '/';
    if HasPrefix(id, PREFIX) {
      assert forall i :: 0 <= i < |PREFIX| ==> id[i] == PREFIX[i];
      assert id[k] == '/' && id[k + 1] == '/';
      assert |n.environment| == k;
      assert n.environment == PREFIX[..k];
      assert |n.projectId| == 0;
    }
  }

  /** Without the scheme the round trip is exact but for one environment name: the scheme's own
      first part, with an empty project, is mistaken for the scheme and the ID is rejected. */
  lemma RoundTripExactly(n: NodeId)
    requires Plain(n)
    ensures ParseProviderId(ToProviderId(n)) ==
            if n.environment == PROVIDER_NAME + ":" && n.projectId == "" then Err else Ok(n)
  {
    StartsWithScheme(n);
    if HasPrefix(ToProviderId(n), PREFIX) {
      PrintedForm(n);
      assert ToProviderId(n)[|PREFIX|..] == n.vmId;
      SplitPrefix(n.vmId, "", '/');
    } else {
      ParseUntrimmed(n);
    }
  }

  function CountOf(s: string, c: char): nat {
    if s == [] then 0 else (if s[0] == c then 1 else 0) + CountOf(s[1..], c)
  }

  lemma {:induction false} SplitLength(s: string, sep: char)
    ensures |Split(s, sep)| == CountOf(s, sep) + 1
  {
    if s != [] {
      SplitLength(s[1..], sep);
    }
  }

  lemma {:induction false} SplitPartsPlain(s: string, sep: char)
    ensures NoneContains(Split(s, sep), sep)
  {
    if s != [] {
      SplitPartsPlain(s[1..], sep);
    }
  }

  lemma {:induction false} JoinSplit(s: string, sep: char)
    ensures Join(Split(s, sep), sep) == s
  {
    if s != [] {
      JoinSplit(s[1..], sep);
      var rest := Split(s[1..], sep);
      var parts := Split(s, sep);
      assert s == [s[0]] + s[1..];
      if s[0] == sep {
        assert parts[1..] == rest;
      } else {
        assert parts[1..] == rest[1..];
      }
    }
  }

  /** Parsing accepts exactly the strings with two slashes after trimming, and an accepted
      string is the printed form of what was read. */
  lemma ParseAccepts(id: string)
    ensures ParseProviderId(id).Ok? <==> CountOf(TrimPrefix(id, PREFIX), '/') == 2
    ensures ParseProviderId(id).Ok? ==>
              && Plain(ParseProviderId(id).value)
              && ToProviderId(ParseProviderId(id).value) == TrimPrefix(id, PREFIX)
  {
    var body := TrimPrefix(id, PREFIX);
    SplitLength(body, '/');
    SplitPartsPlain(body, '/');
    JoinSplit(body, '/');
    if |Split(body, '/')| == 3 {
      var parts := Split(body, '/');
      assert parts == [parts[0], parts[1], parts[2]];
    }
  }
}
