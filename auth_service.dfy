/** Finding the tenant of an authenticated request: the one group of the
    token that names a client, `/veo_client:<uuid>`. */
module Auth {
  import opened Wrappers
  import opened Uuids

  const ClientGroupPrefix: string := "/veo_client:"

  /** The principal of a request: a JWT, whose `groups` claim may be
      missing, or anything else. */
  datatype Authentication = OtherPrincipal | Jwt(groupsClaim: Option<seq<string>>)

  /** The IllegalArgumentExceptions `getClientId` throws. */
  datatype AuthError =
    | NotAJwt          // "Principal is not a JWT."
    | NoGroupClaims    // "JWT does not contain group claims."
    | ClientCount(count: nat)  // "Expected 1 client for the account. Got <count>."

  /** `clientGroupRegex.matchEntire(group)` succeeds: the whole group is the
      prefix followed by text of the UUID hex shape, in either case. */
  predicate IsClientGroup(group: string) {
    |group| == |ClientGroupPrefix| + 36 && group[..|ClientGroupPrefix|] == ClientGroupPrefix &&
    IsUuidText(group[|ClientGroupPrefix|..])
  }

  /** `groups.mapNotNull { clientGroupRegex.matchEntire(it) }`, keeping of each
      match its first group, the UUID text. */
  function ClientGroupMatches(groups: seq<string>): (r: seq<string>)
    ensures |r| <= |groups|
    ensures forall k :: 0 <= k < |r| ==> IsUuidText(r[k])
    ensures |r| == 0 <==> forall i :: 0 <= i < |groups| ==> !IsClientGroup(groups[i])
  {
    if groups == [] then []
    else
      var rest := ClientGroupMatches(groups[1..]);
      assert forall i :: 1 <= i < |groups| ==> groups[i] == groups[1..][i - 1];
      if IsClientGroup(groups[0]) then [groups[0][|ClientGroupPrefix|..]] + rest else rest
  }

  /** `extractClientId`: exactly one client group is required, and its UUID
      is the tenant; any other number of them is an error that reports the
      number. */
  function ExtractClientId(groups: seq<string>): (r: Result<Uuid, AuthError>)
    ensures r.Failure? ==> r.error.ClientCount? && r.error.count != 1
    ensures r.Failure? ==> r.error.count == |ClientGroupMatches(groups)|
  {
    var matches := ClientGroupMatches(groups);
    if |matches| != 1 then Failure(ClientCount(|matches|)) else Success(ParseUuid(matches[0]))
  }

  /** `getClientId`: only a JWT with a `groups` claim has a tenant. */
  function GetClientId(authentication: Authentication): (r: Result<Uuid, AuthError>)
    ensures authentication.OtherPrincipal? ==> r == Failure(NotAJwt)
    ensures authentication == Jwt(None) ==> r == Failure(NoGroupClaims)
    ensures authentication.Jwt? && authentication.groupsClaim.Some? ==>
      r == ExtractClientId(authentication.groupsClaim.value)
  {
    match authentication
    case OtherPrincipal => Failure(NotAJwt)
    case Jwt(None) => Failure(NoGroupClaims)
    case Jwt(Some(groups)) => ExtractClientId(groups)
  }

  /** A unique client group at position `i`. */
  predicate OnlyClientGroupAt(groups: seq<string>, i: int) {
    0 <= i < |groups| && IsClientGroup(groups[i]) &&
    forall j :: 0 <= j < |groups| && j != i ==> !IsClientGroup(groups[j])
  }

  /** One match comes from a unique client group, and is its UUID text. */
  lemma {:induction false} OneMatchIsUnique(groups: seq<string>)
    requires |ClientGroupMatches(groups)| == 1
    ensures exists i ::
      OnlyClientGroupAt(groups, i) && ClientGroupMatches(groups)[0] == groups[i][|ClientGroupPrefix|..]
  {
    var rest := groups[1..];
    assert forall j :: 1 <= j < |groups| ==> groups[j] == rest[j - 1];
    if IsClientGroup(groups[0]) {
      assert |ClientGroupMatches(rest)| == 0;
      assert OnlyClientGroupAt(groups, 0);
    } else {
      OneMatchIsUnique(rest);
      var i :| OnlyClientGroupAt(rest, i) && ClientGroupMatches(rest)[0] == rest[i][|ClientGroupPrefix|..];
      assert OnlyClientGroupAt(groups, i + 1);
    }
  }

  /** A unique client group gives exactly one match. */
  lemma {:induction false} UniqueGivesOneMatch(groups: seq<string>, i: int)
    requires OnlyClientGroupAt(groups, i)
    ensures |ClientGroupMatches(groups)| == 1
  {
    var rest := groups[1..];
    assert forall j :: 1 <= j < |groups| ==> groups[j] == rest[j - 1];
    if i == 0 {
      assert forall j :: 0 <= j < |rest| ==> !IsClientGroup(rest[j]);
    } else {
      assert !IsClientGroup(groups[0]);
      assert OnlyClientGroupAt(rest, i - 1);
      UniqueGivesOneMatch(rest, i - 1);
    }
  }

  /** Two client groups give at least two matches. */
  lemma {:induction false} TwoGroupsGiveTwoMatches(groups: seq<string>, i: int, j: int)
    requires 0 <= i < j < |groups| && IsClientGroup(groups[i]) && IsClientGroup(groups[j])
    ensures |ClientGroupMatches(groups)| >= 2
  {
    var rest := groups[1..];
    assert groups[j] == rest[j - 1];
    if i == 0 {
      assert |ClientGroupMatches(rest)| != 0;
    } else {
      assert groups[i] == rest[i - 1];
      TwoGroupsGiveTwoMatches(rest, i - 1, j - 1);
    }
  }

  /** The tenant is found exactly when one group, and no other, is a client
      group, and then it is the UUID that group names. */
  lemma ExtractClientIdExactlyOne(groups: seq<string>)
    ensures ExtractClientId(groups).Success? <==> exists i :: OnlyClientGroupAt(groups, i)
    ensures ExtractClientId(groups).Success? ==>
      exists i :: OnlyClientGroupAt(groups, i) &&
        ExtractClientId(groups).value == ParseUuid(groups[i][|ClientGroupPrefix|..])
  {
    if ExtractClientId(groups).Success? {
      OneMatchIsUnique(groups);
    }
    if exists i :: OnlyClientGroupAt(groups, i) {
      var i :| OnlyClientGroupAt(groups, i);
      UniqueGivesOneMatch(groups, i);
    }
  }

  /** The group a client's members carry. */
  function ClientGroup(u: Uuid): string {
    ClientGroupPrefix + UuidToString(u)
  }

  /** A client's group, written in lower or in upper case, is a client group
      and names that client. */
  lemma ClientGroupRoundTrip(u: Uuid)
    ensures IsClientGroup(ClientGroup(u)) && ClientGroup(u)[|ClientGroupPrefix|..] == UuidToString(u)
    ensures IsClientGroup(ClientGroupPrefix + UuidToUpperString(u))
    ensures ExtractClientId([ClientGroup(u)]) == Success(u)
    ensures ExtractClientId([ClientGroupPrefix + UuidToUpperString(u)]) == Success(u)
  {
    UuidTextRoundTrip(u);
    var g, h := ClientGroup(u), ClientGroupPrefix + UuidToUpperString(u);
    assert g[|ClientGroupPrefix|..] == UuidToString(u) && g[..|ClientGroupPrefix|] == ClientGroupPrefix;
    assert h[|ClientGroupPrefix|..] == UuidToUpperString(u) && h[..|ClientGroupPrefix|] == ClientGroupPrefix;
    var gs: seq<string>, hs: seq<string> := [g], [h];
    assert ClientGroupMatches(gs) == [UuidToString(u)] by {
      assert gs[1..] == [];
    }
    assert ClientGroupMatches(hs) == [UuidToUpperString(u)] by {
      assert hs[1..] == [];
    }
  }

  /** A group starting with "x" never names a client. */
  lemma PrefixedGroupIsNoClientGroup(s: string)
    ensures !IsClientGroup("x" + s)
  {
    assert ("x" + s)[0] == 'x' != ClientGroupPrefix[0];
  }

  /** Groups that name no client do not disturb the search: with them and one
      client's group, in any position, the tenant is that client. */
  lemma OtherGroupsIgnored(u: Uuid, before: seq<string>, after: seq<string>)
    requires forall i :: 0 <= i < |before| ==> !IsClientGroup(before[i])
    requires forall i :: 0 <= i < |after| ==> !IsClientGroup(after[i])
    ensures ExtractClientId(before + [ClientGroup(u)] + after) == Success(u)
  {
    ClientGroupRoundTrip(u);
    var groups := before + [ClientGroup(u)] + after;
    var n := |before|;
    assert groups[n] == ClientGroup(u);
    assert forall j :: 0 <= j < |groups| && j != n ==> !IsClientGroup(groups[j]) by {
      forall j | 0 <= j < |groups| && j != n ensures !IsClientGroup(groups[j]) {
        if j < n { assert groups[j] == before[j]; } else { assert groups[j] == after[j - n - 1]; }
      }
    }
    assert OnlyClientGroupAt(groups, n);
    ExtractClientIdExactlyOne(groups);
    var i :| OnlyClientGroupAt(groups, i) &&
      ExtractClientId(groups).value == ParseUuid(groups[i][|ClientGroupPrefix|..]);
    assert i == n;
  }

  /** Two different positions holding client groups, of the same client or of
      different ones, leave the account without a tenant. */
  lemma TwoClientGroupsFail(groups: seq<string>, i: int, j: int)
    requires 0 <= i < j < |groups| && IsClientGroup(groups[i]) && IsClientGroup(groups[j])
    ensures ExtractClientId(groups).Failure?
  {
    TwoGroupsGiveTwoMatches(groups, i, j);
  }

  /** Without any client group there is no tenant either. */
  lemma NoClientGroupFails(groups: seq<string>)
    requires forall i :: 0 <= i < |groups| ==> !IsClientGroup(groups[i])
    ensures ExtractClientId(groups) == Failure(ClientCount(0))
  {
  }

  /** A client group admits nothing before or after it. */
  lemma WholeGroupOnly(group: string, extra: string)
    requires IsClientGroup(group) && extra != []
    ensures !IsClientGroup(extra + group) && !IsClientGroup(group + extra)
  {
  }
}
