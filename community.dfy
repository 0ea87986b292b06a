/**
 * The community authorization of the API. Only employees (holders of a token of the
 * `/employees` realm) may create resources; a resource is updated or deleted only by an
 * administrator or by a member of the community that owns the resource's product group.
 * The user's directory groups, the administrators and the group prefix are inputs.
 */
module Community {
  import opened Wrappers
  import opened PyStr
  import opened OrderedDict
  import opened PyValue
  import opened Resource

  /** The realm of employee tokens. */
  const EmployeesRealm: string := "/employees"

  const EmployeesOnly: Problem :=
    Problem(401, "UnAuthorized", "Only employees are allowed to modify/create resources.")

  /** The configuration: `ADMINS` and `API_AUTHORIZATION_COMMUNITY_PREFIX`. */
  datatype Config = Config(admins: seq<string>, prefix: string)

  /** What a guarded handler is asked to do to a resource. */
  datatype Operation = Create | Update | Delete

  /** The test of `validate_tokeninfo`: a non-empty token whose realm is the employees realm. */
  predicate Employee(tokenInfo: Option<Dict>) {
    tokenInfo.Some? && |tokenInfo.value| > 0 && Get(tokenInfo.value, "realm") == Some(Str(EmployeesRealm))
  }

  /** `uid in ADMINS` */
  predicate IsAdmin(uid: Value, admins: seq<string>) {
    uid.Str? && uid.s in admins
  }

  /**
   * The community a directory group `.../COMMUNITY/ROLE` names: its second-to-last
   * '/'-segment, slugged; none when the group has no '/' (Python raises IndexError).
   */
  function CommunityOf(group: string, slugger: string -> string): Option<string> {
    var parts := Split(group, '/');
    if |parts| >= 2 then Some(slugger(parts[|parts| - 2])) else None
  }

  /**
   * `current_user_communities` for the user's groups: the community of every group that
   * starts with the prefix, in order; the first such group without a '/' raises IndexError.
   */
  function UserCommunities(groups: seq<string>, prefix: string, slugger: string -> string): Result<seq<string>, ApiError>
    decreases |groups|
  {
    if |groups| == 0 then Ok([])
    else
      match UserCommunities(groups[..|groups| - 1], prefix, slugger)
      case Err(e) => Err(e)
      case Ok(init) =>
        var g := Last(groups);
        if !StartsWith(g, prefix) then Ok(init)
        else
          match CommunityOf(g, slugger)
          case None => Err(Raised("IndexError"))
          case Some(c) => Ok(init + [c])
  }

  /** Every group the prefix selects names a community. */
  predicate WellFormedGroups(groups: seq<string>, prefix: string, slugger: string -> string) {
    forall i :: 0 <= i < |groups| && StartsWith(groups[i], prefix) ==> CommunityOf(groups[i], slugger).Some?
  }

  /** Some group the prefix selects names community `c`. */
  predicate MemberOf(groups: seq<string>, prefix: string, slugger: string -> string, c: string) {
    exists i :: 0 <= i < |groups| && StartsWith(groups[i], prefix) && CommunityOf(groups[i], slugger) == Some(c)
  }

  /**
   * The communities are listed exactly when every selected group names one, and they are
   * then exactly the communities the selected groups name.
   */
  lemma {:induction false} UserCommunitiesMeaning(groups: seq<string>, prefix: string, slugger: string -> string)
    ensures UserCommunities(groups, prefix, slugger).Ok? <==> WellFormedGroups(groups, prefix, slugger)
    ensures UserCommunities(groups, prefix, slugger).Err? ==> UserCommunities(groups, prefix, slugger).error == Raised("IndexError")
    ensures UserCommunities(groups, prefix, slugger).Ok? ==>
      forall c :: c in UserCommunities(groups, prefix, slugger).value <==> MemberOf(groups, prefix, slugger, c)
    decreases |groups|
  {
    if |groups| > 0 {
      var init := groups[..|groups| - 1];
      var n := |groups| - 1;
      UserCommunitiesMeaning(init, prefix, slugger);
      assert forall i :: 0 <= i < n ==> groups[i] == init[i];
      if UserCommunities(init, prefix, slugger).Ok? {
        forall c ensures MemberOf(groups, prefix, slugger, c) <==>
          MemberOf(init, prefix, slugger, c) || (StartsWith(groups[n], prefix) && CommunityOf(groups[n], slugger) == Some(c))
        {
          if MemberOf(groups, prefix, slugger, c) {
            var i :| 0 <= i < |groups| && StartsWith(groups[i], prefix) && CommunityOf(groups[i], slugger) == Some(c);
            if i < n {
              assert init[i] == groups[i];
            }
          }
        }
      }
    }
  }

  /**
   * With a prefix that itself contains '/' (as `Function/Communities/` does), every selected
   * group has a '/' too, so listing the communities never fails.
   */
  lemma SlashPrefixNeverFails(groups: seq<string>, prefix: string, slugger: string -> string)
    requires '/' in prefix
    ensures UserCommunities(groups, prefix, slugger).Ok?
  {
    forall i | 0 <= i < |groups| && StartsWith(groups[i], prefix)
      ensures CommunityOf(groups[i], slugger).Some?
    {
      var j :| 0 <= j < |prefix| && prefix[j] == '/';
      assert groups[i][..|prefix|][j] == '/';
      SplitWith(groups[i], '/');
    }
    UserCommunitiesMeaning(groups, prefix, slugger);
  }

  /**
   * The community of a product group: a `Core...` group with a '/' names it in its second
   * '/'-segment, slugged; any other group is its own lower-cased name.
   */
  function ProductGroupCommunity(productGroup: string, slugger: string -> string): string {
    if StartsWith(productGroup, "Core") && '/' in productGroup then
      SplitWith(productGroup, '/');
      slugger(Split(productGroup, '/')[1])
    else Lower(productGroup)
  }

  /** `community_match`: administrators match everything; others need the owner's community. */
  predicate CommunityMatch(productGroup: string, communities: seq<string>, admin: bool, slugger: string -> string) {
    admin || ProductGroupCommunity(productGroup, slugger) in communities
  }

  const Slugs: string -> string := s => "slug:" + s

  /**
   * A `Core...` group names its community in the segment after the first '/', whatever
   * follows that segment.
   */
  lemma CoreGroupCommunity(first: string, second: string, rest: string, slugger: string -> string)
    requires StartsWith(first, "Core") && '/' !in first && '/' !in second
    requires rest == [] || rest[0] == '/'
    ensures ProductGroupCommunity(first + ['/'] + second + rest, slugger) == slugger(second)
  {
    var pg := first + ['/'] + second + rest;
    assert pg[..|first|] == first;
    assert pg[|first|] == '/';
    assert pg == first + ['/'] + (second + rest);
    SplitCons(first, '/', second + rest);
    if rest == [] {
      assert second + rest == second;
      SplitWithout(second, '/');
    } else {
      assert second + rest == second + ['/'] + rest[1..];
      SplitCons(second, '/', rest[1..]);
    }
  }

  /** Any other group is its own lower-cased name, even one with '/' or a lower-case `core`. */
  lemma OtherGroupExamples()
    ensures ProductGroupCommunity("core/Pay", Slugs) == "core/pay"
    ensures ProductGroupCommunity("Core", Slugs) == "core"
  {
    assert !StartsWith("core/Pay", "Core") by {
      assert "core/Pay"[0] != "Core"[0];
    }
    assert '/' !in "Core";
  }

  /** The problem refusing an update or delete of a resource owned by `owner`. */
  function NotAllowed(op: Operation, owner: string): Problem {
    var verb := match op
      case Create => "create"
      case Update => "update"
      case Delete => "delete";
    Problem(401, "UnAuthorized", "User is not allowed to " + verb + " current resource owned by '" + owner + "'")
  }

  /**
   * `CommunityAuthorization.create`, `update` and `delete` on a resource whose owner
   * (`get_owner()`) is the product group `owner`; `groupsOf` is the directory lookup
   * `get_user_groups` (an empty list when it fails).
   */
  function Authorize(op: Operation, tokenInfo: Option<Dict>, owner: string, config: Config,
                     groupsOf: Value -> seq<string>, slugger: string -> string): Result<(), ApiError>
  {
    if !Employee(tokenInfo) then Err(Refused(EmployeesOnly))
    else if op.Create? then Ok(())
    else if "uid" !in Keys(tokenInfo.value) then Err(Raised("KeyError"))
    else
      var uid := Get(tokenInfo.value, "uid").value;
      match UserCommunities(groupsOf(uid), config.prefix, slugger)
      case Err(e) => Err(e)
      case Ok(communities) =>
        if CommunityMatch(owner, communities, IsAdmin(uid, config.admins), slugger) then Ok(())
        else Err(Refused(NotAllowed(op, owner)))
  }

  /** Creating asks for an employee token and nothing else. */
  lemma CreateNeedsEmployee(tokenInfo: Option<Dict>, owner: string, config: Config,
                            groupsOf: Value -> seq<string>, slugger: string -> string)
    ensures Authorize(Create, tokenInfo, owner, config, groupsOf, slugger).Ok? <==> Employee(tokenInfo)
    ensures !Employee(tokenInfo) ==> Authorize(Create, tokenInfo, owner, config, groupsOf, slugger) == Err(Refused(EmployeesOnly))
  {
  }

  /**
   * An update or delete is allowed exactly when the token is an employee's, carries a uid
   * whose selected groups all name a community, and the user is an administrator or one
   * of those groups names the owner's community. Every refusal is a 401 problem.
   */
  lemma AuthorizeMeaning(op: Operation, tokenInfo: Option<Dict>, owner: string, config: Config,
                         groupsOf: Value -> seq<string>, slugger: string -> string)
    requires !op.Create?
    ensures Authorize(op, tokenInfo, owner, config, groupsOf, slugger).Ok? <==>
      Employee(tokenInfo) && "uid" in Keys(tokenInfo.value) &&
      var uid := Get(tokenInfo.value, "uid").value;
      WellFormedGroups(groupsOf(uid), config.prefix, slugger) &&
      (IsAdmin(uid, config.admins) ||
       MemberOf(groupsOf(uid), config.prefix, slugger, ProductGroupCommunity(owner, slugger)))
    ensures Authorize(op, tokenInfo, owner, config, groupsOf, slugger).Err? &&
            Authorize(op, tokenInfo, owner, config, groupsOf, slugger).error.Refused? ==>
      Authorize(op, tokenInfo, owner, config, groupsOf, slugger).error.problem.status == 401
  {
    if Employee(tokenInfo) && "uid" in Keys(tokenInfo.value) {
      var uid := Get(tokenInfo.value, "uid").value;
      UserCommunitiesMeaning(groupsOf(uid), config.prefix, slugger);
    }
  }
}
