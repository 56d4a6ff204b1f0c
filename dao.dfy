/** The membership directory and the proposal pre-check of `DaoService`
    (dao.rs). Proposal storage, voting and settlement belong to the external
    `nnsdao_sdk_basic` crate; its `proposal` and `vote` calls, and the NDP
    balance lookup, are function parameters of the operations that make them. */
module Dao {
  import opened Common

  type I8 = n: int | -128 <= n < 128

  const STATUS_JOINED: I8 := 1
  const STATUS_QUIT: I8 := -1

  const ALREADY_MEMBER := "You are alreay a member of this group!"
  const NOT_MEMBER := "You are not yet a member of this group!"
  const NOT_JOINED := "Users have not yet joined current DAO!"
  const INSUFFICIENT_FUNDS := "Insufficient funds sent."

  /** 1000 NDP, in e8s. */
  const MIN_PROPOSAL_BALANCE: nat := 1000_0000_0000

  datatype Social = Social(key: string, link: string)

  datatype MemberItems = MemberItems(
    nickname: string,
    statusCode: I8,
    avatar: string,
    intro: string,
    social: seq<Social>)

  datatype JoinDaoParams = JoinDaoParams(nickname: string, avatar: string, intro: string, social: seq<Social>)

  datatype DaoInfo = DaoInfo(
    name: string,
    poster: string,
    avatar: string,
    tags: seq<string>,
    intro: string,
    social: Social)

  datatype ProposalBody = ProposalBody(
    proposer: Principal,
    title: string,
    content: string,
    endTime: U64,
    subAccount: Subaccount)

  datatype ProposerListItem = ProposerListItem(proposer: Principal, subAccount: Subaccount, id: U64)

  /** The SDK's proposal request. */
  datatype ProposalArg = ProposalArg(proposer: Principal, title: string, content: string, endTime: U64)

  /** The SDK's proposal record, reduced to the id this service reads. */
  datatype Proposal = Proposal(id: U64)

  datatype Votes = Yes(amount: U64) | No(amount: U64)

  /** The SDK's vote request. */
  datatype VotesArg = VotesArg(id: U64, caller: Principal, vote: Votes)

  datatype VoteArg = VoteArg(id: U64, ndpCount: U64)

  type Members = map<Principal, MemberItems>

  /** The record `join` creates from its parameters. */
  function NewMember(params: JoinDaoParams): (m: MemberItems)
    ensures m.statusCode == STATUS_JOINED
    ensures m.nickname == params.nickname && m.avatar == params.avatar
    ensures m.intro == params.intro && m.social == params.social
  {
    MemberItems(params.nickname, STATUS_JOINED, params.avatar, params.intro, params.social)
  }

  /** `join` on the member map: the new map and the result. A principal that
      is present in any status, joined or quit, is refused. */
  function JoinMember(members: Members, p: Principal, params: JoinDaoParams): (r: (Members, Result<MemberItems>))
    ensures p in members ==> r == (members, Err(ALREADY_MEMBER))
    ensures p !in members ==>
      && r.1 == Ok(NewMember(params))
      && r.0.Keys == members.Keys + {p}
      && r.0[p] == r.1.value
      && (forall q :: q in members ==> r.0[q] == members[q])
  {
    if p in members then (members, Err(ALREADY_MEMBER))
    else (members[p := NewMember(params)], Ok(NewMember(params)))
  }

  /** `quit` on the member map: the record is kept and only its status changes. */
  function QuitMember(members: Members, p: Principal): (r: (Members, Result<bool>))
    ensures p !in members ==> r == (members, Err(NOT_MEMBER))
    ensures p in members ==>
      && r.1 == Ok(true)
      && r.0.Keys == members.Keys
      && r.0[p] == members[p].(statusCode := STATUS_QUIT)
      && (forall q :: q in members && q != p ==> r.0[q] == members[q])
  {
    if p !in members then (members, Err(NOT_MEMBER))
    else (members[p := members[p].(statusCode := STATUS_QUIT)], Ok(true))
  }

  /** `is_member`: presence of the key, whatever the status. */
  function IsMemberOf(members: Members, p: Principal): (r: Result<bool>)
    ensures r == Ok(true) <==> p in members
    ensures r != Ok(true) ==> r == Err(NOT_JOINED)
  {
    if p in members then Ok(true) else Err(NOT_JOINED)
  }

  /** A second `join` with the same principal fails and changes nothing. */
  lemma JoinTwiceFails(members: Members, p: Principal, first: JoinDaoParams, second: JoinDaoParams)
    ensures var once := JoinMember(members, p, first).0;
            JoinMember(once, p, second) == (once, Err(ALREADY_MEMBER))
  {
  }

  /** A member who quit cannot join again. */
  lemma QuitThenJoinFails(members: Members, p: Principal, params: JoinDaoParams)
    requires p in members
    ensures var left := QuitMember(members, p).0;
            JoinMember(left, p, params) == (left, Err(ALREADY_MEMBER))
  {
  }

  /** `quit` is idempotent: a second `quit` leaves the same map and again returns `Ok(true)`. */
  lemma QuitIdempotent(members: Members, p: Principal)
    ensures var once := QuitMember(members, p);
            QuitMember(once.0, p) == once
  {
    if p in members {
      var left := QuitMember(members, p).0;
      assert left[p := left[p].(statusCode := STATUS_QUIT)] == left;
    }
  }

  /** A member who quit still counts as a member for `is_member`. */
  lemma QuitKeepsMembership(members: Members, p: Principal)
    requires p in members
    ensures IsMemberOf(QuitMember(members, p).0, p) == Ok(true)
  {
  }

  /** The values of a map, with multiplicity (the order of `HashMap::values` is unspecified). */
  ghost function MapValues<K, V>(m: map<K, V>): multiset<V>
    decreases |m|
  {
    if m == map[] then multiset{}
    else
      var k :| k in m;
      assert |m - {k}| < |m| by { assert m.Keys - {k} < m.Keys; }
      MapValues(m - {k}) + multiset{m[k]}
  }

  /** Whichever key is taken out first, the values add up the same. */
  lemma {:induction false} MapValuesRemove<K, V>(m: map<K, V>, k: K)
    requires k in m
    ensures MapValues(m) == MapValues(m - {k}) + multiset{m[k]}
    decreases |m|
  {
    var k' :| k' in m && MapValues(m) == MapValues(m - {k'}) + multiset{m[k']};
    if k' != k {
      var mk, mk' := m - {k}, m - {k'};
      MapMinusOne(m, k);
      MapMinusOne(m, k');
      MapValuesRemove(mk', k);
      MapValuesRemove(mk, k');
      MapMinusSwap(m, k, k');
      var rest := MapValues(mk - {k'});
      calc {
        MapValues(m);
        MapValues(mk') + multiset{m[k']};
        rest + multiset{m[k]} + multiset{m[k']};
        rest + multiset{m[k']} + multiset{m[k]};
        MapValues(mk) + multiset{m[k]};
      }
    }
  }

  lemma MapMinusOne<K, V>(m: map<K, V>, k: K)
    requires k in m
    ensures |m - {k}| == |m| - 1
    ensures forall j :: j in m && j != k ==> j in m - {k} && (m - {k})[j] == m[j]
  {
    assert (m - {k}).Keys == m.Keys - {k};
  }

  lemma MapMinusSwap<K, V>(m: map<K, V>, a: K, b: K)
    ensures m - {a} - {b} == m - {b} - {a}
  {
    assert (m - {a} - {b}).Keys == m.Keys - {a, b} == (m - {b} - {a}).Keys;
  }

  /** Every stored value is among the values, and they number as many as the keys. */
  lemma {:induction false} MapValuesCount<K, V>(m: map<K, V>)
    ensures |MapValues(m)| == |m|
    ensures forall k :: k in m ==> m[k] in MapValues(m)
    decreases |m|
  {
    if m != map[] {
      forall k | k in m
        ensures m[k] in MapValues(m)
      {
        MapValuesRemove(m, k);
      }
      var k :| k in m;
      assert |m - {k}| == |m| - 1 by { assert (m - {k}).Keys == m.Keys - {k}; }
      MapValuesCount(m - {k});
      MapValuesRemove(m, k);
    }
  }

  /** The derived ordering of Rust's `Result<u128, String>`: variants compare
      in declaration order (`Ok` before `Err`), then by payload. */
  function ResultLess(a: Result<nat>, b: Result<nat>): (less: bool)
    ensures a.Ok? && b.Ok? ==> (less <==> a.value < b.value)
    ensures a.Ok? != b.Ok? ==> (less <==> a.Ok?)
  {
    match (a, b)
    case (Ok(x), Ok(y)) => x < y
    case (Ok(_), Err(_)) => true
    case (Err(_), Ok(_)) => false
    case (Err(x), Err(y)) => StringLess(x, y)
  }

  /** Lexicographic order of strings (byte order agrees with code-point order). */
  predicate StringLess(a: string, b: string) {
    if a == [] then b != []
    else if b == [] then false
    else a[0] < b[0] || (a[0] == b[0] && StringLess(a[1..], b[1..]))
  }

  lemma {:induction false} StringLessIrreflexive(a: string)
    ensures !StringLess(a, a)
  {
    if a != [] {
      StringLessIrreflexive(a[1..]);
    }
  }

  lemma {:induction false} StringLessTransitive(a: string, b: string, c: string)
    requires StringLess(a, b) && StringLess(b, c)
    ensures StringLess(a, c)
  {
    if a != [] && a[0] == b[0] && b[0] == c[0] {
      StringLessTransitive(a[1..], b[1..], c[1..]);
    }
  }

  lemma {:induction false} StringLessTotal(a: string, b: string)
    requires a != b
    ensures StringLess(a, b) || StringLess(b, a)
  {
    if a != [] && b != [] && a[0] == b[0] {
      assert a == [a[0]] + a[1..] && b == [b[0]] + b[1..];
      StringLessTotal(a[1..], b[1..]);
    }
  }

  /** `ResultLess` is a strict total order, as a derived `PartialOrd` over
      totally ordered payloads is. */
  lemma ResultLessStrictOrder(a: Result<nat>, b: Result<nat>, c: Result<nat>)
    ensures !ResultLess(a, a)
    ensures ResultLess(a, b) && ResultLess(b, c) ==> ResultLess(a, c)
    ensures a != b ==> ResultLess(a, b) || ResultLess(b, a)
  {
    if a.Err? {
      StringLessIrreflexive(a.error);
    }
    if a.Err? && b.Err? && c.Err? && ResultLess(a, b) && ResultLess(b, c) {
      StringLessTransitive(a.error, b.error, c.error);
    }
    if a.Err? && b.Err? && a != b {
      StringLessTotal(a.error, b.error);
    }
  }

  /** The stake check of `initiate_proposal`, `!(balance < Ok(1000_0000_0000))`:
      it rejects exactly a known balance below 1000 NDP; a failed balance
      lookup sorts above every `Ok` and therefore passes. */
  function PassesStakeCheck(balance: Result<nat>): (passes: bool)
    ensures passes <==> balance.Err? || balance.value >= MIN_PROPOSAL_BALANCE
  {
    !ResultLess(balance, Ok(MIN_PROPOSAL_BALANCE))
  }

  /** The membership directory and proposer list (`DaoService`). */
  class DaoService {
    var memberList: Members
    var proposerList: seq<ProposerListItem>
    var info: DaoInfo

    constructor (info: DaoInfo)
      ensures memberList == map[] && proposerList == [] && this.info == info
    {
      memberList := map[];
      proposerList := [];
      this.info := info;
    }

    /** `is_member`. */
    function IsMember(p: Principal): (r: Result<bool>)
      reads this
      ensures r == Ok(true) <==> p in memberList
      ensures r != Ok(true) ==> r == Err(NOT_JOINED)
    {
      IsMemberOf(memberList, p)
    }

    /** `user_info`: the stored record, or the "not yet a member" error. */
    function UserInfo(p: Principal): (r: Result<MemberItems>)
      reads this
      ensures p in memberList ==> r == Ok(memberList[p])
      ensures p !in memberList ==> r == Err(NOT_MEMBER)
    {
      if p in memberList then Ok(memberList[p]) else Err(NOT_MEMBER)
    }

    /** `member_list`: exactly the stored records, in some order. */
    method MemberList() returns (r: Result<seq<MemberItems>>)
      ensures r.Ok? && multiset(r.value) == MapValues(memberList)
    {
      var values: seq<MemberItems> := [];
      var rest := memberList;
      while rest != map[]
        invariant multiset(values) + MapValues(rest) == MapValues(memberList)
        decreases |rest|
      {
        var k :| k in rest;
        MapValuesRemove(rest, k);
        values := values + [rest[k]];
        assert |rest - {k}| < |rest| by { assert rest.Keys - {k} < rest.Keys; }
        rest := rest - {k};
      }
      return Ok(values);
    }

    /** `dao_info`: never fails. */
    function GetDaoInfo(): (r: Result<DaoInfo>)
      reads this
      ensures r.Ok? && r.value == info
    {
      Ok(info)
    }

    /** `update_dao_info`: overwrites all six fields and returns the new info;
        the members and proposers are untouched. */
    method UpdateDaoInfo(d: DaoInfo) returns (r: Result<DaoInfo>)
      modifies this`info
      ensures info == d && r == Ok(d)
    {
      info := info.(name := d.name);
      info := info.(poster := d.poster);
      info := info.(avatar := d.avatar);
      info := info.(tags := d.tags);
      info := info.(intro := d.intro);
      info := info.(social := d.social);
      r := GetDaoInfo();
    }

    /** `join`. */
    method Join(p: Principal, params: JoinDaoParams) returns (r: Result<MemberItems>)
      modifies this`memberList
      ensures (memberList, r) == JoinMember(old(memberList), p, params)
    {
      if p in memberList {
        return Err(ALREADY_MEMBER);
      }
      var member := NewMember(params);
      memberList := memberList[p := member];
      r := Ok(member);
    }

    /** `quit`. */
    method Quit(p: Principal) returns (r: Result<bool>)
      modifies this`memberList
      ensures (memberList, r) == QuitMember(old(memberList), p)
    {
      if p !in memberList {
        return Err(NOT_MEMBER);
      }
      var member := memberList[p];
      memberList := memberList[p := member.(statusCode := STATUS_QUIT)];
      r := Ok(true);
    }

    /** `initiate_proposal`: the stake check on the proposer's NDP balance in
        the given sub-account, then the SDK's `proposal`; the proposer list
        grows by one item only when both succeed. */
    method InitiateProposal(
      arg: ProposalBody,
      ndpBalance: (Principal, Option<Subaccount>) -> Result<nat>,
      sdkProposal: ProposalArg -> Result<Proposal>)
      returns (r: Result<Proposal>)
      modifies this`proposerList
      ensures var balance := ndpBalance(arg.proposer, Some(arg.subAccount));
              !PassesStakeCheck(balance) ==> r == Err(INSUFFICIENT_FUNDS) && proposerList == old(proposerList)
      ensures var balance := ndpBalance(arg.proposer, Some(arg.subAccount));
              PassesStakeCheck(balance) ==>
                && r == sdkProposal(ProposalArg(arg.proposer, arg.title, arg.content, arg.endTime))
                && proposerList == old(proposerList)
                     + (if r.Ok? then [ProposerListItem(arg.proposer, arg.subAccount, r.value.id)] else [])
    {
      var balance := ndpBalance(arg.proposer, Some(arg.subAccount));
      if ResultLess(balance, Ok(MIN_PROPOSAL_BALANCE)) {
        return Err(INSUFFICIENT_FUNDS);
      }
      var proposalInfo := sdkProposal(ProposalArg(arg.proposer, arg.title, arg.content, arg.endTime));
      if proposalInfo.Err? {
        return proposalInfo;
      }
      proposerList := proposerList + [ProposerListItem(arg.proposer, arg.subAccount, proposalInfo.value.id)];
      r := proposalInfo;
    }

    /** `vote`: `mortgage_ndp` is a stub that always succeeds, so the SDK
        always receives a `Yes` vote of `ndp_count` from the caller, and its
        answer is the result. */
    method Vote(arg: VoteArg, caller: Principal, sdkVote: VotesArg -> Result<()>) returns (r: Result<()>)
      ensures r == sdkVote(VotesArg(arg.id, caller, Yes(arg.ndpCount)))
    {
      r := sdkVote(VotesArg(arg.id, caller, Yes(arg.ndpCount)));
    }
  }
}
