/** The campaign server actions: creating a campaign with a random join code of the form
    ABC-123, joining one by its code (at most one membership per user and campaign),
    listing a user's campaigns as game master and as player, and loading one campaign's
    details. The tables are sequences; the signed-in user, generated ids, timestamps, the
    random draws and the success of each insert are parameters. */
module Campaign {

  import opened Wrappers

  // ---------------------------------------------------------------------------
  // Join codes
  // ---------------------------------------------------------------------------

  /** The 36 characters a join code is made of. */
  const Alphabet: string := "ABCDEFGHIJKLMNOPQRSTUVWXYZ0123456789"
  const CodeLength: nat := 6

  /** The `i`-th character of the alphabet, computed: letters first, then digits. */
  function AlphabetChar(i: nat): (c: char)
    requires i < 36
    ensures ('A' <= c <= 'Z') || ('0' <= c <= '9')
  {
    if i < 26 then ('A' as int + i) as char else ('0' as int + i - 26) as char
  }

  lemma AlphabetFormula()
    ensures |Alphabet| == 36
    ensures forall i :: 0 <= i < 36 ==> Alphabet[i] == AlphabetChar(i)
  {
  }

  /** The position of `c` in the alphabet, if it is one of its characters. */
  function AlphabetIndex(c: char): (r: Option<nat>)
    ensures r.Some? ==> r.value < 36 && AlphabetChar(r.value) == c
    ensures r.None? ==> !('A' <= c <= 'Z') && !('0' <= c <= '9')
  {
    if 'A' <= c <= 'Z' then Some(c as int - 'A' as int)
    else if '0' <= c <= '9' then Some(26 + (c as int - '0' as int))
    else None
  }

  lemma AlphabetIndexOfChar(i: nat)
    requires i < 36
    ensures AlphabetIndex(AlphabetChar(i)) == Some(i)
  {
  }

  /** A draw for each of the six characters: `Math.floor(Math.random() * 36)`. */
  predicate DrawsFit(draws: seq<int>)
  {
    |draws| == CodeLength && forall k :: 0 <= k < |draws| ==> 0 <= draws[k] < |Alphabet|
  }

  /** The join code the draws produce: three characters, a dash, three characters. */
  function FormatCode(draws: seq<int>): (code: string)
    requires DrawsFit(draws)
    ensures |code| == 7 && code[3] == '-'
    ensures forall k :: 0 <= k < 3 ==> code[k] == Alphabet[draws[k]]
    ensures forall k :: 4 <= k < 7 ==> code[k] == Alphabet[draws[k - 1]]
  {
    [Alphabet[draws[0]], Alphabet[draws[1]], Alphabet[draws[2]], '-',
     Alphabet[draws[3]], Alphabet[draws[4]], Alphabet[draws[5]]]
  }

  /** `generateJoinCode`, with the loop of the source. */
  method GenerateJoinCode(draws: seq<int>) returns (joinCode: string)
    requires DrawsFit(draws)
    ensures joinCode == FormatCode(draws)
  {
    var code := "";
    var i := 0;
    while i < CodeLength
      invariant 0 <= i <= CodeLength
      invariant |code| == i
      invariant forall k :: 0 <= k < i ==> code[k] == Alphabet[draws[k]]
    {
      code := code + [Alphabet[draws[i]]];
      i := i + 1;
    }
    joinCode := code[0..3] + "-" + code[3..6];
  }

  /** The characters of the draws, in order. */
  function CharsOf(draws: seq<int>): (cs: string)
    requires forall k :: 0 <= k < |draws| ==> 0 <= draws[k] < |Alphabet|
    ensures |cs| == |draws|
    ensures forall k :: 0 <= k < |draws| ==> cs[k] == Alphabet[draws[k]]
  {
    seq(|draws|, k requires 0 <= k < |draws| => Alphabet[draws[k]])
  }

  /** The alphabet positions of a string, if all of its characters are in the alphabet. */
  function ParseChars(cs: string): (r: Option<seq<int>>)
    ensures r.Some? ==> |r.value| == |cs| && forall k :: 0 <= k < |cs| ==> 0 <= r.value[k] < |Alphabet|
  {
    AlphabetFormula();
    if |cs| == 0 then Some([])
    else match (AlphabetIndex(cs[0]), ParseChars(cs[1..]))
      case (Some(i), Some(rest)) => Some([i as int] + rest)
      case _ => None
  }

  lemma {:induction false} ParseCharsOfDraws(draws: seq<int>)
    requires forall k :: 0 <= k < |draws| ==> 0 <= draws[k] < |Alphabet|
    ensures ParseChars(CharsOf(draws)) == Some(draws)
  {
    AlphabetFormula();
    if |draws| > 0 {
      var cs := CharsOf(draws);
      assert cs[1..] == CharsOf(draws[1..]);
      ParseCharsOfDraws(draws[1..]);
      AlphabetIndexOfChar(draws[0]);
      assert draws == [draws[0]] + draws[1..];
    }
  }

  /** The draws a well-formed join code was made from. */
  function ParseJoinCode(code: string): (r: Option<seq<int>>)
    ensures r.Some? ==> DrawsFit(r.value)
  {
    if |code| != 7 || code[3] != '-' then None
    else ParseChars(code[..3] + code[4..])
  }

  /** Every character but the dash comes from the alphabet, and the draws can be read back
      from the code, so different draws give different codes. */
  lemma JoinCodeRoundTrip(draws: seq<int>)
    requires DrawsFit(draws)
    ensures forall k :: 0 <= k < 7 && k != 3 ==> FormatCode(draws)[k] in Alphabet
    ensures ParseJoinCode(FormatCode(draws)) == Some(draws)
  {
    var code := FormatCode(draws);
    assert code[..3] + code[4..] == CharsOf(draws);
    ParseCharsOfDraws(draws);
  }

  // ---------------------------------------------------------------------------
  // Tables
  // ---------------------------------------------------------------------------

  datatype CampaignRow = CampaignRow(id: string, dmId: string, title: string, description: string,
                                     joinCode: string, createdAt: int)

  datatype MemberRow = MemberRow(campaignId: string, userId: string, characterId: string, role: string)

  /** How a server action ends: by redirecting, or by throwing. */
  datatype ActionOutcome = Redirect(path: string) | Thrown(message: string)

  const CampaignsPath: string := "/dashboard/campaigns/"

  /** The campaigns with join code `code` (`.eq("join_code", code)`). */
  function WithCode(campaigns: seq<CampaignRow>, code: string): (r: seq<CampaignRow>)
    ensures |r| <= |campaigns|
    ensures forall k :: 0 <= k < |r| ==> r[k].joinCode == code && r[k] in campaigns
    ensures forall c :: c in campaigns && c.joinCode == code ==> c in r
  {
    if |campaigns| == 0 then []
    else (if campaigns[0].joinCode == code then [campaigns[0]] else []) + WithCode(campaigns[1..], code)
  }

  /** The campaigns with id `id`. */
  function WithId(campaigns: seq<CampaignRow>, id: string): (r: seq<CampaignRow>)
    ensures forall k :: 0 <= k < |r| ==> r[k].id == id && r[k] in campaigns
    ensures forall c :: c in campaigns && c.id == id ==> c in r
  {
    if |campaigns| == 0 then []
    else (if campaigns[0].id == id then [campaigns[0]] else []) + WithId(campaigns[1..], id)
  }

  /** The member rows of `user` in campaign `campaignId`. */
  function Memberships(members: seq<MemberRow>, campaignId: string, userId: string): (r: seq<MemberRow>)
    ensures forall k :: 0 <= k < |r| ==> r[k].campaignId == campaignId && r[k].userId == userId && r[k] in members
    ensures forall m :: m in members && m.campaignId == campaignId && m.userId == userId ==> m in r
  {
    if |members| == 0 then []
    else
      (if members[0].campaignId == campaignId && members[0].userId == userId then [members[0]] else [])
      + Memberships(members[1..], campaignId, userId)
  }

  /** No user holds two member rows of one campaign. */
  predicate NoDuplicateMembership(members: seq<MemberRow>)
  {
    forall i, j :: 0 <= i < j < |members| ==>
      !(members[i].campaignId == members[j].campaignId && members[i].userId == members[j].userId)
  }

  /** Without duplicates a user has at most one member row per campaign, so the "already a
      member" lookup (which needs exactly one row) finds every existing membership. */
  lemma {:induction false} AtMostOneMembership(members: seq<MemberRow>, campaignId: string, userId: string)
    requires NoDuplicateMembership(members)
    ensures |Memberships(members, campaignId, userId)| <= 1
  {
    if |members| > 0 {
      var rest := members[1..];
      assert NoDuplicateMembership(rest) by {
        forall i, j | 0 <= i < j < |rest|
          ensures !(rest[i].campaignId == rest[j].campaignId && rest[i].userId == rest[j].userId)
        {
          assert rest[i] == members[i + 1] && rest[j] == members[j + 1];
        }
      }
      AtMostOneMembership(rest, campaignId, userId);
      if members[0].campaignId == campaignId && members[0].userId == userId {
        NoMatchNoMemberships(rest, campaignId, userId);
      }
    }
  }

  lemma {:induction false} NoMatchNoMemberships(members: seq<MemberRow>, campaignId: string, userId: string)
    requires forall k :: 0 <= k < |members| ==> !(members[k].campaignId == campaignId && members[k].userId == userId)
    ensures Memberships(members, campaignId, userId) == []
  {
    if |members| > 0 {
      NoMatchNoMemberships(members[1..], campaignId, userId);
    }
  }

  /** Adding a row for a pair that has none keeps the table free of duplicates. */
  lemma AppendKeepsNoDuplicates(members: seq<MemberRow>, row: MemberRow)
    requires NoDuplicateMembership(members)
    requires |Memberships(members, row.campaignId, row.userId)| == 0
    ensures NoDuplicateMembership(members + [row])
  {
    var ms := members + [row];
    forall i, j | 0 <= i < j < |ms|
      ensures !(ms[i].campaignId == ms[j].campaignId && ms[i].userId == ms[j].userId)
    {
      if j == |members| {
        assert ms[i] in members;
      }
    }
  }

  // ---------------------------------------------------------------------------
  // Listing campaigns
  // ---------------------------------------------------------------------------

  /** The campaigns whose game master is `userId`, in table order. */
  function RunBy(campaigns: seq<CampaignRow>, userId: string): (r: seq<CampaignRow>)
    ensures forall k :: 0 <= k < |r| ==> r[k].dmId == userId
    ensures multiset(r) <= multiset(campaigns)
    ensures forall c :: c in campaigns && c.dmId == userId ==> c in r
  {
    if |campaigns| == 0 then []
    else
      assert campaigns == [campaigns[0]] + campaigns[1..];
      (if campaigns[0].dmId == userId then [campaigns[0]] else []) + RunBy(campaigns[1..], userId)
  }

  predicate NewestFirst(s: seq<CampaignRow>)
  {
    forall i, j :: 0 <= i < j < |s| ==> s[i].createdAt >= s[j].createdAt
  }

  function InsertByNewest(c: CampaignRow, s: seq<CampaignRow>): (r: seq<CampaignRow>)
    requires NewestFirst(s)
    ensures NewestFirst(r)
    ensures multiset(r) == multiset(s) + multiset{c}
  {
    if |s| == 0 then [c]
    else if c.createdAt >= s[0].createdAt then [c] + s
    else
      var tail := InsertByNewest(c, s[1..]);
      assert s == [s[0]] + s[1..];
      HeadBoundsInsert(c, s, tail);
      ConsNewestFirst(s[0], tail);
      [s[0]] + tail
  }

  /** Every row of a permutation of `s[1..]` plus an older `c` is at most as new as `s[0]`. */
  lemma HeadBoundsInsert(c: CampaignRow, s: seq<CampaignRow>, tail: seq<CampaignRow>)
    requires |s| > 0 && NewestFirst(s) && c.createdAt < s[0].createdAt
    requires multiset(tail) == multiset(s[1..]) + multiset{c}
    ensures forall k :: 0 <= k < |tail| ==> tail[k].createdAt <= s[0].createdAt
  {
    forall k | 0 <= k < |tail|
      ensures tail[k].createdAt <= s[0].createdAt
    {
      assert tail[k] in multiset(tail);
      if tail[k] != c {
        assert tail[k] in s[1..];
      }
    }
  }

  lemma ConsNewestFirst(c: CampaignRow, s: seq<CampaignRow>)
    requires NewestFirst(s) && forall k :: 0 <= k < |s| ==> s[k].createdAt <= c.createdAt
    ensures NewestFirst([c] + s)
  {
    var r := [c] + s;
    forall i, j | 0 <= i < j < |r|
      ensures r[i].createdAt >= r[j].createdAt
    {
      assert r[j] == s[j - 1];
      if i > 0 {
        assert r[i] == s[i - 1];
      }
    }
  }

  /** `.order("created_at", { ascending: false })`: the rows, newest first. */
  function SortNewestFirst(s: seq<CampaignRow>): (r: seq<CampaignRow>)
    ensures NewestFirst(r)
    ensures multiset(r) == multiset(s)
  {
    if |s| == 0 then []
    else
      assert s == [s[0]] + s[1..];
      InsertByNewest(s[0], SortNewestFirst(s[1..]))
  }

  /** A membership row joined with its campaign; the campaign is null when the join found
      nothing. */
  datatype Membership = Membership(campaignId: string, campaign: Option<CampaignRow>)

  /** `memberships.map(m => m.campaigns).filter(Boolean)`: the joined campaigns, nulls dropped. */
  function PlayerCampaigns(memberships: seq<Membership>): (r: seq<CampaignRow>)
    ensures |r| <= |memberships|
    ensures forall c :: c in r <==> exists k :: 0 <= k < |memberships| && memberships[k].campaign == Some(c)
  {
    if |memberships| == 0 then []
    else
      var rest := PlayerCampaigns(memberships[1..]);
      assert forall k :: 1 <= k < |memberships| ==> memberships[k] == memberships[1..][k - 1];
      (if memberships[0].campaign.Some? then [memberships[0].campaign.value] else []) + rest
  }

  /** The number of memberships whose campaign was found. */
  function Found(memberships: seq<Membership>): nat
  {
    if |memberships| == 0 then 0
    else (if memberships[0].campaign.Some? then 1 else 0) + Found(memberships[1..])
  }

  /** Exactly the memberships with a campaign contribute one entry each. */
  lemma {:induction false} PlayerCampaignsCount(memberships: seq<Membership>)
    ensures |PlayerCampaigns(memberships)| == Found(memberships)
  {
    if |memberships| > 0 {
      PlayerCampaignsCount(memberships[1..]);
    }
  }

  /** The embedded `campaigns (...)` of one member row: the campaign with that id, or null
      when the table holds none. */
  function JoinedCampaign(campaigns: seq<CampaignRow>, campaignId: string): (r: Option<CampaignRow>)
    ensures r.Some? <==> exists c :: c in campaigns && c.id == campaignId
    ensures r.Some? ==> r.value in campaigns && r.value.id == campaignId
  {
    var found := WithId(campaigns, campaignId);
    if |found| == 0 then None else Some(found[0])
  }

  /** The joined query over `campaign_members` filtered by `.eq("user_id", userId)`, in
      table order. */
  function MembershipsOf(members: seq<MemberRow>, campaigns: seq<CampaignRow>, userId: string): (r: seq<Membership>)
    ensures |r| <= |members|
    ensures forall k :: 0 <= k < |r| ==>
              r[k].campaign == JoinedCampaign(campaigns, r[k].campaignId)
              && exists m :: m in members && m.userId == userId && m.campaignId == r[k].campaignId
    ensures forall m :: m in members && m.userId == userId ==>
              Membership(m.campaignId, JoinedCampaign(campaigns, m.campaignId)) in r
  {
    if |members| == 0 then []
    else
      var rest := MembershipsOf(members[1..], campaigns, userId);
      assert forall m :: m in members[1..] ==> m in members;
      (if members[0].userId == userId
       then [Membership(members[0].campaignId, JoinedCampaign(campaigns, members[0].campaignId))]
       else []) + rest
  }

  datatype UserCampaigns = UserCampaigns(dmCampaigns: seq<CampaignRow>, playerCampaigns: seq<CampaignRow>)

  /** `getUserCampaigns` over the campaigns and campaign_members tables. */
  function GetUserCampaigns(user: Option<string>, campaigns: seq<CampaignRow>, members: seq<MemberRow>): (r: UserCampaigns)
    ensures user.None? ==> r.dmCampaigns == [] && r.playerCampaigns == []
    ensures user.Some? ==> NewestFirst(r.dmCampaigns)
                           && multiset(r.dmCampaigns) == multiset(RunBy(campaigns, user.value))
                           && r.playerCampaigns == PlayerCampaigns(MembershipsOf(members, campaigns, user.value))
  {
    if user.None? then UserCampaigns([], [])
    else UserCampaigns(SortNewestFirst(RunBy(campaigns, user.value)),
                       PlayerCampaigns(MembershipsOf(members, campaigns, user.value)))
  }

  /** Listed as game master are exactly the user's own campaigns. */
  lemma DmListIsOwnCampaigns(userId: string, campaigns: seq<CampaignRow>, members: seq<MemberRow>, c: CampaignRow)
    ensures c in GetUserCampaigns(Some(userId), campaigns, members).dmCampaigns <==>
            c in campaigns && c.dmId == userId
  {
    var dm := GetUserCampaigns(Some(userId), campaigns, members).dmCampaigns;
    assert c in dm <==> c in multiset(dm);
    assert c in RunBy(campaigns, userId) <==> c in multiset(RunBy(campaigns, userId));
    if c in RunBy(campaigns, userId) {
      assert c in multiset(campaigns);
    }
  }

  /** Listed as player are campaigns of the table that the user holds a member row in; and
      every member row of the user whose campaign exists puts that campaign on the list. */
  lemma PlayerListIsJoinedCampaigns(userId: string, campaigns: seq<CampaignRow>, members: seq<MemberRow>)
    ensures forall c :: c in GetUserCampaigns(Some(userId), campaigns, members).playerCampaigns ==>
              c in campaigns && exists m :: m in members && m.userId == userId && m.campaignId == c.id
    ensures forall m :: m in members && m.userId == userId && JoinedCampaign(campaigns, m.campaignId).Some? ==>
              JoinedCampaign(campaigns, m.campaignId).value in GetUserCampaigns(Some(userId), campaigns, members).playerCampaigns
  {
    var ms := MembershipsOf(members, campaigns, userId);
    forall c | c in PlayerCampaigns(ms)
      ensures c in campaigns && exists m :: m in members && m.userId == userId && m.campaignId == c.id
    {
      var k :| 0 <= k < |ms| && ms[k].campaign == Some(c);
      assert c.id == ms[k].campaignId;
    }
    forall m | m in members && m.userId == userId && JoinedCampaign(campaigns, m.campaignId).Some?
      ensures JoinedCampaign(campaigns, m.campaignId).value in PlayerCampaigns(ms)
    {
      var ship := Membership(m.campaignId, JoinedCampaign(campaigns, m.campaignId));
      var k :| 0 <= k < |ms| && ms[k] == ship;
    }
  }

  // ---------------------------------------------------------------------------
  // Campaign details
  // ---------------------------------------------------------------------------

  datatype Details = Details(campaign: CampaignRow, members: seq<MemberRow>, isDM: bool, currentUserId: string)

  /** The member rows of a campaign (`.eq("campaign_id", campaignId)`). */
  function MembersOf(members: seq<MemberRow>, campaignId: string): (r: seq<MemberRow>)
    ensures forall k :: 0 <= k < |r| ==> r[k].campaignId == campaignId && r[k] in members
    ensures forall m :: m in members && m.campaignId == campaignId ==> m in r
  {
    if |members| == 0 then []
    else (if members[0].campaignId == campaignId then [members[0]] else []) + MembersOf(members[1..], campaignId)
  }

  /** `getCampaignDetails`; `membersFailed` is whether the member query returned an error. */
  function GetCampaignDetails(user: Option<string>, campaigns: seq<CampaignRow>, members: seq<MemberRow>,
                              campaignId: string, membersFailed: bool): (r: Result<Details>)
    ensures user.None? ==> r == Failure("Unauthorized")
    ensures user.Some? && |WithId(campaigns, campaignId)| != 1 ==> r == Failure("Campaign not found")
    ensures user.Some? && |WithId(campaigns, campaignId)| == 1 && membersFailed ==> r == Failure("Access Denied")
    ensures r.Success? ==>
              user.Some? && r.value.campaign.id == campaignId && r.value.campaign in campaigns
              && (r.value.isDM <==> r.value.campaign.dmId == user.value)
              && r.value.currentUserId == user.value
              && r.value.members == MembersOf(members, campaignId)
  {
    if user.None? then Failure("Unauthorized")
    else
      var found := WithId(campaigns, campaignId);
      if |found| != 1 then Failure("Campaign not found")
      else if membersFailed then Failure("Access Denied")
      else
        var campaign := found[0];
        Success(Details(campaign, MembersOf(members, campaignId), campaign.dmId == user.value, user.value))
  }

  datatype Result<T> = Success(value: T) | Failure(error: string)

  /** The creator of a campaign sees it as its game master. */
  lemma CreatorIsDm(campaigns: seq<CampaignRow>, members: seq<MemberRow>, row: CampaignRow)
    requires forall c :: c in campaigns ==> c.id != row.id
    ensures GetCampaignDetails(Some(row.dmId), campaigns + [row], members, row.id, false).Success?
    ensures GetCampaignDetails(Some(row.dmId), campaigns + [row], members, row.id, false).value.isDM
  {
    WithIdAppend(campaigns, [row], row.id);
    NoIdNoRows(campaigns, row.id);
    assert [row][1..] == [];
    assert WithId([row], row.id) == [row];
  }

  lemma {:induction false} NoIdNoRows(campaigns: seq<CampaignRow>, id: string)
    requires forall c :: c in campaigns ==> c.id != id
    ensures WithId(campaigns, id) == []
  {
    if |campaigns| > 0 {
      NoIdNoRows(campaigns[1..], id);
    }
  }

  lemma {:induction false} WithIdAppend(a: seq<CampaignRow>, b: seq<CampaignRow>, id: string)
    ensures WithId(a + b, id) == WithId(a, id) + WithId(b, id)
  {
    if |a| == 0 {
      assert a + b == b;
    } else {
      assert (a + b)[1..] == a[1..] + b;
      WithIdAppend(a[1..], b, id);
    }
  }

  // ---------------------------------------------------------------------------
  // The tables and the state-changing actions
  // ---------------------------------------------------------------------------

  class CampaignStore {
    var campaigns: seq<CampaignRow>
    var members: seq<MemberRow>

    ghost predicate Valid()
      reads this
    {
      NoDuplicateMembership(members)
    }

    constructor ()
      ensures campaigns == [] && members == [] && Valid()
    {
      campaigns := [];
      members := [];
    }

    /** `createCampaign`. `newId` and `now` are the id and time the database assigns;
        `insertFails` is whether the insert returned an error. */
    method CreateCampaign(user: Option<string>, title: string, description: string, draws: seq<int>,
                          newId: string, now: int, insertFails: bool) returns (outcome: ActionOutcome)
      requires DrawsFit(draws)
      modifies this
      ensures user.None? ==> outcome == Thrown("Unauthorized") && campaigns == old(campaigns)
      ensures user.Some? && insertFails ==> outcome == Thrown("Failed to create campaign") && campaigns == old(campaigns)
      ensures user.Some? && !insertFails ==>
                outcome == Redirect(CampaignsPath + newId)
                && campaigns == old(campaigns) + [CampaignRow(newId, user.value, title, description, FormatCode(draws), now)]
      ensures members == old(members)
    {
      if user.None? {
        return Thrown("Unauthorized");
      }
      var joinCode := GenerateJoinCode(draws);
      if insertFails {
        return Thrown("Failed to create campaign");
      }
      campaigns := campaigns + [CampaignRow(newId, user.value, title, description, joinCode, now)];
      return Redirect(CampaignsPath + newId);
    }

    /** `joinCampaign`. `insertFails` is whether the member insert returned an error. */
    method JoinCampaign(user: Option<string>, code: string, characterId: string, insertFails: bool)
      returns (outcome: ActionOutcome)
      requires Valid()
      modifies this
      ensures Valid() && campaigns == old(campaigns)
      ensures user.None? ==> outcome == Thrown("Unauthorized") && members == old(members)
      ensures user.Some? && |WithCode(campaigns, code)| != 1 ==>
                outcome == Thrown("Invalid join code") && members == old(members)
      ensures user.Some? && |WithCode(campaigns, code)| == 1 ==>
                var c := WithCode(campaigns, code)[0];
                if |Memberships(old(members), c.id, user.value)| > 0 then
                  outcome == Redirect(CampaignsPath + c.id) && members == old(members)
                else if insertFails then
                  outcome == Thrown("Failed to join campaign") && members == old(members)
                else
                  outcome == Redirect(CampaignsPath + c.id)
                  && members == old(members) + [MemberRow(c.id, user.value, characterId, "player")]
    {
      if user.None? {
        return Thrown("Unauthorized");
      }
      var userId := user.value;
      var found := WithCode(campaigns, code);
      if |found| != 1 {
        return Thrown("Invalid join code");
      }
      var campaign := found[0];
      var existing := Memberships(members, campaign.id, userId);
      AtMostOneMembership(members, campaign.id, userId);
      if |existing| == 1 {
        return Redirect(CampaignsPath + campaign.id);
      }
      if insertFails {
        return Thrown("Failed to join campaign");
      }
      var row := MemberRow(campaign.id, userId, characterId, "player");
      AppendKeepsNoDuplicates(members, row);
      members := members + [row];
      return Redirect(CampaignsPath + campaign.id);
    }
  }
}
