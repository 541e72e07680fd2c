/**
 * The course-achievement registry contract: an append-only list of
 * achievements kept in the contract's instance storage under the key
 * "achievements". Issuing appends a record numbered by its position;
 * the two queries read the list and never fail.
 */
module CourseAchievements {
  import opened Common

  newtype u32 = x: int | 0 <= x < 0x1_0000_0000
  newtype u64 = x: int | 0 <= x < 0x1_0000_0000_0000_0000

  const U32_MAX: int := 0xFFFF_FFFF

  /** One issued achievement; the metadata URI is an opaque symbol. */
  datatype Achievement = Achievement(
    id: u32,
    courseId: u32,
    userId: u32,
    issuedAt: u64,
    metadataUri: string)

  /** The contract's error codes (NotFound = 1, Unauthorized = 2). */
  datatype Error = NotFound | Unauthorized

  datatype Result<T> = Ok(value: T) | Err(error: Error)

  /** Record i (0-based) carries id i + 1. */
  ghost predicate IdsSequential(s: seq<Achievement>) {
    forall i :: 0 <= i < |s| ==> s[i].id as int == i + 1
  }

  /** Some record has both the given id and the given user. */
  predicate HasAchievement(s: seq<Achievement>, id: u32, user: u32) {
    exists i :: 0 <= i < |s| && s[i].id == id && s[i].userId == user
  }

  /** The records of one user, in the order they appear in `s`. */
  function ForUser(s: seq<Achievement>, user: u32): (r: seq<Achievement>)
    ensures |r| <= |s|
    ensures forall a :: a in r <==> a in s && a.userId == user
  {
    if s == [] then []
    else
      var init, last := s[..|s| - 1], s[|s| - 1];
      assert s == init + [last];
      ForUser(init, user) + (if last.userId == user then [last] else [])
  }

  /** Ids strictly increase along `s`. */
  ghost predicate IncreasingIds(s: seq<Achievement>) {
    forall i, j :: 0 <= i < j < |s| ==> s[i].id < s[j].id
  }

  /** Under sequential ids, a user's records come out in increasing id order. */
  lemma {:induction false} ForUserKeepsIssueOrder(s: seq<Achievement>, user: u32)
    requires IdsSequential(s)
    ensures IncreasingIds(ForUser(s, user))
  {
    if s != [] {
      var init, last := s[..|s| - 1], s[|s| - 1];
      assert IdsSequential(init);
      ForUserKeepsIssueOrder(init, user);
      var p := ForUser(init, user);
      var r := ForUser(s, user);
      assert r == p + (if last.userId == user then [last] else []);
      forall i, j | 0 <= i < j < |r| ensures r[i].id < r[j].id {
        if j < |p| {
          assert r[i] == p[i] && r[j] == p[j];
          assert p[i].id < p[j].id;
        } else {
          assert r[i] == p[i] && r[j] == last;
          assert p[i] in init;
          var k :| 0 <= k < |init| && init[k] == p[i];
          assert init[k].id as int == k + 1 && last.id as int == |s|;
          assert p[i].id < last.id;
        }
      }
    }
  }

  /** An id decides the record: verify needs to look at one position only. */
  lemma VerifyIsIndexLookup(s: seq<Achievement>, id: u32, user: u32)
    requires IdsSequential(s)
    ensures HasAchievement(s, id, user) <==>
      1 <= id as int <= |s| && s[id as int - 1].userId == user
  {
    if 1 <= id as int <= |s| && s[id as int - 1].userId == user {
      assert s[id as int - 1].id == id;
    }
  }

  /** Appending a record adds it to its owner's list and to no other. */
  lemma ForUserAppend(s: seq<Achievement>, a: Achievement, user: u32)
    ensures ForUser(s + [a], user) ==
      ForUser(s, user) + (if a.userId == user then [a] else [])
  {
    assert (s + [a])[..|s|] == s;
  }

  /** The same, read on prefixes: one more record of `s` extends the list by at most that record. */
  lemma ForUserPrefix(s: seq<Achievement>, i: nat, user: u32)
    requires i < |s|
    ensures ForUser(s[..i + 1], user) ==
      ForUser(s[..i], user) + (if s[i].userId == user then [s[i]] else [])
  {
    assert s[..i + 1] == s[..i] + [s[i]];
    ForUserAppend(s[..i], s[i], user);
  }

  /** The contract instance and its storage. */
  class CourseAchievementsContract {
    /** Instance storage under "achievements": None until the first issue. */
    var stored: Option<seq<Achievement>>

    /** The stored list, an absent entry read as the empty list. */
    function Achievements(): (s: seq<Achievement>)
      reads this
      ensures stored.None? ==> s == []
      ensures stored.Some? ==> s == stored.value
    {
      match stored
      case None => []
      case Some(s) => s
    }

    ghost predicate Valid()
      reads this
    {
      IdsSequential(Achievements())
    }

    constructor ()
      ensures stored == None && Achievements() == [] && Valid()
    {
      stored := None;
    }

    /**
     * Appends an achievement numbered one past the stored count, with the
     * ledger time passed in as `timestamp`, and returns it.
     */
    method Issue(courseId: u32, userId: u32, metadataUri: string, timestamp: u64)
      returns (r: Result<Achievement>)
      requires |Achievements()| < U32_MAX
      modifies this
      ensures r.Ok?
      ensures r.value == Achievement((|old(Achievements())| + 1) as u32,
                                     courseId, userId, timestamp, metadataUri)
      ensures stored == Some(old(Achievements()) + [r.value])
      ensures Achievements()[..|old(Achievements())|] == old(Achievements())
      ensures old(Valid()) ==> Valid()
    {
      var achievements := Achievements();
      var id := |achievements| as u32 + 1;
      var achievement := Achievement(id, courseId, userId, timestamp, metadataUri);
      achievements := achievements + [achievement];
      stored := Some(achievements);
      assert achievements[..|achievements| - 1] == old(Achievements());
      r := Ok(achievement);
    }

    /** Whether some stored record has this id and belongs to this user. */
    method Verify(achievementId: u32, userId: u32) returns (r: Result<bool>)
      ensures r == Ok(HasAchievement(Achievements(), achievementId, userId))
    {
      var achievements := Achievements();
      var i := 0;
      while i < |achievements|
        invariant 0 <= i <= |achievements|
        invariant forall j :: 0 <= j < i ==>
          !(achievements[j].id == achievementId && achievements[j].userId == userId)
      {
        if achievements[i].id == achievementId && achievements[i].userId == userId {
          return Ok(true);
        }
        i := i + 1;
      }
      return Ok(false);
    }

    /** The stored records of one user, in issue order. */
    method GetUserAchievements(userId: u32) returns (r: Result<seq<Achievement>>)
      ensures r == Ok(ForUser(Achievements(), userId))
    {
      var achievements := Achievements();
      var userAchievements: seq<Achievement> := [];
      var i := 0;
      while i < |achievements|
        invariant 0 <= i <= |achievements|
        invariant userAchievements == ForUser(achievements[..i], userId)
      {
        ForUserPrefix(achievements, i, userId);
        if achievements[i].userId == userId {
          userAchievements := userAchievements + [achievements[i]];
        }
        i := i + 1;
      }
      assert achievements[..i] == achievements;
      return Ok(userAchievements);
    }
  }

  /**
   * The contract's first test scenario on a fresh instance at ledger time 0:
   * the first issued record is numbered 1 and carries the given fields;
   * verify accepts its owner and rejects a wrong user and an unknown id.
   */
  method IssueThenVerify() returns (first: Achievement, own: bool, wrongUser: bool, wrongId: bool)
    ensures first.id == 1 && first.courseId == 101 && first.userId == 1
    ensures first.metadataUri == "ipfs://QmW"
    ensures own && !wrongUser && !wrongId
  {
    var c := new CourseAchievementsContract();
    var r := c.Issue(101, 1, "ipfs://QmW", 0);
    first := r.value;
    var s := c.Achievements();
    assert s == [first] && IdsSequential(s);
    var v := c.Verify(first.id, 1);
    VerifyIsIndexLookup(s, first.id, 1);
    own := v.value;
    v := c.Verify(first.id, 2);
    VerifyIsIndexLookup(s, first.id, 2);
    wrongUser := v.value;
    v := c.Verify(999, 1);
    VerifyIsIndexLookup(s, 999, 1);
    wrongId := v.value;
  }

  /**
   * The contract's listing test: two records for user 1, one for user 2,
   * none for user 3.
   */
  method IssueThenList() returns (user1: seq<Achievement>, user2: seq<Achievement>,
                                  user3: seq<Achievement>)
    ensures |user1| == 2 && user1[0].userId == 1 && user1[1].userId == 1
    ensures |user2| == 1 && user2[0].userId == 2
    ensures user3 == []
  {
    var c := new CourseAchievementsContract();
    var r1 := c.Issue(101, 1, "ipfs://QmW1", 0);
    var r2 := c.Issue(102, 1, "ipfs://QmW2", 0);
    var r3 := c.Issue(201, 2, "ipfs://QmW3", 0);
    var s := c.Achievements();
    assert s == [r1.value] + [r2.value] + [r3.value];
    ForUserAppend([], r1.value, 1);
    ForUserAppend([r1.value], r2.value, 1);
    ForUserAppend([r1.value] + [r2.value], r3.value, 1);
    ForUserAppend([], r1.value, 2);
    ForUserAppend([r1.value], r2.value, 2);
    ForUserAppend([r1.value] + [r2.value], r3.value, 2);
    ForUserAppend([], r1.value, 3);
    ForUserAppend([r1.value], r2.value, 3);
    ForUserAppend([r1.value] + [r2.value], r3.value, 3);
    var l := c.GetUserAchievements(1);
    user1 := l.value;
    l := c.GetUserAchievements(2);
    user2 := l.value;
    l := c.GetUserAchievements(3);
    user3 := l.value;
  }
}
