/** The tab bar: the Unstake tab is active when the location's path mentions "unstake", and the
    Stake tab otherwise. */
module Nav {

  const StakeLink := "/stake"
  const UnstakeLink := "/unstake"

  ghost predicate OccursAt(s: string, sub: string, i: int) {
    0 <= i && i + |sub| <= |s| && s[i..i + |sub|] == sub
  }

  lemma SliceOfTail(s: string, a: int, b: int)
    requires 1 <= a <= b <= |s|
    ensures s[1..][a - 1..b - 1] == s[a..b]
  {
    var t, u := s[1..][a - 1..b - 1], s[a..b];
    assert |t| == |u|;
    forall k | 0 <= k < |t|
      ensures t[k] == u[k]
    {
    }
  }

  /** `s.indexOf(sub)`: the first position where `sub` occurs, or -1. */
  function IndexOf(s: string, sub: string): (i: int)
    ensures i == -1 <==> forall j :: 0 <= j <= |s| - |sub| ==> !OccursAt(s, sub, j)
    ensures i != -1 ==> OccursAt(s, sub, i) && forall j :: 0 <= j < i ==> !OccursAt(s, sub, j)
    decreases |s|
  {
    if |sub| > |s| then -1
    else if s[..|sub|] == sub then assert OccursAt(s, sub, 0); 0
    else
      var k := IndexOf(s[1..], sub);
      assert forall j :: 0 < j <= |s| - |sub| ==> (OccursAt(s, sub, j) <==> OccursAt(s[1..], sub, j - 1)) by {
        forall j | 0 < j <= |s| - |sub|
          ensures OccursAt(s, sub, j) <==> OccursAt(s[1..], sub, j - 1)
        {
          SliceOfTail(s, j, j + |sub|);
        }
      }
      if k == -1 then -1 else assert OccursAt(s, sub, k + 1); k + 1
  }

  /** `~path.indexOf('unstake')` is truthy exactly when the index is not -1. */
  predicate IsUnstake(path: string) {
    IndexOf(path, "unstake") != -1
  }

  predicate IsStake(path: string) {
    !IsUnstake(path)
  }

  datatype Tab = Tab(to: string, title: string, active: bool)

  function Tabs(path: string): (tabs: seq<Tab>)
    ensures |tabs| == 2 && tabs[0].to == StakeLink && tabs[1].to == UnstakeLink
  {
    [Tab(StakeLink, "Stake", IsStake(path)), Tab(UnstakeLink, "Unstake", IsUnstake(path))]
  }

  /** The Unstake tab is active iff "unstake" occurs in the path, and exactly one tab is active. */
  lemma ExactlyOneTabActive(path: string)
    ensures Tabs(path)[1].active <==> exists j :: 0 <= j <= |path| - 7 && OccursAt(path, "unstake", j)
    ensures Tabs(path)[0].active != Tabs(path)[1].active
  {
  }

  /** The unstake page's own path selects the Unstake tab, and the stake page's the Stake tab. */
  lemma LinksSelectTheirTab()
    ensures IsUnstake(UnstakeLink)
    ensures IsStake(StakeLink)
  {
    assert OccursAt(UnstakeLink, "unstake", 1);
    assert |StakeLink| < 7;
  }
}
