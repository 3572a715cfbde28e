/** The recent-activity feed: the public events of the GitHub account, reduced to at
    most five push events, one per repository. The events come in as a parameter;
    fetching them is not part of this model. */
module GitHub {

  import opened Wrappers
  import opened Lists

  /** The fields of a GitHub event the feed reads. */
  datatype Event = Event(id: string, eventType: string, repoName: string, createdAt: string)

  /** `repoName` is `undefined` (`None`) when the repository name has no `/`. */
  datatype Activity = Activity(
    id: string,
    repoName: Option<string>,
    repoFullName: string,
    repoUrl: string,
    createdAt: string,
    activityType: string)

  /** The activity type as the feed spells it. */
  const ACTIVITY_TYPE := "Gihub"
  const GITHUB_URL := "https://github.com/"

  /** The index of the first `sep` at or after `i`, or `|s|`. */
  function NextSep(s: string, i: nat, sep: char): (j: nat)
    requires i <= |s|
    ensures i <= j <= |s| && (j < |s| ==> s[j] == sep)
    ensures forall k :: i <= k < j ==> s[k] != sep
    decreases |s| - i
  {
    if i == |s| || s[i] == sep then i else NextSep(s, i + 1, sep)
  }

  /** `s.split('/')[1]`: the text between the first and the second `/`. */
  function SecondSegment(s: string): (r: Option<string>)
    ensures r.Some? <==> '/' in s
    ensures r.Some? ==> '/' !in r.value
  {
    var a := NextSep(s, 0, '/');
    if a == |s| then None
    else
      var b := NextSep(s, a + 1, '/');
      var t := s[a + 1..b];
      assert forall j :: 0 <= j < |t| ==> t[j] == s[a + 1 + j];
      Some(t)
  }

  /** An owner and a repository joined by `/` give back the repository. */
  lemma SecondSegmentOfFullName(owner: string, repo: string)
    requires '/' !in owner && '/' !in repo
    ensures SecondSegment(owner + "/" + repo) == Some(repo)
  {
    var s := owner + "/" + repo;
    var n := |owner|;
    assert s[n] == '/';
    var a := NextSep(s, 0, '/');
    assert a == n;
    var b := NextSep(s, n + 1, '/');
    assert b == |s|;
    assert s[n + 1..] == repo;
    assert s[n + 1..b] == repo;
    assert SecondSegment(s) == Some(repo);
  }

  function ToActivity(e: Event): (a: Activity)
    ensures a.repoFullName == e.repoName && a.repoUrl == GITHUB_URL + e.repoName
  {
    Activity(e.id, SecondSegment(e.repoName), e.repoName, GITHUB_URL + e.repoName, e.createdAt, ACTIVITY_TYPE)
  }

  function ToActivities(events: seq<Event>): (r: seq<Activity>)
    ensures |r| == |events|
    ensures forall k :: 0 <= k < |events| ==> r[k] == ToActivity(events[k])
  {
    if events == [] then [] else [ToActivity(events[0])] + ToActivities(events[1..])
  }

  /** `filter(event => event.type === 'PushEvent')`. */
  function PushEvents(events: seq<Event>): (r: seq<Event>)
    ensures IsSubsequence(r, events)
    ensures forall e :: e in r <==> e in events && e.eventType == "PushEvent"
  {
    if events == [] then []
    else
      var rest := PushEvents(events[1..]);
      assert events == [events[0]] + events[1..];
      ConsSubsequence(events[0], rest, events[1..]);
      if events[0].eventType == "PushEvent" then [events[0]] + rest else rest
  }

  /** `slice(0, n)`. */
  function Take<T>(s: seq<T>, n: nat): (r: seq<T>)
    ensures |r| == if |s| <= n then |s| else n
    ensures forall k :: 0 <= k < |r| ==> r[k] == s[k]
    ensures IsSubsequence(r, s)
  {
    var m := if |s| <= n then |s| else n;
    PrefixIsSubsequence(s, m);
    s[..m]
  }

  /** `self.findIndex(e => e.repoName === name)`, as `|acts|` when absent. */
  function FirstIndex(acts: seq<Activity>, name: Option<string>): (k: nat)
    ensures k <= |acts|
    ensures k < |acts| ==> acts[k].repoName == name
    ensures forall j :: 0 <= j < k ==> acts[j].repoName != name
  {
    if acts == [] then 0
    else if acts[0].repoName == name then 0
    else 1 + FirstIndex(acts[1..], name)
  }

  /** `filter((event, index, self) => index === self.findIndex(...))` over the entries
      from index `i` on: an entry is kept exactly when no earlier entry has its
      repository name. */
  function KeepFirst(acts: seq<Activity>, i: nat): (r: seq<Activity>)
    requires i <= |acts|
    ensures IsSubsequence(r, acts[i..])
    ensures forall x :: x in r ==> i <= FirstIndex(acts, x.repoName) < |acts| && acts[FirstIndex(acts, x.repoName)] == x
    ensures forall k :: i <= k < |acts| && FirstIndex(acts, acts[k].repoName) == k ==> acts[k] in r
    ensures forall p, q :: 0 <= p < q < |r| ==> r[p].repoName != r[q].repoName
    decreases |acts| - i
  {
    if i == |acts| then []
    else
      var rest := KeepFirst(acts, i + 1);
      assert acts[i..] == [acts[i]] + acts[i + 1..];
      ConsSubsequence(acts[i], rest, acts[i + 1..]);
      if FirstIndex(acts, acts[i].repoName) == i then
        var r := [acts[i]] + rest;
        assert forall q :: 0 < q < |r| ==> r[q] in rest;
        r
      else rest
  }

  /** The feed: the first ten push events, as activities, one per repository name,
      at most five. */
  function RecentActivities(events: seq<Event>): seq<Activity> {
    Take(KeepFirst(ToActivities(Take(PushEvents(events), 10)), 0), 5)
  }

  /** At most five entries, no two for the same repository, in the order of the
      events, each one the activity of one of the first ten push events. */
  lemma RecentActivitiesShape(events: seq<Event>)
    ensures var r := RecentActivities(events);
      var firstTen := Take(PushEvents(events), 10);
      |r| <= 5
      && (forall p, q :: 0 <= p < q < |r| ==> r[p].repoName != r[q].repoName)
      && IsSubsequence(r, ToActivities(firstTen))
      && (forall a :: a in r ==> exists e :: e in firstTen && e.eventType == "PushEvent" && a == ToActivity(e))
  {
    var firstTen := Take(PushEvents(events), 10);
    var acts := ToActivities(firstTen);
    var kept := KeepFirst(acts, 0);
    var r := Take(kept, 5);
    assert acts[0..] == acts;
    SubsequenceTransitive(r, kept, acts);
    SubsequenceMembers(r, acts);
    SubsequenceMembers(firstTen, PushEvents(events));
    forall a | a in r
      ensures exists e :: e in firstTen && e.eventType == "PushEvent" && a == ToActivity(e)
    {
      var k :| 0 <= k < |acts| && acts[k] == a;
      assert firstTen[k] in firstTen;
    }
    assert r == kept[..|r|];
  }

  /** When fewer than five repositories survive, none was lost: every repository among
      the first ten push events has its earliest activity in the feed. */
  lemma RecentActivitiesComplete(events: seq<Event>, e: Event)
    requires e in Take(PushEvents(events), 10)
    requires |KeepFirst(ToActivities(Take(PushEvents(events), 10)), 0)| < 5
    ensures exists a :: a in RecentActivities(events) && a.repoName == SecondSegment(e.repoName)
  {
    var firstTen := Take(PushEvents(events), 10);
    var acts := ToActivities(firstTen);
    var kept := KeepFirst(acts, 0);
    assert RecentActivities(events) == Take(kept, 5) == kept;
    var k :| 0 <= k < |firstTen| && firstTen[k] == e;
    assert acts[k] == ToActivity(e);
    var name := acts[k].repoName;
    var f := FirstIndex(acts, name);
    assert f <= k;
    assert FirstIndex(acts, acts[f].repoName) == f;
    assert acts[f] in kept;
    assert acts[f].repoName == SecondSegment(e.repoName);
  }
}
