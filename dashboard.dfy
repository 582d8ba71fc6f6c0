/**
 * The figures of the dashboard (components/Dashboard.tsx): how many projects
 * are in progress, how many of those involve the current user, how many
 * classes the user has completed, and the first name in the greeting.
 */
module Dashboard {
  import opened Wrappers
  import opened Types

  /** `Array.prototype.filter`: the elements that pass, in their order. */
  function Filter<T>(xs: seq<T>, keep: T -> bool): (r: seq<T>)
    ensures |r| <= |xs|
    ensures forall k :: 0 <= k < |r| ==> keep(r[k])
  {
    if |xs| == 0 then []
    else (if keep(xs[0]) then [xs[0]] else []) + Filter(xs[1..], keep)
  }

  /**
   * Each element is kept as often as it occurs, or not at all: the filter
   * neither duplicates nor invents elements.
   */
  lemma {:induction false} FilterMultiset<T>(xs: seq<T>, keep: T -> bool)
    ensures forall x :: multiset(Filter(xs, keep))[x] == if keep(x) then multiset(xs)[x] else 0
    decreases |xs|
  {
    if |xs| > 0 {
      FilterMultiset(xs[1..], keep);
      assert xs == [xs[0]] + xs[1..];
      assert multiset(xs) == multiset([xs[0]]) + multiset(xs[1..]);
      var head := if keep(xs[0]) then [xs[0]] else [];
      assert multiset(Filter(xs, keep)) == multiset(head) + multiset(Filter(xs[1..], keep));
    }
  }

  /** Filtering with a stronger test keeps no more elements. */
  lemma {:induction false} FilterStronger<T>(xs: seq<T>, p: T -> bool, q: T -> bool)
    requires forall x :: p(x) ==> q(x)
    ensures |Filter(xs, p)| <= |Filter(xs, q)|
    decreases |xs|
  {
    if |xs| > 0 {
      FilterStronger(xs[1..], p, q);
    }
  }

  /** Filtering a concatenation filters each part. */
  lemma {:induction false} FilterAppend<T>(a: seq<T>, b: seq<T>, keep: T -> bool)
    ensures Filter(a + b, keep) == Filter(a, keep) + Filter(b, keep)
    decreases |a|
  {
    if |a| == 0 {
      assert a + b == b;
    } else {
      assert (a + b)[0] == a[0];
      assert (a + b)[1..] == a[1..] + b;
      FilterAppend(a[1..], b, keep);
    }
  }

  /** `p.status === 'En Curso'`. */
  predicate InProgress(p: Project)
  {
    p.status == EnCurso
  }

  /** In progress, with the user on the team or as lead. */
  predicate Mine(u: User, p: Project)
  {
    InProgress(p) && (u.id in p.teamIds || p.leadId == u.id)
  }

  /** `activeProjects`. */
  function ActiveProjects(ps: seq<Project>): (n: nat)
    ensures n <= |ps|
  {
    |Filter(ps, InProgress)|
  }

  /** `myProjects`. */
  function MyProjects(ps: seq<Project>, u: User): (n: nat)
    ensures n <= ActiveProjects(ps)
  {
    FilterStronger(ps, p => Mine(u, p), InProgress);
    |Filter(ps, p => Mine(u, p))|
  }

  /**
   * The active count is the number of projects in progress, each counted
   * once per occurrence in the list; none means no project is in progress.
   */
  lemma ActiveProjectsCounts(ps: seq<Project>)
    ensures forall p :: multiset(Filter(ps, InProgress))[p] == if InProgress(p) then multiset(ps)[p] else 0
    ensures ActiveProjects(ps) == 0 <==> forall k :: 0 <= k < |ps| ==> !InProgress(ps[k])
  {
    FilterMultiset(ps, InProgress);
    if ActiveProjects(ps) == 0 {
      forall k | 0 <= k < |ps| ensures !InProgress(ps[k]) {
        assert ps[k] in multiset(ps);
      }
    } else {
      var r := Filter(ps, InProgress);
      assert r[0] in multiset(r);
      assert r[0] in multiset(ps);
    }
  }

  /** A project counts for the user exactly when it is in progress and involves them. */
  lemma MyProjectsCounts(ps: seq<Project>, u: User)
    ensures forall p :: multiset(Filter(ps, q => Mine(u, q)))[p] ==
                        if InProgress(p) && (u.id in p.teamIds || p.leadId == u.id) then multiset(ps)[p] else 0
  {
    FilterMultiset(ps, q => Mine(u, q));
  }

  /** Both counts add up over a concatenation of project lists. */
  lemma CountsAppend(a: seq<Project>, b: seq<Project>, u: User)
    ensures ActiveProjects(a + b) == ActiveProjects(a) + ActiveProjects(b)
    ensures MyProjects(a + b, u) == MyProjects(a, u) + MyProjects(b, u)
  {
    FilterAppend(a, b, InProgress);
    FilterAppend(a, b, p => Mine(u, p));
  }

  /** `currentUser.completedVideoIds?.length || 0`. */
  function CompletedClasses(u: User): (n: nat)
    ensures u.completedVideoIds.None? ==> n == 0
    ensures u.completedVideoIds.Some? ==> n == |u.completedVideoIds.value|
  {
    match u.completedVideoIds
    case None => 0
    case Some(ids) => |ids|
  }

  /**
   * `name.split(' ')[0]`: the part of the name before the first space, or
   * the whole name when it has none.
   */
  function FirstName(name: string): (r: string)
    ensures r <= name
    ensures ' ' !in r
    ensures |r| < |name| ==> name[|r|] == ' '
  {
    if |name| == 0 || name[0] == ' ' then ""
    else [name[0]] + FirstName(name[1..])
  }

  /** A name without a space greets in full; one with a space greets with a shorter prefix. */
  lemma {:induction false} FirstNameWhole(name: string)
    ensures ' ' !in name <==> FirstName(name) == name
    decreases |name|
  {
    if |name| > 0 {
      FirstNameWhole(name[1..]);
      assert name == [name[0]] + name[1..];
    }
  }
}
