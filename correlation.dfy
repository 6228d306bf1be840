/**
 * The correlation index between jobs and pipeline activities.  Both kinds are
 * indexed under one field: an activity under the normalised form of its own
 * name, a job under the activity name recorded in its status (and not at all
 * while that is empty).  A lookup returns the objects of one namespace whose
 * index values contain the key asked for.
 */
module Correlation {
  import opened Resources

  /** The values an activity is indexed under: always exactly its normalised name. */
  function ActivityIndexKeys(toValidName: string -> string, a: Activity): (keys: seq<string>)
    ensures |keys| == 1 && keys[0] == toValidName(a.key.name)
  {
    [toValidName(a.key.name)]
  }

  /** The values a job is indexed under: its activity name, or nothing while it has none. */
  function JobIndexKeys(j: Job): (keys: seq<string>)
    ensures |keys| <= 1
    ensures keys == [] <==> j.status.activityName == ""
    ensures forall k :: k in keys ==> k == j.status.activityName
  {
    if j.status.activityName == "" then [] else [j.status.activityName]
  }

  /** Whether a lookup of `key` in `namespace` returns activity `a`. */
  predicate ActivityListed(toValidName: string -> string, a: Activity, namespace: string, key: string) {
    a.key.namespace == namespace && key in ActivityIndexKeys(toValidName, a)
  }

  /** Whether a lookup of `key` in `namespace` returns job `j`. */
  predicate JobListed(j: Job, namespace: string, key: string) {
    j.key.namespace == namespace && key in JobIndexKeys(j)
  }

  /** The activities a lookup returns, in store order. */
  function MatchingActivities(toValidName: string -> string, activities: seq<Activity>, namespace: string, key: string): (r: seq<Activity>)
    ensures |r| <= |activities|
    ensures forall a :: a in r <==> a in activities && ActivityListed(toValidName, a, namespace, key)
  {
    if activities == [] then []
    else
      var rest := MatchingActivities(toValidName, activities[1..], namespace, key);
      if ActivityListed(toValidName, activities[0], namespace, key) then [activities[0]] + rest else rest
  }

  /**
   * A lookup keeps every matching activity as often as the store holds it
   * and drops every other one: the results are the store filtered, with
   * multiplicity.
   */
  lemma {:induction false} MatchingKeepsMultiplicity(toValidName: string -> string, activities: seq<Activity>,
                                                     namespace: string, key: string, a: Activity)
    ensures multiset(MatchingActivities(toValidName, activities, namespace, key))[a]
            == if ActivityListed(toValidName, a, namespace, key) then multiset(activities)[a] else 0
  {
    if activities != [] {
      MatchingKeepsMultiplicity(toValidName, activities[1..], namespace, key, a);
      assert activities == [activities[0]] + activities[1..];
      assert multiset(activities) == multiset([activities[0]]) + multiset(activities[1..]);
    }
  }

  /** No two stored activities share a namespace and name. */
  predicate DistinctActivities(activities: seq<Activity>) {
    forall i, j :: 0 <= i < j < |activities| ==> activities[i].key != activities[j].key
  }

  lemma {:induction false} DistinctActivitiesOccurOnce(activities: seq<Activity>, a: Activity)
    requires DistinctActivities(activities)
    ensures multiset(activities)[a] <= 1
  {
    if activities != [] {
      var rest := activities[1..];
      assert activities == [activities[0]] + rest;
      assert DistinctActivities(rest) by {
        forall i, j | 0 <= i < j < |rest| ensures rest[i].key != rest[j].key {
          assert rest[i] == activities[i + 1] && rest[j] == activities[j + 1];
        }
      }
      DistinctActivitiesOccurOnce(rest, a);
    }
  }

  /**
   * In a store without two activities of the same name, a lookup returns each
   * activity at most once: the number of results is the number of distinct
   * matching activities.
   */
  lemma MatchesAreDistinct(toValidName: string -> string, activities: seq<Activity>, namespace: string, key: string,
                           a: Activity)
    requires DistinctActivities(activities)
    ensures multiset(MatchingActivities(toValidName, activities, namespace, key))[a] <= 1
  {
    DistinctActivitiesOccurOnce(activities, a);
  }

  /** The keys of the stored jobs a lookup returns. */
  function MatchingJobs(jobs: map<ObjectKey, Job>, namespace: string, key: string): (r: set<ObjectKey>)
    ensures forall k :: k in r <==> k in jobs && JobListed(jobs[k], namespace, key)
  {
    set k | k in jobs && JobListed(jobs[k], namespace, key)
  }

  /**
   * For a job that has been assigned an activity, the two directions of the
   * index agree: looking the job's activity name up among activities finds
   * `a` exactly when looking `a`'s normalised name up among jobs finds the job.
   */
  lemma CorrelationIsSymmetric(toValidName: string -> string, j: Job, a: Activity)
    requires j.status.activityName != ""
    requires j.key.namespace == a.key.namespace
    ensures ActivityListed(toValidName, a, j.key.namespace, j.status.activityName)
        <==> JobListed(j, a.key.namespace, toValidName(a.key.name))
  {
  }

  /** A job with no activity name is never found from the activity side. */
  lemma UnassignedJobIsNotIndexed(j: Job, namespace: string, key: string)
    requires j.status.activityName == ""
    ensures !JobListed(j, namespace, key)
  {
  }
}
