/**
 * The source matcher: among the host's candidate sources, the first whose metadata contains
 * every key/value pair of the configured fragment.
 */
module SourceMatch {
  import opened Wrappers
  import opened Sources

  /**
   * lodash `isMatch(obj, fragment)` on flat objects of primitives: every key of the fragment is
   * present in `obj` with an equal value. Equivalently, the fragment's key/value pairs are a
   * subset of the object's.
   */
  predicate IsMatch(obj: Object, fragment: Object): (m: bool)
    ensures m <==> fragment.Items <= obj.Items
  {
    PairsContained(obj, fragment);
    forall k :: k in fragment ==> k in obj && obj[k] == fragment[k]
  }

  /** Key-wise containment of a fragment in an object is containment of their key/value pairs. */
  lemma PairsContained(obj: Object, fragment: Object)
    ensures (forall k :: k in fragment ==> k in obj && obj[k] == fragment[k]) <==> fragment.Items <= obj.Items
  {
    if forall k :: k in fragment ==> k in obj && obj[k] == fragment[k] {
      forall kv | kv in fragment.Items
        ensures kv in obj.Items
      {
        assert kv.0 in fragment && fragment[kv.0] == kv.1;
        assert (kv.0, obj[kv.0]) in obj.Items;
      }
    }
    if fragment.Items <= obj.Items {
      forall k | k in fragment
        ensures k in obj && obj[k] == fragment[k]
      {
        assert (k, fragment[k]) in fragment.Items;
      }
    }
  }

  /** The candidate at index `k` is the first one, counting from 0, that matches the fragment. */
  ghost predicate IsFirstMatch(sources: seq<Source>, fragment: Object, k: int) {
    && 0 <= k < |sources|
    && IsMatch(sources[k].props, fragment)
    && forall j :: 0 <= j < k ==> !IsMatch(sources[j].props, fragment)
  }

  /** The index of the first candidate at or after `from` that matches, scanning in list order. */
  function FindFrom(sources: seq<Source>, fragment: Object, from: nat): (r: Option<nat>)
    requires from <= |sources|
    ensures r.Some? ==> from <= r.value < |sources| && IsMatch(sources[r.value].props, fragment)
    ensures forall j :: from <= j < (if r.Some? then r.value else |sources|) ==> !IsMatch(sources[j].props, fragment)
    decreases |sources| - from
  {
    if from == |sources| then None
    else if IsMatch(sources[from].props, fragment) then Some(from)
    else FindFrom(sources, fragment, from + 1)
  }

  /** `useSource`: `sources.find(x => isMatch(x.props, fragment))`; the list itself is a value and is left as it was. */
  function UseSource(sources: seq<Source>, fragment: Object): (r: Option<Source>)
    ensures r.None? <==> forall j :: 0 <= j < |sources| ==> !IsMatch(sources[j].props, fragment)
    ensures r.Some? ==> r.value in sources && IsMatch(r.value.props, fragment)
  {
    match FindFrom(sources, fragment, 0)
    case Some(k) => Some(sources[k])
    case None => None
  }

  /** `useSource` returns exactly the lowest-index matching candidate. */
  lemma UseSourceIsFirst(sources: seq<Source>, fragment: Object, k: int)
    requires IsFirstMatch(sources, fragment, k)
    ensures UseSource(sources, fragment) == Some(sources[k])
  {
  }

  /** Conversely, a found source sits at the index of the first match. */
  lemma UseSourceFound(sources: seq<Source>, fragment: Object)
    requires UseSource(sources, fragment).Some?
    ensures exists k :: IsFirstMatch(sources, fragment, k) && sources[k] == UseSource(sources, fragment).value
  {
    var k := FindFrom(sources, fragment, 0).value;
    assert IsFirstMatch(sources, fragment, k);
  }

  /** Candidates appended after a match never change the result; without a match only the appended ones are searched. */
  lemma UseSourceAppend(front: seq<Source>, back: seq<Source>, fragment: Object)
    ensures UseSource(front + back, fragment) ==
      if UseSource(front, fragment).Some? then UseSource(front, fragment) else UseSource(back, fragment)
  {
    var all := front + back;
    if UseSource(front, fragment).Some? {
      var k := FindFrom(front, fragment, 0).value;
      assert IsFirstMatch(front, fragment, k);
      forall j | 0 <= j < k ensures !IsMatch(all[j].props, fragment) {
        assert all[j] == front[j];
      }
      assert all[k] == front[k];
      UseSourceIsFirst(all, fragment, k);
    } else if UseSource(back, fragment).Some? {
      var k := FindFrom(back, fragment, 0).value;
      assert IsFirstMatch(back, fragment, k);
      forall j | 0 <= j < |front| + k ensures !IsMatch(all[j].props, fragment) {
        if j < |front| {
          assert all[j] == front[j];
        } else {
          assert all[j] == back[j - |front|];
        }
      }
      assert all[|front| + k] == back[k];
      UseSourceIsFirst(all, fragment, |front| + k);
    } else {
      forall j | 0 <= j < |all| ensures !IsMatch(all[j].props, fragment) {
        if j < |front| {
          assert all[j] == front[j];
        } else {
          assert all[j] == back[j - |front|];
        }
      }
    }
  }

  /** An empty fragment matches every object, so `useSource` then picks the first candidate. */
  lemma EmptyFragmentPicksFirst(sources: seq<Source>)
    requires |sources| > 0
    ensures UseSource(sources, map[]) == Some(sources[0])
  {
    UseSourceIsFirst(sources, map[], 0);
  }

  /**
   * Matching does not look at liveness: a matching candidate earlier in the list wins over a later
   * one, whatever either's stream is.
   */
  lemma EarlierCandidateWins(stale: Source, live: Source, fragment: Object)
    requires IsMatch(stale.props, fragment)
    ensures UseSource([stale, live], fragment) == Some(stale)
  {
    UseSourceIsFirst([stale, live], fragment, 0);
  }

  /** A candidate matches a fragment made of its own metadata. */
  lemma IsMatchReflexive(obj: Object)
    ensures IsMatch(obj, obj)
  {
  }

  /** Dropping keys from a fragment keeps a match; adding keys to the object keeps it too. */
  lemma IsMatchMonotone(obj: Object, bigger: Object, fragment: Object, smaller: Object)
    requires IsMatch(obj, fragment)
    requires forall k :: k in obj ==> k in bigger && bigger[k] == obj[k]
    requires forall k :: k in smaller ==> k in fragment && fragment[k] == smaller[k]
    ensures IsMatch(bigger, smaller)
  {
  }
}
