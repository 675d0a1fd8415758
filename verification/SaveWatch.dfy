/**
 Did the rig save an episode during this attempt? (apps/web/src/market/sampler.ts)

 The recorder's counter is per session and restarts at zero, so the sampler compares each
 reading with a baseline that it lowers whenever the counter drops.
 */
module SaveWatch {
  import opened Prelude

  datatype Watch = Watch(savedAtOpen: Option<int>, episodeSaved: Option<bool>)

  /** One sample; `None` means that the rig reported no record status. */
  function Observe(w: Watch, saved: Option<int>): (r: Watch) {
    match saved
    case None => w
    case Some(n) =>
      var base := if w.savedAtOpen.None? || n < w.savedAtOpen.value then n else w.savedAtOpen.value;
      Watch(Some(base),
            if n > base then Some(true)
            else if w.episodeSaved != Some(true) then Some(false)
            else w.episodeSaved)
  }

  /** The watch after the snapshot taken at open and a sequence of samples. */
  function Watched(open: Option<int>, samples: seq<Option<int>>): (w: Watch) {
    if samples == [] then Watch(open, None)
    else Observe(Watched(open, samples[..|samples| - 1]), samples[|samples| - 1])
  }

  class Sampler {
    var savedAtOpen: Option<int>
    var episodeSaved: Option<bool>

    function View(): Watch
      reads this
    {
      Watch(savedAtOpen, episodeSaved)
    }

    constructor (open: Option<int>)
      ensures View() == Watched(open, [])
    {
      savedAtOpen, episodeSaved := open, None;
    }

    method Sample(saved: Option<int>)
      modifies this
      ensures View() == Observe(old(View()), saved)
    {
      if saved.Some? {
        if savedAtOpen.None? || saved.value < savedAtOpen.value {
          savedAtOpen := saved;
        }
        if saved.value > savedAtOpen.value {
          episodeSaved := Some(true);
        } else if episodeSaved != Some(true) {
          episodeSaved := Some(false);
        }
      }
    }
  }

  /** Every count seen, the snapshot first. */
  function Counts(open: Option<int>, samples: seq<Option<int>>): (cs: seq<int>) {
    if samples == [] then (if open.Some? then [open.value] else [])
    else
      var front := Counts(open, samples[..|samples| - 1]);
      var last := samples[|samples| - 1];
      if last.Some? then front + [last.value] else front
  }

  ghost predicate Rises(cs: seq<int>) {
    exists i: nat, j: nat :: i < j < |cs| && cs[i] < cs[j]
  }

  ghost predicate IsLeast(cs: seq<int>, m: int) {
    m in cs && forall c :: c in cs ==> m <= c
  }

  lemma {:induction false} BaselineIsLeast(open: Option<int>, samples: seq<Option<int>>)
    ensures var cs := Counts(open, samples); var w := Watched(open, samples);
            if cs == [] then w.savedAtOpen == None
            else w.savedAtOpen.Some? && IsLeast(cs, w.savedAtOpen.value)
  {
    if samples != [] {
      BaselineIsLeast(open, samples[..|samples| - 1]);
      assert Counts(open, samples) != [] && Counts(open, samples[..|samples| - 1]) == []
             ==> |Counts(open, samples)| == 1;
    }
  }

  lemma RisesStep(cs: seq<int>, n: int)
    ensures Rises(cs + [n]) <==> Rises(cs) || exists c :: c in cs && c < n
  {
    var all := cs + [n];
    if Rises(cs) {
      var i: nat, j: nat :| i < j < |cs| && cs[i] < cs[j];
      assert all[i] < all[j];
    }
    if c :| c in cs && c < n {
      var i: nat :| i < |cs| && cs[i] == c;
      assert all[i] < all[|cs|];
    }
    if Rises(all) {
      var i: nat, j: nat :| i < j < |all| && all[i] < all[j];
      assert cs[i] in cs;
    }
  }

  /** The verdict is exactly "some later count exceeds an earlier one", through any session
      resets; without a single reading there is no verdict. */
  lemma {:induction false} SavedExactlyWhenCountRises(open: Option<int>, samples: seq<Option<int>>)
    ensures var w := Watched(open, samples);
            && (w.episodeSaved == Some(true) <==> Rises(Counts(open, samples)))
            && (w.episodeSaved == None <==> forall s :: s in samples ==> s == None)
  {
    if samples != [] {
      var front, last := samples[..|samples| - 1], samples[|samples| - 1];
      assert samples == front + [last];
      assert forall s :: s in samples <==> s in front || s == last;
      SavedExactlyWhenCountRises(open, front);
      BaselineIsLeast(open, front);
      if last.Some? {
        RisesStep(Counts(open, front), last.value);
        assert last in samples;
      }
    }
  }

  /** Once true the verdict never reverts. */
  lemma {:induction false} SavedIsFinal(open: Option<int>, samples: seq<Option<int>>, k: nat)
    requires k <= |samples| && Watched(open, samples[..k]).episodeSaved == Some(true)
    ensures Watched(open, samples).episodeSaved == Some(true)
    decreases |samples|
  {
    if k == |samples| {
      assert samples[..k] == samples;
    } else {
      var front := samples[..|samples| - 1];
      assert front[..k] == samples[..k];
      SavedIsFinal(open, front, k);
    }
  }
}
